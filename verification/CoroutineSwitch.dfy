/**
 * Switching one set of executor and output globals between coroutines
 * (ext-src/swoole_coroutine.cc on top of src/coroutine/base.cc).
 *
 * `Scheduler` holds the one real set of globals and the per-coroutine save areas, and
 * its methods perform the saves and restores of the source in the source's order.
 * `World` is what that machinery is for: every coroutine owns private globals, and a
 * switch only moves the top of a stack.  Each method is proved to act on the
 * abstraction of the scheduler as the private-globals machine does.
 */
module CoroutineSwitch {
  import opened Prelude

  type Ptr = int
  type Cid = int

  /** The thread's main context: the source's null `Coroutine *` and cid -1. */
  const MAIN: Cid := -1

  /** The executor globals; `rest` stands for everything a switch does not touch. */
  datatype ExecutorGlobals = ExecutorGlobals(
    bailout: Ptr, vmStackTop: Ptr, vmStackEnd: Ptr, vmStack: Ptr, vmStackPageSize: int,
    currentExecuteData: Ptr, jitTraceNum: int, errorReporting: int, currentFiberContext: Ptr,
    activeFiber: Ptr, errorHandling: int, exceptionClass: Ptr, exception: Ptr,
    stackBase: Ptr, stackLimit: Ptr, rest: int)

  /** The output globals: the stack of output handlers and all the other fields. */
  datatype OutputGlobals = OutputGlobals(handlers: seq<Ptr>, misc: int)

  /** The state `php_output_activate` leaves: no handler, only the activated flag. */
  const ACTIVATED: OutputGlobals := OutputGlobals([], 0x100000)

  datatype FiberStatus = Init | Running | Suspended | Dead

  /** The save area of one coroutine. */
  datatype PHPContext = PHPContext(
    bailout: Ptr, vmStackTop: Ptr, vmStackEnd: Ptr, vmStack: Ptr, vmStackPageSize: int,
    executeData: Ptr, jitTraceNum: int, errorReporting: int, currentFiberContext: Ptr,
    activeFiber: Ptr, errorHandling: int, exceptionClass: Ptr, exception: Ptr,
    stackBase: Ptr, stackLimit: Ptr,
    outputPtr: Option<OutputGlobals>, fiber: Option<FiberStatus>)

  datatype State = Active | Waiting

  /** The kernel's part of a coroutine; `origin` is who resumed it last. */
  datatype Coroutine = Coroutine(origin: Cid, state: State, closing: bool)

  /** One `zend_observer_fiber_switch_notify`, with the source fiber's status at that moment. */
  datatype FiberSwitch = FiberSwitch(from: Cid, to: Cid, fromStatus: FiberStatus)

  /** What a new coroutine allocates: its VM stack page, its C stack and its mocked fiber. */
  datatype Page = Page(stack: Ptr, top: Ptr, end: Ptr, base: Ptr, limit: Ptr, fiberContext: Ptr)

  const SW_DEFAULT_PHP_STACK_PAGE_SIZE := 8192
  const ZEND_CALL_FRAME_SLOT := 5

  // ---------------------------------------------------------------- private-globals machine

  /** The globals a switch must preserve. */
  datatype Vm = Vm(
    bailout: Ptr, vmStackTop: Ptr, vmStackEnd: Ptr, vmStack: Ptr, vmStackPageSize: int,
    executeData: Ptr, jitTraceNum: int, errorReporting: int, currentFiberContext: Ptr,
    activeFiber: Ptr, errorHandling: int, exceptionClass: Ptr, exception: Ptr,
    stackBase: Ptr, stackLimit: Ptr)

  /** Output buffering as a coroutine sees it: none, or the complete output globals. */
  datatype Buffering = NoBuffering | Buffering(og: OutputGlobals)

  datatype View = View(vm: Vm, output: Buffering)

  /** Private globals for every coroutine; `stack[0]` runs, the others are inside a resume. */
  datatype World = World(stack: seq<Cid>, views: map<Cid, View>, closing: set<Cid>, lastCid: int, maxNum: nat) {
    ghost predicate WellFormed() {
      && stack != []
      && (forall i :: 0 <= i < |stack| ==> stack[i] in views)
      && (forall i, j :: 0 <= i < j < |stack| ==> stack[i] != stack[j])
      && (forall c :: c in views ==> c <= lastCid)
    }
  }

  datatype Op =
    | Create(page: Page)
    | Yield
    | Resume(target: Cid)
    | UserCode(eg: ExecutorGlobals, og: OutputGlobals)
    | BeginClose
    | FinishClose

  function GlobalsVm(eg: ExecutorGlobals): Vm {
    Vm(eg.bailout, eg.vmStackTop, eg.vmStackEnd, eg.vmStack, eg.vmStackPageSize, eg.currentExecuteData,
       eg.jitTraceNum, eg.errorReporting, eg.currentFiberContext, eg.activeFiber, eg.errorHandling,
       eg.exceptionClass, eg.exception, eg.stackBase, eg.stackLimit)
  }

  function SavedVm(ctx: PHPContext): Vm {
    Vm(ctx.bailout, ctx.vmStackTop, ctx.vmStackEnd, ctx.vmStack, ctx.vmStackPageSize, ctx.executeData,
       ctx.jitTraceNum, ctx.errorReporting, ctx.currentFiberContext, ctx.activeFiber, ctx.errorHandling,
       ctx.exceptionClass, ctx.exception, ctx.stackBase, ctx.stackLimit)
  }

  function Visible(og: OutputGlobals): Buffering {
    if og.handlers == [] then NoBuffering else Buffering(og)
  }

  function SavedBuffering(p: Option<OutputGlobals>): Buffering {
    match p
    case None => NoBuffering
    case Some(og) => Buffering(og)
  }

  /** A new coroutine gets its own VM stack and clean error state and inherits the rest. */
  function FreshVm(creator: Vm, page: Page): Vm {
    creator.(vmStack := page.stack,
             vmStackTop := page.top + ZEND_CALL_FRAME_SLOT + ZEND_CALL_FRAME_SLOT,
             vmStackEnd := page.end,
             vmStackPageSize := SW_DEFAULT_PHP_STACK_PAGE_SIZE,
             executeData := page.top + ZEND_CALL_FRAME_SLOT,
             errorHandling := 0, exceptionClass := 0, exception := 0, jitTraceNum := 0,
             stackBase := page.base, stackLimit := page.limit)
  }

  /** What the origin sees after the coroutine above it closed while seeing `dying`. */
  function Inherited(dying: View, origin: View): View {
    if origin.output.NoBuffering? then origin.(output := dying.output) else origin
  }

  ghost predicate Enabled(w: World, op: Op) {
    && w.stack != [] && w.stack[0] in w.views
    && match op
       case Create(_) => |w.views| - 1 < w.maxNum
       case Yield => w.stack[0] != MAIN && |w.stack| > 1
       case Resume(c) => c in w.views && c !in w.stack
       case UserCode(_, _) => true
       case BeginClose => w.stack[0] != MAIN && w.stack[0] !in w.closing
       case FinishClose => w.stack[0] in w.closing && |w.stack| > 1 && w.stack[1] in w.views
  }

  /** One step of the machine in which every coroutine has its own globals. */
  ghost function Step(w: World, op: Op): World
    requires Enabled(w, op)
  {
    var top := w.stack[0];
    match op
    case Create(page) =>
      var cid := w.lastCid + 1;
      World([cid] + w.stack, w.views[cid := View(FreshVm(w.views[top].vm, page), NoBuffering)],
            w.closing, cid, w.maxNum)
    case Yield => w.(stack := w.stack[1..])
    case Resume(c) => w.(stack := [c] + w.stack)
    case UserCode(eg, og) => w.(views := w.views[top := View(GlobalsVm(eg), Visible(og))])
    case BeginClose =>
      w.(views := w.views[top := w.views[top].(output := NoBuffering)], closing := w.closing + {top})
    case FinishClose =>
      var origin := w.stack[1];
      World(w.stack[1..],
            (w.views - {top})[origin := Inherited(w.views[top], w.views[origin])],
            w.closing - {top}, w.lastCid, w.maxNum)
  }

  /** A step that is not enabled where it stands is skipped. */
  ghost function Take(w: World, op: Op): World {
    if Enabled(w, op) then Step(w, op) else w
  }

  /**
   * What a new coroutine starts with: a VM stack page of its own, on which its first frame lies, no
   * pending exception or error handling whatever its creator had, and the rest inherited.
   */
  ghost predicate StartsFresh(vm: Vm, creator: Vm, page: Page) {
    && vm.vmStack == page.stack && vm.vmStackEnd == page.end && vm.vmStackPageSize == SW_DEFAULT_PHP_STACK_PAGE_SIZE
    && page.top < vm.executeData && vm.vmStackTop == vm.executeData + ZEND_CALL_FRAME_SLOT
    && (page.top + 2 * ZEND_CALL_FRAME_SLOT <= page.end ==> vm.vmStackTop <= page.end)
    && vm.errorHandling == 0 && vm.exceptionClass == 0 && vm.exception == 0 && vm.jitTraceNum == 0
    && vm.stackBase == page.base && vm.stackLimit == page.limit
    && vm.bailout == creator.bailout && vm.errorReporting == creator.errorReporting
    && vm.currentFiberContext == creator.currentFiberContext && vm.activeFiber == creator.activeFiber
  }

  /** Whoever is there before and after, but for `c`, sees what it saw. */
  ghost predicate OthersKept(w: World, next: World, c: Cid) {
    forall d :: d in w.views && d in next.views && d != c ==> next.views[d] == w.views[d]
  }

  /** A creation: the new coroutine starts fresh on top, and nobody else notices. */
  ghost predicate CreateLaw(w: World, next: World, creator: Cid, cid: Cid, page: Page) {
    && creator in w.views && cid !in w.views && next.views.Keys == w.views.Keys + {cid}
    && next.stack == [cid] + w.stack && OthersKept(w, next, cid)
    && StartsFresh(next.views[cid].vm, w.views[creator].vm, page) && next.views[cid].output.NoBuffering?
  }

  lemma CreateIs(w: World, page: Page)
    requires w.WellFormed() && Enabled(w, Create(page))
    ensures CreateLaw(w, Take(w, Create(page)), w.stack[0], w.lastCid + 1, page)
  {
  }

  /** A close: its view is gone, and its origin goes on with its own VM state and its own handlers, or those left. */
  ghost predicate CloseLaw(w: World, next: World, dying: Cid, origin: Cid) {
    && dying in w.views && origin in w.views && dying != origin && next.views.Keys == w.views.Keys - {dying}
    && w.stack == [dying] + next.stack && OthersKept(w, next, origin)
    && next.views[origin].vm == w.views[origin].vm
    && next.views[origin].output == (if w.views[origin].output.Buffering? then w.views[origin].output
                                     else w.views[dying].output)
  }

  /** A switch changes nobody's view. */
  lemma SwitchIs(w: World, op: Op)
    requires op.Yield? || op.Resume?
    ensures Take(w, op).views == w.views
  {
  }

  lemma CloseBegins(w: World)
    requires Enabled(w, BeginClose)
    ensures var next := Take(w, BeginClose);
            next.closing == w.closing + {w.stack[0]} && OthersKept(w, next, w.stack[0])
  {
  }

  lemma CloseIs(w: World)
    requires w.WellFormed() && Enabled(w, FinishClose)
    ensures CloseLaw(w, Take(w, FinishClose), w.stack[0], w.stack[1])
  {
    assert w.stack[0] != w.stack[1];
  }

  /** No two live coroutines have the same VM stack. */
  ghost predicate Exclusive(w: World) {
    forall c, d :: c in w.views && d in w.views && c != d ==> w.views[c].vm.vmStack != w.views[d].vm.vmStack
  }

  /** The step brings no VM stack that another live coroutine uses: a page is new, and user code keeps to its own. */
  ghost predicate OwnStack(w: World, op: Op) {
    Enabled(w, op) ==>
      match op
      case Create(page) => forall c :: c in w.views ==> w.views[c].vm.vmStack != page.stack
      case UserCode(eg, _) => forall c :: c in w.views && c != w.stack[0] ==> w.views[c].vm.vmStack != eg.vmStack
      case _ => true
  }

  ghost predicate OwnStacks(w: World, ops: seq<Op>)
    decreases |ops|
  {
    ops != [] ==> OwnStack(w, ops[0]) && OwnStacks(Take(w, ops[0]), ops[1..])
  }

  lemma TakeKeepsExclusive(w: World, op: Op)
    requires w.WellFormed() && Exclusive(w) && OwnStack(w, op)
    ensures Exclusive(Take(w, op))
  {
    if Enabled(w, op) {
      var next := Step(w, op);
      forall c, d | c in next.views && d in next.views && c != d
        ensures next.views[c].vm.vmStack != next.views[d].vm.vmStack {
        assert c in w.views && d in w.views ==> w.views[c].vm.vmStack != w.views[d].vm.vmStack;
      }
    }
  }

  /** Over every such run each live coroutine has a VM stack of its own. */
  lemma {:induction false} ExecKeepsExclusive(w: World, ops: seq<Op>)
    requires w.WellFormed() && Exclusive(w) && OwnStacks(w, ops)
    ensures Exclusive(Exec(w, ops))
    decreases |ops|
  {
    if ops != [] {
      TakeKeepsWellFormed(w, ops[0]);
      TakeKeepsExclusive(w, ops[0]);
      ExecKeepsExclusive(Take(w, ops[0]), ops[1..]);
    }
  }

  /** A whole run. */
  ghost function Exec(w: World, ops: seq<Op>): World
    decreases |ops|
  {
    if ops == [] then w else Exec(Take(w, ops[0]), ops[1..])
  }

  lemma TakeKeepsWellFormed(w: World, op: Op)
    requires w.WellFormed()
    ensures Take(w, op).WellFormed()
  {
  }

  /** `c` stays off the top of the stack through the whole of `ops`. */
  ghost predicate OffTop(w: World, ops: seq<Op>, c: Cid)
    decreases |ops|
  {
    ops != [] ==>
      && w.stack != [] && w.stack[0] != c
      && OffTop(Take(w, ops[0]), ops[1..], c)
  }

  /** A coroutine closes onto `c` and leaves handlers behind that `c`, without any, gets. */
  ghost predicate LeaksTo(w: World, op: Op, c: Cid) {
    && op.FinishClose? && Enabled(w, op) && w.stack[1] == c
    && w.views[w.stack[0]].output.Buffering? && w.views[c].output.NoBuffering?
  }

  /**
   * Isolation of the VM state: between being switched out and running again, whatever
   * the other coroutines do, a coroutine's VM globals do not change.
   */
  lemma {:induction false} VmIsolation(w: World, ops: seq<Op>, c: Cid)
    requires w.WellFormed() && c in w.views && OffTop(w, ops, c)
    ensures c in Exec(w, ops).views
    ensures Exec(w, ops).views[c].vm == w.views[c].vm
    decreases |ops|
  {
    if ops != [] {
      TakeKeepsWellFormed(w, ops[0]);
      VmIsolation(Take(w, ops[0]), ops[1..], c);
    }
  }

  /**
   * Isolation of the whole view, output handlers included: it changes while others run exactly
   * when the last thing that happens is such a close.
   */
  lemma {:induction false} ViewIsolationIff(w: World, ops: seq<Op>, c: Cid)
    requires w.WellFormed() && c in w.views && OffTop(w, ops, c) && ops != []
    ensures c in Exec(w, ops).views
    ensures Exec(w, ops).views[c] == w.views[c] <==>
              !LeaksTo(Exec(w, ops[..|ops| - 1]), ops[|ops| - 1], c)
    decreases |ops|
  {
    var next, last := Take(w, ops[0]), |ops| - 1;
    TakeKeepsWellFormed(w, ops[0]);
    TakeFrameIff(w, ops[0], c);
    if last == 0 {
      assert Exec(w, ops) == Exec(next, []) && ops[..last] == [];
    } else {
      assert ops[..last][1..] == ops[1..][..last - 1];
      assert next.stack[0] != c;
      ViewIsolationIff(next, ops[1..], c);
    }
  }

  /** What one step does to a coroutine that does not run; such a close hands it the handlers and the processor. */
  lemma TakeFrameIff(w: World, op: Op, c: Cid)
    requires w.WellFormed() && c in w.views && c != w.stack[0]
    ensures c in Take(w, op).views
    ensures Take(w, op).views[c] == w.views[c] <==> !LeaksTo(w, op, c)
    ensures LeaksTo(w, op, c) ==> Take(w, op).stack[0] == c
  {
    if LeaksTo(w, op, c) {
      assert Take(w, op).views[c].output == w.views[w.stack[0]].output;
    }
  }

  /**
   * The failing case is reachable: a destructor that starts output buffering while its
   * coroutine closes installs its handlers in the main context.
   */
  lemma DestructorOutputLeaks(w: World, page: Page, eg: ExecutorGlobals, og: OutputGlobals)
    requires w.stack == [MAIN] && w.views.Keys == {MAIN} && w.closing == {} && w.lastCid == 0 && w.maxNum > 0
    requires w.views[MAIN].output.NoBuffering? && og.handlers != []
    ensures var last := Exec(w, [Create(page), BeginClose, UserCode(eg, og), FinishClose]);
            last.stack == [MAIN] && last.views == w.views[MAIN := w.views[MAIN].(output := Buffering(og))]
  {
    var a := Take(w, Create(page));
    var b := Take(a, BeginClose);
    var c := Take(b, UserCode(eg, og));
    var d := Take(c, FinishClose);
    assert |w.views.Keys| == 1;
    assert d.views == w.views[MAIN := w.views[MAIN].(output := Buffering(og))];
    var ops := [Create(page), BeginClose, UserCode(eg, og), FinishClose];
    assert ops[1..] == [BeginClose, UserCode(eg, og), FinishClose];
    assert ops[1..][1..] == [UserCode(eg, og), FinishClose];
    assert ops[1..][1..][1..] == [FinishClose];
    assert Exec(c, [FinishClose]) == d;
    assert Exec(b, [UserCode(eg, og), FinishClose]) == d;
  }

  // ---------------------------------------------------------------- the real scheduler

  function SaveVmStack(ctx: PHPContext, eg: ExecutorGlobals): (r: PHPContext)
    ensures SavedVm(r) == GlobalsVm(eg)
    ensures r.outputPtr == ctx.outputPtr && r.fiber == ctx.fiber
  {
    ctx.(bailout := eg.bailout,
         vmStackTop := eg.vmStackTop,
         vmStackEnd := eg.vmStackEnd,
         vmStack := eg.vmStack,
         vmStackPageSize := eg.vmStackPageSize,
         executeData := eg.currentExecuteData,
         jitTraceNum := eg.jitTraceNum,
         errorReporting := eg.errorReporting,
         currentFiberContext := eg.currentFiberContext,
         activeFiber := eg.activeFiber,
         errorHandling := eg.errorHandling,
         exceptionClass := eg.exceptionClass,
         exception := eg.exception,
         stackBase := eg.stackBase,
         stackLimit := eg.stackLimit)
  }

  function RestoreVmStack(ctx: PHPContext, eg: ExecutorGlobals): (r: ExecutorGlobals)
    ensures GlobalsVm(r) == SavedVm(ctx)
    ensures r.rest == eg.rest
  {
    eg.(bailout := ctx.bailout,
        vmStackTop := ctx.vmStackTop,
        vmStackEnd := ctx.vmStackEnd,
        vmStack := ctx.vmStack,
        vmStackPageSize := ctx.vmStackPageSize,
        currentExecuteData := ctx.executeData,
        jitTraceNum := ctx.jitTraceNum,
        errorReporting := ctx.errorReporting,
        currentFiberContext := ctx.currentFiberContext,
        activeFiber := ctx.activeFiber,
        errorHandling := ctx.errorHandling,
        exceptionClass := ctx.exceptionClass,
        exception := ctx.exception,
        stackBase := ctx.stackBase,
        stackLimit := ctx.stackLimit)
  }

  function ClosingSet(coroutines: map<Cid, Coroutine>): set<Cid> {
    set c | c in coroutines && coroutines[c].closing
  }

  /** The complete state of the scheduler. */
  datatype Machine = Machine(
    mock: bool,                             // SWOOLE_G(enable_fiber_mock), fixed for the run
    maxNum: nat,                            // config.max_num
    eg: ExecutorGlobals,
    og: OutputGlobals,
    current: Cid,                           // MAIN stands for the null pointer
    coroutines: map<Cid, Coroutine>,
    contexts: map<Cid, PHPContext>,         // main_context included
    lastCid: nat,
    switches: seq<FiberSwitch>,             // what the fiber observers were told
    destroyed: set<Cid>,
    stack: seq<Cid>)                        // the C stack, innermost first
  {
    ghost function ViewOf(c: Cid): View
      requires c in contexts
    {
      if c == current then View(GlobalsVm(eg), Visible(og))
      else View(SavedVm(contexts[c]), SavedBuffering(contexts[c].outputPtr))
    }

    ghost function Views(): map<Cid, View> {
      map c | c in contexts :: ViewOf(c)
    }

    /** The private-globals machine this scheduler stands for. */
    ghost function Abs(): World {
      World(stack, Views(), ClosingSet(coroutines), lastCid, maxNum)
    }

    ghost predicate Valid() {
      Kernel() && SaveAreas() && FiberMirror()
    }

    /** The C stack: who runs, and into whose resume each one returns. */
    ghost predicate Kernel() {
      && stack != [] && current == stack[0] && stack[|stack| - 1] == MAIN
      && NoRepeats(stack)
      && contexts.Keys == coroutines.Keys + {MAIN}
      && (forall c :: c in coroutines ==> CoroutineOk(c))
      && (forall i :: 0 <= i < |stack| - 1 ==> LinkOk(i))
    }

    ghost predicate CoroutineOk(c: Cid)
      requires c in coroutines
    {
      && 0 < c <= lastCid && coroutines[c].origin in contexts && coroutines[c].origin != c
      && (coroutines[c].state.Waiting? <==> c !in stack)
    }

    /** An entry of the stack was resumed by the next. */
    ghost predicate LinkOk(i: nat)
      requires i < |stack| - 1
    {
      stack[i] in coroutines && coroutines[stack[i]].origin == stack[i + 1]
    }

    /** Saved output globals are there exactly when there is something to save. */
    ghost predicate SaveAreas() {
      && current in contexts
      && (forall c :: c in contexts && contexts[c].outputPtr.Some? ==> contexts[c].outputPtr.value.handlers != [])
    }

    /**
     * The mocked fibers: the current one runs, every other live one is suspended, the
     * destroyed ones are the closed coroutines, and an observer that follows the switch
     * notifications always stands at the current coroutine.
     */
    ghost predicate FiberMirror() {
      if mock then
        && (forall c :: c in contexts ==> contexts[c].fiber == Some(if c == current then Running else Suspended))
        && destroyed == (set c | 0 < c <= lastCid && c !in contexts)
        && SwitchTrail(switches) && Standing(switches) == current
        && (forall i :: 0 <= i < |switches| && switches[i].fromStatus != Running ==>
              switches[i].fromStatus == Dead && switches[i].from in destroyed)
      else
        && (forall c :: c in contexts && c != MAIN ==> contexts[c].fiber.None?)
        && switches == [] && destroyed == {}
    }
  }

  ghost predicate NoRepeats(s: seq<Cid>) {
    forall i, j :: 0 <= i < j < |s| ==> s[i] != s[j]
  }

  lemma TailMembers(s: seq<Cid>)
    requires NoRepeats(s) && s != []
    ensures NoRepeats(s[1..]) && forall c :: c in s[1..] <==> c in s && c != s[0]
  {
    forall c ensures c in s[1..] <==> c in s && c != s[0] {
      if c in s && c != s[0] {
        var i :| 0 <= i < |s| && s[i] == c;
        assert s[1..][i - 1] == c;
      }
    }
  }

  lemma ConsMembers(s: seq<Cid>, c: Cid)
    requires NoRepeats(s) && c !in s
    ensures NoRepeats([c] + s) && forall d :: d in [c] + s <==> d == c || d in s
  {
  }

  /** Where an observer stands that followed the notifications. */
  ghost function Standing(switches: seq<FiberSwitch>): Cid {
    if switches == [] then MAIN else switches[|switches| - 1].to
  }

  /** Every notification leaves from where the previous one arrived. */
  ghost predicate SwitchTrail(switches: seq<FiberSwitch>) {
    switches != [] ==>
      var earlier := switches[..|switches| - 1];
      switches[|switches| - 1].from == Standing(earlier) && SwitchTrail(earlier)
  }

  /** The fiber statuses and the notification log after `SwitchTryNotify(from, to)`. */
  ghost predicate Notified(before: Machine, after: Machine, from: Cid, to: Cid)
    requires from in before.contexts && to in before.contexts
    requires from in after.contexts && to in after.contexts
  {
    var f, t := before.contexts[from].fiber, before.contexts[to].fiber;
    if f.Some? && t.Some? then
      && after.switches == before.switches + [FiberSwitch(from, to, f.value)]
      && after.contexts[from].fiber == Some(if f.value == Running then Suspended else f.value)
      && after.contexts[to].fiber == Some(Running)
    else
      && after.switches == before.switches
      && after.contexts[from].fiber == f && after.contexts[to].fiber == t
  }

  /** `c`'s save area holds the globals as they were, and no handler is left installed. */
  ghost predicate SavedInto(before: Machine, after: Machine, c: Cid)
    requires c in after.contexts
  {
    && SavedVm(after.contexts[c]) == GlobalsVm(before.eg)
    && SavedBuffering(after.contexts[c].outputPtr) == Visible(before.og)
    && (after.contexts[c].outputPtr.Some? ==> after.contexts[c].outputPtr.value.handlers != [])
    && after.og.handlers == []
  }

  /** The globals are what `c`'s save area held; its saved output has been consumed. */
  ghost predicate RestoredFrom(before: Machine, after: Machine, c: Cid)
    requires c in before.contexts && c in after.contexts
  {
    && GlobalsVm(after.eg) == SavedVm(before.contexts[c]) && after.eg.rest == before.eg.rest
    && after.og == (match before.contexts[c].outputPtr case Some(o) => o case None => before.og)
    && after.contexts[c].outputPtr.None?
    && SavedVm(after.contexts[c]) == SavedVm(before.contexts[c])
  }

  ghost predicate SameOthers(before: Machine, after: Machine, cs: set<Cid>) {
    && before.contexts.Keys == after.contexts.Keys
    && (forall c :: c in before.contexts && c !in cs ==> after.contexts[c] == before.contexts[c])
  }

  class Scheduler {
    const mock: bool
    const maxNum: nat
    var eg: ExecutorGlobals
    var og: OutputGlobals
    var current: Cid
    var coroutines: map<Cid, Coroutine>
    var contexts: map<Cid, PHPContext>
    var lastCid: nat
    var switches: seq<FiberSwitch>
    var destroyed: set<Cid>
    ghost var stack: seq<Cid>

    ghost function M(): Machine
      reads this
    {
      Machine(mock, maxNum, eg, og, current, coroutines, contexts, lastCid, switches, destroyed, stack)
    }

    ghost predicate Valid()
      reads this
    {
      M().Valid()
    }

    /** `init_main_context`: handlers present go to the save area, where the next save overwrites them. */
    constructor (eg0: ExecutorGlobals, og0: OutputGlobals, mock: bool, maxNum: nat)
      ensures Valid()
      ensures M().Abs() == World([MAIN], map[MAIN := View(GlobalsVm(eg0), NoBuffering)], {}, 0, maxNum)
      ensures this.mock == mock && this.maxNum == maxNum
      ensures SavedBuffering(contexts[MAIN].outputPtr) == Visible(og0)
    {
      var main := PHPContext(0, 0, 0, 0, 0, 0, 0, 0, eg0.currentFiberContext, eg0.activeFiber, 0, 0, 0, 0, 0,
                             None, Some(Running));
      this.mock, this.maxNum := mock, maxNum;
      eg, og := eg0, og0;
      current, lastCid := MAIN, 0;
      coroutines := map[];
      contexts := map[MAIN := main];
      switches, destroyed := [], {};
      stack := [MAIN];
      new;
      SaveContext(MAIN);
    }

    method SaveOg(c: Cid)
      requires c in contexts
      modifies this`contexts, this`og
      ensures SameOthers(old(M()), M(), {c})
      ensures contexts[c] == old(contexts[c]).(outputPtr := contexts[c].outputPtr)
      ensures SavedBuffering(contexts[c].outputPtr) == Visible(old(og))
      ensures contexts[c].outputPtr.Some? ==> contexts[c].outputPtr.value.handlers != []
      ensures og.handlers == []
    {
      if |og.handlers| != 0 {
        contexts := contexts[c := contexts[c].(outputPtr := Some(og))];
        og := ACTIVATED;
      } else {
        contexts := contexts[c := contexts[c].(outputPtr := None)];
      }
    }

    method RestoreOg(c: Cid)
      requires c in contexts
      modifies this`contexts, this`og
      ensures SameOthers(old(M()), M(), {c})
      ensures contexts[c] == old(contexts[c]).(outputPtr := None)
      ensures og == match old(contexts[c]).outputPtr case Some(o) => o case None => old(og)
    {
      if contexts[c].outputPtr.Some? {
        og := contexts[c].outputPtr.value;
        contexts := contexts[c := contexts[c].(outputPtr := None)];
      }
    }

    method SaveContext(c: Cid)
      requires c in contexts
      modifies this`contexts, this`og
      ensures SameOthers(old(M()), M(), {c})
      ensures SavedInto(old(M()), M(), c)
      ensures contexts[c].fiber == old(contexts[c]).fiber
    {
      contexts := contexts[c := SaveVmStack(contexts[c], eg)];
      SaveOg(c);
    }

    method RestoreContext(c: Cid)
      requires c in contexts
      modifies this`contexts, this`og, this`eg
      ensures SameOthers(old(M()), M(), {c})
      ensures RestoredFrom(old(M()), M(), c)
      ensures contexts[c].fiber == old(contexts[c]).fiber
    {
      eg := RestoreVmStack(contexts[c], eg);
      RestoreOg(c);
    }

    method SwitchTryNotify(from: Cid, to: Cid)
      requires from in contexts && to in contexts && from != to
      modifies this`contexts, this`switches
      ensures SameOthers(old(M()), M(), {from, to})
      ensures Notified(old(M()), M(), from, to)
      ensures contexts[from] == old(contexts[from]).(fiber := contexts[from].fiber)
      ensures contexts[to] == old(contexts[to]).(fiber := contexts[to].fiber)
    {
      if contexts[from].fiber.Some? && contexts[to].fiber.Some? {
        switches := switches + [FiberSwitch(from, to, contexts[from].fiber.value)];
        if contexts[from].fiber.value == Running {
          contexts := contexts[from := contexts[from].(fiber := Some(Suspended))];
        }
        contexts := contexts[to := contexts[to].(fiber := Some(Running))];
      }
    }

    /** What `on_yield` and `on_resume` have in common. */
    method SwitchContext(from: Cid, to: Cid)
      requires from in contexts && to in contexts && from != to
      modifies this`contexts, this`switches, this`og, this`eg
      ensures Switched(old(M()), M(), from, to)
    {
      SwitchTryNotify(from, to);
      SaveContext(from);
      RestoreContext(to);
    }

    method Yield()
      requires Valid() && current != MAIN
      modifies this
      ensures Valid()
      ensures M().Abs() == Take(old(M().Abs()), Op.Yield)
      ensures current == old(coroutines[current]).origin && M().Abs().views == old(M().Abs()).views
    {
      var ctx, origin := current, coroutines[current].origin;
      coroutines := coroutines[ctx := coroutines[ctx].(state := Waiting)];
      SwitchContext(ctx, origin);
      current := origin;
      stack := stack[1..];
      YieldCorrect(old(M()), M());
      SwitchIs(old(M().Abs()), Op.Yield);
    }

    method Resume(c: Cid)
      requires Valid() && c in coroutines && coroutines[c].state.Waiting?
      modifies this
      ensures Valid()
      ensures M().Abs() == Take(old(M().Abs()), Op.Resume(c))
      ensures current == c && coroutines[c].origin == old(current) && M().Abs().views == old(M().Abs()).views
    {
      assert M().CoroutineOk(c);
      Enter(c);
      ResumeCorrect(old(M()), M(), c);
      SwitchIs(old(M().Abs()), Op.Resume(c));
    }

    /** The kernel's `resume`, with `on_resume` in the middle. */
    method Enter(c: Cid)
      requires current in contexts && c in contexts && c in coroutines && c != current
      modifies this
      ensures Pushed(old(M()), M(), c) && SameRun(old(M()), M()) && Switched(old(M()), M(), old(current), c)
    {
      var running := current;
      coroutines := coroutines[c := coroutines[c].(state := Active)];
      SwitchContext(running, c);
      coroutines := coroutines[c := coroutines[c].(origin := running)];
      current := c;
      stack := [c] + stack;
    }

    /** Code of the running coroutine: it may leave any globals behind. */
    method UserCode(eg': ExecutorGlobals, og': OutputGlobals)
      requires Valid()
      modifies this`eg, this`og
      ensures Valid()
      ensures M().Abs() == Take(old(M().Abs()), Op.UserCode(eg', og'))
      ensures eg == eg' && og == og' && OthersKept(old(M().Abs()), M().Abs(), current)
    {
      eg, og := eg', og';
      UserCodeCorrect(old(M()), M());
    }

    method Create(page: Page) returns (r: int)
      requires Valid()
      modifies this
      ensures Valid()
      ensures old(|coroutines|) >= maxNum ==> r == -1 && M() == old(M())
      ensures old(|coroutines|) < maxNum ==> r == old(lastCid) + 1
      ensures M().Abs() == Take(old(M().Abs()), Op.Create(page))
      ensures old(|coroutines|) < maxNum ==>
                current == r && CreateLaw(old(M().Abs()), M().Abs(), old(current), r, page)
    {
      LiveCount(M());
      if |coroutines| >= maxNum {
        return -1;
      }
      r := Spawn(page);
      AbsWellFormed(old(M()));
      CreateCorrect(old(M()), M(), page);
      CreateIs(old(M().Abs()), page);
    }

    method Spawn(page: Page) returns (cid: Cid)
      requires current in contexts && lastCid + 1 !in contexts
      requires mock ==> contexts[current].fiber == Some(Running)
      modifies this
      ensures cid == lastCid == current == old(lastCid) + 1
      ensures coroutines == old(coroutines)[cid := Coroutine(old(current), Active, false)]
      ensures stack == [cid] + old(stack) && destroyed == old(destroyed)
      ensures Spawned(old(M()), M(), cid, page) && StartsFresh(GlobalsVm(eg), GlobalsVm(old(eg)), page)
      ensures SpawnedFiber(old(M()), M(), cid)
    {
      var origin := current;
      SaveContext(origin);
      // the kernel: a new coroutine on top of the current one
      lastCid := lastCid + 1;
      cid := lastCid;
      coroutines := coroutines[cid := Coroutine(origin, Active, false)];
      current := cid;
      stack := [cid] + stack;
      StartMain(origin, page);
    }

    /** `create_context` and the start of `main_func` in the new coroutine. */
    method StartMain(origin: Cid, page: Page)
      requires origin in contexts && current !in contexts
      requires mock ==> contexts[origin].fiber == Some(Running)
      modifies this`contexts, this`eg, this`switches
      ensures contexts.Keys == old(contexts).Keys + {current}
      ensures forall c :: c in old(contexts) && c != origin ==> contexts[c] == old(contexts)[c]
      ensures contexts[origin] == old(contexts[origin]).(fiber := contexts[origin].fiber)
      ensures GlobalsVm(eg) == FreshVm(GlobalsVm(old(eg)), page) && contexts[current].outputPtr.None?
      ensures StartsFresh(GlobalsVm(eg), GlobalsVm(old(eg)), page)
      ensures if mock then
                && switches == old(switches) + [FiberSwitch(origin, current, Running)]
                && contexts[origin].fiber == Some(Suspended) && contexts[current].fiber == Some(Running)
              else
                && switches == old(switches)
                && contexts[origin].fiber == old(contexts[origin]).fiber && contexts[current].fiber.None?
    {
      var ctx := CreateContext(page);
      contexts := contexts[current := ctx];
      if ctx.fiber.Some? {
        SwitchTryNotify(origin, current);
        eg := eg.(currentFiberContext := ctx.currentFiberContext, activeFiber := ctx.activeFiber);
      }
    }

    method CreateContext(page: Page) returns (ctx: PHPContext)
      modifies this`eg
      ensures GlobalsVm(eg) == FreshVm(GlobalsVm(old(eg)), page)
      ensures StartsFresh(GlobalsVm(eg), GlobalsVm(old(eg)), page)
      ensures SavedVm(ctx) == GlobalsVm(eg)
      ensures ctx.outputPtr.None?
      ensures ctx.fiber == if mock then Some(Init) else None
    {
      var fiberContext := if mock then page.fiberContext else eg.currentFiberContext;
      ctx := PHPContext(0, 0, 0, 0, 0, 0, 0, 0, fiberContext, eg.activeFiber, 0, 0, 0, 0, 0,
                        None, if mock then Some(Init) else None);
      eg := eg.(vmStack := page.stack,
                vmStackTop := page.top + ZEND_CALL_FRAME_SLOT,
                vmStackEnd := page.end,
                vmStackPageSize := SW_DEFAULT_PHP_STACK_PAGE_SIZE);
      eg := eg.(currentExecuteData := eg.vmStackTop);
      eg := eg.(errorHandling := 0, exceptionClass := 0, exception := 0, jitTraceNum := 0);
      eg := eg.(vmStackTop := eg.vmStackTop + ZEND_CALL_FRAME_SLOT);
      eg := eg.(stackBase := page.base, stackLimit := page.limit);
      ctx := SaveVmStack(ctx, eg);
    }

    /** `destroy_context` up to the release of the coroutine's resources. */
    method BeginClose()
      requires Valid() && current != MAIN && !coroutines[current].closing
      modifies this
      ensures Valid()
      ensures M().Abs() == Take(old(M().Abs()), Op.BeginClose)
      ensures eg == old(eg) && og.handlers == [] && M().Abs().closing == old(M().Abs()).closing + {current}
      ensures OthersKept(old(M().Abs()), M().Abs(), current)
    {
      if |og.handlers| != 0 {
        og := ACTIVATED;
      }
      coroutines := coroutines[current := coroutines[current].(closing := true)];
      KernelFrame(old(M()), M());
      BeginCloseAbs(old(M()), M());
      CloseBegins(old(M().Abs()));
    }

    /** The rest of `destroy_context`, after destructors ran, and the kernel's `close`. */
    method FinishClose()
      requires Valid() && current != MAIN && coroutines[current].closing
      modifies this
      ensures Valid()
      ensures M().Abs() == Take(old(M().Abs()), Op.FinishClose)
      ensures current == old(coroutines[current]).origin
      ensures CloseLaw(old(M().Abs()), M().Abs(), old(current), current)
    {
      var origin := coroutines[current].origin;
      Reap(origin);
      Unlink();
      current := origin;
      stack := stack[1..];
      AbsWellFormed(old(M()));
      CloseCorrect(old(M()), M());
      CloseIs(old(M().Abs()));
    }

    /** The end of the kernel's `close`: the children lose their origin. */
    method Unlink()
      modifies this`coroutines
      ensures Unlinked(old(M()), M())
    {
      coroutines := map c | c in coroutines && c != current ::
        if coroutines[c].origin == current then coroutines[c].(origin := MAIN) else coroutines[c];
    }

    method Reap(origin: Cid)
      requires current in contexts && origin in contexts && origin != current
      requires if mock then contexts[current].fiber.Some? && contexts[origin].fiber.Some?
               else contexts[current].fiber.None?
      modifies this`contexts, this`og, this`eg, this`switches, this`destroyed
      ensures Reaped(old(M()), M(), origin)
    {
      var ctx := current;
      if contexts[ctx].fiber.Some? {
        contexts := contexts[ctx := contexts[ctx].(fiber := Some(Dead))];
        SwitchTryNotify(ctx, origin);
        destroyed := destroyed + {ctx};
      }
      RestoreContext(origin);
      contexts := contexts - {ctx};
    }

    /** Any interleaving of steps, each taken where it is possible. */
    method Run(ops: seq<Op>)
      requires Valid()
      modifies this
      ensures Valid()
      ensures M().Abs() == Exec(old(M().Abs()), ops)
      ensures Exclusive(old(M().Abs())) && OwnStacks(old(M().Abs()), ops) ==> Exclusive(M().Abs())
      decreases |ops|
    {
      AbsWellFormed(M());
      if Exclusive(M().Abs()) && OwnStacks(M().Abs(), ops) {
        ExecKeepsExclusive(M().Abs(), ops);
      }
      if ops != [] {
        TakeStep(ops[0]);
        Run(ops[1..]);
      }
    }

    /** A run in which `c` does not get to run. */
    method RunOthers(ops: seq<Op>, ghost c: Cid)
      requires Valid() && c in contexts && ops != [] && OffTop(M().Abs(), ops, c)
      modifies this
      ensures Valid() && c in contexts && M().Abs() == Exec(old(M().Abs()), ops)
      ensures M().ViewOf(c) == old(M().ViewOf(c)) <==>
                !LeaksTo(Exec(old(M().Abs()), ops[..|ops| - 1]), ops[|ops| - 1], c)
      ensures M().ViewOf(c).vm == old(M().ViewOf(c)).vm
    {
      AbsWellFormed(M());
      ViewIsolationIff(M().Abs(), ops, c);
      VmIsolation(M().Abs(), ops, c);
      Run(ops);
      assert c in M().Abs().views && M().Abs().views[c] == M().ViewOf(c);
    }

    method TakeStep(op: Op)
      requires Valid()
      modifies this
      ensures Valid()
      ensures M().Abs() == Take(old(M().Abs()), op)
      ensures match op
              case Create(_) =>
                if old(|coroutines|) < maxNum then current == old(lastCid) + 1 else M() == old(M())
              case Yield =>
                if old(current) == MAIN then M() == old(M()) else current == old(coroutines[current]).origin
              case Resume(c) =>
                if c in old(coroutines) && old(coroutines)[c].state.Waiting? then current == c else M() == old(M())
              case UserCode(eg', og') => eg == eg' && og == og'
              case BeginClose => old(current) != MAIN ==> old(current) in M().Abs().closing
              case FinishClose =>
                if old(current) != MAIN && old(coroutines[current]).closing then old(current) !in contexts
                else M() == old(M())
    {
      LiveCount(M());
      match op {
        case Create(page) => var _ := Create(page);
        case Yield => if current != MAIN { Yield(); }
        case Resume(c) => if c in coroutines && coroutines[c].state.Waiting? { Resume(c); }
        case UserCode(eg', og') => UserCode(eg', og');
        case BeginClose => if current != MAIN && !coroutines[current].closing { BeginClose(); }
        case FinishClose => if current != MAIN && coroutines[current].closing { FinishClose(); }
      }
    }
  }

  ghost predicate Switched(before: Machine, after: Machine, from: Cid, to: Cid)
    requires from in before.contexts && to in before.contexts
  {
    && SameOthers(before, after, {from, to})
    && Notified(before, after, from, to)
    && SavedVm(after.contexts[from]) == GlobalsVm(before.eg)
    && SavedBuffering(after.contexts[from].outputPtr) == Visible(before.og)
    && (after.contexts[from].outputPtr.Some? ==> after.contexts[from].outputPtr.value.handlers != [])
    && GlobalsVm(after.eg) == SavedVm(before.contexts[to])
    && after.contexts[to].outputPtr.None?
    && (match before.contexts[to].outputPtr case Some(o) => after.og == o case None => after.og.handlers == [])
  }

  /** A full switch moves the globals around but changes nobody's view. */
  lemma SwitchKeepsViews(before: Machine, after: Machine, from: Cid, to: Cid)
    requires before.SaveAreas() && before.current == from && to in before.contexts && from != to
    requires Switched(before, after, from, to) && after.current == to
    ensures after.SaveAreas() && after.Views() == before.Views()
  {
  }

  lemma SwitchKeepsMirror(before: Machine, after: Machine, from: Cid, to: Cid)
    requires before.FiberMirror() && before.current == from
    requires from in before.contexts && to in before.contexts && from != to
    requires Switched(before, after, from, to) && after.current == to
    requires after.mock == before.mock && after.destroyed == before.destroyed && after.lastCid == before.lastCid
    ensures after.FiberMirror()
  {
    if before.mock {
      assert after.switches[..|after.switches| - 1] == before.switches;
    }
  }

  /** The fields only `Create` and the closing steps change. */
  ghost predicate SameRun(before: Machine, after: Machine) {
    && after.mock == before.mock && after.maxNum == before.maxNum
    && after.lastCid == before.lastCid && after.destroyed == before.destroyed
  }

  /** `after` is `before` with the top of the C stack gone to sleep. */
  ghost predicate Popped(before: Machine, after: Machine) {
    && before.current in before.coroutines && before.stack != []
    && after.coroutines == before.coroutines[before.current := before.coroutines[before.current].(state := Waiting)]
    && after.current == before.coroutines[before.current].origin
    && after.stack == before.stack[1..]
  }

  lemma PopKeepsKernel(before: Machine, after: Machine)
    requires before.Kernel() && before.current != MAIN
    requires Popped(before, after) && after.contexts.Keys == before.contexts.Keys && after.lastCid == before.lastCid
    ensures after.Kernel()
  {
    assert before.LinkOk(0);
    forall i | 1 <= i < |before.stack| - 1 ensures before.stack[i] in before.coroutines {
      assert before.LinkOk(i);
    }
    TailLinks(before, after);
    TailMembers(before.stack);
    forall c | c in after.coroutines ensures after.CoroutineOk(c) {
      assert before.CoroutineOk(c);
    }
  }

  /** Those below the top still are there, resumed by the same. */
  ghost predicate SameOrigins(before: Machine, after: Machine) {
    forall i :: 1 <= i < |before.stack| - 1 ==>
      && before.stack[i] in before.coroutines && before.stack[i] in after.coroutines
      && after.coroutines[before.stack[i]].origin == before.coroutines[before.stack[i]].origin
  }

  lemma TailLinks(before: Machine, after: Machine)
    requires before.Kernel() && |before.stack| > 1 && after.stack == before.stack[1..] && SameOrigins(before, after)
    ensures forall i :: 0 <= i < |after.stack| - 1 ==> after.LinkOk(i)
  {
    forall i | 0 <= i < |after.stack| - 1 ensures after.LinkOk(i) {
      assert before.LinkOk(i + 1);
      assert after.stack[i] == before.stack[i + 1] && after.stack[i + 1] == before.stack[i + 2];
    }
  }

  lemma YieldAbs(before: Machine, after: Machine)
    requires before.SaveAreas() && |before.stack| > 1 && before.current == before.stack[0] && before.current != MAIN
    requires Popped(before, after) && SameRun(before, after)
    requires after.current in before.contexts && after.current != before.current
    requires Switched(before, after, before.current, after.current)
    ensures after.SaveAreas() && after.Abs() == Take(before.Abs(), Yield)
  {
    SwitchKeepsViews(before, after, before.current, after.current);
    assert ClosingSet(after.coroutines) == ClosingSet(before.coroutines);
  }

  lemma YieldCorrect(before: Machine, after: Machine)
    requires before.Valid() && before.current != MAIN
    requires Popped(before, after) && SameRun(before, after)
    requires after.current in before.contexts && before.current in before.contexts
    requires Switched(before, after, before.current, after.current)
    ensures after.Valid() && after.Abs() == Take(before.Abs(), Yield)
  {
    assert before.CoroutineOk(before.current);
    YieldAbs(before, after);
    PopKeepsKernel(before, after);
    SwitchKeepsMirror(before, after, before.current, after.current);
  }

  lemma AbsWellFormed(m: Machine)
    requires m.Kernel()
    ensures m.Abs().WellFormed()
  {
    StackLive(m);
    assert forall c :: c in m.coroutines ==> m.CoroutineOk(c);
  }

  lemma LiveCount(m: Machine)
    requires m.Kernel()
    ensures |m.Abs().views| == |m.coroutines| + 1
  {
    assert m.Views().Keys == m.coroutines.Keys + {MAIN};
    assert |m.coroutines.Keys + {MAIN}| == |m.coroutines.Keys| + 1;
  }

  /** `after` is `before` with `c` put on top of the C stack. */
  ghost predicate Pushed(before: Machine, after: Machine, c: Cid) {
    && c in before.coroutines
    && after.coroutines == before.coroutines[c := before.coroutines[c].(state := Active, origin := before.current)]
    && after.current == c
    && after.stack == [c] + before.stack
  }

  lemma PushKeepsKernel(before: Machine, after: Machine, c: Cid)
    requires before.Kernel() && c in before.coroutines && c !in before.stack
    requires Pushed(before, after, c) && after.contexts.Keys == before.contexts.Keys && after.lastCid == before.lastCid
    ensures after.Kernel()
  {
    PushedLinks(before, after, c);
    ConsMembers(before.stack, c);
    StackLive(before);
    assert before.current in before.stack;
    forall d | d in after.coroutines ensures after.CoroutineOk(d) {
      assert before.CoroutineOk(d);
    }
  }

  lemma PushedLinks(before: Machine, after: Machine, c: Cid)
    requires before.Kernel() && c !in before.stack && after.stack == [c] + before.stack
    requires c in after.coroutines && after.coroutines[c].origin == before.current
    requires forall d :: d in before.coroutines && d != c ==>
               d in after.coroutines && after.coroutines[d].origin == before.coroutines[d].origin
    ensures forall i :: 0 <= i < |after.stack| - 1 ==> after.LinkOk(i)
  {
    forall i | 0 <= i < |after.stack| - 1 ensures after.LinkOk(i) {
      if i > 0 {
        assert before.LinkOk(i - 1) && after.stack[i] == before.stack[i - 1] && after.stack[i + 1] == before.stack[i];
      }
    }
  }

  lemma ResumeAbs(before: Machine, after: Machine, c: Cid)
    requires before.SaveAreas() && before.stack != [] && before.current == before.stack[0]
    requires c in before.contexts && c !in before.stack
    requires Pushed(before, after, c) && SameRun(before, after)
    requires Switched(before, after, before.current, c)
    ensures after.SaveAreas() && after.Abs() == Take(before.Abs(), Resume(c))
  {
    SwitchKeepsViews(before, after, before.current, c);
    assert ClosingSet(after.coroutines) == ClosingSet(before.coroutines);
  }

  lemma ResumeCorrect(before: Machine, after: Machine, c: Cid)
    requires before.Valid() && c in before.coroutines && before.coroutines[c].state.Waiting?
    requires Pushed(before, after, c) && SameRun(before, after)
    requires Switched(before, after, before.current, c)
    ensures after.Valid() && after.Abs() == Take(before.Abs(), Resume(c))
  {
    assert before.CoroutineOk(c);
    ResumeAbs(before, after, c);
    PushKeepsKernel(before, after, c);
    SwitchKeepsMirror(before, after, before.current, c);
  }

  /** What a creation does to the save areas and the globals. */
  ghost predicate Spawned(before: Machine, after: Machine, cid: Cid, page: Page) {
    && before.current in before.contexts
    && after.contexts.Keys == before.contexts.Keys + {cid}
    && (forall c :: c in before.contexts && c != before.current ==> after.contexts[c] == before.contexts[c])
    && SavedVm(after.contexts[before.current]) == GlobalsVm(before.eg)
    && SavedBuffering(after.contexts[before.current].outputPtr) == Visible(before.og)
    && (after.contexts[before.current].outputPtr.Some? ==>
          after.contexts[before.current].outputPtr.value.handlers != [])
    && GlobalsVm(after.eg) == FreshVm(GlobalsVm(before.eg), page)
    && after.og.handlers == []
    && after.contexts[cid].outputPtr.None?
  }

  ghost predicate SpawnedFiber(before: Machine, after: Machine, cid: Cid)
    requires before.current in before.contexts
    requires before.current in after.contexts && cid in after.contexts
  {
    if before.mock then
      && after.switches == before.switches + [FiberSwitch(before.current, cid, Running)]
      && after.contexts[before.current].fiber == Some(Suspended)
      && after.contexts[cid].fiber == Some(Running)
    else
      && after.switches == before.switches
      && after.contexts[before.current].fiber == before.contexts[before.current].fiber
      && after.contexts[cid].fiber.None?
  }

  lemma SpawnKeepsKernel(before: Machine, after: Machine, cid: Cid)
    requires before.Kernel() && cid == before.lastCid + 1
    requires after.contexts.Keys == before.contexts.Keys + {cid}
    requires after.coroutines == before.coroutines[cid := Coroutine(before.current, Active, false)]
    requires after.current == cid == after.lastCid && after.stack == [cid] + before.stack
    ensures after.Kernel()
  {
    assert cid in before.coroutines ==> before.CoroutineOk(cid);
    StackLive(before);
    assert before.current in before.stack;
    PushedLinks(before, after, cid);
    ConsMembers(before.stack, cid);
    forall c | c in after.coroutines ensures after.CoroutineOk(c) {
      assert c != cid ==> before.CoroutineOk(c);
    }
  }

  lemma StackLive(m: Machine)
    requires m.Kernel()
    ensures forall c :: c in m.stack ==> c == MAIN || c in m.coroutines
  {
    forall i | 0 <= i < |m.stack| ensures m.stack[i] == MAIN || m.stack[i] in m.coroutines {
      if i < |m.stack| - 1 {
        assert m.LinkOk(i);
      }
    }
  }

  lemma SpawnKeepsMirror(before: Machine, after: Machine, cid: Cid, page: Page)
    requires before.Valid() && cid == before.lastCid + 1
    requires Spawned(before, after, cid, page) && SpawnedFiber(before, after, cid)
    requires after.mock == before.mock && after.current == cid && after.lastCid == cid
    requires after.destroyed == before.destroyed
    ensures after.FiberMirror()
  {
    if before.mock {
      assert after.switches[..|after.switches| - 1] == before.switches;
    }
  }

  lemma SpawnViews(before: Machine, after: Machine, cid: Cid, page: Page)
    requires before.SaveAreas() && cid !in before.contexts
    requires Spawned(before, after, cid, page) && after.current == cid
    ensures after.SaveAreas()
    ensures after.Views() == before.Views()[cid := View(FreshVm(before.Views()[before.current].vm, page), NoBuffering)]
  {
  }

  lemma CreateAbs(before: Machine, after: Machine, page: Page)
    requires before.SaveAreas() && Enabled(before.Abs(), Create(page)) && before.current == before.stack[0]
    requires after.lastCid == before.lastCid + 1 == after.current && after.lastCid !in before.contexts
    requires after.lastCid !in before.coroutines
    requires after.coroutines == before.coroutines[after.lastCid := Coroutine(before.current, Active, false)]
    requires after.stack == [after.lastCid] + before.stack && after.maxNum == before.maxNum
    requires Spawned(before, after, after.lastCid, page)
    ensures after.SaveAreas() && after.Abs() == Take(before.Abs(), Create(page))
  {
    SpawnViews(before, after, after.lastCid, page);
    assert ClosingSet(after.coroutines) == ClosingSet(before.coroutines);
  }

  lemma CreateCorrect(before: Machine, after: Machine, page: Page)
    requires before.Valid() && Enabled(before.Abs(), Create(page))
    requires after.lastCid == before.lastCid + 1 == after.current
    requires after.coroutines == before.coroutines[after.lastCid := Coroutine(before.current, Active, false)]
    requires after.stack == [after.lastCid] + before.stack
    requires after.mock == before.mock && after.maxNum == before.maxNum && after.destroyed == before.destroyed
    requires Spawned(before, after, after.lastCid, page) && SpawnedFiber(before, after, after.lastCid)
    ensures after.Valid() && after.Abs() == Take(before.Abs(), Create(page))
  {
    var cid := after.lastCid;
    assert cid in before.coroutines ==> before.CoroutineOk(cid);
    CreateAbs(before, after, page);
    SpawnKeepsKernel(before, after, cid);
    SpawnKeepsMirror(before, after, cid, page);
  }

  /** What a close does to the save areas and the globals. */
  ghost predicate Reaped(before: Machine, after: Machine, origin: Cid)
    requires origin in before.contexts && before.current in before.contexts
  {
    && origin in after.contexts
    && after.contexts.Keys == before.contexts.Keys - {before.current}
    && (forall c :: c in after.contexts && c != origin ==> after.contexts[c] == before.contexts[c])
    && GlobalsVm(after.eg) == SavedVm(before.contexts[origin])
    && after.og == (match before.contexts[origin].outputPtr case Some(o) => o case None => before.og)
    && after.contexts[origin].outputPtr.None?
    && (if before.mock then
          && after.switches == before.switches + [FiberSwitch(before.current, origin, Dead)]
          && after.contexts[origin].fiber == Some(Running)
          && after.destroyed == before.destroyed + {before.current}
        else
          && after.switches == before.switches && after.destroyed == before.destroyed
          && after.contexts[origin].fiber == before.contexts[origin].fiber)
  }

  /** The closing coroutine is gone and nobody's origin points at it any more. */
  ghost predicate Unlinked(before: Machine, after: Machine) {
    && after.coroutines.Keys == before.coroutines.Keys - {before.current}
    && (forall c :: c in after.coroutines ==>
          after.coroutines[c] == if before.coroutines[c].origin == before.current
                                 then before.coroutines[c].(origin := MAIN) else before.coroutines[c])
  }

  lemma ReapLinks(before: Machine, after: Machine)
    requires before.Kernel() && before.current != MAIN
    requires Unlinked(before, after) && after.stack == before.stack[1..]
    ensures forall i :: 0 <= i < |after.stack| - 1 ==> after.LinkOk(i)
  {
    forall i | 0 <= i < |after.stack| - 1 ensures after.LinkOk(i) {
      assert before.LinkOk(i + 1);
      assert before.stack[0] != before.stack[i + 1] && before.stack[0] != before.stack[i + 2];
      assert after.stack[i] == before.stack[i + 1] && after.stack[i + 1] == before.stack[i + 2];
    }
  }

  lemma ReapKeepsKernel(before: Machine, after: Machine)
    requires before.Kernel() && before.current != MAIN && before.current in before.coroutines
    requires Unlinked(before, after) && after.contexts.Keys == before.contexts.Keys - {before.current}
    requires after.stack == before.stack[1..] && after.current == before.coroutines[before.current].origin
    requires after.lastCid == before.lastCid
    ensures after.Kernel()
  {
    ReapLinks(before, after);
    TailMembers(before.stack);
    assert before.LinkOk(0);
    forall c | c in after.coroutines ensures after.CoroutineOk(c) {
      assert before.CoroutineOk(c);
    }
  }

  lemma ReapKeepsMirror(before: Machine, after: Machine, origin: Cid)
    requires before.FiberMirror() && 0 < before.current <= before.lastCid && before.current in before.contexts
    requires origin in before.contexts && origin != before.current
    requires Reaped(before, after, origin) && after.current == origin
    requires after.mock == before.mock && after.lastCid == before.lastCid
    ensures after.FiberMirror()
  {
    if before.mock {
      assert after.switches[..|after.switches| - 1] == before.switches;
      assert after.destroyed == (set c | 0 < c <= after.lastCid && c !in after.contexts);
    }
  }

  lemma ReapViews(before: Machine, after: Machine, origin: Cid)
    requires before.SaveAreas() && origin in before.contexts && origin != before.current
    requires Reaped(before, after, origin) && after.current == origin
    ensures after.SaveAreas()
    ensures var views := before.Views();
            after.Views() == (views - {before.current})[origin := Inherited(views[before.current], views[origin])]
  {
  }

  lemma ReapClosing(before: Machine, after: Machine)
    requires Unlinked(before, after)
    ensures ClosingSet(after.coroutines) == ClosingSet(before.coroutines) - {before.current}
  {
    forall c ensures c in ClosingSet(after.coroutines) <==> c in ClosingSet(before.coroutines) - {before.current} {
      assert c in after.coroutines <==> c in before.coroutines && c != before.current;
    }
  }

  lemma CloseCorrect(before: Machine, after: Machine)
    requires before.Valid() && before.current != MAIN && before.coroutines[before.current].closing
    requires after.mock == before.mock && after.lastCid == before.lastCid && after.maxNum == before.maxNum
    requires Unlinked(before, after)
    requires after.stack == before.stack[1..] && after.current == before.coroutines[before.current].origin
    requires Reaped(before, after, after.current)
    ensures after.Valid() && after.Abs() == Take(before.Abs(), FinishClose)
  {
    assert before.LinkOk(0);
    assert after.Kernel() by { ReapKeepsKernel(before, after); }
    assert after.FiberMirror() by { ReapKeepsMirror(before, after, after.current); }
    assert after.SaveAreas() by { ReapViews(before, after, after.current); }
    assert after.Abs() == Take(before.Abs(), FinishClose) by {
      ReapViews(before, after, after.current);
      ReapClosing(before, after);
    }
  }

  /** The kernel depends on nothing else. */
  lemma KernelFrame(before: Machine, after: Machine)
    requires before.Kernel()
    requires after.contexts.Keys == before.contexts.Keys && after.stack == before.stack
    requires after.current == before.current && after.lastCid == before.lastCid
    requires after.coroutines.Keys == before.coroutines.Keys
    requires forall c :: c in after.coroutines ==>
               after.coroutines[c] == before.coroutines[c].(closing := after.coroutines[c].closing)
    ensures after.Kernel()
  {
    forall c | c in after.coroutines ensures after.CoroutineOk(c) {
      assert before.CoroutineOk(c);
    }
    forall i | 0 <= i < |after.stack| - 1 ensures after.LinkOk(i) {
      assert before.LinkOk(i);
    }
  }

  lemma BeginCloseAbs(before: Machine, after: Machine)
    requires before.stack != [] && before.current == before.stack[0] && before.current != MAIN
    requires before.current in before.coroutines && !before.coroutines[before.current].closing
    requires before.current in before.contexts
    requires after == before.(og := after.og, coroutines := after.coroutines) && after.og.handlers == []
    requires after.coroutines ==
             before.coroutines[before.current := before.coroutines[before.current].(closing := true)]
    ensures after.Abs() == Take(before.Abs(), BeginClose)
  {
    var top := before.current;
    assert after.Views() == before.Views()[top := before.Views()[top].(output := NoBuffering)];
    assert ClosingSet(after.coroutines) == ClosingSet(before.coroutines) + {top};
  }

  lemma UserCodeCorrect(before: Machine, after: Machine)
    requires before.Valid() && after == before.(eg := after.eg, og := after.og)
    ensures after.Valid() && after.Abs() == Take(before.Abs(), UserCode(after.eg, after.og))
  {
    KernelFrame(before, after);
    assert after.SaveAreas() && after.FiberMirror();
    assert after.Views() == before.Views()[before.current := View(GlobalsVm(after.eg), Visible(after.og))];
  }
}
