/**
 * The cURL multi handle of a coroutine (ext-src/swoole_curl.cc, the build without IOCP): its
 * socket objects, which libcurl asks for and gives up from inside its own calls, and the
 * deferred resume that wakes the coroutine bound to the handle.
 *
 * What libcurl does inside one of its functions is a script of the callbacks it makes.  An
 * application callback may suspend the coroutine there, so reactor events can be among them.
 */
module CurlMulti {
  import opened Prelude

  type Ptr = nat

  datatype Flag = In | Out | Err

  /** A `curl::Socket`; `watched` if the reactor watches its descriptor. */
  datatype Sock = Sock(fd: int, bitmask: set<Flag>, deleted: bool, watched: bool)

  /** What the event loop does: a descriptor is ready, the timer fires, deferred tasks are due. */
  datatype LoopEvent = SocketEvent(p: Ptr, flag: Flag) | TimerEvent | DeferredRuns

  /** What libcurl does from inside a call: CURL_POLL_IN/OUT/INOUT, CURL_POLL_REMOVE, a new timeout. */
  datatype Call =
    | Poll(fd: int, attach: bool, added: bool)
    | PollRemove(fd: int)
    | SetTimer(on: bool)
    | Yields(e: LoopEvent)

  /** What happens to a suspended coroutine. */
  datatype Env = Loop(e: LoopEvent) | TimesOut | Cancels

  datatype Wake = Resumed | TimedOut | Canceled | StillBound

  /**
   * One turn of the loop in `exec`: its suspension, its pass (`order` is how the set of active
   * sockets is enumerated), and what libcurl reports after it.
   */
  datatype Round = Round(env: seq<Env>, timeoutScript: seq<Call>, order: seq<Ptr>, scripts: seq<seq<Call>>,
                         running: nat, timerOn: bool)

  datatype Outcome = Done | Aborted | Suspended | StillRunning

  /** What an application does with the handle while no coroutine is bound to it. */
  datatype Op =
    | ExecOp(opening: seq<Call>, rounds: seq<Round>, closing: seq<Call>)
    | SelectOp(all: seq<Call>, round: Round)
    | LibcurlOp(calls: seq<Call>)

  /** A call of `curl_multi_socket_action`: for a socket with its flags, or for a timeout. */
  datatype Action = Action(p: Ptr, flags: set<Flag>) | Timeout

  // ------------------------------------------------------- the socket objects

  /** The objects and everything that points to them: the handle's table, libcurl, the selector. */
  datatype Arena = Arena(heap: map<Ptr, Sock>, next: Ptr, freed: set<Ptr>,
                         sockets: map<int, Ptr>, attached: map<int, Ptr>, active: set<Ptr>,
                         pass: set<Ptr>, release: set<Ptr>, executing: bool)
  {
    /** An object allocated is live or freed, never both; a live one is in the table or to be released. */
    ghost predicate ObjectOk(p: Ptr) {
      && (p < next <==> p in heap || p in freed)
      && !(p in heap && p in freed)
      && (p in release <==> p in heap && heap[p].deleted)
      && (p in heap && !heap[p].deleted ==> heap[p].fd in sockets && sockets[heap[p].fd] == p)
    }

    ghost predicate EntryOk(fd: int) {
      fd in sockets ==> sockets[fd] in heap && heap[sockets[fd]].fd == fd && !heap[sockets[fd]].deleted
    }

    /** What the selector holds is live. */
    ghost predicate SelectorLive() {
      forall p :: p in active || p in pass ==> p in heap
    }

    ghost predicate Ok() {
      && (forall p :: ObjectOk(p))
      && (forall fd :: EntryOk(fd))
      && attached == sockets
      && (!executing ==> release == {} && pass == {})
    }

    /** `new Socket` for a descriptor libcurl starts to use. */
    function Allocate(fd: int, watched: bool): Arena {
      this.(heap := heap[next := Sock(fd, {}, false, watched)], next := next + 1,
            sockets := sockets[fd := next], attached := attached[fd := next])
    }

    /** `new Socket` that libcurl refuses to be told of, deleted at once. */
    function Stillborn(): Arena {
      this.(next := next + 1, freed := freed + {next})
    }

    function Update(p: Ptr, s: Sock): Arena {
      this.(heap := heap[p := s])
    }

    /** `set_event`. */
    function Add(fd: int, attach: bool, added: bool): Arena {
      if fd in attached then
        var p := attached[fd];
        if p in heap then Update(p, heap[p].(watched := added)) else this
      else if attach then Allocate(fd, added)
      else Stillborn()
    }

    /** `del_event`: out of the tables, and freed now or at the end of the pass. */
    function Remove(fd: int): Arena {
      var a := this.(sockets := sockets - {fd}, attached := attached - {fd});
      if fd !in attached || attached[fd] !in heap then a
      else
        var p := attached[fd];
        if executing then
          a.(heap := heap[p := heap[p].(deleted := true, watched := false)], release := release + {p})
        else
          a.(heap := heap - {p}, freed := freed + {p})
    }

    /** Every socket in the table is watched. */
    function WatchAll(): Arena {
      this.(heap := map p | p in heap ::
        if heap[p].fd in sockets && sockets[heap[p].fd] == p then heap[p].(watched := true) else heap[p])
    }

    /** The end of a pass: everything set aside is freed. */
    function Release(): Arena {
      this.(heap := heap - release, freed := freed + release, release := {}, executing := false)
    }
  }

  lemma AllocateOk(a: Arena, fd: int, watched: bool)
    requires a.Ok() && fd !in a.sockets
    ensures a.Allocate(fd, watched).Ok()
  {
    var b := a.Allocate(fd, watched);
    assert a.ObjectOk(a.next);
    forall p ensures b.ObjectOk(p) {
      assert a.ObjectOk(p);
    }
    forall f ensures b.EntryOk(f) {
      assert a.EntryOk(f);
    }
  }

  lemma StillbornOk(a: Arena)
    requires a.Ok()
    ensures a.Stillborn().Ok()
  {
    var b := a.Stillborn();
    assert a.ObjectOk(a.next);
    forall p ensures b.ObjectOk(p) {
      assert a.ObjectOk(p);
    }
    forall f ensures b.EntryOk(f) {
      assert a.EntryOk(f);
    }
  }

  /** Changing the events of an object touches nothing else. */
  lemma UpdateOk(a: Arena, p: Ptr, s: Sock)
    requires a.Ok() && p in a.heap && s.fd == a.heap[p].fd && s.deleted == a.heap[p].deleted
    ensures a.Update(p, s).Ok()
    ensures a.SelectorLive() ==> a.Update(p, s).SelectorLive()
  {
    var b := a.Update(p, s);
    forall q ensures b.ObjectOk(q) {
      assert a.ObjectOk(q);
    }
    forall f ensures b.EntryOk(f) {
      assert a.EntryOk(f);
    }
  }

  /** What the selector holds is not part of what `Ok` speaks of. */
  lemma SelectOk(a: Arena, active: set<Ptr>, pass: set<Ptr>, executing: bool)
    requires a.Ok() && (executing || (a.release == {} && pass == {}))
    ensures a.(active := active, pass := pass, executing := executing).Ok()
  {
    var b := a.(active := active, pass := pass, executing := executing);
    forall p ensures b.ObjectOk(p) {
      assert a.ObjectOk(p);
    }
    forall f ensures b.EntryOk(f) {
      assert a.EntryOk(f);
    }
  }

  /** Removing a socket frees an object that is live and was not freed before, and keeps the invariants. */
  lemma RemoveOk(a: Arena, fd: int)
    requires a.Ok()
    ensures fd in a.attached ==> a.attached[fd] in a.heap && a.attached[fd] !in a.freed
    ensures a.Remove(fd).Ok()
  {
    assert a.EntryOk(fd);
    if fd in a.attached {
      assert a.ObjectOk(a.attached[fd]);
    }
    var b := a.Remove(fd);
    forall p ensures b.ObjectOk(p) {
      assert a.ObjectOk(p);
    }
    forall f ensures b.EntryOk(f) {
      assert a.EntryOk(f) && a.EntryOk(fd);
    }
  }

  /**
   * It leaves the selector with live objects, except exactly when it happens outside a pass to
   * a socket whose event is waiting to be handled.
   */
  lemma RemoveLiveIff(a: Arena, fd: int)
    requires a.Ok() && a.SelectorLive()
    ensures a.Remove(fd).SelectorLive() <==> a.executing || fd !in a.attached || a.attached[fd] !in a.active
  {
    assert a.EntryOk(fd);
    var b := a.Remove(fd);
    if !a.executing && fd in a.attached && a.attached[fd] in a.active {
      assert a.attached[fd] in b.active && a.attached[fd] !in b.heap;
    }
  }

  lemma ReleaseOk(a: Arena)
    requires a.Ok() && a.active == {} && a.pass == {}
    ensures a.Release().Ok() && a.Release().SelectorLive()
    ensures a.release !! a.freed
  {
    var b := a.Release();
    forall p ensures b.ObjectOk(p) && !(p in a.release && p in a.freed) {
      assert a.ObjectOk(p);
    }
    forall f ensures b.EntryOk(f) {
      assert a.EntryOk(f);
      if f in a.sockets {
        assert a.ObjectOk(a.sockets[f]);
      }
    }
  }

  /** Between passes, once libcurl uses no socket, every object ever allocated has been freed. */
  lemma NothingLeaks(a: Arena)
    requires a.Ok() && !a.executing && a.sockets == map[]
    ensures a.heap == map[] && forall p: Ptr :: p < a.next ==> p in a.freed
  {
    forall p: Ptr ensures p !in a.heap && (p < a.next ==> p in a.freed) {
      assert a.ObjectOk(p);
    }
  }

  // ------------------------------------------------------------ the handle's state

  datatype State = State(a: Arena, timerCallback: bool, timer: bool, bound: bool, deferCallback: bool, deferred: nat,
                         log: seq<Action>)
  {
    /** At most one resume is queued, and one is whenever the bound coroutine has an event to see. */
    ghost predicate WakeOk() {
      && deferred == (if deferCallback then 1 else 0)
      && (bound && a.active != {} ==> deferCallback)
    }

    /** While a coroutine is bound the reactor watches every socket in the table. */
    ghost predicate Watched() {
      bound ==> AllWatched()
    }

    ghost predicate AllWatched() {
      forall fd :: fd in a.sockets && a.sockets[fd] in a.heap ==> a.heap[a.sockets[fd]].watched
    }

    ghost predicate Valid() {
      a.Ok() && WakeOk() && Watched() && !(bound && a.executing)
    }

    /** Nobody bound, no pass, everything the selector holds is live. */
    ghost predicate Idle() {
      Valid() && !bound && !a.executing && a.SelectorLive()
    }

    /** Nobody bound, no pass, nothing left to handle. */
    ghost predicate Quiet() {
      Valid() && !bound && !a.executing && a.active == {}
    }

    // ---------------------------------------------------------- single steps

    function SetEvent(fd: int, attach: bool, added: bool): State {
      this.(a := a.Add(fd, attach, added))
    }

    /** Queue a resume, unless one is queued. */
    function Deferred(): State {
      if deferCallback then this else this.(deferCallback := true, deferred := deferred + 1)
    }

    /** A watched descriptor is ready: noted for the bound coroutine, else not watched any more. */
    function Ready(p: Ptr, flag: Flag): State {
      if p !in a.heap || !a.heap[p].watched then this
      else
        var noted := a.Update(p, a.heap[p].(bitmask := a.heap[p].bitmask + {flag}, watched := bound));
        if bound then this.(a := noted.(active := noted.active + {p})).Deferred() else this.(a := noted)
    }

    function TimerFired(): State {
      if !timer then this
      else
        var fired := this.(timer := false, timerCallback := true);
        if bound then fired.Deferred() else fired
    }

    /** The reactor runs its deferred tasks: a bound coroutine is resumed by the queued one. */
    function DeferredRun(): State {
      this.(deferCallback := false, deferred := 0, bound := bound && deferred == 0)
    }

    function Heard(e: LoopEvent): State {
      match e
      case SocketEvent(p, flag) => Ready(p, flag)
      case TimerEvent => TimerFired()
      case DeferredRuns => DeferredRun()
    }

    function Called(c: Call): (r: State)
      ensures r.a.pass == a.pass
    {
      match c
      case Poll(fd, attach, added) => SetEvent(fd, attach, added)
      case PollRemove(fd) => this.(a := a.Remove(fd))
      case SetTimer(on) => this.(timer := on)
      case Yields(e) => Heard(e)
    }

    /** What libcurl does inside one of its functions. */
    function Scripted(calls: seq<Call>): (r: State)
      ensures r.a.pass == a.pass
      decreases |calls|
    {
      if calls == [] then this else Called(calls[0]).Scripted(calls[1..])
    }

    /** `selector_prepare`. */
    function Prepared(): State {
      this.(a := a.WatchAll())
    }

    /** The bound coroutine waits; `env` is what happens meanwhile. */
    function Waited(env: seq<Env>): (State, Wake)
      decreases |env|
    {
      if env == [] then (this, StillBound)
      else match env[0]
        case TimesOut => (this.(bound := false), TimedOut)
        case Cancels => (this.(bound := false), Canceled)
        case Loop(e) =>
          var next := Heard(e);
          if next.bound then next.Waited(env[1..]) else (next, Resumed)
    }

    /** `curl_multi_socket_action` for one socket of the pass. */
    function Acted(p: Ptr, calls: seq<Call>): (r: State)
      requires p in a.heap
      ensures r.a.pass == a.pass
    {
      this.(a := a.Update(p, a.heap[p].(bitmask := {})), log := log + [Action(p, a.heap[p].bitmask)]).Scripted(calls)
    }

    /** A sweep over the sockets of a pass: each goes to libcurl, unless it was deleted meanwhile. */
    ghost function Swept(order: seq<Ptr>, scripts: seq<seq<Call>>): State
      decreases |a.pass|
    {
      if !(exists p :: p in a.pass) then this
      else
        var p := Pick(a.pass, order);
        var next := this.(a := a.(pass := a.pass - {p}));
        if p !in a.heap || a.heap[p].deleted then next.Swept(order, scripts)
        else next.Acted(p, First(scripts)).Swept(order, Rest(scripts))
    }

    ghost function Drained(t: Round): State {
      this.(a := a.(pass := a.active, active := {})).Swept(t.order, t.scripts)
    }

    /** The start of a pass, with the timeout if there was one. */
    function Begun(timeoutScript: seq<Call>): State {
      var begun := this.(timer := false, a := a.(executing := true));
      if timerCallback then begun.(timerCallback := false, log := log + [Timeout]).Scripted(timeoutScript) else begun
    }

    function Ended(): State {
      this.(a := a.Release())
    }

    /** `selector_finish`. */
    ghost function Finished(t: Round): State {
      Begun(t.timeoutScript).Drained(t).Ended()
    }
  }

  function First(scripts: seq<seq<Call>>): seq<Call> {
    if scripts == [] then [] else scripts[0]
  }

  function Rest(scripts: seq<seq<Call>>): seq<seq<Call>> {
    if scripts == [] then [] else scripts[1..]
  }

  ghost predicate IsLeast(p: Ptr, ps: set<Ptr>) {
    p in ps && forall q :: q in ps ==> p <= q
  }

  lemma {:induction false} LeastExists(ps: set<Ptr>)
    requires exists p :: p in ps
    ensures exists p :: IsLeast(p, ps)
    decreases |ps|
  {
    var p :| p in ps;
    var others := ps - {p};
    var least := p;
    if exists q :: q in others {
      LeastExists(others);
      var q :| IsLeast(q, others);
      least := if p <= q then p else q;
    }
    forall r | r in ps ensures least <= r {
      assert r == p || r in others;
    }
    assert IsLeast(least, ps);
  }

  /** The socket enumerated next: as `order` has it, and in the order of allocation beyond that. */
  ghost function Pick(ps: set<Ptr>, order: seq<Ptr>): (p: Ptr)
    requires exists p :: p in ps
    ensures p in ps
  {
    if order != [] then (if order[0] in ps then order[0] else Pick(ps, order[1..]))
    else
      LeastExists(ps);
      var p :| IsLeast(p, ps); p
  }

  // ------------------------------------------------------------------ the laws

  /** Objects stay, and their collected flags only grow. */
  ghost predicate Monotone(a: Arena, b: Arena) {
    && a.release <= b.release
    && forall q :: q in a.heap ==> q in b.heap && a.heap[q].bitmask <= b.heap[q].bitmask
  }

  /** A step taken while nobody is bound. */
  ghost predicate Calm(s: State, t: State) {
    && t.Valid() && !t.bound && t.log == s.log
    && t.a.active == s.a.active && t.a.pass == s.a.pass && t.a.executing == s.a.executing
    && (s.a.executing ==> Monotone(s.a, t.a))
    && (s.a.executing || s.a.active == {} ==> s.a.SelectorLive() ==> t.a.SelectorLive())
  }

  lemma SetEventCalm(s: State, fd: int, attach: bool, added: bool)
    requires s.Valid() && !s.bound
    ensures Calm(s, s.SetEvent(fd, attach, added))
  {
    assert s.a.EntryOk(fd);
    if fd in s.a.attached {
      UpdateOk(s.a, s.a.attached[fd], s.a.heap[s.a.attached[fd]].(watched := added));
    } else if attach {
      AllocateOk(s.a, fd, added);
      assert s.a.ObjectOk(s.a.next);
    } else {
      StillbornOk(s.a);
    }
  }

  lemma RemoveCalm(s: State, fd: int)
    requires s.Valid() && !s.bound
    ensures Calm(s, s.(a := s.a.Remove(fd)))
  {
    RemoveOk(s.a, fd);
  }

  lemma HeardCalm(s: State, e: LoopEvent)
    requires s.Valid() && !s.bound
    ensures Calm(s, s.Heard(e))
  {
    if e.SocketEvent? && e.p in s.a.heap {
      UpdateOk(s.a, e.p, s.a.heap[e.p].(bitmask := s.a.heap[e.p].bitmask + {e.flag}, watched := false));
    }
  }

  lemma CalledCalm(s: State, c: Call)
    requires s.Valid() && !s.bound
    ensures Calm(s, s.Called(c))
  {
    match c {
      case Poll(fd, attach, added) => SetEventCalm(s, fd, attach, added);
      case PollRemove(fd) => RemoveCalm(s, fd);
      case SetTimer(_) =>
      case Yields(e) => HeardCalm(s, e);
    }
  }

  lemma {:induction false} ScriptedCalm(s: State, calls: seq<Call>)
    requires s.Valid() && !s.bound
    ensures Calm(s, s.Scripted(calls))
    decreases |calls|
  {
    if calls != [] {
      CalledCalm(s, calls[0]);
      ScriptedCalm(s.Called(calls[0]), calls[1..]);
    }
  }

  /** Nothing but watching changes, and afterwards every socket in the table is watched. */
  lemma PreparedLaw(s: State)
    requires s.Valid() && !s.bound
    ensures Calm(s, s.Prepared()) && s.Prepared().AllWatched() && s.Prepared().a.heap.Keys == s.a.heap.Keys
  {
    var t := s.Prepared();
    forall p ensures t.a.ObjectOk(p) {
      assert s.a.ObjectOk(p);
    }
    forall fd ensures t.a.EntryOk(fd) {
      assert s.a.EntryOk(fd);
    }
    forall fd | fd in t.a.sockets && t.a.sockets[fd] in t.a.heap ensures t.a.heap[t.a.sockets[fd]].watched {
      assert s.a.EntryOk(fd);
    }
    assert t.a.heap.Keys == s.a.heap.Keys;
  }

  /** An event while a coroutine is bound: it is noted, and the resume is queued. */
  lemma HeardBound(s: State, e: LoopEvent)
    requires s.Valid() && s.bound
    ensures s.Heard(e).Valid() && s.a.active <= s.Heard(e).a.active && s.Heard(e).log == s.log
    ensures Monotone(s.a, s.Heard(e).a)
    ensures s.a.SelectorLive() ==> s.Heard(e).a.SelectorLive()
    ensures e.SocketEvent? && e.p in s.a.heap && s.a.heap[e.p].watched ==>
              && e.p in s.Heard(e).a.active && e.flag in s.Heard(e).a.heap[e.p].bitmask
              && s.Heard(e).deferred == 1
    ensures !s.Heard(e).bound <==> e.DeferredRuns? && s.deferred == 1
  {
    if e.SocketEvent? && e.p in s.a.heap && s.a.heap[e.p].watched {
      var noted := s.a.heap[e.p].(bitmask := s.a.heap[e.p].bitmask + {e.flag}, watched := true);
      UpdateOk(s.a, e.p, noted);
      SelectOk(s.a.Update(e.p, noted), s.a.active + {e.p}, s.a.pass, s.a.executing);
    }
  }

  /** While a coroutine waits, a non-empty active set always has its one resume queued. */
  ghost predicate WaitOver(s: State, after: State, w: Wake) {
    && after.Valid() && (w == StillBound <==> after.bound) && !after.a.executing
    && s.a.active <= after.a.active && after.log == s.log
    && (s.a.SelectorLive() ==> after.a.SelectorLive())
    && Monotone(s.a, after.a) && (s.timerCallback ==> after.timerCallback)
  }

  /** What ended a wait: the first thing that is no event, or the queued resume. */
  ghost predicate WokenBy(env: seq<Env>, w: Wake) {
    match w
    case StillBound => forall k :: 0 <= k < |env| ==> env[k].Loop?
    case TimedOut => exists k: nat :: FirstAt(env, k) && env[k] == TimesOut
    case Canceled => exists k: nat :: FirstAt(env, k) && env[k] == Cancels
    case Resumed => exists k: nat :: FirstAt(env, k) && env[k] == Loop(DeferredRuns)
  }

  ghost predicate FirstAt(env: seq<Env>, k: nat) {
    k < |env| && forall i :: 0 <= i < k ==> env[i].Loop?
  }

  lemma {:induction false} WaitedBy(s: State, env: seq<Env>)
    requires s.Valid() && s.bound
    ensures WokenBy(env, s.Waited(env).1)
    decreases |env|
  {
    if env != [] {
      assert FirstAt(env, 0);
      if env[0].Loop? {
        HeardBound(s, env[0].e);
        if s.Heard(env[0].e).bound {
          WaitedBy(s.Heard(env[0].e), env[1..]);
          WokenLater(env, s.Heard(env[0].e).Waited(env[1..]).1);
        }
      }
    }
  }

  lemma WokenLater(env: seq<Env>, w: Wake)
    requires env != [] && env[0].Loop? && WokenBy(env[1..], w)
    ensures WokenBy(env, w)
  {
    assert env == [env[0]] + env[1..];
    if w != StillBound {
      var k: nat :| FirstAt(env[1..], k) && env[1..][k] == (match w case TimedOut => TimesOut case Canceled => Cancels
                                                       case _ => Loop(DeferredRuns));
      assert FirstAt(env, k + 1) && env[k + 1] == env[1..][k];
    }
  }

  lemma {:induction false} WaitedLaw(s: State, env: seq<Env>)
    requires s.Valid() && s.bound
    ensures WaitOver(s, s.Waited(env).0, s.Waited(env).1)
    decreases |env|
  {
    if env != [] && env[0].Loop? {
      HeardBound(s, env[0].e);
      if s.Heard(env[0].e).bound {
        WaitedLaw(s.Heard(env[0].e), env[1..]);
      }
    }
  }

  /** The `k`-th thing that happens in a wait is an event on a watched socket, with the coroutine still bound. */
  ghost predicate HeardAt(s: State, env: seq<Env>, k: nat, p: Ptr, flag: Flag)
    decreases k
  {
    && s.bound && k < |env| && env[0].Loop?
    && (if k == 0 then env[0].e == SocketEvent(p, flag) && p in s.a.heap && s.a.heap[p].watched
        else HeardAt(s.Heard(env[0].e), env[1..], k - 1, p, flag))
  }

  /** When the coroutine wakes up, the socket is active with that flag. */
  lemma {:induction false} HeardStays(s: State, env: seq<Env>, k: nat, p: Ptr, flag: Flag)
    requires s.Valid() && HeardAt(s, env, k, p, flag)
    ensures var after := s.Waited(env).0; p in after.a.active && p in after.a.heap && flag in after.a.heap[p].bitmask
    decreases k
  {
    var next := s.Heard(env[0].e);
    HeardBound(s, env[0].e);
    if k == 0 {
      WaitedLaw(next, env[1..]);
    } else {
      HeardStays(next, env[1..], k - 1, p, flag);
    }
  }

  /** `p` was given to libcurl since `before`, with at least these flags. */
  ghost predicate LoggedSince(before: seq<Action>, after: seq<Action>, p: Ptr, flags: set<Flag>) {
    exists i :: |before| <= i < |after| && after[i].Action? && after[i].p == p && flags <= after[i].flags
  }

  lemma ActedLaw(s: State, p: Ptr, calls: seq<Call>)
    requires s.Valid() && !s.bound && s.a.executing && p in s.a.heap
    ensures var t := s.Acted(p, calls);
            && t.Valid() && !t.bound && t.a.executing && t.a.active == s.a.active
            && t.log == s.log + [Action(p, s.a.heap[p].bitmask)]
            && s.a.release <= t.a.release
            && (s.a.SelectorLive() ==> t.a.SelectorLive())
            && (forall q :: q in s.a.heap ==> q in t.a.heap && (q != p ==> s.a.heap[q].bitmask <= t.a.heap[q].bitmask))
  {
    var cleared := s.a.heap[p].(bitmask := {});
    UpdateOk(s.a, p, cleared);
    var begun := s.(a := s.a.Update(p, cleared), log := s.log + [Action(p, s.a.heap[p].bitmask)]);
    ScriptedCalm(begun, calls);
  }

  /** What a sweep that starts in `s` and ends in `t` has done. */
  ghost predicate SweptOver(s: State, t: State) {
    && t.Valid() && !t.bound && t.a.executing && t.a.active == s.a.active && t.a.pass == {} && t.a.SelectorLive()
    && s.log <= t.log && s.a.release <= t.a.release
    && (forall p :: p in s.a.pass && p in s.a.heap ==>
          LoggedSince(s.log, t.log, p, s.a.heap[p].bitmask) || p in t.a.release)
    && OnceEach(s.log, t.log, s.a.pass)
  }

  /** Since `before` libcurl was given sockets of `ps` only, and none twice. */
  ghost predicate OnceEach(before: seq<Action>, after: seq<Action>, ps: set<Ptr>) {
    && (forall i :: |before| <= i < |after| ==> after[i].Action? && after[i].p in ps)
    && (forall i, k :: |before| <= i < k < |after| ==> after[i].p != after[k].p)
  }

  /** Every socket of a pass is given to libcurl with its collected flags, or was removed meanwhile. */
  lemma {:induction false} SweptLaw(s: State, order: seq<Ptr>, scripts: seq<seq<Call>>)
    requires s.Valid() && !s.bound && s.a.executing && s.a.SelectorLive()
    ensures SweptOver(s, s.Swept(order, scripts))
    decreases |s.a.pass|
  {
    if !(exists p :: p in s.a.pass) {
      assert s.a.pass == {};
    } else {
      var p := Pick(s.a.pass, order);
      var next := s.(a := s.a.(pass := s.a.pass - {p}));
      SelectOk(s.a, s.a.active, s.a.pass - {p}, true);
      assert s.a.ObjectOk(p);
      if s.a.heap[p].deleted {
        SweptLaw(next, order, scripts);
        SkippedLaw(s, next, next.Swept(order, scripts), p);
      } else {
        var acted := next.Acted(p, First(scripts));
        ActedLaw(next, p, First(scripts));
        SweptLaw(acted, order, Rest(scripts));
        HandledLaw(s, acted, acted.Swept(order, Rest(scripts)), p);
      }
    }
  }

  lemma SkippedLaw(s: State, next: State, t: State, p: Ptr)
    requires p in s.a.pass && next == s.(a := s.a.(pass := s.a.pass - {p})) && p in s.a.release
    requires SweptOver(next, t)
    ensures SweptOver(s, t)
  {
    forall q | q in s.a.pass && q in s.a.heap
      ensures LoggedSince(s.log, t.log, q, s.a.heap[q].bitmask) || q in t.a.release {
      if q != p {
        assert q in next.a.pass;
      }
    }
  }

  lemma HandledLaw(s: State, acted: State, t: State, p: Ptr)
    requires p in s.a.pass && p in s.a.heap && acted.a.pass == s.a.pass - {p} && acted.a.active == s.a.active
    requires acted.log == s.log + [Action(p, s.a.heap[p].bitmask)] && s.a.release <= acted.a.release
    requires forall q :: q in s.a.heap ==>
               q in acted.a.heap && (q != p ==> s.a.heap[q].bitmask <= acted.a.heap[q].bitmask)
    requires SweptOver(acted, t)
    ensures SweptOver(s, t)
  {
    assert t.log[|s.log|] == Action(p, s.a.heap[p].bitmask);
    forall q | q in s.a.pass && q in s.a.heap
      ensures LoggedSince(s.log, t.log, q, s.a.heap[q].bitmask) || q in t.a.release {
      if q != p && q !in t.a.release {
        assert LoggedSince(acted.log, t.log, q, acted.a.heap[q].bitmask);
        var i :| |acted.log| <= i < |t.log| && t.log[i].Action? && t.log[i].p == q
                 && acted.a.heap[q].bitmask <= t.log[i].flags;
        assert s.a.heap[q].bitmask <= t.log[i].flags;
      }
    }
    forall i | |s.log| <= i < |t.log|
      ensures t.log[i].Action? && t.log[i].p in s.a.pass && (i > |s.log| ==> t.log[i].p != p) {
      if i > |s.log| {
        assert t.log[i].p in acted.a.pass;
      }
    }
  }

  lemma BegunLaw(s: State, timeoutScript: seq<Call>)
    requires s.Idle()
    ensures var t := s.Begun(timeoutScript);
            && t.Valid() && !t.bound && t.a.executing && t.a.SelectorLive()
            && t.log == s.log + (if s.timerCallback then [Timeout] else [])
            && t.a.active == s.a.active && t.a.pass == {} && Monotone(s.a, t.a)
  {
    SelectOk(s.a, s.a.active, s.a.pass, true);
    var log := s.log + (if s.timerCallback then [Timeout] else []);
    ScriptedCalm(s.(timer := false, timerCallback := false, a := s.a.(executing := true), log := log), timeoutScript);
  }

  /** The sweeps of a pass: one, since nothing becomes active while no coroutine is bound. */
  lemma DrainedLaw(s: State, t: Round)
    requires s.Valid() && !s.bound && s.a.executing && s.a.SelectorLive() && s.a.pass == {}
    ensures SweptOver(s.(a := s.a.(pass := s.a.active, active := {})), s.Drained(t))
    ensures s.a.active == {} ==> s.Drained(t) == s
  {
    SelectOk(s.a, {}, s.a.active, true);
    SweptLaw(s.(a := s.a.(pass := s.a.active, active := {})), t.order, t.scripts);
  }

  /**
   * A pass drops no event: libcurl is told of a timeout that fired, first of all; every active
   * socket goes to libcurl, once, with the flags collected for it, or was removed and is freed
   * now; nothing is active or set aside afterwards.
   */
  ghost predicate PassOver(s: State, after: State) {
    var told := s.log + (if s.timerCallback then [Timeout] else []);
    && after.Quiet() && after.a.release == {} && told <= after.log
    && (forall p :: p in s.a.active ==>
          p in s.a.heap && (LoggedSince(s.log, after.log, p, s.a.heap[p].bitmask) || p in after.a.freed))
    && OnceEach(told, after.log, s.a.active)
  }

  lemma FinishedLaw(s: State, t: Round)
    requires s.Idle()
    ensures PassOver(s, s.Finished(t))
  {
    BegunLaw(s, t.timeoutScript);
    DrainedLaw(s.Begun(t.timeoutScript), t);
    ReleaseOk(s.Begun(t.timeoutScript).Drained(t).a);
  }

  /** The timer is what libcurl asks for, and off once it goes off. */
  function TimerOnce(on: bool, c: Call): bool {
    if c.SetTimer? then c.on else on && !(c.Yields? && c.e.TimerEvent?)
  }

  /** The timer after some calls of libcurl. */
  function TimerAfter(on: bool, calls: seq<Call>): bool
    decreases |calls|
  {
    if calls == [] then on else TimerAfter(TimerOnce(on, calls[0]), calls[1..])
  }

  /** The calls made for the first `n` sockets. */
  function FirstCalls(scripts: seq<seq<Call>>, n: nat): seq<Call> {
    if n == 0 then [] else First(scripts) + FirstCalls(Rest(scripts), n - 1)
  }

  lemma {:induction false} TimerAfterBoth(on: bool, calls: seq<Call>, more: seq<Call>)
    ensures TimerAfter(on, calls + more) == TimerAfter(TimerAfter(on, calls), more)
    decreases |calls|
  {
    if calls == [] {
      assert calls + more == more;
    } else {
      assert (calls + more)[1..] == calls[1..] + more;
      TimerAfterBoth(TimerOnce(on, calls[0]), calls[1..], more);
    }
  }

  lemma CalledTimer(s: State, c: Call)
    ensures s.Called(c).timer == TimerOnce(s.timer, c) && s.Called(c).log == s.log
  {
    match c
    case Yields(e) => assert s.Called(c) == s.Heard(e);
    case _ =>
  }

  lemma {:induction false} ScriptedTimer(s: State, calls: seq<Call>)
    ensures s.Scripted(calls).timer == TimerAfter(s.timer, calls) && s.Scripted(calls).log == s.log
    decreases |calls|
  {
    if calls != [] {
      CalledTimer(s, calls[0]);
      ScriptedTimer(s.Called(calls[0]), calls[1..]);
    }
  }

  lemma {:induction false} SweptTimer(s: State, order: seq<Ptr>, scripts: seq<seq<Call>>)
    ensures var t := s.Swept(order, scripts);
            |s.log| <= |t.log| && t.timer == TimerAfter(s.timer, FirstCalls(scripts, |t.log| - |s.log|))
    decreases |s.a.pass|
  {
    if exists p :: p in s.a.pass {
      var p := Pick(s.a.pass, order);
      var next := s.(a := s.a.(pass := s.a.pass - {p}));
      if p !in s.a.heap || s.a.heap[p].deleted {
        SweptTimer(next, order, scripts);
      } else {
        var given := next.(a := next.a.Update(p, next.a.heap[p].(bitmask := {})),
                           log := next.log + [Action(p, next.a.heap[p].bitmask)]);
        var acted := next.Acted(p, First(scripts));
        ScriptedTimer(given, First(scripts));
        SweptTimer(acted, order, Rest(scripts));
        var n := |acted.Swept(order, Rest(scripts)).log| - |acted.log|;
        TimerAfterBoth(s.timer, First(scripts), FirstCalls(Rest(scripts), n));
      }
    }
  }

  /** A pass takes the timer off, and leaves it as libcurl last asked for while it was told of timeout and sockets. */
  lemma PassTimer(s: State, t: Round)
    requires s.Idle()
    ensures var told := |s.log| + if s.timerCallback then 1 else 0;
            && told <= |s.Finished(t).log|
            && s.Finished(t).timer == TimerAfter(false, (if s.timerCallback then t.timeoutScript else [])
                                                        + FirstCalls(t.scripts, |s.Finished(t).log| - told))
  {
    BegunLaw(s, t.timeoutScript);
    var begun := s.Begun(t.timeoutScript);
    var calls := if s.timerCallback then t.timeoutScript else [];
    var log := s.log + (if s.timerCallback then [Timeout] else []);
    ScriptedTimer(s.(timer := false, timerCallback := false, a := s.a.(executing := true), log := log), calls);
    SweptTimer(begun.(a := begun.a.(pass := begun.a.active, active := {})), t.order, t.scripts);
    TimerAfterBoth(false, calls, FirstCalls(t.scripts, |s.Finished(t).log| - |log|));
  }

  // ------------------------------------------------------------ exec and select

  /** The wait in `exec` and `select`, once every socket is watched. */
  function WaitedBound(s: State, env: seq<Env>): (State, Wake) {
    s.(bound := true).Waited(env)
  }

  /** Every socket is watched, and the coroutine waits if it has something to wait for. */
  function Polled(s: State, env: seq<Env>): (State, Wake) {
    var ready := s.Prepared();
    if ready.a.active == {} && (ready.timer || ready.a.sockets != map[]) then WaitedBound(ready, env)
    else (ready, Resumed)
  }

  /** One turn of `exec`. */
  ghost function TurnOf(s: State, t: Round): (State, Outcome) {
    var woken := Polled(s, t.env);
    if woken.1 == StillBound then (woken.0, Suspended)
    else if woken.1 == Canceled then (woken.0, Aborted)
    else
      var done := woken.0.Finished(t);
      if t.running == 0 then (done, Done) else (done.(timer := t.timerOn), StillRunning)
  }

  ghost function Turns(s: State, rounds: seq<Round>): (State, Outcome)
    decreases |rounds|
  {
    if rounds == [] then (s, StillRunning)
    else
      var turn := TurnOf(s, rounds[0]);
      if turn.1 == StillRunning then Turns(turn.0, rounds[1..]) else turn
  }

  /** `exec`: libcurl is told of the transfer before the turns and relieved of it after them. */
  ghost function Executed(s: State, opening: seq<Call>, rounds: seq<Round>, closing: seq<Call>): (State, Outcome) {
    var turned := Turns(s.Scripted(opening), rounds);
    if turned.1 == Done || turned.1 == Aborted then (turned.0.(timer := false).Scripted(closing), turned.1) else turned
  }

  /** `select` up to the state in which its coroutine wakes up, if it does. */
  function Woken(s: State, all: seq<Call>, t: Round): (State, Wake) {
    var ready := s.Scripted(all).Prepared().(timer := t.timerOn);
    if ready.timer || ready.a.sockets != map[] then WaitedBound(ready, t.env) else (ready, StillBound)
  }

  ghost function Selected(s: State, all: seq<Call>, t: Round): (State, nat) {
    var woken := Woken(s, all, t);
    if woken.1 == StillBound then (woken.0, 0) else (woken.0.Finished(t), |woken.0.a.active|)
  }

  ghost function StepOf(s: State, op: Op): State {
    match op
    case ExecOp(opening, rounds, closing) => Executed(s, opening, rounds, closing).0
    case SelectOp(all, round) => Selected(s, all, round).0
    case LibcurlOp(calls) => s.Scripted(calls)
  }

  /** Uses of the handle one after the other, up to a coroutine that stays bound or events left pending. */
  ghost function RunOf(s: State, ops: seq<Op>): State
    decreases |ops|
  {
    if ops == [] then s
    else
      var t := StepOf(s, ops[0]);
      if t.bound || t.a.active != {} then t else RunOf(t, ops[1..])
  }

  /** The turn ends well, or suspended, or aborted; only an abort can leave events pending. */
  ghost predicate Outcomes(s: State, r: Outcome) {
    && s.Valid() && s.a.SelectorLive() && !s.a.executing && (r == Suspended <==> s.bound)
    && (r == Done || r == StillRunning ==> s.Quiet())
  }

  /** A wait ends with a coroutine still bound, or in a state in which a pass can start. */
  ghost predicate Waiting(s: State, r: (State, Wake)) {
    && r.0.Valid() && r.0.a.SelectorLive() && !r.0.a.executing && r.0.log == s.log
    && (if r.1 == StillBound then r.0.bound else r.0.Idle())
  }

  lemma PolledLaw(s: State, env: seq<Env>)
    requires s.Quiet()
    ensures Waiting(s, Polled(s, env))
  {
    PreparedLaw(s);
    WaitedLaw(s.Prepared().(bound := true), env);
  }

  lemma TurnLaw(s: State, t: Round)
    requires s.Quiet()
    ensures Outcomes(TurnOf(s, t).0, TurnOf(s, t).1)
  {
    PolledLaw(s, t.env);
    var woken := Polled(s, t.env);
    if woken.1 != StillBound {
      FinishedLaw(woken.0, t);
    }
  }

  /** The coroutine waits in this turn, and hears that event while it does. */
  ghost predicate TurnHears(s: State, t: Round, k: nat, p: Ptr, flag: Flag) {
    && (s.timer || s.a.sockets != map[])
    && HeardAt(s.Prepared().(bound := true), t.env, k, p, flag)
  }

  /**
   * An event from its arrival to libcurl: heard while a coroutine waits, on a watched socket, it
   * is among the flags the socket is given to libcurl with in the same turn, or the socket is
   * freed; unless nothing has woken the coroutine yet, or it was cancelled.
   */
  lemma EventReachesLibcurl(s: State, t: Round, k: nat, p: Ptr, flag: Flag)
    requires s.Quiet() && TurnHears(s, t, k, p, flag)
    ensures var after := TurnOf(s, t);
            after.1 == Suspended || after.1 == Aborted
            || LoggedSince(s.log, after.0.log, p, {flag}) || p in after.0.a.freed
  {
    PreparedLaw(s);
    PolledLaw(s, t.env);
    HeardStays(s.Prepared().(bound := true), t.env, k, p, flag);
    var woken := Polled(s, t.env);
    assert woken == WaitedBound(s.Prepared(), t.env);
    if woken.1 != StillBound && woken.1 != Canceled {
      FinishedLaw(woken.0, t);
      var done := woken.0.Finished(t);
      if p !in done.a.freed {
        LoggedWith(woken.0.log, done.log, p, woken.0.a.heap[p].bitmask, flag);
      }
    }
  }

  lemma LoggedWith(before: seq<Action>, after: seq<Action>, p: Ptr, flags: set<Flag>, flag: Flag)
    requires LoggedSince(before, after, p, flags) && flag in flags
    ensures LoggedSince(before, after, p, {flag})
  {
    var i :| |before| <= i < |after| && after[i].Action? && after[i].p == p && flags <= after[i].flags;
    assert {flag} <= after[i].flags;
  }

  lemma {:induction false} TurnsLaw(s: State, rounds: seq<Round>)
    requires s.Quiet()
    ensures Outcomes(Turns(s, rounds).0, Turns(s, rounds).1)
    decreases |rounds|
  {
    if rounds != [] {
      TurnLaw(s, rounds[0]);
      if TurnOf(s, rounds[0]).1 == StillRunning {
        TurnsLaw(TurnOf(s, rounds[0]).0, rounds[1..]);
      }
    }
  }

  /** The first round after which no transfer is running. */
  ghost predicate FirstZero(rounds: seq<Round>, i: nat) {
    i < |rounds| && rounds[i].running == 0 && AllRunning(rounds[..i])
  }

  ghost predicate AllRunning(rounds: seq<Round>) {
    forall k :: 0 <= k < |rounds| ==> rounds[k].running > 0
  }

  /** A round, after running ones, in which the coroutine was not woken up, or was cancelled. */
  ghost predicate StopsAt(rounds: seq<Round>, i: nat, r: Outcome) {
    i < |rounds| && AllRunning(rounds[..i]) && WokenBy(rounds[i].env, if r == Suspended then StillBound else Canceled)
  }

  /** `exec` is done exactly at the first round that reports no running transfer. */
  ghost predicate RoundsLaw(rounds: seq<Round>, r: Outcome) {
    match r
    case Done => exists i: nat :: FirstZero(rounds, i)
    case StillRunning => AllRunning(rounds)
    case _ => exists i: nat :: StopsAt(rounds, i, r)
  }

  lemma TurnReports(s: State, t: Round)
    requires s.Quiet()
    ensures var r := TurnOf(s, t).1;
            && (r == Done ==> t.running == 0)
            && (r == StillRunning ==> t.running > 0 && TurnOf(s, t).0.timer == t.timerOn)
            && (r == Suspended ==> WokenBy(t.env, StillBound)) && (r == Aborted ==> WokenBy(t.env, Canceled))
  {
    PreparedLaw(s);
    WaitedBy(s.Prepared().(bound := true), t.env);
  }

  lemma RoundsLater(rounds: seq<Round>, r: Outcome)
    requires rounds != [] && rounds[0].running > 0 && RoundsLaw(rounds[1..], r)
    ensures RoundsLaw(rounds, r)
  {
    assert rounds == [rounds[0]] + rounds[1..];
    match r {
      case Done =>
        var i: nat :| FirstZero(rounds[1..], i);
        assert rounds[..i + 1] == [rounds[0]] + rounds[1..][..i];
        assert FirstZero(rounds, i + 1);
      case StillRunning =>
      case _ =>
        var i: nat :| StopsAt(rounds[1..], i, r);
        assert rounds[..i + 1] == [rounds[0]] + rounds[1..][..i];
        assert StopsAt(rounds, i + 1, r);
    }
  }

  lemma {:induction false} TurnsReport(s: State, rounds: seq<Round>)
    requires s.Quiet()
    ensures RoundsLaw(rounds, Turns(s, rounds).1)
    decreases |rounds|
  {
    if rounds != [] {
      TurnLaw(s, rounds[0]);
      TurnReports(s, rounds[0]);
      var turn := TurnOf(s, rounds[0]);
      if turn.1 == StillRunning {
        TurnsReport(turn.0, rounds[1..]);
        RoundsLater(rounds, Turns(s, rounds).1);
      } else if turn.1 == Done {
        assert FirstZero(rounds, 0);
      } else {
        assert StopsAt(rounds, 0, turn.1);
      }
    }
  }

  /** No round after the first that reports no running transfer is looked at. */
  lemma {:induction false} TurnsStop(s: State, rounds: seq<Round>, i: nat, more: seq<Round>)
    requires s.Quiet() && FirstZero(rounds, i)
    ensures Turns(s, rounds[..i + 1] + more) == Turns(s, rounds[..i + 1])
    decreases i
  {
    var all, some := rounds[..i + 1] + more, rounds[..i + 1];
    TurnLaw(s, rounds[0]);
    TurnReports(s, rounds[0]);
    var turn := TurnOf(s, rounds[0]);
    assert all[0] == some[0] == rounds[0];
    if turn.1 == StillRunning {
      assert i > 0 && all[1..] == rounds[1..][..i] + more && some[1..] == rounds[1..][..i];
      assert rounds[1..][..i - 1] == rounds[..i][1..];
      TurnsStop(turn.0, rounds[1..], i - 1, more);
    }
  }

  /**
   * `exec` keeps the invariants in every run.  Unless it was cancelled with events pending, it
   * leaves only live objects and nothing to handle, or a coroutine still bound.
   */
  ghost predicate ExecOver(after: State, r: Outcome) {
    && after.Valid() && (r == Suspended <==> after.bound)
    && (r != Suspended && after.a.active == {} ==> after.Quiet())
    && (r == Done || r == StillRunning ==> after.Quiet())
    && (r == Suspended ==> after.a.SelectorLive())
  }

  lemma ExecutedLaw(s: State, opening: seq<Call>, rounds: seq<Round>, closing: seq<Call>)
    requires s.Quiet()
    ensures ExecOver(Executed(s, opening, rounds, closing).0, Executed(s, opening, rounds, closing).1)
  {
    ScriptedCalm(s, opening);
    TurnsLaw(s.Scripted(opening), rounds);
    var turned := Turns(s.Scripted(opening), rounds);
    if turned.1 == Done || turned.1 == Aborted {
      ScriptedCalm(turned.0.(timer := false), closing);
    }
  }

  lemma WokenLaw(s: State, all: seq<Call>, t: Round)
    requires s.Quiet()
    ensures Woken(s, all, t).1 != StillBound ==> Waiting(s, Woken(s, all, t))
    ensures Woken(s, all, t).0.Valid() && Woken(s, all, t).0.a.SelectorLive()
    ensures !Woken(s, all, t).0.bound ==> Woken(s, all, t).0.Idle()
    ensures Woken(s, all, t).1 == StillBound && !Woken(s, all, t).0.bound ==> Woken(s, all, t).0.Quiet()
  {
    ScriptedCalm(s, all);
    PreparedLaw(s.Scripted(all));
    WaitedLaw(s.Scripted(all).Prepared().(timer := t.timerOn, bound := true), t.env);
  }

  /** `select` counts the sockets that had events, each of which is handled or was removed. */
  ghost predicate SelectOver(woken: (State, Wake), after: State, count: nat) {
    && after.Valid() && (if after.bound then after.a.SelectorLive() else after.Quiet())
    && (woken.1 != StillBound ==> count == |woken.0.a.active| && PassOver(woken.0, after))
  }

  lemma SelectedLaw(s: State, all: seq<Call>, t: Round)
    requires s.Quiet()
    ensures SelectOver(Woken(s, all, t), Selected(s, all, t).0, Selected(s, all, t).1)
  {
    WokenLaw(s, all, t);
    if Woken(s, all, t).1 != StillBound {
      FinishedLaw(Woken(s, all, t).0, t);
    }
  }

  /** A coroutine stays bound over live objects; or nothing is left to handle, but for a cancellation. */
  ghost predicate UseOver(s: State) {
    && s.Valid() && (s.bound ==> s.a.SelectorLive())
    && (!s.bound && s.a.active == {} ==> s.Quiet())
  }

  lemma StepLaw(s: State, op: Op)
    requires s.Quiet()
    ensures UseOver(StepOf(s, op))
  {
    match op {
      case ExecOp(opening, rounds, closing) => ExecutedLaw(s, opening, rounds, closing);
      case SelectOp(all, round) => SelectedLaw(s, all, round);
      case LibcurlOp(calls) => ScriptedCalm(s, calls);
    }
  }

  /**
   * Over every sequence of uses, up to a coroutine that stays bound or a cancellation that left
   * events pending: objects are freed once, the selector holds live ones, no wake-up is lost.
   */
  lemma {:induction false} RunLaw(s: State, ops: seq<Op>)
    requires s.Quiet()
    ensures UseOver(RunOf(s, ops))
    decreases |ops|
  {
    if ops != [] {
      StepLaw(s, ops[0]);
      var t := StepOf(s, ops[0]);
      if !t.bound && t.a.active == {} {
        RunLaw(t, ops[1..]);
      }
    }
  }

  const FRESH := State(Arena(map[], 0, {}, map[], map[], {}, {}, {}, false), false, false, false, false, 0, [])

  /**
   * A cancelled `exec` can leave the selector with a freed object: the transfer opened one
   * socket, an event came in for it, the coroutine was cancelled, and libcurl gave the socket up.
   */
  lemma CancelLeavesFreed(fd: int, t: Round)
    requires t.env == [Loop(SocketEvent(0, In)), Cancels]
    ensures var after := Executed(FRESH, [Poll(fd, true, true)], [t], [PollRemove(fd)]);
            after.1 == Aborted && after.0.a.active == {0} && after.0.a.heap == map[] && !after.0.a.SelectorLive()
  {
    var opening, closing := [Poll(fd, true, true)], [PollRemove(fd)];
    var open := FRESH.(a := FRESH.a.Allocate(fd, true));
    assert opening[1..] == [] && FRESH.Scripted(opening) == FRESH.Called(opening[0]).Scripted([]);
    assert FRESH.Scripted(opening) == open;
    var ready := open.Prepared();
    assert ready.a.heap == open.a.heap;
    assert ready == open && fd in ready.a.sockets && ready.a.sockets != map[];
    var waiting := ready.(bound := true);
    var noted := waiting.Ready(0, In);
    assert t.env[1..] == [Cancels];
    assert waiting.Heard(SocketEvent(0, In)) == noted && noted.bound;
    assert noted.Waited([Cancels]) == (noted.(bound := false), Canceled);
    assert waiting.Waited(t.env) == (noted.(bound := false), Canceled);
    var woken := noted.(bound := false);
    assert TurnOf(open, t) == (woken, Aborted);
    assert Turns(open, [t]) == (woken, Aborted);
    assert closing[1..] == [];
    var last := woken.(timer := false);
    assert last.Scripted(closing) == last.(a := last.a.Remove(fd));
    assert last.a.attached == map[fd := 0] && last.a.heap.Keys == {0};
    assert 0 in last.a.Remove(fd).active && 0 !in last.a.Remove(fd).heap;
  }

  // ------------------------------------------------------------------- the handle

  /** The smallest of a set. */
  method Least(ps: set<Ptr>) returns (p: Ptr)
    requires exists q :: q in ps
    ensures IsLeast(p, ps)
  {
    p :| p in ps;
    var todo := ps - {p};
    while exists q :: q in todo
      invariant p in ps && todo <= ps && forall q :: q in ps ==> q in todo || p <= q
      decreases |todo|
    {
      var q :| q in todo;
      p := if q < p then q else p;
      todo := todo - {q};
    }
  }

  /** The next socket of a pass. */
  method Choose(ps: set<Ptr>, order: seq<Ptr>) returns (p: Ptr)
    requires exists q :: q in ps
    ensures p == Pick(ps, order)
    decreases |order|
  {
    if order == [] {
      p := Least(ps);
    } else if order[0] in ps {
      p := order[0];
    } else {
      p := Choose(ps, order[1..]);
    }
  }

  class Multi {
    var heap: map<Ptr, Sock>                 // the socket objects there are
    var next: Ptr
    ghost var freed: set<Ptr>
    var sockets: map<int, Ptr>
    var attached: map<int, Ptr>              // what curl_multi_assign told libcurl
    var active: set<Ptr>                     // selector.active_sockets
    var pass: set<Ptr>                       // what the running pass still has to handle
    var release: set<Ptr>                    // selector.release_sockets
    var executing: bool
    var timerCallback: bool
    var timer: bool
    var bound: bool                          // a coroutine is suspended on the handle
    var deferCallback: bool
    var deferred: nat                        // resume tasks the reactor holds for this handle
    ghost var log: seq<Action>               // the calls of curl_multi_socket_action

    ghost function A(): Arena
      reads this
    {
      Arena(heap, next, freed, sockets, attached, active, pass, release, executing)
    }

    ghost function S(): State
      reads this
    {
      State(A(), timerCallback, timer, bound, deferCallback, deferred, log)
    }

    constructor ()
      ensures S() == FRESH && S().Quiet()
    {
      heap, next, freed, sockets, attached, active, pass, release := map[], 0, {}, map[], map[], {}, {}, {};
      executing, timerCallback, timer, bound, deferCallback, deferred, log := false, false, false, false, false, 0, [];
    }

    /** `set_event`: a new object for a new descriptor; in any case the reactor is told. */
    method SetEvent(fd: int, attach: bool, added: bool)
      modifies this`heap, this`next, this`freed, this`sockets, this`attached
      ensures A() == old(A()).Add(fd, attach, added)
      ensures fd in attached <==> fd in old(attached) || attach
      ensures fd in attached && attached[fd] in heap ==>
                heap[attached[fd]].watched == added && (fd in old(attached) ==> attached == old(attached))
    {
      if fd in attached {
        var p := attached[fd];
        if p in heap {
          heap := heap[p := heap[p].(watched := added)];
        }
      } else {
        var p := next;
        next := next + 1;
        if !attach {
          freed := freed + {p};
          return;
        }
        attached := attached[fd := p];
        heap := heap[p := Sock(fd, {}, false, added)];
        sockets := sockets[fd := p];
      }
    }

    /** `del_event`: during a pass the object is only set aside. */
    method DelEvent(fd: int)
      modifies this`heap, this`freed, this`sockets, this`attached, this`release
      ensures A() == old(A()).Remove(fd)
      ensures fd !in attached && fd !in sockets
    {
      sockets := sockets - {fd};
      if fd in attached && attached[fd] in heap {
        var p := attached[fd];
        if executing {
          heap := heap[p := heap[p].(deleted := true, watched := false)];
          release := release + {p};
        } else {
          heap, freed := heap - {p}, freed + {p};
        }
      }
      attached := attached - {fd};
    }

    /** Queue a resume, unless one is queued. */
    method Defer()
      modifies this`deferCallback, this`deferred
      ensures S() == old(S()).Deferred()
      ensures deferCallback && (old(S()).WakeOk() ==> deferred == 1)
    {
      if !deferCallback {
        deferCallback, deferred := true, deferred + 1;
      }
    }

    /** `cb_readable`, `cb_writable`, `cb_error`. */
    method OnSocket(p: Ptr, flag: Flag)
      modifies this
      ensures S() == old(S()).Ready(p, flag)
      ensures active == old(active) + if bound && p in heap && old(heap)[p].watched then {p} else {}
      ensures p in old(heap) && old(heap)[p].watched ==>
                heap == old(heap)[p := old(heap)[p].(bitmask := old(heap)[p].bitmask + {flag}, watched := bound)]
      ensures !bound ==> deferCallback == old(deferCallback) && deferred == old(deferred)
    {
      if p in heap && heap[p].watched {
        heap := heap[p := heap[p].(bitmask := heap[p].bitmask + {flag}, watched := bound)];
        if bound {
          active := active + {p};
          Defer();
        }
      }
    }

    method OnTimer()
      modifies this
      ensures S() == old(S()).TimerFired()
      ensures !timer && (old(timer) ==> timerCallback && (bound ==> deferCallback))
      ensures !bound ==> deferCallback == old(deferCallback) && deferred == old(deferred)
    {
      if timer {
        timer, timerCallback := false, true;
        if bound {
          Defer();
        }
      }
    }

    method OnDeferred()
      modifies this
      ensures S() == old(S()).DeferredRun()
      ensures deferred == 0 && (bound <==> old(bound) && old(deferred) == 0)
    {
      if deferred > 0 {
        bound := false;
      }
      deferCallback, deferred := false, 0;
    }

    /** One event of the loop. */
    method OnLoop(e: LoopEvent)
      modifies this
      ensures S() == old(S()).Heard(e)
    {
      match e {
        case SocketEvent(p, flag) => OnSocket(p, flag);
        case TimerEvent => OnTimer();
        case DeferredRuns => OnDeferred();
      }
    }

    /** `handle_socket` and `handle_timeout`. */
    method OnCall(c: Call)
      modifies this
      ensures S() == old(S()).Called(c)
      ensures c.SetTimer? ==> timer == c.on && A() == old(A())
      ensures c.PollRemove? ==> c.fd !in attached && c.fd !in sockets
      ensures c.Poll? && c.attach ==> c.fd in attached
    {
      match c {
        case Poll(fd, attach, added) => SetEvent(fd, attach, added);
        case PollRemove(fd) => DelEvent(fd);
        case SetTimer(on) => timer := on;
        case Yields(e) => OnLoop(e);
      }
    }

    /** What libcurl does inside one of its functions. */
    method RunScript(calls: seq<Call>)
      modifies this
      ensures S() == old(S()).Scripted(calls)
      ensures old(S()).Valid() && !old(bound) ==> Calm(old(S()), S())
      decreases |calls|
    {
      if S().Valid() && !bound {
        ScriptedCalm(S(), calls);
      }
      if calls != [] {
        OnCall(calls[0]);
        RunScript(calls[1..]);
      }
    }

    /** `selector_prepare`: the reactor watches every socket in the table again. */
    method Prepare()
      requires A().Ok()
      modifies this`heap
      ensures A() == old(A()).WatchAll()
    {
      var todo := sockets.Keys;
      while exists fd :: fd in todo
        invariant todo <= sockets.Keys && heap.Keys == old(heap).Keys
        invariant forall p :: p in heap ==>
                    heap[p] == if heap[p].fd in sockets && heap[p].fd !in todo && sockets[heap[p].fd] == p
                               then old(heap)[p].(watched := true) else old(heap)[p]
        decreases |todo|
      {
        var fd :| fd in todo;
        assert old(A()).EntryOk(fd);
        var p := sockets[fd];
        heap := heap[p := heap[p].(watched := true)];
        todo := todo - {fd};
      }
      assert heap == old(A()).WatchAll().heap;
    }

    /** The bound coroutine waits; `env` is what happens meanwhile. */
    method Suspend(env: seq<Env>) returns (w: Wake)
      modifies this
      ensures (S(), w) == old(S()).Waited(env)
      ensures old(S()).Valid() && old(bound) ==> WaitOver(old(S()), S(), w) && WokenBy(env, w)
      decreases |env|
    {
      if S().Valid() && bound {
        WaitedLaw(S(), env);
        WaitedBy(S(), env);
      }
      if env == [] {
        return StillBound;
      }
      match env[0] {
        case TimesOut =>
          bound := false;
          return TimedOut;
        case Cancels =>
          bound := false;
          return Canceled;
        case Loop(e) =>
          OnLoop(e);
          if !bound {
            return Resumed;
          }
      }
      w := Suspend(env[1..]);
    }

    method Wait(env: seq<Env>) returns (w: Wake)
      modifies this
      ensures (S(), w) == WaitedBound(old(S()), env)
    {
      bound := true;
      w := Suspend(env);
    }

    /** `curl_multi_socket_action` for a socket: libcurl is only ever given live, undeleted ones. */
    method SocketAction(p: Ptr, calls: seq<Call>)
      requires p in heap && !heap[p].deleted
      modifies this
      ensures S() == old(S()).Acted(p, calls)
      ensures calls == [] ==>
                && heap == old(heap)[p := old(heap)[p].(bitmask := {})]
                && log == old(log) + [Action(p, old(heap)[p].bitmask)]
    {
      log := log + [Action(p, heap[p].bitmask)];
      heap := heap[p := heap[p].(bitmask := {})];
      RunScript(calls);
    }

    /** One sweep of a pass. */
    method HandlePass(order: seq<Ptr>, scripts: seq<seq<Call>>)
      modifies this
      ensures S() == old(S()).Swept(order, scripts)
      ensures old(S()).Valid() && !old(bound) && old(executing) && old(S()).a.SelectorLive() ==>
                SweptOver(old(S()), S())
    {
      if S().Valid() && !bound && executing && S().a.SelectorLive() {
        SweptLaw(S(), order, scripts);
      }
      var rest := scripts;
      while exists p :: p in pass
        invariant S().Swept(order, rest) == old(S()).Swept(order, scripts)
        decreases |pass|
      {
        var p := Choose(pass, order);
        pass := pass - {p};
        if p in heap && !heap[p].deleted {
          SocketAction(p, First(rest));
          rest := Rest(rest);
        }
      }
    }

    /** The sweeps until nothing is active. */
    method Drain(t: Round)
      requires S().Valid() && !bound && executing && S().a.SelectorLive() && pass == {}
      modifies this
      ensures S() == old(S()).Drained(t)
    {
      DrainedLaw(S(), t);
      while active != {}
        invariant S() == old(S()) || (active == {} && S() == old(S()).Drained(t))
        decreases |active|
      {
        pass, active := active, {};
        HandlePass(t.order, t.scripts);
      }
    }

    method Begin(timeoutScript: seq<Call>)
      modifies this
      ensures S() == old(S()).Begun(timeoutScript)
      ensures !old(timerCallback) || timeoutScript == [] ==> !timer && !timerCallback && executing
    {
      timer, executing := false, true;
      if timerCallback {
        timerCallback, log := false, log + [Timeout];
        assert S() == old(S()).(timer := false, timerCallback := false, log := log, a := A());
        RunScript(timeoutScript);
      }
    }

    /** What was removed during the pass is freed. */
    method End()
      modifies this`executing, this`heap, this`freed, this`release
      ensures S() == old(S()).Ended()
    {
      executing := false;
      heap, freed := heap - release, freed + release;
      release := {};
    }

    /** `selector_finish`. */
    method Finish(t: Round)
      requires S().Idle()
      modifies this
      ensures S() == old(S()).Finished(t) && PassOver(old(S()), S())
    {
      FinishedLaw(S(), t);
      BegunLaw(S(), t.timeoutScript);
      Begin(t.timeoutScript);
      Drain(t);
      End();
    }

    method Poll(env: seq<Env>) returns (w: Wake)
      requires A().Ok()
      modifies this
      ensures (S(), w) == Polled(old(S()), env)
      ensures if old(active) == {} && (old(timer) || old(sockets) != map[])
              then (S(), w) == old(S()).Prepared().(bound := true).Waited(env)
              else w == Resumed && S() == old(S()).Prepared()
    {
      Prepare();
      if active == {} && (timer || sockets != map[]) {
        w := Wait(env);
      } else {
        w := Resumed;
      }
    }

    /** One turn of the loop in `exec`. */
    method Turn(t: Round) returns (r: Outcome)
      requires S().Quiet()
      modifies this
      ensures (S(), r) == TurnOf(old(S()), t) && Outcomes(S(), r)
      ensures (r == Done ==> t.running == 0) && (r == StillRunning ==> t.running > 0 && timer == t.timerOn)
    {
      TurnReports(S(), t);
      TurnLaw(S(), t);
      PolledLaw(S(), t.env);
      var w := Poll(t.env);
      if w == StillBound {
        return Suspended;
      }
      if w == Canceled {
        return Aborted;
      }
      Finish(t);
      if t.running == 0 {
        return Done;
      }
      timer := t.timerOn;
      r := StillRunning;
    }

    /** `exec`: run one transfer. */
    method Exec(opening: seq<Call>, rounds: seq<Round>, closing: seq<Call>) returns (r: Outcome)
      requires S().Quiet()
      modifies this
      ensures (S(), r) == Executed(old(S()), opening, rounds, closing) && ExecOver(S(), r)
      ensures RoundsLaw(rounds, r) && (rounds == [] ==> S() == old(S()).Scripted(opening))
      ensures r == Done || r == Aborted ==> exists s: State :: S() == s.(timer := false).Scripted(closing)
    {
      ExecutedLaw(S(), opening, rounds, closing);
      ScriptedCalm(S(), opening);
      TurnsReport(S().Scripted(opening), rounds);
      RunScript(opening);
      r := RunRounds(rounds);
      if r == Done || r == Aborted {
        timer := false;
        RunScript(closing);
      }
    }

    /** The loop in `exec`. */
    method RunRounds(rounds: seq<Round>) returns (r: Outcome)
      requires S().Quiet()
      modifies this
      ensures (S(), r) == Turns(old(S()), rounds)
    {
      r := StillRunning;
      var i := 0;
      while i < |rounds| && r == StillRunning
        invariant i <= |rounds| && (r == StillRunning ==> S().Quiet())
        invariant Turns(old(S()), rounds) == if r == StillRunning then Turns(S(), rounds[i..]) else (S(), r)
        decreases |rounds| - i
      {
        TurnLaw(S(), rounds[i]);
        assert rounds[i..][1..] == rounds[i + 1..];
        r := Turn(rounds[i]);
        i := i + 1;
      }
    }

    method AwaitAny(all: seq<Call>, t: Round) returns (w: Wake)
      requires S().Scripted(all).a.Ok()
      modifies this
      ensures (S(), w) == Woken(old(S()), all, t)
      ensures var ready := old(S()).Scripted(all).Prepared().(timer := t.timerOn);
              if t.timerOn || ready.a.sockets != map[] then (S(), w) == ready.(bound := true).Waited(t.env)
              else S() == ready
    {
      RunScript(all);
      Prepare();
      timer := t.timerOn;
      assert S() == old(S()).Scripted(all).Prepared().(timer := t.timerOn);
      if timer || sockets != map[] {
        w := Wait(t.env);
      } else {
        w := StillBound;
      }
    }

    /** `select`: one suspension and one pass; returns the number of sockets that had events. */
    method Select(all: seq<Call>, t: Round) returns (count: nat)
      requires S().Quiet()
      modifies this
      ensures (S(), count) == Selected(old(S()), all, t) && SelectOver(Woken(old(S()), all, t), S(), count)
      ensures !t.timerOn && old(S()).Scripted(all).a.sockets == map[] ==> count == 0 && !bound
    {
      SelectedLaw(S(), all, t);
      ScriptedCalm(S(), all);
      WokenLaw(S(), all, t);
      var w := AwaitAny(all, t);
      if w == StillBound {
        return 0;
      }
      count := |active|;
      Finish(t);
    }

    method Use(op: Op)
      requires S().Quiet()
      modifies this
      ensures S() == StepOf(old(S()), op)
    {
      match op {
        case ExecOp(opening, rounds, closing) => var _ := Exec(opening, rounds, closing);
        case SelectOp(all, round) => var _ := Select(all, round);
        case LibcurlOp(calls) => RunScript(calls);
      }
    }

    /** Uses one after the other. */
    method Run(ops: seq<Op>)
      requires S().Quiet()
      modifies this
      ensures S() == RunOf(old(S()), ops) && UseOver(S())
      decreases |ops|
    {
      RunLaw(S(), ops);
      if ops != [] {
        StepLaw(S(), ops[0]);
        Use(ops[0]);
        if !bound && active == {} {
          Run(ops[1..]);
        }
      }
    }
  }
}
