/**
 * Coroutine::join (ext-src/swoole_coroutine.cc): a joiner hangs one callback on every
 * context it waits for, the last of them to close queues a deferred resume, and a
 * timeout or a cancellation must take all of that back.
 */
module JoinRegistry {
  import opened Prelude

  type Cid = int
  type JoinId = nat

  /** The main context can be joined but never closes. */
  const MAIN: Cid := -1

  datatype Phase = Registering | Waiting | Returned(ok: bool)

  /** One call of `join`: its `co_set`, its shared `canceled` flag and whom it ever registered. */
  datatype Join = JoinCall(joiner: Cid, coSet: set<Cid>, canceled: bool, phase: Phase, registered: set<Cid>)

  datatype Outcome = Rejected | Parked(id: JoinId)

  datatype Stop = Through | MetSelf | MetBusy

  /**
   * What can happen next anywhere in the process.  `during` is what the event loop does
   * while the user's error handler reports a self-join.
   */
  datatype Op =
    | Spawn(cid: Cid)
    | Close(cid: Cid)
    | StartJoin(joiner: Cid, cids: seq<Cid>, during: seq<Op>)
    | Interrupt(id: JoinId)
    | RunDeferred

  datatype Registry = Registry(
    onClose: map<Cid, Option<JoinId>>,      // the live contexts and their on_close
    closed: set<Cid>,
    joins: map<JoinId, Join>,
    nextJoin: JoinId,
    deferred: seq<JoinId>,                  // the reactor's deferred callbacks
    strays: seq<JoinId>)                    // resumes of a joiner that was not waiting any more
  {
    ghost predicate Valid() {
      && MAIN in onClose && onClose.Keys !! closed
      && (forall c :: c in onClose ==> ContextOk(c))
      && (forall j :: j in joins ==> j < nextJoin && SetOk(j) && WakeOk(j))
      && (forall j :: j in deferred || j in strays ==> j in joins)
      && (forall i, i' :: 0 <= i < i' < |deferred| ==> deferred[i] != deferred[i'])
    }

    /** A context's callback belongs to a join that still expects it. */
    ghost predicate ContextOk(c: Cid)
      requires c in onClose
    {
      onClose[c].Some? ==> onClose[c].value in joins && c in joins[onClose[c].value].coSet
    }

    /** The contexts a join expects carry its callback; the others it registered have closed. */
    ghost predicate SetOk(j: JoinId)
      requires j in joins
    {
      && joins[j].coSet <= joins[j].registered
      && (forall c :: c in joins[j].coSet ==> c in onClose && onClose[c] == Some(j))
      && (joins[j].phase.Returned? ==> joins[j].coSet == {})
      && (joins[j].phase != Returned(false) ==>
            forall c :: c in joins[j].registered ==> c in joins[j].coSet || c in closed)
    }

    /** A join is resumed, once, exactly when nobody is left to wait for. */
    ghost predicate WakeOk(j: JoinId)
      requires j in joins
    {
      match joins[j].phase
      case Registering =>
        && !joins[j].canceled
        && (j in deferred || j in strays <==> joins[j].coSet == {} && joins[j].registered != {})
      case Waiting => !joins[j].canceled && j !in strays && (j in deferred <==> joins[j].coSet == {})
      case Returned(ok) => (ok ==> j !in deferred) && (ok || joins[j].canceled ==> j !in strays)
    }

    /** A resume for a join that returned false: still queued and not called off, or made already. */
    ghost predicate StaleAt(j: JoinId) {
      && j in joins && joins[j].phase == Returned(false) && !joins[j].canceled
      && (j in deferred || j in strays)
    }

    ghost predicate Clean() {
      forall j :: j in joins ==> !StaleAt(j)
    }
  }

  // ---------------------------------------------------------------- what a state promises

  /** A callback points at a join exactly when that join expects the context. */
  lemma CallbackIffExpected(r: Registry, c: Cid, j: JoinId)
    requires r.Valid() && c in r.onClose && j in r.joins
    ensures r.onClose[c] == Some(j) <==> c in r.joins[j].coSet
    ensures r.onClose[c] == Some(j) ==> !r.joins[j].phase.Returned?
  {
    assert r.ContextOk(c) && r.SetOk(j);
  }

  /** A successful join has seen every context it registered close. */
  lemma TrueMeansAllClosed(r: Registry, j: JoinId)
    requires r.Valid() && j in r.joins && r.joins[j].phase == Returned(true)
    ensures r.joins[j].registered <= r.closed
  {
    assert r.SetOk(j);
    forall c | c in r.joins[j].registered ensures c in r.closed {
    }
  }

  /** Nobody in `cids` is the joiner, is already being joined, or is named twice. */
  ghost predicate Hangable(onClose: map<Cid, Option<JoinId>>, joiner: Cid, cids: seq<Cid>) {
    && joiner !in cids
    && (forall c :: c in cids && c in onClose ==> onClose[c].None?)
    && (forall i, i' :: 0 <= i < i' < |cids| && cids[i] in onClose ==> cids[i] != cids[i'])
  }

  /** What the caller can see before the call: whether `join` is going to wait. */
  ghost predicate Joinable(onClose: map<Cid, Option<JoinId>>, joiner: Cid, cids: seq<Cid>) {
    Hangable(onClose, joiner, cids) && Live(onClose, cids) != {}
  }

  ghost function OpWeight(op: Op): nat
    decreases op
  {
    1 + if op.StartJoin? then Weight(op.during) else 0
  }

  ghost function Weight(ops: seq<Op>): nat
    decreases ops
  {
    if ops == [] then 0
    else 1 + (if ops[0].StartJoin? then Weight(ops[0].during) else 0) + 1 + Weight(ops[1..])
  }

  /** Other joins that are just being set up stay as they are, but for contexts that close. */
  ghost predicate Undisturbed(before: Registry, after: Registry) {
    forall j :: j in before.joins && before.joins[j].phase.Registering? ==>
      && j in after.joins
      && after.joins[j] == before.joins[j].(coSet := after.joins[j].coSet)
  }

  ghost function Live(onClose: map<Cid, Option<JoinId>>, cids: seq<Cid>): set<Cid> {
    set c | c in onClose && c in cids
  }

  ghost function Hung(onClose: map<Cid, Option<JoinId>>, cs: set<Cid>, j: JoinId): map<Cid, Option<JoinId>> {
    map c | c in onClose :: if c in cs then Some(j) else onClose[c]
  }

  /** The registry when a new join has hung its callback on `cs` so far. */
  ghost function Halfway(r: Registry, joiner: Cid, cs: set<Cid>): Registry {
    r.(nextJoin := r.nextJoin + 1,
       onClose := Hung(r.onClose, cs, r.nextJoin),
       joins := r.joins[r.nextJoin := JoinCall(joiner, cs, false, Registering, cs)])
  }

  function Released(onClose: map<Cid, Option<JoinId>>, cs: set<Cid>): map<Cid, Option<JoinId>> {
    map c | c in onClose :: if c in cs then None else onClose[c]
  }

  ghost function InterruptedSpec(r: Registry, j: JoinId, canceled: bool): Registry
    requires j in r.joins
  {
    r.(onClose := Released(r.onClose, r.joins[j].coSet),
       joins := r.joins[j := r.joins[j].(coSet := {}, canceled := canceled, phase := Returned(false))])
  }

  lemma InterruptKeepsValid(r: Registry, j: JoinId, canceled: bool)
    requires r.Valid() && j in r.joins
    requires if canceled then r.joins[j].phase.Waiting? else r.joins[j].phase.Registering?
    ensures var after := InterruptedSpec(r, j, canceled);
            && after.Valid()
            && (r.joins[j].coSet == {} ==> after.onClose == r.onClose)
            && (canceled ==> Undisturbed(r, after))
            && (after.Clean() <==> r.Clean() && (canceled || (j !in r.deferred && j !in r.strays)))
  {
    var after := InterruptedSpec(r, j, canceled);
    assert r.SetOk(j) && r.WakeOk(j);
    forall c | c in after.onClose ensures after.ContextOk(c) {
      assert r.ContextOk(c);
    }
    forall k | k in after.joins ensures after.SetOk(k) && after.WakeOk(k) {
      assert r.SetOk(k) && r.WakeOk(k);
    }
    forall k ensures k != j ==> (after.StaleAt(k) <==> r.StaleAt(k)) {
    }
    assert !r.StaleAt(j) && (after.StaleAt(j) <==> !canceled && (j in r.deferred || j in r.strays));
    assert after.Clean() ==> r.Clean() by {
      if after.Clean() {
        forall k | k in r.joins ensures !r.StaleAt(k) { assert !after.StaleAt(k); }
      }
    }
  }

  /** The reactor's next deferred callback: it resumes the joiner unless `canceled` is set. */
  ghost function DeferredSpec(r: Registry): Registry
    requires r.deferred != []
  {
    var j := r.deferred[0];
    var rest := r.(deferred := r.deferred[1..]);
    if j !in r.joins || r.joins[j].canceled then rest
    else if r.joins[j].phase.Waiting? then rest.(joins := r.joins[j := r.joins[j].(phase := Returned(true))])
    else rest.(strays := r.strays + [j])
  }

  lemma DeferredKeepsValid(r: Registry)
    requires r.Valid() && r.deferred != []
    ensures Keeps(r, DeferredSpec(r), true)
  {
    var after := DeferredSpec(r);
    var j := r.deferred[0];
    assert r.WakeOk(j) && r.SetOk(j);
    forall k ensures k in after.deferred <==> k in r.deferred && k != j {
    }
    forall c | c in after.onClose ensures after.ContextOk(c) {
      assert r.ContextOk(c);
    }
    forall k | k in after.joins ensures after.SetOk(k) && after.WakeOk(k) && (after.StaleAt(k) <==> r.StaleAt(k)) {
      assert r.SetOk(k) && r.WakeOk(k);
    }
  }

  /** `on_close` of a context, with `join_fn` when a join hangs on it. */
  ghost function ClosedSpec(r: Registry, c: Cid): Registry
    requires c in r.onClose
  {
    var gone := r.(onClose := r.onClose - {c}, closed := r.closed + {c});
    if r.onClose[c].None? || r.onClose[c].value !in r.joins then gone
    else
      var j := r.onClose[c].value;
      var rest := r.joins[j].coSet - {c};
      gone.(joins := r.joins[j := r.joins[j].(coSet := rest)],
            deferred := if rest == {} then r.deferred + [j] else r.deferred)
  }

  lemma SpawnKeepsValid(r: Registry, c: Cid)
    requires r.Valid() && c !in r.onClose && c !in r.closed
    ensures Keeps(r, r.(onClose := r.onClose[c := None]), true)
  {
    var after := r.(onClose := r.onClose[c := None]);
    forall d | d in after.onClose ensures after.ContextOk(d) {
      if d != c { assert r.ContextOk(d); }
    }
    forall j | j in after.joins ensures after.SetOk(j) && after.WakeOk(j) && (after.StaleAt(j) <==> r.StaleAt(j)) {
      assert r.SetOk(j) && r.WakeOk(j);
    }
  }

  lemma CloseKeepsValid(r: Registry, c: Cid)
    requires r.Valid() && c in r.onClose && c != MAIN
    ensures Keeps(r, ClosedSpec(r, c), true)
  {
    var after := ClosedSpec(r, c);
    assert r.ContextOk(c);
    if r.onClose[c].Some? {
      var k := r.onClose[c].value;
      assert r.SetOk(k) && r.WakeOk(k);
      assert k !in r.deferred && !r.joins[k].phase.Returned?;
    }
    forall d | d in after.onClose ensures after.ContextOk(d) {
      assert r.ContextOk(d);
    }
    forall j | j in after.joins ensures after.SetOk(j) && after.WakeOk(j) && (after.StaleAt(j) <==> r.StaleAt(j)) {
      assert r.SetOk(j) && r.WakeOk(j);
    }
  }

  lemma HalfwayStart(r: Registry, joiner: Cid)
    ensures Halfway(r, joiner, {}) == r.(nextJoin := r.nextJoin + 1,
                                        joins := r.joins[r.nextJoin := JoinCall(joiner, {}, false, Registering, {})])
  {
    assert Hung(r.onClose, {}, r.nextJoin) == r.onClose;
  }

  ghost function ParkedSpec(r: Registry, joiner: Cid, cs: set<Cid>): Registry {
    var h := Halfway(r, joiner, cs);
    h.(joins := h.joins[r.nextJoin := JoinCall(joiner, cs, false, Waiting, cs)])
  }

  /** Nothing is left of a refused join but its record. */
  ghost predicate RefusedOnly(before: Registry, after: Registry) {
    && before.nextJoin in after.joins
    && after == before.(nextJoin := before.nextJoin + 1,
                        joins := before.joins[before.nextJoin := after.joins[before.nextJoin]])
    && after.joins[before.nextJoin].phase == Returned(false)
  }

  lemma HangableStep(onClose: map<Cid, Option<JoinId>>, joiner: Cid, cids: seq<Cid>, i: nat)
    requires i < |cids| && Hangable(onClose, joiner, cids[..i]) && cids[i] != joiner
    requires cids[i] in onClose ==> onClose[cids[i]].None? && cids[i] !in Live(onClose, cids[..i])
    ensures Hangable(onClose, joiner, cids[..i + 1])
  {
    assert cids[..i + 1] == cids[..i] + [cids[i]];
  }

  lemma BusyMeansUnhangable(r: Registry, joiner: Cid, cids: seq<Cid>, i: nat)
    requires i < |cids| && cids[i] in r.onClose
    requires Halfway(r, joiner, Live(r.onClose, cids[..i])).onClose[cids[i]].Some?
    ensures !Hangable(r.onClose, joiner, cids)
  {
    if r.onClose[cids[i]].None? {
      assert cids[i] in cids[..i];
      var k :| 0 <= k < i && cids[k] == cids[i];
    } else {
      assert cids[i] in cids;
    }
  }

  lemma HalfwayValid(r: Registry, joiner: Cid, cs: set<Cid>)
    requires r.Valid() && (forall c :: c in cs ==> c in r.onClose && r.onClose[c].None?)
    ensures Halfway(r, joiner, cs).Valid() && (Halfway(r, joiner, cs).Clean() <==> r.Clean())
  {
    var after := Halfway(r, joiner, cs);
    assert r.nextJoin !in r.joins;
    forall c | c in after.onClose ensures after.ContextOk(c) {
      assert r.ContextOk(c);
    }
    forall k | k in after.joins ensures after.SetOk(k) && after.WakeOk(k) && (after.StaleAt(k) <==> r.StaleAt(k)) {
      if k != r.nextJoin { assert r.SetOk(k) && r.WakeOk(k); }
    }
    forall k | k in r.joins ensures after.StaleAt(k) <==> r.StaleAt(k) {
      assert k in after.joins;
    }
  }

  lemma HalfwayStep(r: Registry, joiner: Cid, cids: seq<Cid>, i: nat)
    requires i < |cids|
    ensures cids[i] in r.onClose ==>
              var h := Halfway(r, joiner, Live(r.onClose, cids[..i]));
              var j := r.nextJoin;
              Halfway(r, joiner, Live(r.onClose, cids[..i + 1])) ==
                h.(onClose := h.onClose[cids[i] := Some(j)],
                   joins := h.joins[j := h.joins[j].(coSet := h.joins[j].coSet + {cids[i]},
                                                     registered := h.joins[j].registered + {cids[i]})])
    ensures cids[i] !in r.onClose ==> Live(r.onClose, cids[..i + 1]) == Live(r.onClose, cids[..i])
  {
    assert cids[..i + 1] == cids[..i] + [cids[i]];
    if cids[i] in r.onClose {
      var cs := Live(r.onClose, cids[..i]);
      assert Live(r.onClose, cids[..i + 1]) == cs + {cids[i]};
      assert Hung(r.onClose, cs + {cids[i]}, r.nextJoin) ==
             Hung(r.onClose, cs, r.nextJoin)[cids[i] := Some(r.nextJoin)];
    }
  }

  lemma HalfwayUndone(r: Registry, joiner: Cid, cs: set<Cid>)
    requires forall c :: c in cs ==> c in r.onClose && r.onClose[c].None?
    ensures RefusedOnly(r, InterruptedSpec(Halfway(r, joiner, cs), r.nextJoin, false))
  {
    var back := Released(Hung(r.onClose, cs, r.nextJoin), cs);
    forall c | c in r.onClose ensures back[c] == r.onClose[c] {
    }
    assert back.Keys == r.onClose.Keys;
  }

  lemma ParkKeepsValid(r: Registry, joiner: Cid, cs: set<Cid>)
    requires r.Valid() && cs != {} && (forall c :: c in cs ==> c in r.onClose && r.onClose[c].None?)
    ensures ParkedSpec(r, joiner, cs).Valid() && (ParkedSpec(r, joiner, cs).Clean() <==> r.Clean())
  {
    var h := Halfway(r, joiner, cs);
    var j := r.nextJoin;
    var after := ParkedSpec(r, joiner, cs);
    HalfwayValid(r, joiner, cs);
    assert h.SetOk(j) && h.WakeOk(j);
    assert j !in r.deferred;
    forall c | c in after.onClose ensures after.ContextOk(c) {
      assert h.ContextOk(c);
    }
    forall k | k in after.joins ensures after.SetOk(k) && after.WakeOk(k) && (after.StaleAt(k) <==> h.StaleAt(k)) {
      assert h.SetOk(k) && h.WakeOk(k);
    }
  }

  // --------------------------------------------------------------- steps and runs

  /** How far the registration loop gets: the longest prefix on all of which callbacks can be hung. */
  ghost function StopIndex(onClose: map<Cid, Option<JoinId>>, joiner: Cid, cids: seq<Cid>, i: nat): (k: nat)
    requires i <= |cids|
    ensures i <= k <= |cids|
    decreases |cids| - i
  {
    if i == |cids| || !Hangable(onClose, joiner, cids[..i + 1]) then i
    else StopIndex(onClose, joiner, cids, i + 1)
  }

  lemma {:induction false} StopIndexIs(onClose: map<Cid, Option<JoinId>>, joiner: Cid, cids: seq<Cid>, i: nat, k: nat)
    requires i <= k <= |cids| && Hangable(onClose, joiner, cids[..k])
    requires k == |cids| || !Hangable(onClose, joiner, cids[..k + 1])
    ensures StopIndex(onClose, joiner, cids, i) == k
    decreases k - i
  {
    if i < k {
      assert cids[..i + 1] == cids[..k][..i + 1];
      StopIndexIs(onClose, joiner, cids, i + 1, k);
    }
  }

  lemma {:induction false} StopIndexHangable(onClose: map<Cid, Option<JoinId>>, joiner: Cid, cids: seq<Cid>, i: nat)
    requires i <= |cids| && Hangable(onClose, joiner, cids[..i])
    ensures var k := StopIndex(onClose, joiner, cids, i);
            && Hangable(onClose, joiner, cids[..k]) && (k == |cids| <==> Hangable(onClose, joiner, cids))
    decreases |cids| - i
  {
    assert cids[..|cids|] == cids;
    if i < |cids| {
      if Hangable(onClose, joiner, cids[..i + 1]) {
        StopIndexHangable(onClose, joiner, cids, i + 1);
      } else {
        UnhangablePrefix(onClose, joiner, cids, i + 1);
      }
    }
  }

  lemma UnhangablePrefix(onClose: map<Cid, Option<JoinId>>, joiner: Cid, cids: seq<Cid>, i: nat)
    requires i <= |cids| && !Hangable(onClose, joiner, cids[..i])
    ensures !Hangable(onClose, joiner, cids)
  {
    if Hangable(onClose, joiner, cids) {
      assert forall c :: c in cids[..i] ==> c in cids;
    }
  }

  /** The contexts a join hangs its callback on before it waits or is refused. */
  ghost function Before(onClose: map<Cid, Option<JoinId>>, joiner: Cid, cids: seq<Cid>): set<Cid> {
    Live(onClose, cids[..StopIndex(onClose, joiner, cids, 0)])
  }

  /** The loop comes to the joiner's own id. */
  ghost predicate MeetsSelf(onClose: map<Cid, Option<JoinId>>, joiner: Cid, cids: seq<Cid>) {
    var i := StopIndex(onClose, joiner, cids, 0);
    i < |cids| && cids[i] == joiner
  }

  /** `join` up to its suspension or its refusal; the warning about a self-join is where `during` happens. */
  ghost function Started(r: Registry, joiner: Cid, cids: seq<Cid>, during: seq<Op>): (Registry, Outcome)
    decreases Weight(during), 1
  {
    var cs, j := Before(r.onClose, joiner, cids), r.nextJoin;
    var half := Halfway(r, joiner, cs);
    if MeetsSelf(r.onClose, joiner, cids) then
      var mid := RunAll(half, during);
      (if j in mid.joins then InterruptedSpec(mid, j, false) else mid, Rejected)
    else if StopIndex(r.onClose, joiner, cids, 0) < |cids| || cs == {} then
      (InterruptedSpec(half, j, false), Rejected)
    else
      (ParkedSpec(r, joiner, cs), Parked(j))
  }

  ghost predicate CanClose(r: Registry, c: Cid) {
    && c in r.onClose && c != MAIN
    && forall j :: j in r.joins && r.joins[j].joiner == c ==> r.joins[j].phase.Returned?
  }

  /** Any step anywhere in the process, taken where it is possible. */
  ghost function Step(r: Registry, op: Op): Registry
    decreases OpWeight(op), 0
  {
    match op
    case Spawn(c) => if c in r.onClose || c in r.closed then r else r.(onClose := r.onClose[c := None])
    case Close(c) => if CanClose(r, c) then ClosedSpec(r, c) else r
    case StartJoin(joiner, cids, during) => Started(r, joiner, cids, during).0
    case Interrupt(j) => if j in r.joins && r.joins[j].phase.Waiting? then InterruptedSpec(r, j, true) else r
    case RunDeferred => if r.deferred == [] then r else DeferredSpec(r)
  }

  ghost function RunAll(r: Registry, ops: seq<Op>): Registry
    decreases Weight(ops), 0
  {
    if ops == [] then r else RunAll(Step(r, ops[0]), ops[1..])
  }

  /** No self-join in the run has all the contexts listed before the own id close during its warning. */
  ghost predicate Harmless(r: Registry, ops: seq<Op>)
    decreases Weight(ops), 0
  {
    ops != [] ==> HarmlessOp(r, ops[0]) && Harmless(Step(r, ops[0]), ops[1..])
  }

  ghost predicate HarmlessOp(r: Registry, op: Op)
    decreases OpWeight(op), 0
  {
    op.StartJoin? && MeetsSelf(r.onClose, op.joiner, op.cids) ==>
      var cs := Before(r.onClose, op.joiner, op.cids);
      && Harmless(Halfway(r, op.joiner, cs), op.during)
      && (cs == {} || !(cs <= RunAll(Halfway(r, op.joiner, cs), op.during).closed))
  }

  /** What one step or a run of them keeps, and exactly when it leaves nothing stale. */
  ghost predicate Keeps(r: Registry, after: Registry, harmless: bool) {
    after.Valid() && Undisturbed(r, after) && (after.Clean() <==> r.Clean() && harmless)
  }

  lemma BeforeFree(onClose: map<Cid, Option<JoinId>>, joiner: Cid, cids: seq<Cid>)
    ensures forall c :: c in Before(onClose, joiner, cids) ==> c in onClose && onClose[c].None?
  {
    StopIndexHangable(onClose, joiner, cids, 0);
  }

  lemma HalfwayKeeps(r: Registry, joiner: Cid, cids: seq<Cid>)
    requires r.Valid()
    ensures Keeps(r, Halfway(r, joiner, Before(r.onClose, joiner, cids)), true)
  {
    BeforeFree(r.onClose, joiner, cids);
    HalfwayValid(r, joiner, Before(r.onClose, joiner, cids));
  }

  lemma RefuseKeeps(r: Registry, joiner: Cid, cids: seq<Cid>)
    requires r.Valid()
    ensures var after := InterruptedSpec(Halfway(r, joiner, Before(r.onClose, joiner, cids)), r.nextJoin, false);
            Keeps(r, after, true) && RefusedOnly(r, after)
  {
    var cs := Before(r.onClose, joiner, cids);
    BeforeFree(r.onClose, joiner, cids);
    HalfwayValid(r, joiner, cs);
    InterruptKeepsValid(Halfway(r, joiner, cs), r.nextJoin, false);
    HalfwayUndone(r, joiner, cs);
  }

  lemma ParkKeeps(r: Registry, joiner: Cid, cids: seq<Cid>)
    requires r.Valid() && Before(r.onClose, joiner, cids) != {}
    ensures Keeps(r, ParkedSpec(r, joiner, Before(r.onClose, joiner, cids)), true)
  {
    BeforeFree(r.onClose, joiner, cids);
    ParkKeepsValid(r, joiner, Before(r.onClose, joiner, cids));
  }

  /** `join` waits exactly when a caller can see that it will. */
  lemma ParkedIff(r: Registry, joiner: Cid, cids: seq<Cid>, during: seq<Op>)
    ensures Started(r, joiner, cids, during).1 ==
            if Joinable(r.onClose, joiner, cids) then Parked(r.nextJoin) else Rejected
    ensures MeetsSelf(r.onClose, joiner, cids) ==> joiner in cids
    ensures Joinable(r.onClose, joiner, cids) ==> Before(r.onClose, joiner, cids) == Live(r.onClose, cids)
  {
    StopIndexHangable(r.onClose, joiner, cids, 0);
    assert cids[..|cids|] == cids;
  }

  /** A join that waits hangs on exactly the live contexts listed, and nothing else has changed. */
  ghost predicate ParkLaw(r: Registry, after: Registry, joiner: Cid, cs: set<Cid>) {
    && after.joins == r.joins[r.nextJoin := JoinCall(joiner, cs, false, Waiting, cs)]
    && after.onClose.Keys == r.onClose.Keys && after.closed == r.closed
    && after.deferred == r.deferred && after.strays == r.strays
    && forall c :: c in r.onClose ==> after.onClose[c] == if c in cs then Some(r.nextJoin) else r.onClose[c]
  }

  lemma ParkIs(r: Registry, joiner: Cid, cs: set<Cid>)
    ensures ParkLaw(r, ParkedSpec(r, joiner, cs), joiner, cs)
  {
  }

  /** The refused self-join is resumed all the same exactly when its callbacks all ran during the warning. */
  lemma SelfRefusal(half: Registry, mid: Registry, j: JoinId, cs: set<Cid>)
    requires mid.Valid() && Undisturbed(half, mid) && j in half.joins && half.joins[j].phase.Registering?
    requires half.joins[j].registered == cs
    ensures j in mid.joins && mid.joins[j].phase.Registering?
    ensures j in mid.deferred || j in mid.strays <==> cs != {} && cs <= mid.closed
  {
    assert mid.SetOk(j) && mid.WakeOk(j);
    if exists c :: c in mid.joins[j].coSet {
      var c :| c in mid.joins[j].coSet;
      assert c in cs && c !in mid.closed;
    } else {
      assert mid.joins[j].coSet == {};
      forall c | c in cs ensures c in mid.closed {
        assert c in mid.joins[j].registered;
      }
    }
  }

  lemma SelfKeeps(r: Registry, mid: Registry, joiner: Cid, cs: set<Cid>)
    requires r.Valid() && mid.Valid()
    requires Undisturbed(Halfway(r, joiner, cs), mid)
    ensures r.nextJoin in mid.joins
    ensures var after := InterruptedSpec(mid, r.nextJoin, false);
            && after.Valid() && Undisturbed(r, after)
            && (after.Clean() <==> mid.Clean() && (cs == {} || !(cs <= mid.closed)))
  {
    var half, j := Halfway(r, joiner, cs), r.nextJoin;
    SelfRefusal(half, mid, j, cs);
    InterruptKeepsValid(mid, j, false);
    forall k | k in r.joins && r.joins[k].phase.Registering? ensures k in half.joins && half.joins[k] == r.joins[k] {
    }
  }

  lemma StartKeeps(r: Registry, joiner: Cid, cids: seq<Cid>, during: seq<Op>)
    requires r.Valid()
    ensures Keeps(r, Started(r, joiner, cids, during).0, HarmlessOp(r, StartJoin(joiner, cids, during)))
    decreases Weight(during), 1
  {
    if MeetsSelf(r.onClose, joiner, cids) {
      var cs := Before(r.onClose, joiner, cids);
      HalfwayKeeps(r, joiner, cids);
      RunKeeps(Halfway(r, joiner, cs), during);
      SelfKeeps(r, RunAll(Halfway(r, joiner, cs), during), joiner, cs);
    } else if StopIndex(r.onClose, joiner, cids, 0) < |cids| || Before(r.onClose, joiner, cids) == {} {
      RefuseKeeps(r, joiner, cids);
    } else {
      ParkKeeps(r, joiner, cids);
    }
  }

  lemma StepKeeps(r: Registry, op: Op)
    requires r.Valid()
    ensures Keeps(r, Step(r, op), HarmlessOp(r, op))
    decreases OpWeight(op), 0
  {
    match op {
      case Spawn(c) => if c !in r.onClose && c !in r.closed { SpawnKeepsValid(r, c); }
      case Close(c) => if CanClose(r, c) { CloseKeepsValid(r, c); }
      case StartJoin(joiner, cids, during) => StartKeeps(r, joiner, cids, during);
      case Interrupt(j) => if j in r.joins && r.joins[j].phase.Waiting? { InterruptKeepsValid(r, j, true); }
      case RunDeferred => if r.deferred != [] { DeferredKeepsValid(r); }
    }
  }

  /**
   * Over every interleaving of joins, closes, timeouts, cancellations and deferred callbacks the
   * registry stays consistent; and no join that returned false is resumed, or going to be,
   * exactly when no self-join had all the contexts listed before the own id close in its warning.
   */
  lemma {:induction false} RunKeeps(r: Registry, ops: seq<Op>)
    requires r.Valid()
    ensures Keeps(r, RunAll(r, ops), Harmless(r, ops))
    decreases Weight(ops), 0
  {
    if ops != [] {
      StepKeeps(r, ops[0]);
      RunKeeps(Step(r, ops[0]), ops[1..]);
    }
  }

  /**
   * A refused `join` leaves nothing behind but its record, unless it met its own id.  Then a
   * resume of it is queued or made, although it returned false, exactly when there were live
   * contexts listed before the own id and all of them closed during the warning.
   */
  ghost predicate RefusalLaw(r: Registry, after: Registry, joiner: Cid, cids: seq<Cid>, during: seq<Op>) {
    && r.nextJoin in after.joins && after.joins[r.nextJoin].phase == Returned(false)
    && (!MeetsSelf(r.onClose, joiner, cids) || during == [] ==> RefusedOnly(r, after))
    && (MeetsSelf(r.onClose, joiner, cids) ==>
          var cs := Before(r.onClose, joiner, cids);
          (after.StaleAt(r.nextJoin) <==> cs != {} && cs <= after.closed))
  }

  lemma RefusedJoin(r: Registry, joiner: Cid, cids: seq<Cid>, during: seq<Op>)
    requires r.Valid() && !Joinable(r.onClose, joiner, cids)
    ensures RefusalLaw(r, Started(r, joiner, cids, during).0, joiner, cids, during)
  {
    ParkedIff(r, joiner, cids, during);
    RefuseKeeps(r, joiner, cids);
    if MeetsSelf(r.onClose, joiner, cids) {
      var cs, j := Before(r.onClose, joiner, cids), r.nextJoin;
      var half := Halfway(r, joiner, cs);
      HalfwayKeeps(r, joiner, cids);
      RunKeeps(half, during);
      SelfRefusal(half, RunAll(half, during), j, cs);
    }
  }

  /** With no join being set up, a clean registry has made no resume of a joiner that was not waiting. */
  lemma CleanHasNoStrays(r: Registry)
    requires r.Valid() && r.Clean() && forall j :: j in r.joins ==> !r.joins[j].phase.Registering?
    ensures r.strays == []
  {
    assert r.strays == [] || r.strays[0] in r.strays;
    forall j | j in r.joins ensures j !in r.strays {
      assert r.WakeOk(j) && !r.StaleAt(j);
    }
  }

  // ------------------------------------------------------------- how a join ends

  /** The run interrupts join `j` while it waits. */
  ghost predicate Interrupts(r: Registry, ops: seq<Op>, j: JoinId)
    decreases Weight(ops), 0
  {
    ops != [] && (InterruptsIn(r, ops[0], j) || Interrupts(Step(r, ops[0]), ops[1..], j))
  }

  ghost predicate InterruptsIn(r: Registry, op: Op, j: JoinId)
    decreases OpWeight(op), 0
  {
    match op
    case Interrupt(k) => k == j && j in r.joins && r.joins[j].phase.Waiting?
    case StartJoin(joiner, cids, during) =>
      MeetsSelf(r.onClose, joiner, cids) &&
      Interrupts(Halfway(r, joiner, Before(r.onClose, joiner, cids)), during, j)
    case _ => false
  }

  /** A join that waits goes on waiting, returns true, or returns false; the last exactly if it is interrupted. */
  ghost predicate Settles(r: Registry, after: Registry, j: JoinId, interrupted: bool) {
    && j in r.joins && j in after.joins && after.joins[j].registered == r.joins[j].registered
    && (r.joins[j].phase.Returned? ==> after.joins[j].phase == r.joins[j].phase && !interrupted)
    && (r.joins[j].phase.Waiting? ==>
          !after.joins[j].phase.Registering? && (after.joins[j].phase == Returned(false) <==> interrupted))
  }

  lemma DeferredSettles(r: Registry, j: JoinId)
    requires r.Valid() && r.deferred != [] && j in r.joins && !r.joins[j].phase.Registering?
    ensures Settles(r, DeferredSpec(r), j, false)
    ensures j == r.deferred[0] && r.joins[j].phase.Waiting? ==> DeferredSpec(r).joins[j].phase == Returned(true)
  {
    assert r.WakeOk(j);
  }

  lemma StartSettles(r: Registry, joiner: Cid, cids: seq<Cid>, during: seq<Op>, j: JoinId)
    requires r.Valid() && j in r.joins && !r.joins[j].phase.Registering?
    ensures Settles(r, Started(r, joiner, cids, during).0, j, InterruptsIn(r, StartJoin(joiner, cids, during), j))
    decreases Weight(during), 1
  {
    assert j != r.nextJoin;
    if MeetsSelf(r.onClose, joiner, cids) {
      HalfwayKeeps(r, joiner, cids);
      RunSettles(Halfway(r, joiner, Before(r.onClose, joiner, cids)), during, j);
    }
  }

  lemma StepSettles(r: Registry, op: Op, j: JoinId)
    requires r.Valid() && j in r.joins && !r.joins[j].phase.Registering?
    ensures Settles(r, Step(r, op), j, InterruptsIn(r, op, j))
    decreases OpWeight(op), 0
  {
    match op {
      case Spawn(_) =>
      case Close(_) =>
      case StartJoin(joiner, cids, during) => StartSettles(r, joiner, cids, during, j);
      case Interrupt(_) =>
      case RunDeferred => if r.deferred != [] { DeferredSettles(r, j); }
    }
  }

  /** Over every run, a join that waits returns false if and only if it is interrupted. */
  lemma {:induction false} RunSettles(r: Registry, ops: seq<Op>, j: JoinId)
    requires r.Valid() && j in r.joins && !r.joins[j].phase.Registering?
    ensures Settles(r, RunAll(r, ops), j, Interrupts(r, ops, j))
    decreases Weight(ops), 0
  {
    if ops != [] {
      StepSettles(r, ops[0], j);
      StepKeeps(r, ops[0]);
      RunSettles(Step(r, ops[0]), ops[1..], j);
    }
  }

  lemma ExpectsLive(r: Registry, j: JoinId)
    requires r.Valid() && j in r.joins
    ensures r.joins[j].coSet <= r.onClose.Keys
  {
    assert r.SetOk(j);
    forall c | c in r.joins[j].coSet ensures c in r.onClose.Keys {
      assert r.onClose[c] == Some(j);
    }
  }

  /** Without that, it has returned true once its contexts have closed and its resume is not queued any more. */
  lemma JoinCompletes(r: Registry, ops: seq<Op>, j: JoinId)
    requires r.Valid() && j in r.joins && r.joins[j].phase.Waiting? && !Interrupts(r, ops, j)
    requires r.joins[j].registered <= RunAll(r, ops).closed && j !in RunAll(r, ops).deferred
    ensures j in RunAll(r, ops).joins && RunAll(r, ops).joins[j].phase == Returned(true)
  {
    RunSettles(r, ops, j);
    RunKeeps(r, ops);
    var after := RunAll(r, ops);
    assert after.SetOk(j) && after.WakeOk(j);
    ExpectsLive(after, j);
    assert after.joins[j].coSet <= after.joins[j].registered <= after.closed;
    assert after.joins[j].coSet == {};
  }

  const FRESH := Registry(map[MAIN := None], {}, map[], 0, [], [])

  /**
   * Joining [1, 2] from coroutine 2 goes wrong if 1 closes inside the error handler: the join
   * returns false, and its resume is queued; if the event loop goes on, it has been made.
   */
  lemma SelfJoinCanResumeTwice(goesOn: bool)
    ensures var after := RunAll(FRESH, [Spawn(1), Spawn(2), StartJoin(2, [1, 2], Handler(goesOn))]);
            after.StaleAt(0) && (if goesOn then after.strays == [0] else after.deferred == [0])
  {
    var ops := [Spawn(1), Spawn(2), StartJoin(2, [1, 2], Handler(goesOn))];
    var one := Step(FRESH, Spawn(1));
    var two := Step(one, Spawn(2));
    assert ops[1..] == [Spawn(2), ops[2]] && ops[1..][1..] == [ops[2]] && [ops[2]][1..] == [];
    assert RunAll(FRESH, ops) == RunAll(one, ops[1..]) == RunAll(two, [ops[2]]) == RunAll(Step(two, ops[2]), []);
    assert two.onClose == map[MAIN := None, 1 := None, 2 := None];
    SelfJoinStops(two);
    SelfJoinDuring(two, goesOn);
    assert Started(two, 2, [1, 2], Handler(goesOn)).0 ==
           InterruptedSpec(RunAll(Halfway(two, 2, {1}), Handler(goesOn)), 0, false);
  }

  function Handler(goesOn: bool): seq<Op> {
    if goesOn then [Close(1), RunDeferred] else [Close(1)]
  }

  lemma SelfJoinDuring(r: Registry, goesOn: bool)
    requires r == FRESH.(onClose := map[MAIN := None, 1 := None, 2 := None])
    ensures var mid := RunAll(Halfway(r, 2, {1}), Handler(goesOn));
            && 0 in mid.joins && !mid.joins[0].canceled
            && (if goesOn then mid.strays == [0] else mid.deferred == [0])
  {
    var half := Halfway(r, 2, {1});
    assert half.onClose[1] == Some(0) && half.joins == map[0 := JoinCall(2, {1}, false, Registering, {1})];
    var gone := ClosedSpec(half, 1);
    assert {1} - {1} == {};
    assert Step(half, Close(1)) == gone && gone.deferred == [0];
    var ops := Handler(goesOn);
    if goesOn {
      assert ops[1..] == [RunDeferred] && [RunDeferred][1..] == [];
      assert RunAll(half, ops) == RunAll(gone, [RunDeferred]) == RunAll(Step(gone, RunDeferred), []);
    } else {
      assert RunAll(half, ops) == RunAll(gone, []);
    }
  }

  lemma SelfJoinStops(r: Registry)
    requires r.onClose == map[MAIN := None, 1 := None, 2 := None]
    ensures MeetsSelf(r.onClose, 2, [1, 2]) && Before(r.onClose, 2, [1, 2]) == {1}
  {
    var cids := [1, 2];
    assert cids[..1] == [1] && cids[..2] == cids;
    assert cids[1] == 2 && 2 in cids[..2];
    StopIndexIs(r.onClose, 2, cids, 0, 1);
  }

  // -------------------------------------------------------------------- the process

  class JoinTable {
    var onClose: map<Cid, Option<JoinId>>
    var closed: set<Cid>
    var joins: map<JoinId, Join>
    var nextJoin: JoinId
    var deferred: seq<JoinId>
    var strays: seq<JoinId>

    ghost function R(): Registry
      reads this
    {
      Registry(onClose, closed, joins, nextJoin, deferred, strays)
    }

    constructor ()
      ensures R() == FRESH && R().Valid() && R().Clean()
    {
      onClose, closed, joins, nextJoin, deferred, strays := map[MAIN := None], {}, map[], 0, [], [];
    }

    /** `on_close` of a context, with `join_fn` when a join hangs on it. */
    method Close(c: Cid)
      requires c in onClose
      modifies this
      ensures R() == ClosedSpec(old(R()), c)
      ensures onClose == old(onClose) - {c} && closed == old(closed) + {c} && strays == old(strays)
      ensures old(onClose)[c].None? ==> joins == old(joins) && deferred == old(deferred)
      ensures old(onClose)[c].Some? && old(onClose)[c].value in old(joins) ==>
                var j := old(onClose)[c].value;
                && joins == old(joins)[j := old(joins[j]).(coSet := old(joins[j]).coSet - {c})]
                && deferred == old(deferred) + if old(joins[j]).coSet <= {c} then [j] else []
      ensures old(R()).Valid() && c != MAIN ==> Keeps(old(R()), R(), true)
    {
      if R().Valid() && c != MAIN {
        CloseKeepsValid(R(), c);
      }
      if onClose[c].Some? && onClose[c].value in joins {
        var j := onClose[c].value;
        joins := joins[j := joins[j].(coSet := joins[j].coSet - {c})];
        if joins[j].coSet == {} {
          deferred := deferred + [j];
        }
      }
      onClose := onClose - {c};
      closed := closed + {c};
    }

    /** The joiner's `yield_ex` comes back false: a timeout or a cancellation. */
    method Interrupt(j: JoinId)
      requires R().Valid() && j in joins && joins[j].phase.Waiting?
      modifies this
      ensures R() == InterruptedSpec(old(R()), j, true) && Keeps(old(R()), R(), true)
      ensures joins == old(joins)[j := old(joins[j]).(coSet := {}, canceled := true, phase := Returned(false))]
      ensures closed == old(closed) && deferred == old(deferred) && onClose.Keys == old(onClose).Keys
      ensures forall c :: c in onClose ==>
                onClose[c] == if c in old(joins[j]).coSet then None else old(onClose)[c]
    {
      InterruptKeepsValid(R(), j, true);
      assert R().SetOk(j);
      if joins[j].coSet != {} {
        CleanJoinCallbacks(j);
      }
      joins := joins[j := joins[j].(canceled := true, phase := Returned(false))];
    }

    /** `clean_join_callbacks`. */
    method CleanJoinCallbacks(j: JoinId)
      requires j in joins && (forall c :: c in joins[j].coSet ==> c in onClose)
      modifies this`onClose, this`joins
      ensures onClose == Released(old(onClose), old(joins[j]).coSet)
      ensures joins == old(joins)[j := old(joins[j]).(coSet := {})]
    {
      var todo := joins[j].coSet;
      while exists c :: c in todo
        invariant joins == old(joins) && todo <= joins[j].coSet
        invariant onClose == Released(old(onClose), joins[j].coSet - todo)
        decreases todo
      {
        var c :| c in todo;
        onClose := onClose[c := None];
        todo := todo - {c};
      }
      assert todo == {};
      assert joins[j].coSet - todo == joins[j].coSet;
      joins := joins[j := joins[j].(coSet := {})];
    }

    /** The reactor runs its next deferred callback. */
    method RunDeferred()
      requires deferred != []
      modifies this`deferred, this`joins, this`strays
      ensures R() == DeferredSpec(old(R()))
      ensures deferred == old(deferred)[1..]
      ensures var j := old(deferred)[0];
              old(R()).Valid() && old(joins[j]).phase.Waiting? ==>
                joins == old(joins)[j := old(joins[j]).(phase := Returned(true))] && strays == old(strays)
      ensures var j := old(deferred)[0];
              old(R()).Valid() && !old(joins[j]).phase.Waiting? ==>
                joins == old(joins) && strays == old(strays) + if old(joins[j]).canceled then [] else [j]
      ensures old(R()).Valid() ==> Keeps(old(R()), R(), true)
    {
      if R().Valid() {
        DeferredKeepsValid(R());
        assert R().WakeOk(deferred[0]);
      }
      var j := deferred[0];
      deferred := deferred[1..];
      if j in joins && !joins[j].canceled {
        if joins[j].phase.Waiting? {
          joins := joins[j := joins[j].(phase := Returned(true))];
        } else {
          strays := strays + [j];
        }
      }
    }

    /** The registration loop; `i` is where it stopped. */
    method HangCallbacks(joiner: Cid, cids: seq<Cid>) returns (stop: Stop, i: nat)
      modifies this`onClose, this`joins, this`nextJoin
      ensures i == StopIndex(old(onClose), joiner, cids, 0)
      ensures R() == Halfway(old(R()), joiner, Live(old(onClose), cids[..i]))
      ensures stop == if i == |cids| then Through else if cids[i] == joiner then MetSelf else MetBusy
    {
      var j := nextJoin;
      nextJoin := nextJoin + 1;
      joins := joins[j := JoinCall(joiner, {}, false, Registering, {})];
      HalfwayStart(old(R()), joiner);
      assert Live(old(onClose), cids[..0]) == {};
      i := 0;
      while i < |cids|
        invariant i <= |cids|
        invariant Hangable(old(onClose), joiner, cids[..i])
        invariant R() == Halfway(old(R()), joiner, Live(old(onClose), cids[..i]))
      {
        var c := cids[i];
        if c == joiner {
          assert cids[..i + 1][i] == joiner;
          StopIndexIs(old(onClose), joiner, cids, 0, i);
          return MetSelf, i;
        }
        HalfwayStep(old(R()), joiner, cids, i);
        if c in onClose {
          if onClose[c].Some? {
            BusyMeansUnhangable(old(R()), joiner, cids[..i + 1], i);
            StopIndexIs(old(onClose), joiner, cids, 0, i);
            return MetBusy, i;
          }
          onClose := onClose[c := Some(j)];
          joins := joins[j := joins[j].(coSet := joins[j].coSet + {c}, registered := joins[j].registered + {c})];
        }
        HangableStep(old(onClose), joiner, cids, i);
        i := i + 1;
      }
      StopIndexIs(old(onClose), joiner, cids, 0, i);
      stop := Through;
    }

    /** A refused `join` takes its callbacks back; it does not set `canceled`. */
    method Refuse(j: JoinId) returns (r: Outcome)
      requires R().Valid() && j in joins && joins[j].phase.Registering?
      modifies this`onClose, this`joins
      ensures r == Rejected && R() == InterruptedSpec(old(R()), j, false) && R().Valid()
      ensures R().Clean() <==> old(R()).Clean() && j !in old(deferred) && j !in old(strays)
    {
      InterruptKeepsValid(R(), j, false);
      assert R().SetOk(j) && R().WakeOk(j);
      CleanJoinCallbacks(j);
      joins := joins[j := joins[j].(phase := Returned(false))];
      r := Rejected;
    }

    /** `join` up to its suspension, or to its refusal. */
    method StartJoin(joiner: Cid, cids: seq<Cid>, during: seq<Op>) returns (r: Outcome)
      requires R().Valid()
      modifies this
      ensures (R(), r) == Started(old(R()), joiner, cids, during)
      ensures r == if Joinable(old(onClose), joiner, cids) then Parked(old(nextJoin)) else Rejected
      ensures r.Rejected? ==> RefusalLaw(old(R()), R(), joiner, cids, during)
      ensures r.Parked? ==> ParkLaw(old(R()), R(), joiner, Live(old(onClose), cids))
      decreases Weight(during), 1
    {
      ParkedIff(R(), joiner, cids, during);
      if Joinable(onClose, joiner, cids) {
        ParkIs(R(), joiner, Live(onClose, cids));
      } else {
        RefusedJoin(R(), joiner, cids, during);
      }
      HalfwayKeeps(R(), joiner, cids);
      var j := nextJoin;
      var stop, _ := HangCallbacks(joiner, cids);
      if stop == MetSelf {
        r := Warn(j, during);
      } else if stop == MetBusy || joins[j].coSet == {} {
        r := Refuse(j);
      } else {
        joins := joins[j := joins[j].(phase := Waiting)];
        r := Parked(j);
      }
    }

    /** The warning about a self-join, in which user code runs, and the refusal after it. */
    method Warn(j: JoinId, during: seq<Op>) returns (r: Outcome)
      requires R().Valid() && j in joins && joins[j].phase.Registering?
      modifies this
      ensures r == Rejected
      ensures j in RunAll(old(R()), during).joins && R() == InterruptedSpec(RunAll(old(R()), during), j, false)
      decreases Weight(during), 0, 1
    {
      RunKeeps(R(), during);
      Run(during);
      r := Refuse(j);
    }

    method TakeStep(op: Op)
      requires R().Valid()
      modifies this
      ensures R() == Step(old(R()), op) && Keeps(old(R()), R(), HarmlessOp(old(R()), op))
      ensures match op
              case Spawn(c) =>
                if c in old(onClose) || c in old(closed) then R() == old(R()) else onClose == old(onClose)[c := None]
              case Close(c) =>
                if && c in old(onClose) && c != MAIN
                   && forall j :: j in old(joins) && old(joins)[j].joiner == c ==> old(joins)[j].phase.Returned?
                then c in closed else R() == old(R())
              case StartJoin(joiner, cids, _) =>
                && old(nextJoin) in joins
                && (Joinable(old(onClose), joiner, cids) ==> joins[old(nextJoin)].phase.Waiting?)
              case Interrupt(j) =>
                if j in old(joins) && old(joins)[j].phase.Waiting? then j in joins && joins[j].phase == Returned(false)
                else R() == old(R())
              case RunDeferred => if old(deferred) == [] then R() == old(R()) else deferred == old(deferred)[1..]
      decreases OpWeight(op), 0
    {
      StepKeeps(R(), op);
      match op {
        case Spawn(c) =>
          if c !in onClose && c !in closed {
            onClose := onClose[c := None];
          }
        case Close(c) =>
          if c in onClose && c != MAIN &&
             (forall j :: j in joins && joins[j].joiner == c ==> joins[j].phase.Returned?) {
            Close(c);
          }
        case StartJoin(joiner, cids, during) => var _ := StartJoin(joiner, cids, during);
        case Interrupt(j) => if j in joins && joins[j].phase.Waiting? { Interrupt(j); }
        case RunDeferred => if deferred != [] { RunDeferred(); }
      }
    }

    /** Every interleaving of joins, closes, timeouts, cancellations and deferred callbacks. */
    method Run(ops: seq<Op>)
      requires R().Valid()
      modifies this
      ensures R() == RunAll(old(R()), ops) && Keeps(old(R()), R(), Harmless(old(R()), ops))
      decreases Weight(ops), 0, 0
    {
      RunKeeps(R(), ops);
      if ops != [] {
        TakeStep(ops[0]);
        Run(ops[1..]);
      }
    }
  }
}
