/**
 * Single-flight class loading (swoole_coroutine_autoload in ext-src/swoole_coroutine.cc):
 * the first coroutine that needs a class leads, later ones queue up behind it and are
 * resumed one by one with the class the leader loaded.
 */
module Autoload {
  import opened Prelude

  type Cid = int
  type Name = string
  type CallId = nat

  /** A class entry, or nothing when loading failed. */
  type Class = Option<int>

  datatype Phase = Loading | Draining(ce: Class) | Finished(ce: Class)

  /** One leading call: the `AutoloadQueue` on the leader's stack. */
  datatype Call = Call(name: Name, leader: Cid, queue: seq<Cid>, phase: Phase)

  /** A waiter came out of its yield inside call `call` with class `ce`. */
  datatype Answer = Answer(waiter: Cid, call: CallId, ce: Class)

  datatype Entered = Recursion | Waits(behind: CallId) | Leads(call: CallId)

  datatype Op =
    | Enter(cid: Cid, name: Name)
    | Loaded(call: CallId, ce: Class)
    | Deliver(call: CallId)
    | Return(call: CallId)

  /** The waiters of `call` that were answered, in that order. */
  ghost function Served(answers: seq<Answer>, call: CallId): seq<Cid> {
    if answers == [] then []
    else
      var earlier := Served(answers[..|answers| - 1], call);
      var last := answers[|answers| - 1];
      if last.call == call then earlier + [last.waiter] else earlier
  }

  ghost predicate Distinct(q: seq<Cid>) {
    forall i, j :: 0 <= i < j < |q| ==> q[i] != q[j]
  }

  /** The state of the protocol; `joined` remembers who ever queued behind each call. */
  datatype Hub = Hub(
    inAutoload: map<Name, CallId>,
    calls: map<CallId, Call>,
    nextCall: CallId,
    parked: map<Cid, CallId>,
    answers: seq<Answer>,
    joined: map<CallId, seq<Cid>>)
  {
    ghost predicate Valid() {
      && joined.Keys == calls.Keys
      && (forall n :: n in inAutoload ==> NameOk(n))
      && (forall k :: k in calls ==> CallOk(k) && QueueOk(k) && HistoryOk(k))
      && (forall w :: w in parked ==> parked[w] in calls && w in calls[parked[w]].queue)
      && (forall a :: a in answers ==> AnswerOk(a))
    }

    /** A name is registered only while a leader runs the original loader for it. */
    ghost predicate NameOk(n: Name)
      requires n in inAutoload
    {
      inAutoload[n] in calls && calls[inAutoload[n]].name == n && calls[inAutoload[n]].phase.Loading?
    }

    ghost predicate CallOk(k: CallId)
      requires k in calls
    {
      k < nextCall && (calls[k].phase.Loading? ==> calls[k].name in inAutoload && inAutoload[calls[k].name] == k)
    }

    /** The queue of a call holds coroutines parked there, each once, and never the leader. */
    ghost predicate QueueOk(k: CallId)
      requires k in calls
    {
      && Distinct(calls[k].queue)
      && calls[k].leader !in calls[k].queue
      && (forall w :: w in calls[k].queue ==> w in parked && parked[w] == k)
    }

    /** Whoever queued was answered in order, or still waits in order. */
    ghost predicate HistoryOk(k: CallId)
      requires k in calls && k in joined
    {
      && joined[k] == Served(answers, k) + calls[k].queue && Distinct(joined[k])
      && (calls[k].phase.Loading? ==> Served(answers, k) == [])
      && (calls[k].phase.Finished? ==> calls[k].queue == [])
    }

    /** An answer carries what the leader of that call loaded. */
    ghost predicate AnswerOk(a: Answer) {
      a.call in calls && !calls[a.call].phase.Loading? && a.ce == calls[a.call].phase.ce
    }
  }

  // ---------------------------------------------------------------- what a state promises

  /** At most one coroutine runs the original loader for a class name. */
  lemma AtMostOneLoader(h: Hub, k: CallId, k': CallId)
    requires h.Valid() && k in h.calls && k' in h.calls
    requires h.calls[k].phase.Loading? && h.calls[k'].phase.Loading? && h.calls[k].name == h.calls[k'].name
    ensures k == k'
  {
    assert h.CallOk(k) && h.CallOk(k');
  }

  /** When a call has returned, everyone who queued behind it was answered once, in order. */
  lemma {:induction false} EveryWaiterServed(h: Hub, k: CallId, i: nat)
    requires h.Valid() && k in h.calls && h.calls[k].phase.Finished? && i < |h.joined[k]|
    ensures Served(h.answers, k) == h.joined[k] && Distinct(h.joined[k])
    ensures Answer(h.joined[k][i], k, h.calls[k].phase.ce) in h.answers
  {
    assert h.HistoryOk(k);
    ServedIsAnswered(h.answers, k, i);
    var a :| 0 <= a < |h.answers| && h.answers[a].call == k && h.answers[a].waiter == h.joined[k][i];
    assert h.AnswerOk(h.answers[a]);
    assert h.answers[a] == Answer(h.joined[k][i], k, h.calls[k].phase.ce);
  }

  lemma {:induction false} ServedIsAnswered(answers: seq<Answer>, k: CallId, i: nat)
    requires i < |Served(answers, k)|
    ensures exists a :: 0 <= a < |answers| && answers[a].call == k && answers[a].waiter == Served(answers, k)[i]
  {
    var n := |answers| - 1;
    var earlier := answers[..n];
    if i < |Served(earlier, k)| {
      ServedIsAnswered(earlier, k, i);
      var a :| 0 <= a < |earlier| && earlier[a].call == k && earlier[a].waiter == Served(earlier, k)[i];
      assert answers[a] == earlier[a];
    } else {
      assert answers[n].call == k;
    }
  }

  lemma ServedSnoc(answers: seq<Answer>, a: Answer, k: CallId)
    ensures Served(answers + [a], k) == if a.call == k then Served(answers, k) + [a.waiter] else Served(answers, k)
  {
    assert (answers + [a])[..|answers|] == answers;
  }

  // --------------------------------------------------------------------- the steps

  /** `swoole_coroutine_autoload` up to its first suspension. */
  ghost function Entering(h: Hub, cid: Cid, name: Name): (Hub, Entered) {
    if name in h.inAutoload && h.inAutoload[name] in h.calls && h.inAutoload[name] in h.joined then
      var k := h.inAutoload[name];
      if h.calls[k].leader == cid then (h, Recursion)
      else (h.(calls := h.calls[k := h.calls[k].(queue := h.calls[k].queue + [cid])],
               parked := h.parked[cid := k],
               joined := h.joined[k := h.joined[k] + [cid]]), Waits(k))
    else
      var k := h.nextCall;
      (h.(calls := h.calls[k := Call(name, cid, [], Loading)],
          inAutoload := h.inAutoload[name := k],
          nextCall := k + 1,
          joined := h.joined[k := []]), Leads(k))
  }

  /** The original loader came back: the entry goes, the queue is about to be drained. */
  ghost function LoadFinished(h: Hub, k: CallId, ce: Class): Hub
    requires k in h.calls
  {
    h.(inAutoload := h.inAutoload - {h.calls[k].name}, calls := h.calls[k := h.calls[k].(phase := Draining(ce))])
  }

  /** One turn of the drain loop: the front waiter gets the class and runs. */
  ghost function Delivering(h: Hub, k: CallId): Hub
    requires k in h.calls && h.calls[k].phase.Draining? && h.calls[k].queue != []
  {
    var w := h.calls[k].queue[0];
    h.(calls := h.calls[k := h.calls[k].(queue := h.calls[k].queue[1..])],
       parked := h.parked - {w},
       answers := h.answers + [Answer(w, k, h.calls[k].phase.ce)])
  }

  ghost function Returning(h: Hub, k: CallId): Hub
    requires k in h.calls && h.calls[k].phase.Draining?
  {
    h.(calls := h.calls[k := h.calls[k].(phase := Finished(h.calls[k].phase.ce))])
  }

  /** A step of a coroutine that is free to run, taken where it is possible. */
  ghost function Step(h: Hub, op: Op): Hub {
    match op
    case Enter(cid, name) => if cid in h.parked then h else Entering(h, cid, name).0
    case Loaded(k, ce) => if Free(h, k) && h.calls[k].phase.Loading? then LoadFinished(h, k, ce) else h
    case Deliver(k) =>
      if Free(h, k) && h.calls[k].phase.Draining? && h.calls[k].queue != [] then Delivering(h, k) else h
    case Return(k) =>
      if Free(h, k) && h.calls[k].phase.Draining? && h.calls[k].queue == [] then Returning(h, k) else h
  }

  /** The leader of call `k` is not itself waiting. */
  predicate Free(h: Hub, k: CallId) {
    k in h.calls && h.calls[k].leader !in h.parked
  }

  ghost function RunAll(h: Hub, ops: seq<Op>): Hub
    decreases |ops|
  {
    if ops == [] then h else RunAll(Step(h, ops[0]), ops[1..])
  }

  lemma RunCons(h: Hub, op: Op, rest: seq<Op>)
    ensures RunAll(h, [op] + rest) == RunAll(Step(h, op), rest)
  {
    assert ([op] + rest)[1..] == rest;
  }

  lemma {:induction false} RunPlus(h: Hub, ops: seq<Op>, more: seq<Op>)
    ensures RunAll(h, ops + more) == RunAll(RunAll(h, ops), more)
    decreases |ops|
  {
    if ops == [] {
      assert ops + more == more;
    } else {
      assert (ops + more)[1..] == ops[1..] + more;
      RunPlus(Step(h, ops[0]), ops[1..], more);
    }
  }

  // ---------------------------------------------------------------- each step keeps the promises

  /** Coroutine `cid` queues up behind call `k`. */
  ghost predicate Enqueued(before: Hub, after: Hub, cid: Cid, k: CallId) {
    && before.Valid() && cid !in before.parked && k in before.calls && before.calls[k].phase.Loading?
    && before.calls[k].leader != cid
    && after == before.(calls := before.calls[k := before.calls[k].(queue := before.calls[k].queue + [cid])],
                        parked := before.parked[cid := k],
                        joined := before.joined[k := before.joined[k] + [cid]])
  }

  lemma EnqueueKeepsCall(before: Hub, after: Hub, cid: Cid, k: CallId, k': CallId)
    requires Enqueued(before, after, cid, k) && k' in after.calls
    ensures after.CallOk(k') && after.QueueOk(k') && after.HistoryOk(k')
  {
    assert before.CallOk(k') && before.QueueOk(k') && before.HistoryOk(k');
  }

  lemma EnqueueKeepsValid(before: Hub, after: Hub, cid: Cid, k: CallId)
    requires Enqueued(before, after, cid, k)
    ensures after.Valid()
  {
    forall k' | k' in after.calls ensures after.CallOk(k') && after.QueueOk(k') && after.HistoryOk(k') {
      EnqueueKeepsCall(before, after, cid, k, k');
    }
    forall n | n in after.inAutoload ensures after.NameOk(n) {
      assert before.NameOk(n);
    }
    forall a | a in after.answers ensures after.AnswerOk(a) {
      assert before.AnswerOk(a);
    }
  }

  /** Coroutine `cid` becomes the leader for `name`. */
  ghost predicate Led(before: Hub, after: Hub, cid: Cid, name: Name) {
    && before.Valid() && cid !in before.parked && name !in before.inAutoload
    && after == before.(calls := before.calls[before.nextCall := Call(name, cid, [], Loading)],
                        inAutoload := before.inAutoload[name := before.nextCall],
                        nextCall := before.nextCall + 1,
                        joined := before.joined[before.nextCall := []])
  }

  lemma LeadKeepsCall(before: Hub, after: Hub, cid: Cid, name: Name, k: CallId)
    requires Led(before, after, cid, name) && k in after.calls
    ensures after.CallOk(k) && after.QueueOk(k) && after.HistoryOk(k)
  {
    assert before.nextCall !in before.calls by {
      assert before.nextCall in before.calls ==> before.CallOk(before.nextCall);
    }
    if k == before.nextCall {
      NewCallUnserved(before, k);
    } else {
      assert before.CallOk(k) && before.QueueOk(k) && before.HistoryOk(k);
    }
  }

  lemma LeadKeepsValid(before: Hub, after: Hub, cid: Cid, name: Name)
    requires Led(before, after, cid, name)
    ensures after.Valid()
  {
    assert before.nextCall !in before.calls by {
      assert before.nextCall in before.calls ==> before.CallOk(before.nextCall);
    }
    forall k | k in after.calls ensures after.CallOk(k) && after.QueueOk(k) && after.HistoryOk(k) {
      LeadKeepsCall(before, after, cid, name, k);
    }
    forall n | n in after.inAutoload ensures after.NameOk(n) {
      if n != name { assert before.NameOk(n); }
    }
    forall a | a in after.answers ensures after.AnswerOk(a) {
      assert before.AnswerOk(a);
    }
  }

  lemma LoadedKeepsValid(before: Hub, after: Hub, k: CallId, ce: Class)
    requires before.Valid() && k in before.calls && before.calls[k].phase.Loading?
    requires after == LoadFinished(before, k, ce)
    ensures after.Valid()
  {
    assert before.CallOk(k);
    forall k' | k' in after.calls ensures after.CallOk(k') && after.QueueOk(k') && after.HistoryOk(k') {
      assert before.CallOk(k') && before.QueueOk(k') && before.HistoryOk(k');
    }
    forall n | n in after.inAutoload ensures after.NameOk(n) {
      assert before.NameOk(n);
    }
    forall a | a in after.answers ensures after.AnswerOk(a) {
      assert before.AnswerOk(a);
    }
  }

  /** The front of call `k`'s queue is answered. */
  ghost predicate Delivered(before: Hub, after: Hub, k: CallId) {
    && before.Valid() && k in before.calls && before.calls[k].phase.Draining? && before.calls[k].queue != []
    && after == Delivering(before, k)
  }

  lemma DeliverKeepsOwn(before: Hub, after: Hub, k: CallId)
    requires Delivered(before, after, k)
    ensures after.CallOk(k) && after.QueueOk(k) && after.HistoryOk(k)
  {
    var q := before.calls[k].queue;
    assert after.CallOk(k) by { assert before.CallOk(k); }
    assert after.QueueOk(k) by { assert before.QueueOk(k); }
    assert after.HistoryOk(k) by {
      assert before.HistoryOk(k);
      ServedSnoc(before.answers, Answer(q[0], k, before.calls[k].phase.ce), k);
      assert q == [q[0]] + q[1..];
      Assoc(Served(before.answers, k), [q[0]], q[1..]);
    }
  }

  lemma DeliverKeepsCall(before: Hub, after: Hub, k: CallId, k': CallId)
    requires Delivered(before, after, k) && k' in after.calls
    ensures after.CallOk(k') && after.QueueOk(k') && after.HistoryOk(k')
  {
    if k == k' {
      DeliverKeepsOwn(before, after, k);
    } else {
      var w := before.calls[k].queue[0];
      assert before.QueueOk(k) && before.parked[w] == k;
      assert before.CallOk(k') && before.QueueOk(k') && before.HistoryOk(k');
      ServedSnoc(before.answers, Answer(w, k, before.calls[k].phase.ce), k');
    }
  }

  lemma DeliverKeepsParked(before: Hub, after: Hub, k: CallId, w: Cid)
    requires Delivered(before, after, k) && w in after.parked
    ensures after.parked[w] in after.calls && w in after.calls[after.parked[w]].queue
  {
    assert w in before.calls[before.parked[w]].queue && w != before.calls[k].queue[0];
  }

  lemma DeliverKeepsAnswer(before: Hub, after: Hub, k: CallId, a: Answer)
    requires Delivered(before, after, k) && a in after.answers
    ensures after.AnswerOk(a)
  {
    if a in before.answers {
      assert before.AnswerOk(a);
    }
  }

  lemma DeliverKeepsValid(before: Hub, after: Hub, k: CallId)
    requires Delivered(before, after, k)
    ensures after.Valid()
  {
    forall k' | k' in after.calls ensures after.CallOk(k') && after.QueueOk(k') && after.HistoryOk(k') {
      DeliverKeepsCall(before, after, k, k');
    }
    forall n | n in after.inAutoload ensures after.NameOk(n) {
      assert before.NameOk(n);
    }
    forall a | a in after.answers ensures after.AnswerOk(a) {
      DeliverKeepsAnswer(before, after, k, a);
    }
    forall w | w in after.parked ensures after.parked[w] in after.calls && w in after.calls[after.parked[w]].queue {
      DeliverKeepsParked(before, after, k, w);
    }
  }

  lemma FinishKeepsValid(before: Hub, after: Hub, k: CallId)
    requires before.Valid() && k in before.calls && before.calls[k].phase.Draining? && before.calls[k].queue == []
    requires after == Returning(before, k)
    ensures after.Valid()
  {
    forall k' | k' in after.calls ensures after.CallOk(k') && after.QueueOk(k') && after.HistoryOk(k') {
      assert before.CallOk(k') && before.QueueOk(k') && before.HistoryOk(k');
    }
    forall n | n in after.inAutoload ensures after.NameOk(n) {
      assert before.NameOk(n);
    }
    forall a | a in after.answers ensures after.AnswerOk(a) {
      assert before.AnswerOk(a);
    }
  }

  lemma {:induction false} NewCallUnserved(h: Hub, k: CallId)
    requires h.Valid() && k !in h.calls
    ensures Served(h.answers, k) == []
  {
    forall i | 0 <= i < |h.answers| ensures h.answers[i].call != k {
      assert h.AnswerOk(h.answers[i]);
    }
    Unserved(h.answers, k);
  }

  lemma {:induction false} Unserved(answers: seq<Answer>, k: CallId)
    requires forall i :: 0 <= i < |answers| ==> answers[i].call != k
    ensures Served(answers, k) == []
  {
    if answers != [] {
      Unserved(answers[..|answers| - 1], k);
    }
  }

  /**
   * Who needs a class leads when nobody loads it, goes on at once exactly when it is the one that
   * loads it, and otherwise queues up last behind that call; nothing else changes.
   */
  ghost predicate EnterLaw(h: Hub, after: Hub, cid: Cid, name: Name, r: Entered) {
    if name !in h.inAutoload then
      && r == Leads(h.nextCall) && h.nextCall !in h.calls && after.parked == h.parked
      && after.inAutoload == h.inAutoload[name := h.nextCall]
      && after.calls == h.calls[h.nextCall := Call(name, cid, [], Loading)]
    else
      var k := h.inAutoload[name];
      && k in h.calls && h.calls[k].name == name && after.inAutoload == h.inAutoload
      && (r == Recursion <==> h.calls[k].leader == cid)
      && (r == Recursion ==> after == h)
      && (r != Recursion ==>
            && r == Waits(k) && after.parked == h.parked[cid := k]
            && after.calls == h.calls[k := h.calls[k].(queue := h.calls[k].queue + [cid])])
  }

  lemma EnterIs(h: Hub, cid: Cid, name: Name)
    requires h.Valid()
    ensures EnterLaw(h, Entering(h, cid, name).0, cid, name, Entering(h, cid, name).1)
  {
    assert name in h.inAutoload ==> h.NameOk(name);
    assert h.nextCall in h.calls ==> h.CallOk(h.nextCall);
  }

  lemma EnterKeepsValid(h: Hub, cid: Cid, name: Name)
    requires h.Valid() && cid !in h.parked
    ensures Entering(h, cid, name).0.Valid()
  {
    if name in h.inAutoload {
      assert h.NameOk(name);
      var k := h.inAutoload[name];
      if h.calls[k].leader != cid {
        EnqueueKeepsValid(h, Entering(h, cid, name).0, cid, k);
      }
    } else {
      LeadKeepsValid(h, Entering(h, cid, name).0, cid, name);
    }
  }

  lemma StepKeepsValid(h: Hub, op: Op)
    requires h.Valid()
    ensures Step(h, op).Valid()
  {
    var after := Step(h, op);
    if after != h {
      match op {
        case Enter(cid, name) => EnterKeepsValid(h, cid, name);
        case Loaded(k, ce) => LoadedKeepsValid(h, after, k, ce);
        case Deliver(k) => DeliverKeepsValid(h, after, k);
        case Return(k) => FinishKeepsValid(h, after, k);
      }
    }
  }

  /** The promises hold over every interleaving of the steps of all coroutines. */
  lemma {:induction false} RunKeepsValid(h: Hub, ops: seq<Op>)
    requires h.Valid()
    ensures RunAll(h, ops).Valid()
    decreases |ops|
  {
    if ops != [] {
      StepKeepsValid(h, ops[0]);
      RunKeepsValid(Step(h, ops[0]), ops[1..]);
    }
  }

  /** Call `k`, its history and its answers are the same in both. */
  ghost predicate Untouched(h: Hub, after: Hub, k: CallId) {
    && k in h.calls && k in after.calls && after.calls[k] == h.calls[k]
    && k in h.joined && k in after.joined && after.joined[k] == h.joined[k]
    && Served(after.answers, k) == Served(h.answers, k)
  }

  lemma EnterElsewhere(h: Hub, cid: Cid, name: Name, k: CallId)
    requires k in h.calls && k in h.joined && !h.calls[k].phase.Loading? && k < h.nextCall
    requires name in h.inAutoload ==> h.NameOk(name)
    ensures Untouched(h, Entering(h, cid, name).0, k)
  {
  }

  lemma DeliverElsewhere(h: Hub, k': CallId, k: CallId)
    requires k in h.calls && k in h.joined && k != k'
    requires k' in h.calls && h.calls[k'].phase.Draining? && h.calls[k'].queue != []
    ensures Untouched(h, Delivering(h, k'), k)
  {
    ServedSnoc(h.answers, Answer(h.calls[k'].queue[0], k', h.calls[k'].phase.ce), k);
  }

  /** Steps that are not its own leave a call alone whose class is loaded. */
  lemma StepElsewhere(h: Hub, op: Op, k: CallId)
    requires h.Valid() && k in h.calls && !h.calls[k].phase.Loading? && (op.Enter? || op.call != k)
    ensures Untouched(h, Step(h, op), k)
  {
    assert h.CallOk(k);
    if Step(h, op) != h {
      match op {
        case Enter(cid, name) => EnterElsewhere(h, cid, name, k);
        case Loaded(_, _) =>
        case Deliver(k') => DeliverElsewhere(h, k', k);
        case Return(_) =>
      }
    }
  }

  lemma {:induction false} RunElsewhere(h: Hub, ops: seq<Op>, k: CallId)
    requires h.Valid() && k in h.calls && !h.calls[k].phase.Loading?
    requires forall i :: 0 <= i < |ops| ==> ops[i].Enter? || ops[i].call != k
    ensures Untouched(h, RunAll(h, ops), k)
    decreases |ops|
  {
    if ops != [] {
      StepKeepsValid(h, ops[0]);
      StepElsewhere(h, ops[0], k);
      RunElsewhere(Step(h, ops[0]), ops[1..], k);
    }
  }

  // ------------------------------------------------------------- who waits forever

  /** Whom a waiting coroutine waits for: the leader of the call it queued behind. */
  function Ahead(h: Hub, w: Cid): Cid
    requires w in h.parked && h.parked[w] in h.calls
  {
    h.calls[h.parked[w]].leader
  }

  ghost predicate WaitsFor(h: Hub, w: Cid, l: Cid) {
    w in h.parked && h.parked[w] in h.calls && Ahead(h, w) == l
  }

  /** Coroutines each of which waits for the next. */
  ghost predicate Path(h: Hub, p: seq<Cid>) {
    && p != [] && (forall i :: 0 <= i < |p| ==> p[i] in h.parked && h.parked[p[i]] in h.calls)
    && forall i, j :: 0 <= i < j < |p| && j == i + 1 ==> Ahead(h, p[i]) == p[j]
  }

  /** Following who waits for whom from `w` along `p` leads back into `p`. */
  ghost predicate Circle(h: Hub, w: Cid, p: seq<Cid>) {
    Path(h, p) && p[0] == w && Ahead(h, p[|p| - 1]) in p
  }

  /** Coroutines that wait for each other only. */
  ghost predicate Closed(h: Hub, s: set<Cid>) {
    forall w :: w in s ==> w in h.parked && h.parked[w] in h.calls && Ahead(h, w) in s
  }

  lemma EnterAnswers(h: Hub, cid: Cid, name: Name, w: Cid)
    requires h.Valid() && w in h.parked && cid !in h.parked
    ensures var after := Entering(h, cid, name).0;
            w in after.parked && after.parked[w] == h.parked[w] && WaitsFor(after, w, Ahead(h, w))
  {
    assert h.CallOk(h.parked[w]);
    assert name in h.inAutoload ==> h.NameOk(name);
  }

  lemma DeliverAnswers(h: Hub, k: CallId, w: Cid)
    requires h.Valid() && w in h.parked
    requires k in h.calls && h.calls[k].phase.Draining? && h.calls[k].queue != []
    ensures var after := Delivering(h, k);
            if w == h.calls[k].queue[0] then
              h.parked[w] == k && w !in after.parked && after.answers == h.answers + [Answer(w, k, h.calls[k].phase.ce)]
            else
              w in after.parked && after.parked[w] == h.parked[w] && WaitsFor(after, w, Ahead(h, w))
  {
    assert h.QueueOk(k) && h.calls[k].queue[0] in h.calls[k].queue;
  }

  /** A waiter stays where it is, or has been answered and is free; not while its leader waits. */
  lemma StepAnswers(h: Hub, op: Op, w: Cid)
    requires h.Valid() && w in h.parked
    ensures w in Step(h, op).parked ==>
              Step(h, op).parked[w] == h.parked[w] && WaitsFor(Step(h, op), w, Ahead(h, w))
    ensures w !in Step(h, op).parked ==>
              && Ahead(h, w) !in h.parked
              && exists ce :: Step(h, op).answers == h.answers + [Answer(w, h.parked[w], ce)]
  {
    if Step(h, op) != h {
      match op {
        case Enter(cid, name) => EnterAnswers(h, cid, name, w);
        case Loaded(_, _) =>
        case Deliver(k) => DeliverAnswers(h, k, w);
        case Return(_) =>
      }
    }
  }

  lemma StepKeepsClosed(h: Hub, op: Op, s: set<Cid>)
    requires h.Valid() && Closed(h, s)
    ensures Closed(Step(h, op), s)
    ensures forall w :: w in s ==> w in Step(h, op).parked && Step(h, op).parked[w] == h.parked[w]
  {
    var after := Step(h, op);
    forall w | w in s ensures w in after.parked && after.parked[w] == h.parked[w] && WaitsFor(after, w, Ahead(h, w)) {
      StepAnswers(h, op, w);
    }
  }

  lemma {:induction false} RunKeepsClosed(h: Hub, ops: seq<Op>, s: set<Cid>)
    requires h.Valid() && Closed(h, s)
    ensures forall w :: w in s ==> w in RunAll(h, ops).parked && RunAll(h, ops).parked[w] == h.parked[w]
    decreases |ops|
  {
    if ops != [] {
      StepKeepsValid(h, ops[0]);
      StepKeepsClosed(h, ops[0], s);
      RunKeepsClosed(Step(h, ops[0]), ops[1..], s);
    }
  }

  lemma CircleIsClosed(h: Hub, w: Cid, p: seq<Cid>)
    requires Circle(h, w, p)
    ensures Closed(h, set x | x in p)
  {
    var s := set x | x in p;
    forall x | x in s ensures x in h.parked && h.parked[x] in h.calls && Ahead(h, x) in s {
      var i :| 0 <= i < |p| && p[i] == x;
      if i + 1 < |p| {
        assert Ahead(h, p[i]) == p[i + 1];
      }
    }
  }

  /** `w` is the `n`-th in the queue of call `k`, which is being drained by a leader who is free. */
  ghost predicate InLine(h: Hub, w: Cid, k: CallId, n: nat) {
    && w in h.parked && h.parked[w] == k && Free(h, k) && h.calls[k].phase.Draining?
    && n < |h.calls[k].queue| && h.calls[k].queue[n] == w
  }

  lemma MovesUp(h: Hub, w: Cid, k: CallId, n: nat)
    requires h.Valid() && InLine(h, w, k, n)
    ensures var after := Step(h, Deliver(k));
            after.Valid() && if n == 0 then w !in after.parked else InLine(after, w, k, n - 1)
  {
    StepKeepsValid(h, Deliver(k));
    assert Step(h, Deliver(k)) == Delivering(h, k);
    DeliverAnswers(h, k, w);
    if n > 0 {
      assert h.QueueOk(k) && h.calls[k].queue[0] != w;
    }
  }

  /** The drain of a call answers its queue up to `w`. */
  lemma {:induction false} RunFrees(h: Hub, w: Cid, k: CallId, n: nat) returns (ops: seq<Op>)
    requires h.Valid() && InLine(h, w, k, n)
    ensures w !in RunAll(h, ops).parked && RunAll(h, ops).Valid()
    decreases n
  {
    MovesUp(h, w, k, n);
    var rest := [];
    if n > 0 {
      rest := RunFrees(Step(h, Deliver(k)), w, k, n - 1);
    }
    RunCons(h, Deliver(k), rest);
    ops := [Deliver(k)] + rest;
  }

  /** Behind a free leader: the class is loaded, if it is not yet, and the queue drained. */
  lemma FreeLeader(h: Hub, w: Cid) returns (ops: seq<Op>)
    requires h.Valid() && w in h.parked && Free(h, h.parked[w])
    ensures w !in RunAll(h, ops).parked && RunAll(h, ops).Valid()
  {
    var k := h.parked[w];
    assert h.CallOk(k) && h.HistoryOk(k) && w in h.calls[k].queue;
    var n :| 0 <= n < |h.calls[k].queue| && h.calls[k].queue[n] == w;
    if h.calls[k].phase.Loading? {
      var after := Step(h, Loaded(k, None));
      StepKeepsValid(h, Loaded(k, None));
      assert after == LoadFinished(h, k, None);
      var rest := RunFrees(after, w, k, n);
      RunCons(h, Loaded(k, None), rest);
      ops := [Loaded(k, None)] + rest;
    } else {
      ops := RunFrees(h, w, k, n);
    }
  }

  lemma {:induction false} RunAnswers(h: Hub, ops: seq<Op>, w: Cid, l: Cid) returns (done: seq<Op>)
    requires h.Valid() && WaitsFor(h, w, l)
    ensures RunAll(h, done).Valid()
    ensures w !in RunAll(h, done).parked || (done == ops && WaitsFor(RunAll(h, done), w, l))
    decreases |ops|
  {
    if ops == [] {
      done := [];
    } else {
      var after := Step(h, ops[0]);
      StepKeepsValid(h, ops[0]);
      StepAnswers(h, ops[0], w);
      if w in after.parked {
        var rest := RunAnswers(after, ops[1..], w, l);
        done := [ops[0]] + rest;
        assert done[1..] == rest && (rest == ops[1..] ==> done == ops);
      } else {
        done := [ops[0]];
        assert RunAll(h, done) == RunAll(after, []);
      }
    }
  }

  /** One by one, the coroutines along a path that ends with a leader who is free can be answered. */
  lemma {:induction false} FreeAlong(h: Hub, p: seq<Cid>) returns (ops: seq<Op>)
    requires h.Valid() && Path(h, p) && Ahead(h, p[|p| - 1]) !in h.parked
    ensures p[0] !in RunAll(h, ops).parked && RunAll(h, ops).Valid()
    decreases |p|
  {
    if |p| == 1 {
      ops := FreeLeader(h, p[0]);
    } else {
      assert Path(h, p[1..]);
      var first := FreeAlong(h, p[1..]);
      assert Ahead(h, p[0]) == p[1];
      var done := RunAnswers(h, first, p[0], p[1]);
      if p[0] in RunAll(h, done).parked {
        var rest := FreeLeader(RunAll(h, done), p[0]);
        RunPlus(h, done, rest);
        ops := done + rest;
      } else {
        ops := done;
      }
    }
  }

  lemma {:induction false} DistinctFits(p: seq<Cid>, s: set<Cid>)
    requires Distinct(p) && forall i :: 0 <= i < |p| ==> p[i] in s
    ensures |p| <= |s|
    decreases |p|
  {
    if p != [] {
      DistinctFits(p[1..], s - {p[0]});
    }
  }

  /** Following the path from its end, one meets a free leader or comes back. */
  lemma {:induction false} Follow(h: Hub, p: seq<Cid>) returns (q: seq<Cid>)
    requires h.Valid() && Path(h, p) && Distinct(p)
    ensures Path(h, q) && q[0] == p[0] && (Ahead(h, q[|q| - 1]) in h.parked ==> Circle(h, p[0], q))
    decreases |h.parked.Keys| - |p|
  {
    var l := Ahead(h, p[|p| - 1]);
    DistinctFits(p, h.parked.Keys);
    if l !in h.parked || l in p {
      q := p;
    } else {
      var longer := p + [l];
      DistinctFits(longer, h.parked.Keys);
      assert Path(h, longer) && Distinct(longer);
      q := Follow(h, longer);
    }
  }

  /**
   * A waiter can be answered, unless following who waits for whom from it comes round in a
   * circle of leaders: then, and only then, it is never answered whatever happens.
   */
  lemma StuckIff(h: Hub, w: Cid)
    requires h.Valid() && w in h.parked
    ensures (forall ops :: w in RunAll(h, ops).parked) <==> exists p :: Circle(h, w, p)
  {
    if p :| Circle(h, w, p) {
      CircleIsClosed(h, w, p);
      forall ops ensures w in RunAll(h, ops).parked {
        RunKeepsClosed(h, ops, set x | x in p);
      }
    } else {
      var p := Follow(h, [w]);
      var ops := FreeAlong(h, p);
      assert w !in RunAll(h, ops).parked;
    }
  }

  const EMPTY := Hub(map[], map[], 0, map[], [], map[])

  lemma TwoLead(a: Cid, b: Cid, m: Name, n: Name)
    requires m != n
    ensures Entering(Entering(EMPTY, a, m).0, b, n).0 ==
            Hub(map[m := 0, n := 1], map[0 := Call(m, a, [], Loading), 1 := Call(n, b, [], Loading)], 2, map[], [],
                map[0 := [], 1 := []])
  {
  }

  lemma TwoWait(h: Hub, a: Cid, b: Cid, m: Name, n: Name)
    requires a != b && m != n
    requires h == Hub(map[m := 0, n := 1], map[0 := Call(m, a, [], Loading), 1 := Call(n, b, [], Loading)],
                      2, map[], [], map[0 := [], 1 := []])
    ensures var waits := Entering(h, a, n).0;
            var both := Entering(waits, b, m).0;
            waits.parked == map[a := 1] && both.parked == map[a := 1, b := 0] && Circle(both, a, [a, b])
  {
    var both := Entering(Entering(h, a, n).0, b, m).0;
    assert Ahead(both, a) == b && Ahead(both, b) == a;
  }

  /** Two coroutines that load one class each and need the other's wait forever. */
  lemma MutualWait(a: Cid, b: Cid, m: Name, n: Name)
    requires a != b && m != n
    ensures var h := RunAll(EMPTY, [Enter(a, m), Enter(b, n), Enter(a, n), Enter(b, m)]);
            h.Valid() && Circle(h, a, [a, b])
  {
    var one := Entering(EMPTY, a, m).0;
    var two := Entering(one, b, n).0;
    var three := Entering(two, a, n).0;
    TwoLead(a, b, m, n);
    TwoWait(two, a, b, m, n);
    var last := [Enter(b, m)];
    var rest := [Enter(a, n)] + last;
    var ops := [Enter(a, m), Enter(b, n), Enter(a, n), Enter(b, m)];
    assert last[1..] == [] && rest[1..] == last && ops[1..][1..] == rest;
    RunKeepsValid(EMPTY, ops);
    assert RunAll(three, last) == RunAll(Entering(three, b, m).0, []) == Entering(three, b, m).0;
    assert RunAll(two, rest) == RunAll(three, last);
    assert RunAll(EMPTY, ops) == RunAll(one, ops[1..]) == RunAll(two, rest);
  }

  // ----------------------------------------------------------------------- the hub

  class AutoloadHub {
    var inAutoload: map<Name, CallId>       // SWOOLE_G(in_autoload)
    var calls: map<CallId, Call>
    var nextCall: CallId
    var parked: map<Cid, CallId>
    var answers: seq<Answer>
    ghost var joined: map<CallId, seq<Cid>>

    ghost function H(): Hub
      reads this
    {
      Hub(inAutoload, calls, nextCall, parked, answers, joined)
    }

    ghost predicate Valid()
      reads this
    {
      H().Valid()
    }

    constructor ()
      ensures Valid() && H() == EMPTY
    {
      inAutoload, calls, nextCall, parked, answers, joined := map[], map[], 0, map[], [], map[];
    }

    /** `swoole_coroutine_autoload` up to its first suspension. */
    method Enter(cid: Cid, name: Name) returns (r: Entered)
      requires Valid() && cid !in parked
      modifies this
      ensures (H(), r) == Entering(old(H()), cid, name) && Valid()
      ensures EnterLaw(old(H()), H(), cid, name, r)
      ensures cid in parked <==> r.Waits?
    {
      EnterIs(H(), cid, name);
      EnterKeepsValid(H(), cid, name);
      assert name in inAutoload ==> H().NameOk(name);
      r := LeadOrQueue(cid, name);
    }

    method LeadOrQueue(cid: Cid, name: Name) returns (r: Entered)
      requires name in inAutoload ==> inAutoload[name] in calls && inAutoload[name] in joined
      modifies this
      ensures (H(), r) == Entering(old(H()), cid, name)
    {
      if name in inAutoload {
        var k := inAutoload[name];
        if calls[k].leader == cid {
          return Recursion;
        }
        calls := calls[k := calls[k].(queue := calls[k].queue + [cid])];
        parked := parked[cid := k];
        joined := joined[k := joined[k] + [cid]];
        return Waits(k);
      }
      var k := nextCall;
      nextCall := nextCall + 1;
      calls := calls[k := Call(name, cid, [], Loading)];
      inAutoload := inAutoload[name := k];
      joined := joined[k := []];
      return Leads(k);
    }

    method FinishLoad(k: CallId, ce: Class)
      requires Valid() && k in calls && calls[k].phase.Loading?
      modifies this`inAutoload, this`calls
      ensures Valid() && H() == LoadFinished(old(H()), k, ce)
      ensures inAutoload == old(inAutoload) - {old(calls[k]).name}
      ensures calls == old(calls)[k := old(calls[k]).(phase := Draining(ce))]
    {
      inAutoload := inAutoload - {calls[k].name};
      calls := calls[k := calls[k].(phase := Draining(ce))];
      LoadedKeepsValid(old(H()), H(), k, ce);
    }

    method DeliverNext(k: CallId)
      requires Valid() && k in calls && calls[k].phase.Draining? && calls[k].queue != []
      modifies this`calls, this`answers, this`parked
      ensures Valid() && H() == Delivering(old(H()), k)
      ensures var front := old(calls[k]).queue[0];
              && answers == old(answers) + [Answer(front, k, old(calls[k]).phase.ce)] && parked == old(parked) - {front}
              && calls == old(calls)[k := old(calls[k]).(queue := old(calls[k]).queue[1..])]
    {
      var w := calls[k].queue[0];
      calls := calls[k := calls[k].(queue := calls[k].queue[1..])];
      answers := answers + [Answer(w, k, calls[k].phase.ce)];
      parked := parked - {w};
      DeliverKeepsValid(old(H()), H(), k);
    }

    method FinishCall(k: CallId)
      requires Valid() && k in calls && calls[k].phase.Draining? && calls[k].queue == []
      modifies this`calls
      ensures Valid() && H() == Returning(old(H()), k)
      ensures calls == old(calls)[k := old(calls[k]).(phase := Finished(old(calls[k]).phase.ce))]
    {
      calls := calls[k := calls[k].(phase := Finished(calls[k].phase.ce))];
      FinishKeepsValid(old(H()), H(), k);
    }

    method TakeStep(op: Op)
      requires Valid()
      modifies this
      ensures Valid() && H() == Step(old(H()), op)
      ensures match op
              case Enter(cid, name) =>
                if cid in old(parked) then H() == old(H()) else exists r :: EnterLaw(old(H()), H(), cid, name, r)
              case Loaded(k, ce) =>
                if k in old(calls) && old(calls[k]).leader !in old(parked) && old(calls[k]).phase.Loading?
                then k in calls && calls[k].phase == Draining(ce) else H() == old(H())
              case Deliver(k) =>
                if k in old(calls) && old(calls[k]).leader !in old(parked) && old(calls[k]).phase.Draining?
                   && old(calls[k]).queue != []
                then k in calls && calls[k].queue == old(calls[k]).queue[1..] else H() == old(H())
              case Return(k) =>
                if k in old(calls) && old(calls[k]).leader !in old(parked) && old(calls[k]).phase.Draining?
                   && old(calls[k]).queue == []
                then k in calls && calls[k].phase.Finished? else H() == old(H())
    {
      match op {
        case Enter(cid, name) =>
          if cid !in parked {
            var _ := Enter(cid, name);
          }
        case Loaded(k, ce) =>
          if k in calls && calls[k].leader !in parked && calls[k].phase.Loading? {
            FinishLoad(k, ce);
          }
        case Deliver(k) =>
          if k in calls && calls[k].leader !in parked && calls[k].phase.Draining? && calls[k].queue != [] {
            DeliverNext(k);
          }
        case Return(k) =>
          if k in calls && calls[k].leader !in parked && calls[k].phase.Draining? && calls[k].queue == [] {
            FinishCall(k);
          }
      }
    }

    /** Every interleaving of the steps of all coroutines. */
    method Run(ops: seq<Op>)
      requires Valid()
      modifies this
      ensures Valid() && H() == RunAll(old(H()), ops)
      decreases |ops|
    {
      if ops != [] {
        TakeStep(ops[0]);
        Run(ops[1..]);
      }
    }

    /**
     * The leader's side from the end of the load to its return.  Between any two turns of
     * the drain the resumed waiters and everyone else may run; the loop still ends, and
     * exactly those who queued while the class was loading are answered, in order.
     */
    method FinishAndDrain(k: CallId, ce: Class, others: seq<seq<Op>>)
      requires Valid() && k in calls && calls[k].phase.Loading?
      requires forall t, i :: 0 <= t < |others| && 0 <= i < |others[t]| ==>
                 others[t][i].Enter? || others[t][i].call != k
      modifies this
      ensures Valid() && k in calls && calls[k].phase == Finished(ce) && calls[k].queue == []
      ensures joined[k] == old(joined[k])
      ensures Served(answers, k) == old(calls[k].queue)
    {
      FinishLoad(k, ce);
      var t := 0;
      while calls[k].queue != []
        invariant Valid() && k in calls && calls[k].phase == Draining(ce)
        invariant joined[k] == old(joined[k])
        invariant Served(answers, k) + calls[k].queue == old(calls[k].queue)
        decreases |calls[k].queue|
      {
        ServedSnoc(answers, Answer(calls[k].queue[0], k, ce), k);
        DeliverNext(k);
        if t < |others| {
          RunElsewhere(H(), others[t], k);
          Run(others[t]);
          t := t + 1;
        }
      }
      FinishCall(k);
    }
  }
}
