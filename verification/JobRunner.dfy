/**
 * The worker: a polling loop that keeps at most maxConcurrent tasks going on one queue, with
 * handlers completing, producers enqueueing, heartbeats firing and `stop` arriving in any order.
 */
module JobRunner {
  import opened MetaTypes
  import opened InMemoryQueue

  /** A started `process(message)`. Settled once it acked or nacked, until its promise is removed. */
  datatype Task = Task(message: Message, settled: bool)

  /** Where `start` is: at the loop head, awaiting a receive, awaiting the last tasks, or returned. */
  datatype Place = Looping | Receiving(max: nat) | Draining | Returned

  /** `active` is keyed by receipt handle; `handled` logs the id of every handler invocation. */
  datatype Runner = Runner(queue: Queue, place: Place, running: bool, active: map<nat, Task>, handled: multiset<nat>)

  datatype Setup = Setup(config: Config, maxConcurrent: nat)

  datatype Action =
    | BeginReceive
    | EmptyPass(now: int, giveUp: bool)
    | ReceiveSome(now: int)
    | ReceiveFails
    | Settle(handle: nat, drop: bool, now: int)
    | Remove(handle: nat)
    | Heartbeat(handle: nat, until: int)
    | Stop
    | LeaveLoop
    | Return
    | Produce(job: Job, visibleAt: int)

  const BATCH: nat := 10

  function Smaller(a: nat, b: nat): nat {
    if a <= b then a else b
  }

  function Start(): Runner {
    Runner(NEW_QUEUE, Looping, true, map[], multiset{})
  }

  function AddTasks(active: map<nat, Task>, ready: seq<Message>): map<nat, Task>
    decreases |ready|
  {
    if ready == [] then active
    else AddTasks(active[ready[0].receiptHandle := Task(ready[0], false)], ready[1..])
  }

  function Ids(ready: seq<Message>): multiset<nat> {
    if ready == [] then multiset{} else multiset{ready[0].id} + Ids(ready[1..])
  }

  predicate Busy(r: Runner, handle: nat) {
    handle in r.active && !r.active[handle].settled
  }

  /** One step of the worker or of its surroundings, or None when it cannot happen now. */
  function Apply(u: Setup, r: Runner, a: Action): Option<Runner> {
    match a
    case BeginReceive =>
      if r.place == Looping && r.running && |r.active| < u.maxConcurrent then
        Some(r.(place := Receiving(Smaller(u.maxConcurrent - |r.active|, BATCH))))
      else None
    case EmptyPass(now, giveUp) =>
      if r.place.Receiving? && Poll(r.queue, u.config, now, r.place.max).ready == [] then
        Some(r.(queue := Poll(r.queue, u.config, now, r.place.max).queue, place := if giveUp then Looping else r.place))
      else None
    case ReceiveSome(now) =>
      // Tasks are started for every message that came back, even if stop was called meanwhile.
      if r.place.Receiving? && Poll(r.queue, u.config, now, r.place.max).ready != [] then
        var p := Poll(r.queue, u.config, now, r.place.max);
        Some(r.(queue := p.queue, place := Looping,
                active := AddTasks(r.active, p.ready), handled := r.handled + Ids(p.ready)))
      else None
    case ReceiveFails =>
      if r.place.Receiving? then Some(r.(place := if r.running then Looping else Draining)) else None
    case Settle(h, drop, now) =>
      if Busy(r, h) then
        Some(r.(queue := if drop then AfterAck(r.queue, h) else AfterNack(r.queue, h, now),
                active := r.active[h := r.active[h].(settled := true)]))
      else None
    case Remove(h) => if h in r.active && r.active[h].settled then Some(r.(active := r.active - {h})) else None
    case Heartbeat(h, until) => if Busy(r, h) then Some(r.(queue := AfterExtend(r.queue, h, until))) else None
    case Stop => Some(r.(running := false))
    case LeaveLoop => if r.place == Looping && !r.running then Some(r.(place := Draining)) else None
    case Return => if r.place == Draining && r.active == map[] then Some(r.(place := Returned)) else None
    case Produce(job, visibleAt) =>
      if r.queue.closed then None else Some(r.(queue := AfterEnqueue(r.queue, job, visibleAt)))
  }

  /** The state after an interleaving, or None if some step of it could not happen. */
  function After(u: Setup, acts: seq<Action>): Option<Runner> {
    if acts == [] then Some(Start())
    else
      var before := After(u, acts[..|acts| - 1]);
      if before.None? then None else Apply(u, before.value, acts[|acts| - 1])
  }

  // ---------------------------------------------------------------- the invariant

  /** Handler invocations agree with the receive counts, wherever the message is now. */
  ghost predicate Counts(s: Queue, c: Config, handled: multiset<nat>) {
    && (forall i :: 0 <= i < |s.messages| ==> handled[s.messages[i].id] == s.messages[i].receivedCount)
    && (forall h :: h in s.inFlight ==> handled[s.inFlight[h].id] == s.inFlight[h].receivedCount)
    && (forall i :: 0 <= i < |s.deadLetters| ==> handled[s.deadLetters[i].id] == c.maxReceiveCount)
    && (forall i :: 0 <= i < |s.acked| ==> handled[s.acked[i]] <= c.maxReceiveCount)
    && (forall id: nat :: !Known(s, id) ==> handled[id] == 0)
  }

  /** What is in flight is exactly what busy tasks hold. */
  ghost predicate Matched(inFlight: map<nat, Envelope>, active: map<nat, Task>) {
    && (forall h :: h in inFlight ==> h in active && !active[h].settled && active[h].message == MessageOf(inFlight[h]))
    && (forall h :: h in active && !active[h].settled ==> h in inFlight)
  }

  ghost predicate Bounded(u: Setup, r: Runner) {
    && |r.active| + (if r.place.Receiving? then r.place.max else 0) <= u.maxConcurrent
    && (r.place.Receiving? ==> 1 <= r.place.max <= 10)
    && (r.place.Draining? || r.place.Returned? ==> !r.running)
    && (r.place.Returned? ==> r.active == map[])
    && (forall h :: h in r.active ==> h < r.queue.nextUuid)
  }

  ghost predicate Inv(u: Setup, r: Runner) {
    && Wf(r.queue, u.config)
    && Counts(r.queue, u.config, r.handled)
    && Matched(r.queue.inFlight, r.active)
    && Bounded(u, r)
  }

  // ---------------------------------------------------------------- one pass of the queue

  lemma CountKill(s: Queue, c: Config, i: nat, handled: multiset<nat>)
    requires Wf(s, c) && Counts(s, c, handled) && i < |s.messages| && Exhausted(s.messages[i], c.maxReceiveCount)
    ensures Counts(Kill(s, i), c, handled)
  {
    WithoutList(s.messages, i);
    KillKeeps(s, c, i);
  }

  lemma CountDeliver(s: Queue, c: Config, i: nat, now: int, handled: multiset<nat>)
    requires Wf(s, c) && Counts(s, c, handled) && i < |s.messages|
    ensures Counts(Deliver(s, c, i, now), c, handled + multiset{s.messages[i].id})
  {
    var s', id := Deliver(s, c, i, now), s.messages[i].id;
    WithoutList(s.messages, i);
    assert InList(s.messages, id);
    InFlightAdd(s, s', s.nextUuid, Handed(s, c, i, now));
    forall h | h in s.inFlight ensures s.inFlight[h].id != id { assert InFlight(s, s.inFlight[h].id); }
    forall k | 0 <= k < |s.deadLetters| ensures s.deadLetters[k].id != id {
      assert InList(s.deadLetters, s.deadLetters[k].id);
    }
  }

  /** One iteration of the scan. */
  lemma PollUnfolds(s: Queue, c: Config, now: int, max: nat, i: nat)
    ensures i >= |s.messages| || max == 0 ==> PollFrom(s, c, now, max, i) == Polled(s, [])
    ensures i < |s.messages| && max > 0 && FateOf(s.messages[i], now, c.maxReceiveCount) == Stays ==>
              PollFrom(s, c, now, max, i) == PollFrom(s, c, now, max, i + 1)
    ensures i < |s.messages| && max > 0 && FateOf(s.messages[i], now, c.maxReceiveCount) == Dies ==>
              PollFrom(s, c, now, max, i) == PollFrom(Kill(s, i), c, now, max, i)
    ensures i < |s.messages| && max > 0 && FateOf(s.messages[i], now, c.maxReceiveCount) == Leaves ==>
              var r := PollFrom(Deliver(s, c, i, now), c, now, max - 1, i);
              PollFrom(s, c, now, max, i) == Polled(r.queue, [MessageOf(Handed(s, c, i, now))] + r.ready)
  {
  }

  lemma IdsFirst(handled: multiset<nat>, m: Message, rest: seq<Message>)
    ensures handled + multiset{m.id} + Ids(rest) == handled + Ids([m] + rest)
  {
    assert ([m] + rest)[1..] == rest;
  }

  lemma {:induction false} PollCounts(s: Queue, c: Config, now: int, max: nat, i: nat, handled: multiset<nat>)
    requires Wf(s, c) && Counts(s, c, handled)
    ensures Counts(PollFrom(s, c, now, max, i).queue, c, handled + Ids(PollFrom(s, c, now, max, i).ready))
    decreases |s.messages| - i
  {
    hide Wf;
    hide Counts;
    hide PollFrom;
    hide Kill;
    hide Deliver;
    PollUnfolds(s, c, now, max, i);
    if i >= |s.messages| || max == 0 {
      assert handled + Ids([]) == handled;
    } else if !Visible(s.messages[i], now) {
      PollCounts(s, c, now, max, i + 1, handled);
    } else if Exhausted(s.messages[i], c.maxReceiveCount) {
      CountKill(s, c, i, handled);
      KillKeeps(s, c, i);
      KeepsWf(s, Kill(s, i), c);
      Shorter(s, c, i, now);
      PollCounts(Kill(s, i), c, now, max, i, handled);
    } else {
      CountDeliver(s, c, i, now, handled);
      DeliverKeeps(s, c, i, now);
      KeepsWf(s, Deliver(s, c, i, now), c);
      Shorter(s, c, i, now);
      PollCounts(Deliver(s, c, i, now), c, now, max - 1, i, handled + multiset{s.messages[i].id});
      IdsFirst(handled, MessageOf(Handed(s, c, i, now)), PollFrom(Deliver(s, c, i, now), c, now, max - 1, i).ready);
    }
  }

  lemma Shorter(s: Queue, c: Config, i: nat, now: int)
    requires i < |s.messages|
    ensures |Kill(s, i).messages| == |s.messages| - 1 == |Deliver(s, c, i, now).messages|
    ensures MessageOf(Handed(s, c, i, now)).id == s.messages[i].id
  {
  }

  lemma {:induction false} AddTasksAdds(active: map<nat, Task>, ready: seq<Message>)
    requires DistinctHandles(ready)
    ensures |AddTasks(active, ready)| <= |active| + |ready|
    ensures forall h :: h in AddTasks(active, ready) <==>
                        h in active || HandedTo(ready, h)
    ensures forall k :: 0 <= k < |ready| ==>
              ready[k].receiptHandle in AddTasks(active, ready)
              && AddTasks(active, ready)[ready[k].receiptHandle] == Task(ready[k], false)
    ensures forall h :: h in active && !HandedTo(ready, h) ==> AddTasks(active, ready)[h] == active[h]
    decreases |ready|
  {
    if ready != [] {
      HandedToFirst(ready[0], ready[1..]);
      assert ready == [ready[0]] + ready[1..];
      AddTasksAdds(active[ready[0].receiptHandle := Task(ready[0], false)], ready[1..]);
    }
  }

  // ---------------------------------------------------------------- one step of the worker

  /** Whatever a pass hands out, the queue and the log stay sound. */
  lemma PassKeepsQueue(u: Setup, r: Runner, now: int)
    requires Inv(u, r) && r.place.Receiving?
    ensures var p := Poll(r.queue, u.config, now, r.place.max);
            && Wf(p.queue, u.config) && Counts(p.queue, u.config, r.handled + Ids(p.ready))
            && HandsOut(r.queue, p, r.place.max)
  {
    PollKeeps(r.queue, u.config, now, r.place.max, 0);
    PollCounts(r.queue, u.config, now, r.place.max, 0, r.handled);
    PollHandsOut(r.queue, u.config, now, r.place.max, 0);
  }

  lemma EmptyPassKeepsInv(u: Setup, r: Runner, now: int, giveUp: bool)
    requires Inv(u, r) && Apply(u, r, EmptyPass(now, giveUp)).Some?
    ensures Inv(u, Apply(u, r, EmptyPass(now, giveUp)).value)
  {
    hide Wf;
    hide Counts;
    PassKeepsQueue(u, r, now);
    assert r.handled + Ids([]) == r.handled;
  }

  /** New messages get new tasks, and no task already there is touched. */
  lemma NewTasksMatch(s: Queue, p: Polled, max: nat, active: map<nat, Task>)
    requires HandsOut(s, p, max) && Matched(s.inFlight, active)
    requires forall h :: h in active ==> h < s.nextUuid
    ensures Matched(p.queue.inFlight, AddTasks(active, p.ready))
    ensures |AddTasks(active, p.ready)| <= |active| + |p.ready|
    ensures forall h :: h in AddTasks(active, p.ready) ==> h < p.queue.nextUuid
  {
    var after := AddTasks(active, p.ready);
    AddTasksAdds(active, p.ready);
    HandedToAreNew(s, p, max);
    assert forall h :: h in active ==> h in after && after[h] == active[h];
    forall h | h in p.queue.inFlight
      ensures h in after && !after[h].settled && after[h].message == MessageOf(p.queue.inFlight[h])
    {
      if h !in s.inFlight {
        var k :| 0 <= k < |p.ready| && p.ready[k].receiptHandle == h;
        assert after[p.ready[k].receiptHandle] == Task(p.ready[k], false);
      }
    }
  }

  lemma ReceiveSomeKeepsInv(u: Setup, r: Runner, now: int)
    requires Inv(u, r) && Apply(u, r, ReceiveSome(now)).Some?
    ensures Inv(u, Apply(u, r, ReceiveSome(now)).value)
  {
    hide Wf;
    hide Counts;
    hide Matched;
    PassKeepsQueue(u, r, now);
    NewTasksMatch(r.queue, Poll(r.queue, u.config, now, r.place.max), r.place.max, r.active);
  }

  lemma AckCounts(s: Queue, c: Config, h: nat, handled: multiset<nat>)
    requires Wf(s, c) && Counts(s, c, handled)
    ensures Counts(AfterAck(s, h), c, handled)
  {
    AckKeeps(s, c, h);
  }

  lemma NackCounts(s: Queue, c: Config, h: nat, now: int, handled: multiset<nat>)
    requires Wf(s, c) && Counts(s, c, handled)
    ensures Counts(AfterNack(s, h, now), c, handled)
  {
    NackKeeps(s, c, h, now);
  }

  lemma SettledMatches(m: map<nat, Envelope>, active: map<nat, Task>, h: nat)
    requires Matched(m, active) && h in active
    ensures Matched(m - {h}, active[h := active[h].(settled := true)])
  {
  }

  lemma SettleKeepsInv(u: Setup, r: Runner, h: nat, drop: bool, now: int)
    requires Inv(u, r) && Apply(u, r, Settle(h, drop, now)).Some?
    ensures Inv(u, Apply(u, r, Settle(h, drop, now)).value)
  {
    hide Wf;
    hide Counts;
    hide Keeps;
    hide Matched;
    var queue := if drop then AfterAck(r.queue, h) else AfterNack(r.queue, h, now);
    if drop {
      AckKeeps(r.queue, u.config, h);
      AckCounts(r.queue, u.config, h, r.handled);
    } else {
      NackKeeps(r.queue, u.config, h, now);
      NackCounts(r.queue, u.config, h, now, r.handled);
    }
    KeepsWf(r.queue, queue, u.config);
    SettledMatches(r.queue.inFlight, r.active, h);
    BusyIsInFlight(r.queue.inFlight, r.active, h);
  }

  lemma BusyIsInFlight(m: map<nat, Envelope>, active: map<nat, Task>, h: nat)
    requires Matched(m, active) && h in active && !active[h].settled
    ensures h in m
  {
  }

  lemma ExtendCounts(s: Queue, c: Config, h: nat, until: int, handled: multiset<nat>)
    requires Wf(s, c) && Counts(s, c, handled)
    ensures Counts(AfterExtend(s, h, until), c, handled)
  {
    ExtendKeeps(s, c, h, until);
  }

  lemma ExtendedMatches(s: Queue, active: map<nat, Task>, h: nat, until: int)
    requires Matched(s.inFlight, active)
    ensures Matched(AfterExtend(s, h, until).inFlight, active)
  {
  }

  lemma HeartbeatKeepsInv(u: Setup, r: Runner, h: nat, until: int)
    requires Inv(u, r) && Apply(u, r, Heartbeat(h, until)).Some?
    ensures Inv(u, Apply(u, r, Heartbeat(h, until)).value)
  {
    hide Wf;
    hide Counts;
    hide Keeps;
    hide Matched;
    ExtendKeeps(r.queue, u.config, h, until);
    KeepsWf(r.queue, AfterExtend(r.queue, h, until), u.config);
    ExtendCounts(r.queue, u.config, h, until, r.handled);
    ExtendedMatches(r.queue, r.active, h, until);
  }

  lemma EnqueueCounts(s: Queue, c: Config, job: Job, visibleAt: int, handled: multiset<nat>)
    requires Wf(s, c) && Counts(s, c, handled)
    ensures Counts(AfterEnqueue(s, job, visibleAt), c, handled)
  {
    EnqueueKeeps(s, c, job, visibleAt);
  }

  lemma ProduceKeepsInv(u: Setup, r: Runner, job: Job, visibleAt: int)
    requires Inv(u, r) && Apply(u, r, Produce(job, visibleAt)).Some?
    ensures Inv(u, Apply(u, r, Produce(job, visibleAt)).value)
  {
    EnqueueKeeps(r.queue, u.config, job, visibleAt);
    EnqueueCounts(r.queue, u.config, job, visibleAt, r.handled);
    hide Wf;
    hide Counts;
    hide HandlesRetire;
  }

  /** Steps that leave the queue and the log alone. */
  lemma LoopStepKeepsInv(u: Setup, r: Runner, a: Action)
    requires Inv(u, r) && Apply(u, r, a).Some?
    requires a.BeginReceive? || a.ReceiveFails? || a.Stop? || a.LeaveLoop? || a.Return?
    ensures Inv(u, Apply(u, r, a).value)
  {
    hide Wf;
    hide Counts;
    hide Matched, Poll, AddTasks, Ids, AfterAck, AfterNack, AfterExtend, AfterEnqueue;
  }

  lemma RemoveKeepsInv(u: Setup, r: Runner, h: nat)
    requires Inv(u, r) && Apply(u, r, Remove(h)).Some?
    ensures Inv(u, Apply(u, r, Remove(h)).value)
  {
    hide Wf, Counts, Matched;
    RemovedMatches(r.queue.inFlight, r.active, h);
  }

  lemma RemovedMatches(m: map<nat, Envelope>, active: map<nat, Task>, h: nat)
    requires Matched(m, active) && h in active && active[h].settled
    ensures Matched(m, active - {h}) && |active - {h}| <= |active|
  {
    assert active.Keys == (active - {h}).Keys + {h};
  }

  lemma Step(u: Setup, r: Runner, a: Action)
    requires Inv(u, r) && Apply(u, r, a).Some?
    ensures Inv(u, Apply(u, r, a).value)
  {
    hide Inv;
    match a {
      case EmptyPass(now, giveUp) => EmptyPassKeepsInv(u, r, now, giveUp);
      case ReceiveSome(now) => ReceiveSomeKeepsInv(u, r, now);
      case Settle(h, drop, now) => SettleKeepsInv(u, r, h, drop, now);
      case Heartbeat(h, until) => HeartbeatKeepsInv(u, r, h, until);
      case Produce(job, visibleAt) => ProduceKeepsInv(u, r, job, visibleAt);
      case Remove(h) => RemoveKeepsInv(u, r, h);
      case _ => LoopStepKeepsInv(u, r, a);
    }
  }

  lemma {:induction false} EveryInterleavingKeepsInv(u: Setup, acts: seq<Action>)
    requires After(u, acts).Some?
    ensures Inv(u, After(u, acts).value)
  {
    if acts != [] {
      EveryInterleavingKeepsInv(u, acts[..|acts| - 1]);
      Step(u, After(u, acts[..|acts| - 1]).value, acts[|acts| - 1]);
    }
  }

  /**
   * Over every interleaving: at most maxConcurrent tasks, those a receive may still bring included,
   * and at most ten a receive; the in-flight messages are exactly those
   * of the tasks that have not acked or nacked; no handler sees a message more than
   * maxReceiveCount times; and once `start` has returned nothing is in flight.
   */
  lemma WorkerSafety(u: Setup, acts: seq<Action>)
    requires After(u, acts).Some?
    ensures var r := After(u, acts).value;
            && |r.active| <= u.maxConcurrent
            && (r.place.Receiving? ==> 1 <= r.place.max <= 10 && |r.active| + r.place.max <= u.maxConcurrent)
            && Wf(r.queue, u.config)
            && Matched(r.queue.inFlight, r.active)
            && (forall id: nat :: r.handled[id] <= u.config.maxReceiveCount)
            && (r.place == Returned ==> r.queue.inFlight == map[] && r.active == map[])
  {
    EveryInterleavingKeepsInv(u, acts);
    var r := After(u, acts).value;
    forall id: nat ensures r.handled[id] <= u.config.maxReceiveCount {
      CountBounded(r.queue, u.config, r.handled, id);
    }
  }

  /** No step loses a message: it stays queued, in flight, dead-lettered or acked. */
  lemma StepLosesNothing(u: Setup, r: Runner, a: Action, id: nat)
    requires Inv(u, r) && Apply(u, r, a).Some? && Known(r.queue, id)
    ensures Known(Apply(u, r, a).value.queue, id)
  {
    hide Wf;
    hide Counts;
    hide Matched;
    hide Known;
    hide Poll;
    match a
    case EmptyPass(now, _) => PollKeepsKnown(r.queue, u.config, now, r.place.max, id);
    case ReceiveSome(now) => PollKeepsKnown(r.queue, u.config, now, r.place.max, id);
    case Settle(h, drop, now) =>
      AckKeeps(r.queue, u.config, h);
      NackKeeps(r.queue, u.config, h, now);
    case Heartbeat(h, until) => ExtendKeeps(r.queue, u.config, h, until);
    case Produce(job, visibleAt) => EnqueueKeeps(r.queue, u.config, job, visibleAt);
    case _ =>
  }

  lemma PollKeepsKnown(s: Queue, c: Config, now: int, max: nat, id: nat)
    requires Wf(s, c) && Known(s, id)
    ensures Known(Poll(s, c, now, max).queue, id)
  {
    hide Wf;
    hide Known;
    PollKeeps(s, c, now, max, 0);
  }

  /** A message once produced is, for ever after, in exactly one of the four places. */
  lemma {:induction false} WorkerLosesNothing(u: Setup, acts: seq<Action>, more: seq<Action>, id: nat)
    requires After(u, acts).Some? && After(u, acts + more).Some? && Known(After(u, acts).value.queue, id)
    ensures var q := After(u, acts + more).value.queue;
            Known(q, id) && OnePlace(q, id)
  {
    hide Known;
    hide Apply;
    hide Wf;
    if more == [] {
      assert acts + more == acts;
    } else {
      assert (acts + more)[..|acts + more| - 1] == acts + more[..|more| - 1];
      WorkerLosesNothing(u, acts, more[..|more| - 1], id);
      EveryInterleavingKeepsInv(u, acts + more[..|more| - 1]);
      StepLosesNothing(u, After(u, acts + more[..|more| - 1]).value, more[|more| - 1], id);
    }
    EveryInterleavingKeepsInv(u, acts + more);
    WfIsOnePlace(After(u, acts + more).value.queue, u.config, id);
  }

  ghost predicate OnePlace(s: Queue, id: nat) {
    && (InList(s.messages, id) ==> !InFlight(s, id) && !InList(s.deadLetters, id) && id !in s.acked)
    && (InFlight(s, id) ==> !InList(s.deadLetters, id) && id !in s.acked)
    && (InList(s.deadLetters, id) ==> id !in s.acked)
  }

  lemma WfIsOnePlace(s: Queue, c: Config, id: nat)
    requires Wf(s, c)
    ensures OnePlace(s, id)
  {
  }

  lemma RetiresIsTransitive(s: Queue, t: Queue, r: Queue)
    requires HandlesRetire(s, t) && HandlesRetire(t, r)
    ensures HandlesRetire(s, r)
  {
  }

  lemma PollRetires(s: Queue, c: Config, now: int, max: nat)
    requires Wf(s, c)
    ensures HandlesRetire(s, Poll(s, c, now, max).queue)
  {
    hide Wf;
    PollKeeps(s, c, now, max, 0);
  }

  lemma StepRetires(u: Setup, r: Runner, a: Action)
    requires Inv(u, r) && Apply(u, r, a).Some?
    ensures HandlesRetire(r.queue, Apply(u, r, a).value.queue)
  {
    hide Wf;
    hide Counts;
    hide Matched;
    hide Poll;
    match a
    case EmptyPass(now, _) => PollRetires(r.queue, u.config, now, r.place.max);
    case ReceiveSome(now) => PollRetires(r.queue, u.config, now, r.place.max);
    case Settle(h, drop, now) =>
      AckKeeps(r.queue, u.config, h);
      NackKeeps(r.queue, u.config, h, now);
    case Heartbeat(h, until) => ExtendKeeps(r.queue, u.config, h, until);
    case Produce(job, visibleAt) => EnqueueKeeps(r.queue, u.config, job, visibleAt);
    case _ =>
  }

  lemma {:induction false} HandlesRetireForGood(u: Setup, acts: seq<Action>, more: seq<Action>)
    requires After(u, acts).Some? && After(u, acts + more).Some?
    ensures HandlesRetire(After(u, acts).value.queue, After(u, acts + more).value.queue)
  {
    hide Apply;
    hide Inv;
    if more == [] {
      assert acts + more == acts;
    } else {
      var some := more[..|more| - 1];
      assert (acts + more)[..|acts + more| - 1] == acts + some;
      HandlesRetireForGood(u, acts, some);
      EveryInterleavingKeepsInv(u, acts + some);
      StepRetires(u, After(u, acts + some).value, more[|more| - 1]);
      RetiresIsTransitive(After(u, acts).value.queue, After(u, acts + some).value.queue,
                          After(u, acts + more).value.queue);
    }
  }

  /**
   * However a run goes on, enqueues and redeliveries included: a receipt handle that is out of use
   * is a no-op for ack, nack and extension for ever after.
   */
  lemma {:induction false} OldHandlesStayDead(u: Setup, acts: seq<Action>, more: seq<Action>, h: nat, time: int)
    requires After(u, acts).Some? && After(u, acts + more).Some?
    requires var q := After(u, acts).value.queue; h < q.nextUuid && h !in q.inFlight
    ensures var q := After(u, acts + more).value.queue;
            AfterAck(q, h) == AfterNack(q, h, time) == AfterExtend(q, h, time) == q
  {
    hide After;
    HandlesRetireForGood(u, acts, more);
    OldHandleDoesNothing(After(u, acts).value.queue, After(u, acts + more).value.queue, h, time);
  }

  lemma CountBounded(s: Queue, c: Config, handled: multiset<nat>, id: nat)
    requires Wf(s, c) && Counts(s, c, handled)
    ensures handled[id] <= c.maxReceiveCount
  {
    if InList(s.messages, id) {
      var i :| 0 <= i < |s.messages| && s.messages[i].id == id;
    } else if InFlight(s, id) {
      var h :| h in s.inFlight && s.inFlight[h].id == id;
    } else if InList(s.deadLetters, id) {
      var i :| 0 <= i < |s.deadLetters| && s.deadLetters[i].id == id;
    } else if id in s.acked {
      var i :| 0 <= i < |s.acked| && s.acked[i] == id;
    }
  }

  // ---------------------------------------------------------------- starting and stopping

  /** No handler is being, or will ever be, started again. */
  predicate IntakeOver(r: Runner) {
    !r.running && !r.place.Receiving?
  }

  /**
   * After `stop`, once the receive in progress is over, no handler is ever started again, whatever
   * else happens.
   */
  lemma {:induction false} StopEndsIntake(u: Setup, acts: seq<Action>, more: seq<Action>)
    requires After(u, acts).Some? && After(u, acts + more).Some? && IntakeOver(After(u, acts).value)
    ensures IntakeOver(After(u, acts + more).value)
    ensures After(u, acts + more).value.handled == After(u, acts).value.handled
    ensures forall h :: Busy(After(u, acts + more).value, h) ==> Busy(After(u, acts).value, h)
  {
    if more == [] {
      assert acts + more == acts;
    } else {
      hide Poll, AddTasks, Ids, AfterAck, AfterNack, AfterExtend, AfterEnqueue;
      var some := more[..|more| - 1];
      assert (acts + more)[..|acts + more| - 1] == acts + some;
      StopEndsIntake(u, acts, some);
    }
  }

  /** `stop` takes effect whenever it comes, and for good. */
  lemma {:induction false} StopIsForGood(u: Setup, acts: seq<Action>, more: seq<Action>)
    requires After(u, acts).Some? && After(u, acts + [Stop] + more).Some?
    ensures !After(u, acts + [Stop] + more).value.running
  {
    if more == [] {
      assert acts + [Stop] + more == acts + [Stop] && (acts + [Stop])[..|acts|] == acts;
    } else {
      hide Poll, AddTasks, Ids, AfterAck, AfterNack, AfterExtend, AfterEnqueue;
      var some := more[..|more| - 1];
      assert (acts + [Stop] + more)[..|acts + [Stop] + more| - 1] == acts + [Stop] + some;
      StopIsForGood(u, acts, some);
    }
  }

  /**
   * Every message a receive brings back is started, even if `stop` came meanwhile: one handler call
   * each, on that very message, and the tasks already there go on.
   */
  lemma {:induction false} EveryDeliveryIsStarted(u: Setup, acts: seq<Action>, now: int, k: nat)
    requires After(u, acts).Some? && After(u, acts).value.place.Receiving?
    requires var r := After(u, acts).value; k < |Poll(r.queue, u.config, now, r.place.max).ready|
    ensures After(u, acts + [ReceiveSome(now)]).Some?
    ensures var r, r' := After(u, acts).value, After(u, acts + [ReceiveSome(now)]).value;
            var p := Poll(r.queue, u.config, now, r.place.max);
            Busy(r', p.ready[k].receiptHandle) && r'.active[p.ready[k].receiptHandle].message == p.ready[k]
            && r'.queue == p.queue && r'.place == Looping
            && (forall h :: h in r.active ==> h in r'.active && r'.active[h] == r.active[h])
            && forall id: nat :: r'.handled[id] == r.handled[id] + Ids(p.ready)[id]
  {
    hide Poll, Ids, Wf, Counts, Matched, AddTasks;
    var r := After(u, acts).value;
    EveryInterleavingKeepsInv(u, acts);
    assert (acts + [ReceiveSome(now)])[..|acts|] == acts;
    PassKeepsQueue(u, r, now);
    AddTasksAdds(r.active, Poll(r.queue, u.config, now, r.place.max).ready);
    HandedToAreNew(r.queue, Poll(r.queue, u.config, now, r.place.max), r.place.max);
  }

  // ---------------------------------------------------------------- one message

  /** How a handler ends: normally, with an error that says never retry, or with any other. */
  datatype HandlerEnd = Finished | ThrewUnprocessable | ThrewOther

  datatype JobType = DispatchType | TopType | RecentType | DownloadType

  function TypeOf(job: Job): JobType {
    match job
    case DispatchDueSyncs => DispatchType
    case SyncTop(_) => TopType
    case SyncRecent(_) => RecentType
    case DownloadMediaAsset(_) => DownloadType
  }

  /** A job is of a type exactly when it was built as one. */
  lemma JobsAreOfTheirType(job: Job)
    ensures TypeOf(job) == DispatchType <==> job.DispatchDueSyncs?
    ensures TypeOf(job) == TopType <==> job.SyncTop?
    ensures TypeOf(job) == RecentType <==> job.SyncRecent?
    ensures TypeOf(job) == DownloadType <==> job.DownloadMediaAsset?
  {
  }

  /** The registered handlers. A handler is called with the message, its attempt number included. */
  type Handlers = map<JobType, Message -> HandlerEnd>

  /** Deleted: acked, and nowhere else. */
  ghost predicate Deleted(s: Queue, id: nat) {
    id in s.acked && !InList(s.messages, id) && !InFlight(s, id) && !InList(s.deadLetters, id)
  }

  /** Back at the end of the list, visible from this moment on, and nowhere else. */
  ghost predicate BackInQueue(s: Queue, id: nat, now: int) {
    s.messages != [] && s.messages[|s.messages| - 1].id == id && s.messages[|s.messages| - 1].visibleAt == now
    && !InFlight(s, id) && !InList(s.deadLetters, id) && id !in s.acked
  }

  lemma {:induction false} SettledEnds(s: Queue, c: Config, h: nat, now: int)
    requires Wf(s, c) && h in s.inFlight
    ensures Deleted(AfterAck(s, h), s.inFlight[h].id)
    ensures BackInQueue(AfterNack(s, h, now), s.inFlight[h].id, now)
  {
    hide Keeps;
    var acked, nacked, id := AfterAck(s, h), AfterNack(s, h, now), s.inFlight[h].id;
    assert InFlight(s, id);
    InFlightDrop(s, acked, h, c);
    InFlightDrop(s, nacked, h, c);
    assert acked.acked[|s.acked|] == id;
    assert nacked.messages[|s.messages|].id == id && nacked.messages[|s.messages|].visibleAt == now;
  }

  /**
   * What becomes of one message, by how its handler ended. If the worker holds it, a job that
   * finished, can never succeed or has no handler is deleted; any other throw puts it back in the
   * list. It is the worker machine's Settle step, for whatever worker holds the message.
   */
  method Process(queue: Driver, message: Message, handlers: Handlers, now: int, ghost u: Setup, ghost r: Runner)
    modifies queue
    ensures var s, h, t := old(queue.State()), message.receiptHandle, TypeOf(message.job);
            Wf(s, u.config) && h in s.inFlight ==>
              if t !in handlers || handlers[t](message) == Finished || handlers[t](message) == ThrewUnprocessable
              then Deleted(queue.State(), s.inFlight[h].id)
              else BackInQueue(queue.State(), s.inFlight[h].id, now)
    ensures message.receiptHandle !in old(queue.State()).inFlight ==> queue.State() == old(queue.State())
    ensures r.queue == old(queue.State()) && Busy(r, message.receiptHandle) ==>
              var t := TypeOf(message.job);
              var drop := t !in handlers || handlers[t](message) != ThrewOther;
              var step := Apply(u, r, Settle(message.receiptHandle, drop, now));
              step.Some? && step.value.queue == queue.State()
  {
    hide Wf, Deleted, BackInQueue;
    if Wf(queue.State(), u.config) && message.receiptHandle in queue.State().inFlight {
      SettledEnds(queue.State(), u.config, message.receiptHandle, now);
    }
    var t := TypeOf(message.job);
    if t !in handlers {
      queue.Ack(message);
      return;
    }
    match handlers[t](message) {
      case Finished => queue.Ack(message);
      case ThrewUnprocessable => queue.Ack(message);
      case ThrewOther => queue.Nack(message, now);
    }
  }

  // ---------------------------------------------------------------- where a message can end

  /** Step k acks message id. */
  ghost predicate DropsAt(u: Setup, acts: seq<Action>, k: nat, id: nat) {
    k < |acts| && acts[k].Settle? && acts[k].drop && After(u, acts[..k]).Some?
    && var r := After(u, acts[..k]).value;
       Busy(r, acts[k].handle) && r.active[acts[k].handle].message.id == id
  }

  ghost predicate DroppedIn(u: Setup, acts: seq<Action>, id: nat) {
    exists k: nat :: DropsAt(u, acts, k, id)
  }

  lemma AckStep(u: Setup, r: Runner, a: Action, id: nat)
    requires Inv(u, r) && Apply(u, r, a).Some?
    ensures id in Apply(u, r, a).value.queue.acked <==>
            id in r.queue.acked || (a.Settle? && a.drop && r.active[a.handle].message.id == id)
  {
    hide Wf;
    hide Counts;
    hide PollFrom;
    if a.EmptyPass? || a.ReceiveSome? { PollLeavesAcked(r.queue, u.config, a.now, r.place.max, 0); }
  }

  lemma DroppedPush(u: Setup, acts: seq<Action>, id: nat)
    requires acts != [] && After(u, acts).Some?
    ensures var before, a := acts[..|acts| - 1], acts[|acts| - 1];
            DroppedIn(u, acts, id) <==>
            DroppedIn(u, before, id)
            || (a.Settle? && a.drop && After(u, before).value.active[a.handle].message.id == id)
  {
    hide After;
    var n := |acts| - 1;
    var before := acts[..n];
    LastStep(u, acts);
    forall k: nat | k < n ensures DropsAt(u, acts, k, id) <==> DropsAt(u, before, k, id) {
      assert acts[..k] == before[..k] && acts[k] == before[k];
    }
    assert DropsAt(u, acts, n, id) <==>
           (acts[n].Settle? && acts[n].drop && After(u, before).value.active[acts[n].handle].message.id == id);
    if DroppedIn(u, acts, id) {
      var k: nat :| DropsAt(u, acts, k, id);
      assert k < n ==> DropsAt(u, before, k, id);
    }
    if DroppedIn(u, before, id) {
      var k: nat :| DropsAt(u, before, k, id);
      assert DropsAt(u, acts, k, id);
    }
  }

  lemma LastStep(u: Setup, acts: seq<Action>)
    requires acts != [] && After(u, acts).Some?
    ensures var before, a := acts[..|acts| - 1], acts[|acts| - 1];
            After(u, before).Some? && Apply(u, After(u, before).value, a) == After(u, acts)
            && (a.Settle? ==> Busy(After(u, before).value, a.handle))
  {
    hide Poll;
  }

  /** A message is acked exactly when some attempt of it finished or was dropped as hopeless. */
  lemma {:induction false} AckedIffDropped(u: Setup, acts: seq<Action>, id: nat)
    requires After(u, acts).Some?
    ensures id in After(u, acts).value.queue.acked <==> DroppedIn(u, acts, id)
  {
    hide After;
    hide DroppedIn;
    hide Apply;
    hide Inv;
    if acts == [] {
      NothingDropped(u, id);
    } else {
      var before := acts[..|acts| - 1];
      LastStep(u, acts);
      AckedIffDropped(u, before, id);
      EveryInterleavingKeepsInv(u, before);
      AckStep(u, After(u, before).value, acts[|acts| - 1], id);
      DroppedPush(u, acts, id);
    }
  }

  lemma NothingDropped(u: Setup, id: nat)
    ensures !DroppedIn(u, [], id) && After(u, []) == Some(Start()) && id !in Start().queue.acked
  {
  }

  /** Every settling of the run is what `process` does with these handlers. */
  ghost predicate FollowsHandlers(u: Setup, acts: seq<Action>, handlers: Handlers) {
    forall k: nat :: k < |acts| && acts[k].Settle? && After(u, acts[..k]).Some?
                     && Busy(After(u, acts[..k]).value, acts[k].handle) ==>
      var m := After(u, acts[..k]).value.active[acts[k].handle].message;
      acts[k].drop <==> (TypeOf(m.job) !in handlers || handlers[TypeOf(m.job)](m) != ThrewOther)
  }

  /** At step k an attempt of message id ended that finished, can never succeed, or had no handler. */
  ghost predicate EndsAt(u: Setup, acts: seq<Action>, k: nat, id: nat, handlers: Handlers) {
    k < |acts| && acts[k].Settle? && After(u, acts[..k]).Some?
    && var r := After(u, acts[..k]).value;
       Busy(r, acts[k].handle) && r.active[acts[k].handle].message.id == id
       && var m := r.active[acts[k].handle].message;
          TypeOf(m.job) !in handlers
          || handlers[TypeOf(m.job)](m) == Finished || handlers[TypeOf(m.job)](m) == ThrewUnprocessable
  }

  /** A message is acked exactly when some attempt of it ended so. */
  lemma {:induction false} AckedIffEnded(u: Setup, acts: seq<Action>, handlers: Handlers, id: nat)
    requires After(u, acts).Some? && FollowsHandlers(u, acts, handlers)
    ensures id in After(u, acts).value.queue.acked <==> exists k: nat :: EndsAt(u, acts, k, id, handlers)
  {
    hide After, TypeOf, Busy;
    AckedIffDropped(u, acts, id);
    forall k: nat ensures DropsAt(u, acts, k, id) <==> EndsAt(u, acts, k, id, handlers) {}
  }

  // ---------------------------------------------------------------- a job that always throws

  /** Wherever message id is, it carries this job. */
  ghost predicate Carries(s: Queue, id: nat, job: Job) {
    && (forall i :: 0 <= i < |s.messages| && s.messages[i].id == id ==> s.messages[i].job == job)
    && (forall h :: h in s.inFlight && s.inFlight[h].id == id ==> s.inFlight[h].job == job)
    && (forall i :: 0 <= i < |s.deadLetters| && s.deadLetters[i].id == id ==> s.deadLetters[i].job == job)
  }

  lemma {:induction false} PollCarries(s: Queue, c: Config, now: int, max: nat, i: nat, id: nat, job: Job)
    requires Carries(s, id, job)
    ensures Carries(PollFrom(s, c, now, max, i).queue, id, job)
    decreases |s.messages| - i
  {
    hide PollFrom, Kill, Deliver, Carries;
    PollUnfolds(s, c, now, max, i);
    if i < |s.messages| && max > 0 {
      Shorter(s, c, i, now);
      ScanCarries(s, c, i, now, id, job);
      if !Visible(s.messages[i], now) {
        PollCarries(s, c, now, max, i + 1, id, job);
      } else if Exhausted(s.messages[i], c.maxReceiveCount) {
        PollCarries(Kill(s, i), c, now, max, i, id, job);
      } else {
        PollCarries(Deliver(s, c, i, now), c, now, max - 1, i, id, job);
      }
    }
  }

  lemma ScanCarries(s: Queue, c: Config, i: nat, now: int, id: nat, job: Job)
    requires Carries(s, id, job) && i < |s.messages|
    ensures Carries(Kill(s, i), id, job) && Carries(Deliver(s, c, i, now), id, job)
  {
  }

  /** Once enqueued, an id keeps its job; new messages get other ids. */
  lemma StepCarries(u: Setup, r: Runner, a: Action, id: nat, job: Job)
    requires Inv(u, r) && Apply(u, r, a).Some? && Carries(r.queue, id, job) && id < r.queue.nextUuid
    ensures Carries(Apply(u, r, a).value.queue, id, job) && id < Apply(u, r, a).value.queue.nextUuid
  {
    hide Wf, Counts, Matched, PollFrom;
    StepRetires(u, r, a);
    if a.EmptyPass? || a.ReceiveSome? { PollCarries(r.queue, u.config, a.now, r.place.max, 0, id, job); }
  }

  lemma EnqueueCarries(s: Queue, c: Config, job: Job, visibleAt: int)
    requires Wf(s, c)
    ensures Carries(AfterEnqueue(s, job, visibleAt), s.nextUuid, job)
  {
  }

  /** Step j enqueued this job, under this id. */
  ghost predicate ProducedAt(u: Setup, acts: seq<Action>, j: nat, id: nat, job: Job) {
    j < |acts| && acts[j].Produce? && acts[j].job == job && After(u, acts[..j]).Some?
    && After(u, acts[..j]).value.queue.nextUuid == id
  }

  lemma {:induction false} PrefixHappened(u: Setup, acts: seq<Action>, k: nat)
    requires After(u, acts).Some? && k <= |acts|
    ensures After(u, acts[..k]).Some?
  {
    hide Apply;
    if k < |acts| {
      PrefixHappened(u, acts[..|acts| - 1], k);
      assert acts[..|acts| - 1][..k] == acts[..k];
    } else {
      assert acts[..k] == acts;
    }
  }

  lemma {:induction false} ProducedCarries(u: Setup, acts: seq<Action>, j: nat, id: nat, job: Job)
    requires After(u, acts).Some? && ProducedAt(u, acts, j, id, job)
    ensures Carries(After(u, acts).value.queue, id, job) && id < After(u, acts).value.queue.nextUuid
    ensures Known(After(u, acts).value.queue, id)
  {
    hide Inv, Carries, Known, After;
    var n := |acts| - 1;
    var before := acts[..n];
    LastStep(u, acts);
    EveryInterleavingKeepsInv(u, before);
    var r := After(u, before).value;
    if j < n {
      assert before[..j] == acts[..j];
      ProducedCarries(u, before, j, id, job);
      StepCarries(u, r, acts[n], id, job);
      StepLosesNothing(u, r, acts[n], id);
    } else {
      ProductionCarries(u, r, acts[n]);
    }
  }

  lemma ProductionCarries(u: Setup, r: Runner, a: Action)
    requires Inv(u, r) && a.Produce? && Apply(u, r, a).Some?
    ensures var q := Apply(u, r, a).value.queue;
            Carries(q, r.queue.nextUuid, a.job) && r.queue.nextUuid < q.nextUuid && Known(q, r.queue.nextUuid)
  {
    hide Carries, Known, Counts, Matched;
    EnqueueCarries(r.queue, u.config, a.job, a.visibleAt);
    EnqueueKeeps(r.queue, u.config, a.job, a.visibleAt);
  }

  /** No attempt of the job ends well, before it is enqueued because there is none. */
  lemma {:induction false} NeverEnds(u: Setup, acts: seq<Action>, handlers: Handlers, j: nat, id: nat, job: Job, k: nat)
    requires After(u, acts).Some? && ProducedAt(u, acts, j, id, job)
    requires TypeOf(job) in handlers
    requires forall m: Message :: m.id == id && m.job == job ==> handlers[TypeOf(job)](m) == ThrewOther
    ensures !EndsAt(u, acts, k, id, handlers)
  {
    hide After, TypeOf, Carries;
    if k < |acts| && acts[k].Settle? {
      PrefixHappened(u, acts, k);
      EveryInterleavingKeepsInv(u, acts[..k]);
      var r := After(u, acts[..k]).value;
      if j < k {
        assert acts[..k][..j] == acts[..j];
        ProducedCarries(u, acts[..k], j, id, job);
        BusyCarries(u, r, acts[k].handle, id, job);
      } else {
        assert acts[..j] == acts[..k] + acts[k..j];
        HandlesRetireForGood(u, acts[..k], acts[k..j]);
        BusyIsOld(u, r, acts[k].handle);
      }
    }
  }

  lemma BusyCarries(u: Setup, r: Runner, h: nat, id: nat, job: Job)
    requires Inv(u, r) && Carries(r.queue, id, job)
    ensures Busy(r, h) && r.active[h].message.id == id ==> r.active[h].message.job == job
  {
  }

  lemma BusyIsOld(u: Setup, r: Runner, h: nat)
    requires Inv(u, r)
    ensures Busy(r, h) ==> r.active[h].message.id < r.queue.nextUuid
  {
  }

  /**
   * A job whose handler throws a retryable error on every attempt is never acked. As long as it is
   * queued or in flight its handler has been called at most maxReceiveCount times, and once it is
   * neither it is a dead letter after exactly maxReceiveCount calls.
   */
  lemma {:induction false} ThrowingJobDies(u: Setup, acts: seq<Action>, handlers: Handlers, j: nat, id: nat, job: Job)
    requires After(u, acts).Some? && FollowsHandlers(u, acts, handlers) && ProducedAt(u, acts, j, id, job)
    requires TypeOf(job) in handlers
    requires forall m: Message :: m.id == id && m.job == job ==> handlers[TypeOf(job)](m) == ThrewOther
    ensures var r := After(u, acts).value;
            && id !in r.queue.acked
            && r.handled[id] <= u.config.maxReceiveCount
            && (InList(r.queue.deadLetters, id) <==> !InList(r.queue.messages, id) && !InFlight(r.queue, id))
            && (InList(r.queue.deadLetters, id) ==> r.handled[id] == u.config.maxReceiveCount)
  {
    hide After, TypeOf, EndsAt, FollowsHandlers, ProducedAt, Carries;
    var r := After(u, acts).value;
    AckedIffEnded(u, acts, handlers, id);
    forall k: nat ensures !EndsAt(u, acts, k, id, handlers) { NeverEnds(u, acts, handlers, j, id, job, k); }
    ProducedCarries(u, acts, j, id, job);
    EveryInterleavingKeepsInv(u, acts);
    WfIsOnePlace(r.queue, u.config, id);
    CountBounded(r.queue, u.config, r.handled, id);
  }

  // ---------------------------------------------------------------- the heartbeat

  /** Milliseconds between extensions: half the timeout, but at least 30 s. */
  function Interval(timeoutSeconds: nat): nat {
    var half := timeoutSeconds * 1000 / 2;
    if half >= 30_000 then half else 30_000
  }

  /** How many beats fired before time t after the delivery, and so can have taken effect at t. */
  function LastBeat(timeoutSeconds: nat, t: nat): nat {
    if t <= Interval(timeoutSeconds) then 0 else 1 + LastBeat(timeoutSeconds, t - Interval(timeoutSeconds))
  }

  /** Until when the message is invisible: the latest beat that landed counts the timeout afresh. */
  function InvisibleUntil(timeoutSeconds: nat, landed: nat -> bool, beat: nat): nat {
    if beat > 0 && !landed(beat) then InvisibleUntil(timeoutSeconds, landed, beat - 1)
    else beat * Interval(timeoutSeconds) + timeoutSeconds * 1000
  }

  /** At time t after its delivery another consumer could receive the message. */
  ghost predicate Exposed(timeoutSeconds: nat, landed: nat -> bool, t: nat) {
    InvisibleUntil(timeoutSeconds, landed, LastBeat(timeoutSeconds, t)) <= t
  }

  /** With every extension landing, a handler of any length is safe exactly when the timeout exceeds 30 s. */
  lemma HeartbeatSafety(timeoutSeconds: nat, landed: nat -> bool)
    requires forall k: nat :: landed(k)
    ensures (forall t: nat :: !Exposed(timeoutSeconds, landed, t)) <==> timeoutSeconds > 30
  {
    var interval := Interval(timeoutSeconds);
    if timeoutSeconds > 30 {
      forall t: nat ensures !Exposed(timeoutSeconds, landed, t) {
        LastBeatIsRecent(timeoutSeconds, t);
      }
    } else {
      assert Exposed(timeoutSeconds, landed, timeoutSeconds * 1000);
    }
  }

  lemma {:induction false} LastBeatIsRecent(timeoutSeconds: nat, t: nat)
    ensures t <= (LastBeat(timeoutSeconds, t) + 1) * Interval(timeoutSeconds)
    ensures t > 0 ==> LastBeat(timeoutSeconds, t) * Interval(timeoutSeconds) < t
  {
    if t > Interval(timeoutSeconds) { LastBeatIsRecent(timeoutSeconds, t - Interval(timeoutSeconds)); }
  }

  /**
   * One missed extension is one too many: whatever the timeout, if beat k does not land, the
   * message is exposed by the time beat k + 1 is due.
   */
  lemma OneMissedBeatExposes(timeoutSeconds: nat, landed: nat -> bool, k: nat)
    requires k >= 1 && !landed(k)
    ensures Exposed(timeoutSeconds, landed, (k + 1) * Interval(timeoutSeconds))
  {
    hide Interval, LastBeat;
    var interval := Interval(timeoutSeconds);
    BeatsBefore(timeoutSeconds, k);
    InvisibleUntilGrows(timeoutSeconds, landed, k - 1);
    IntervalIsHalf(timeoutSeconds);
    TwoMore(k, interval);
  }

  lemma IntervalIsHalf(timeoutSeconds: nat)
    ensures timeoutSeconds * 1000 <= 2 * Interval(timeoutSeconds)
  {
  }

  lemma TwoMore(k: nat, interval: nat)
    requires k >= 1
    ensures (k - 1) * interval + 2 * interval == (k + 1) * interval
  {
  }

  lemma {:induction false} BeatsBefore(timeoutSeconds: nat, k: nat)
    ensures LastBeat(timeoutSeconds, (k + 1) * Interval(timeoutSeconds)) == k
  {
    var interval := Interval(timeoutSeconds);
    if k > 0 {
      BeatsBefore(timeoutSeconds, k - 1);
      assert (k + 1) * interval - interval == k * interval && k * interval >= interval;
    }
  }

  lemma {:induction false} InvisibleUntilGrows(timeoutSeconds: nat, landed: nat -> bool, beat: nat)
    ensures InvisibleUntil(timeoutSeconds, landed, beat) <= beat * Interval(timeoutSeconds) + timeoutSeconds * 1000
  {
    if beat > 0 && !landed(beat) {
      InvisibleUntilGrows(timeoutSeconds, landed, beat - 1);
      assert (beat - 1) * Interval(timeoutSeconds) <= beat * Interval(timeoutSeconds);
    }
  }
}
