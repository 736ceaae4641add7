/**
 * One pass of the local queue column by column: what happens to each message of the list, by its
 * visibility and its receive count, and what becomes of one that was just enqueued or nacked.
 */
module QueueColumns {
  import opened InMemoryQueue

  /** Handed out under this handle, once more received, and invisible until the timeout. */
  ghost predicate HandedOutAs(r: Polled, c: Config, e: Envelope, now: int, m: Message) {
    m in r.ready && m.id == e.id && m.job == e.job && m.receivedCount == e.receivedCount + 1
    && m.receiptHandle in r.queue.inFlight
    && var f := r.queue.inFlight[m.receiptHandle];
       f.id == e.id && f.job == e.job && f.receiptHandle == m.receiptHandle && f.receivedCount == e.receivedCount + 1
       && f.visibleAt == now + c.visibilityTimeoutMs
  }

  ghost predicate Delivered(r: Polled, c: Config, e: Envelope, now: int) {
    exists m :: HandedOutAs(r, c, e, now, m)
  }

  /** Parked, with the receive that was refused counted. */
  ghost predicate Parked(r: Polled, e: Envelope) {
    exists d :: d in r.queue.deadLetters && d.id == e.id && d.job == e.job && d.receivedCount == e.receivedCount + 1
  }

  lemma {:induction false} SelectFilters(q: seq<Envelope>, fate: Fate, now: int, ceiling: nat, e: Envelope)
    ensures e in Select(q, fate, now, ceiling) <==> e in q && FateOf(e, now, ceiling) == fate
  {
    hide FateOf;
    if q != [] {
      assert q == [q[0]] + q[1..];
      SelectFilters(q[1..], fate, now, ceiling, e);
    }
  }

  lemma {:induction false} BumpAllBumps(q: seq<Envelope>)
    ensures |BumpAll(q)| == |q| && forall i :: 0 <= i < |q| ==> BumpAll(q)[i] == Bumped(q[i])
  {
    hide Bumped;
    if q != [] { BumpAllBumps(q[1..]); }
  }

  /** The pass as a split of the list into what it scanned and the rest. */
  lemma PassIsSplit(s: Queue, c: Config, now: int, max: nat)
    returns (scanned: seq<Envelope>, rest: seq<Envelope>, w: Sweep)
    ensures s.messages == scanned + rest && IsSplit(scanned, rest, now, max, c.maxReceiveCount, w)
    ensures IsSweepOf(Poll(s, c, now, max), s, c, now, w, [])
  {
    hide SweepList, IsSplit, IsSweepOf;
    ScanIsSweep(s, c, now, max, 0);
    assert s.messages[0..] == s.messages && s.messages[..0] == [];
    w := SweepList(s.messages, now, max, c.maxReceiveCount);
    scanned, rest := SweepIsASplit(s.messages, now, max, c.maxReceiveCount);
  }

  /** What the i-th taken envelope becomes. */
  lemma {:induction false} TakenIsReady(s: Queue, c: Config, now: int, max: nat, w: Sweep, q: seq<Envelope>, i: nat)
    requires forall h :: h in s.inFlight ==> h < s.nextUuid
    requires IsSweepOf(Poll(s, c, now, max), s, c, now, w, []) && w.taken == BumpAll(q) && i < |q|
    ensures var r := Poll(s, c, now, max); |r.ready| == |q| && HandedOutAs(r, c, q[i], now, r.ready[i])
  {
    hide Poll, BumpAll;
    BumpAllBumps(q);
    var r := Poll(s, c, now, max);
    var out := HandedOut(w.taken, s.nextUuid, now + c.visibilityTimeoutMs);
    ByHandleHas(out, s.nextUuid, i);
    assert r.ready[i] == MessageOf(out[i]) && r.ready[i] in r.ready;
  }

  lemma {:induction false} ByHandleHas(es: seq<Envelope>, first: nat, i: nat)
    requires forall k :: 0 <= k < |es| ==> es[k].receiptHandle == first + k
    requires i < |es|
    ensures es[i].receiptHandle in ByHandle(es) && ByHandle(es)[es[i].receiptHandle] == es[i]
  {
    if i > 0 {
      assert es[1..][i - 1] == es[i];
      ByHandleHas(es[1..], first + 1, i - 1);
    } else {
      ByHandleFrom(es[1..], first + 1);
    }
  }

  lemma {:induction false} ByHandleFrom(es: seq<Envelope>, first: nat)
    requires forall k :: 0 <= k < |es| ==> es[k].receiptHandle == first + k
    ensures forall h :: h in ByHandle(es) ==> h >= first
  {
    if es != [] { ByHandleFrom(es[1..], first + 1); }
  }

  /**
   * A pass with room to spare decides each message by itself: one whose time has not come stays as
   * it is, one whose time has come is handed out while its receive count is below the ceiling, and
   * is parked as a dead letter from then on.
   */
  lemma {:induction false} PassDecidesEach(s: Queue, c: Config, now: int, max: nat, e: Envelope)
    requires forall h :: h in s.inFlight ==> h < s.nextUuid
    requires e in s.messages && |Poll(s, c, now, max).ready| < max
    ensures var r := Poll(s, c, now, max);
            && (e.visibleAt > now ==> e in r.queue.messages)
            && (e.visibleAt <= now && e.receivedCount < c.maxReceiveCount ==> Delivered(r, c, e, now))
            && (e.visibleAt <= now && e.receivedCount >= c.maxReceiveCount ==> Parked(r, e))
  {
    hide Poll, Select, BumpAll, HandedOut, ByHandle, MessagesOf, HandedOutAs;
    var r := Poll(s, c, now, max);
    var scanned, rest, w := PassIsSplit(s, c, now, max);
    forall fate { SelectFilters(scanned, fate, now, c.maxReceiveCount, e); }
    var taken, dead := Select(scanned, Leaves, now, c.maxReceiveCount), Select(scanned, Dies, now, c.maxReceiveCount);
    BumpAllBumps(taken);
    BumpAllBumps(dead);
    PassHandsOutTaken(s, c, now, max, w);
    if e in taken {
      var i :| 0 <= i < |taken| && taken[i] == e;
      TakenIsReady(s, c, now, max, w, taken, i);
    } else if e in dead {
      var i :| 0 <= i < |dead| && dead[i] == e;
      assert r.queue.deadLetters[|s.deadLetters| + i] == Bumped(e);
    }
  }

  lemma PassHandsOutTaken(s: Queue, c: Config, now: int, max: nat, w: Sweep)
    requires IsSweepOf(Poll(s, c, now, max), s, c, now, w, [])
    ensures |Poll(s, c, now, max).ready| == |w.taken|
  {
  }

  /** Filled up or not, a pass hands out only messages whose time has come and that are below the ceiling. */
  lemma {:induction false} ReadyWereVisible(s: Queue, c: Config, now: int, max: nat, k: nat) returns (e: Envelope)
    requires forall h :: h in s.inFlight ==> h < s.nextUuid
    requires k < |Poll(s, c, now, max).ready|
    ensures e in s.messages && e.visibleAt <= now && e.receivedCount < c.maxReceiveCount
    ensures HandedOutAs(Poll(s, c, now, max), c, e, now, Poll(s, c, now, max).ready[k])
  {
    hide Poll, Select, BumpAll, HandedOut, ByHandle, MessagesOf, HandedOutAs;
    var scanned, rest, w := PassIsSplit(s, c, now, max);
    var taken := Select(scanned, Leaves, now, c.maxReceiveCount);
    BumpAllBumps(taken);
    PassHandsOutTaken(s, c, now, max, w);
    TakenIsReady(s, c, now, max, w, taken, k);
    e := taken[k];
    SelectFilters(scanned, Leaves, now, c.maxReceiveCount, e);
  }

  /**
   * A message enqueued with a delay is handed out, for the first time and with its job, by a pass
   * with room to spare exactly when the delay is over.
   */
  lemma {:induction false} DelayIsKept(s: Queue, c: Config, job: Job, delayMs: nat, t: int, now: int, max: nat)
    requires Wf(s, c) && c.maxReceiveCount >= 1
    requires |Poll(AfterEnqueue(s, job, t + delayMs), c, now, max).ready| < max
    ensures var r := Poll(AfterEnqueue(s, job, t + delayMs), c, now, max);
            (exists m :: m in r.ready && m.id == s.nextUuid && m.job == job && m.receivedCount == 1)
            <==> now >= t + delayMs
  {
    hide Wf, Poll;
    var s' := AfterEnqueue(s, job, t + delayMs);
    var e := s'.messages[|s.messages|];
    NewestIsAlone(s, c, job, t + delayMs);
    PassDecidesEach(s', c, now, max, e);
    var r := Poll(s', c, now, max);
    forall m | m in r.ready && m.id == s.nextUuid ensures now >= t + delayMs {
      var k :| 0 <= k < |r.ready| && r.ready[k] == m;
      var from := ReadyWereVisible(s', c, now, max, k);
    }
    if now >= t + delayMs { var m :| HandedOutAs(r, c, e, now, m); }
  }

  lemma NewestIsAlone(s: Queue, c: Config, job: Job, visibleAt: int)
    requires Wf(s, c)
    ensures var s' := AfterEnqueue(s, job, visibleAt);
            var e := s'.messages[|s.messages|];
            e.id == s.nextUuid && e.job == job && e.receivedCount == 0 && e.visibleAt == visibleAt
            && (forall h :: h in s'.inFlight ==> h < s'.nextUuid)
            && (forall x :: x in s'.messages && x.id == s.nextUuid ==> x == e)
  {
  }

  /**
   * A message that is nacked is handed out again by the next pass with room to spare, its receive
   * count one up, until it has been received as often as allowed; then it is parked.
   */
  lemma {:induction false} NackedComesBack(s: Queue, c: Config, h: nat, t: int, now: int, max: nat)
    requires Wf(s, c) && h in s.inFlight && t <= now
    requires |Poll(AfterNack(s, h, t), c, now, max).ready| < max
    ensures var r, e := Poll(AfterNack(s, h, t), c, now, max), s.inFlight[h];
            if e.receivedCount < c.maxReceiveCount then Delivered(r, c, e, now) else Parked(r, e)
  {
    hide Poll, HandedOutAs;
    var s', e := AfterNack(s, h, t), s.inFlight[h].(visibleAt := t);
    assert s'.messages[|s.messages|] == e;
    PassDecidesEach(s', c, now, max, e);
    var r := Poll(s', c, now, max);
    if e.receivedCount < c.maxReceiveCount {
      var m :| HandedOutAs(r, c, e, now, m);
      SameButForTime(r, c, e, s.inFlight[h], now, m);
    }
  }

  lemma SameButForTime(r: Polled, c: Config, e: Envelope, f: Envelope, now: int, m: Message)
    requires HandedOutAs(r, c, e, now, m) && e == f.(visibleAt := e.visibleAt)
    ensures HandedOutAs(r, c, f, now, m)
  {
  }
}
