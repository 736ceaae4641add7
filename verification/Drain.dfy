/**
 * The interactive drain: receive, run the download jobs, hand everything else back, until enough
 * receives in a row come back empty. Handing back means nack, and a nacked message is visible at
 * once, so the drain meets it again until its receive count sends it to the dead letters.
 */
module Drain {
  import opened InMemoryQueue

  datatype DownloadEnd = WasStored | WasDeduplicated | WasSkipped | DownloadThrew

  datatype DrainSummary = DrainSummary(stored: nat, deduplicated: nat, skipped: nat, failed: nat)

  function Total(s: DrainSummary): nat {
    s.stored + s.deduplicated + s.skipped + s.failed
  }

  function Counted(s: DrainSummary, end: DownloadEnd): DrainSummary {
    match end
    case WasStored => s.(stored := s.stored + 1)
    case WasDeduplicated => s.(deduplicated := s.deduplicated + 1)
    case WasSkipped => s.(skipped := s.skipped + 1)
    case DownloadThrew => s.(failed := s.failed + 1)
  }

  // ---------------------------------------------------------------- where messages end up

  /** A download job the queue would still deliver. */
  predicate Runnable(e: Envelope, c: Config) {
    e.job.DownloadMediaAsset? && !Exhausted(e, c.maxReceiveCount)
  }

  ghost predicate InHand(hand: seq<Message>, id: nat) {
    exists k :: 0 <= k < |hand| && hand[k].id == id
  }

  /** A message that was in the queue at the start and had become visible by now. */
  ghost predicate CameFrom(start: seq<Envelope>, id: nat, job: Job, now: int) {
    exists i :: 0 <= i < |start| && start[i].id == id && start[i].job == job && Visible(start[i], now)
  }

  /** A queued message is either untouched since the start, or someone else's job that was handed back. */
  ghost predicate QueuedSoFar(start: seq<Envelope>, e: Envelope, now: int) {
    e in start || (!e.job.DownloadMediaAsset? && Visible(e, now) && CameFrom(start, e.id, e.job, now))
  }

  ghost predicate HeldSoFar(start: seq<Envelope>, m: Message, now: int, c: Config) {
    exists i :: 0 <= i < |start| && start[i].id == m.id && start[i].job == m.job && Visible(start[i], now)
                && (m.job.DownloadMediaAsset? ==> Runnable(start[i], c))
  }

  /** Where a message of the start is by now. */
  ghost predicate Accounted(s: Queue, hand: seq<Message>, e: Envelope, now: int, c: Config) {
    e in s.messages ||
    (Visible(e, now) &&
     if Runnable(e, c) then e.id in s.acked || InHand(hand, e.id)
     else InList(s.deadLetters, e.id) || InList(s.messages, e.id) || InHand(hand, e.id))
  }

  /** In flight is what was in flight before the receive, and what the drain holds. */
  ghost predicate Holding(base: map<nat, Envelope>, flight: map<nat, Envelope>, hand: seq<Message>) {
    && DistinctHandles(hand)
    && (forall h :: h in base ==> h in flight && flight[h] == base[h])
    && (forall k :: 0 <= k < |hand| ==> hand[k].receiptHandle in flight && hand[k].receiptHandle !in base
                                        && MessageOf(flight[hand[k].receiptHandle]) == hand[k])
    && (forall h :: h in flight && h !in base ==> HandedTo(hand, h))
  }

  /** The drain in progress: `hand` has been received and not yet acked or nacked. */
  ghost predicate Progress(s0: Queue, s: Queue, hand: seq<Message>, now: int, c: Config) {
    && (forall i :: 0 <= i < |s.messages| ==> QueuedSoFar(s0.messages, s.messages[i], now))
    && (forall k :: 0 <= k < |hand| ==> HeldSoFar(s0.messages, hand[k], now, c))
    && (forall i :: 0 <= i < |s0.messages| ==> Accounted(s, hand, s0.messages[i], now, c))
  }

  lemma TimePasses(s0: Queue, s: Queue, hand: seq<Message>, now: int, later: int, c: Config)
    requires Progress(s0, s, hand, now, c) && now <= later
    ensures Progress(s0, s, hand, later, c)
  {
    forall i | 0 <= i < |s.messages| ensures QueuedSoFar(s0.messages, s.messages[i], later) {
      assert QueuedSoFar(s0.messages, s.messages[i], now);
    }
    forall k | 0 <= k < |hand| ensures HeldSoFar(s0.messages, hand[k], later, c) {
      assert HeldSoFar(s0.messages, hand[k], now, c);
    }
    forall i | 0 <= i < |s0.messages| ensures Accounted(s, hand, s0.messages[i], later, c) {
      assert Accounted(s, hand, s0.messages[i], now, c);
    }
  }

  lemma WithoutMember(q: seq<Envelope>, i: nat, e: Envelope)
    requires i < |q| && e in q && e != q[i]
    ensures e in Without(q, i)
  {
    var k :| 0 <= k < |q| && q[k] == e;
    assert Without(q, i)[if k < i then k else k - 1] == e;
  }

  lemma InHandPush(hand: seq<Message>, m: Message)
    ensures forall id :: InHand(hand + [m], id) <==> InHand(hand, id) || id == m.id
  {
    assert (hand + [m])[|hand|] == m;
    forall id | InHand(hand, id) ensures InHand(hand + [m], id) {
      var k :| 0 <= k < |hand| && hand[k].id == id;
      assert (hand + [m])[k] == hand[k];
    }
  }

  lemma KillProgress(s0: Queue, s: Queue, hand: seq<Message>, now: int, c: Config, i: nat)
    requires Wf(s0, c) && Wf(s, c) && Progress(s0, s, hand, now, c)
    requires i < |s.messages| && Visible(s.messages[i], now) && Exhausted(s.messages[i], c.maxReceiveCount)
    ensures Progress(s0, Kill(s, i), hand, now, c)
  {
    var e, s' := s.messages[i], Kill(s, i);
    WithoutList(s.messages, i);
    PushList(s.deadLetters, Bumped(e));
    assert QueuedSoFar(s0.messages, e, now);
    forall k | 0 <= k < |s0.messages| ensures Accounted(s', hand, s0.messages[k], now, c) {
      var o := s0.messages[k];
      assert Accounted(s, hand, o, now, c);
      if o in s.messages && o != e { WithoutMember(s.messages, i, o); }
      if o.id == e.id && o != e { SameOriginal(s0, e, now, o, c); }
    }
  }

  lemma SameIdSameEnvelope(s: Queue, e: Envelope, o: Envelope, c: Config)
    requires Wf(s, c) && e in s.messages && o in s.messages && o.id == e.id
    ensures e == o
  {
  }

  /** A handed-back message shares its id with one message of the start, of the same job. */
  lemma SameOriginal(s0: Queue, e: Envelope, now: int, o: Envelope, c: Config)
    requires Wf(s0, c) && QueuedSoFar(s0.messages, e, now) && o in s0.messages && o.id == e.id && o != e
    ensures !o.job.DownloadMediaAsset? && Visible(o, now)
  {
    var k :| 0 <= k < |s0.messages| && s0.messages[k] == o;
    if e in s0.messages {
      SameIdSameEnvelope(s0, e, o, c);
    } else {
      var j :| 0 <= j < |s0.messages| && s0.messages[j].id == e.id && s0.messages[j].job == e.job
               && Visible(s0.messages[j], now);
      assert j == k;
    }
  }

  lemma DeliverProgress(s0: Queue, s: Queue, hand: seq<Message>, now: int, c: Config, i: nat)
    requires Wf(s0, c) && Wf(s, c) && Progress(s0, s, hand, now, c)
    requires i < |s.messages| && Visible(s.messages[i], now) && !Exhausted(s.messages[i], c.maxReceiveCount)
    ensures Progress(s0, Deliver(s, c, i, now), hand + [MessageOf(Handed(s, c, i, now))], now, c)
  {
    var e, s', m := s.messages[i], Deliver(s, c, i, now), MessageOf(Handed(s, c, i, now));
    WithoutList(s.messages, i);
    InHandPush(hand, m);
    assert QueuedSoFar(s0.messages, e, now);
    assert HeldSoFar(s0.messages, m, now, c);
    forall k | 0 <= k < |s0.messages| ensures Accounted(s', hand + [m], s0.messages[k], now, c) {
      var o := s0.messages[k];
      assert Accounted(s, hand, o, now, c);
      if o in s.messages && o != e { WithoutMember(s.messages, i, o); }
      if o.id == e.id && o != e { SameOriginal(s0, e, now, o, c); }
    }
  }

  lemma {:induction false} PollProgress(s0: Queue, s: Queue, hand: seq<Message>, now: int, c: Config, max: nat, i: nat)
    requires Wf(s0, c) && Wf(s, c) && Progress(s0, s, hand, now, c)
    ensures var r := PollFrom(s, c, now, max, i); Progress(s0, r.queue, hand + r.ready, now, c)
    decreases |s.messages| - i
  {
    hide Wf;
    hide Progress;
    hide Keeps;
    if i >= |s.messages| || max == 0 {
      assert hand + [] == hand;
    } else if !Visible(s.messages[i], now) {
      PollProgress(s0, s, hand, now, c, max, i + 1);
    } else if Exhausted(s.messages[i], c.maxReceiveCount) {
      KillProgress(s0, s, hand, now, c, i);
      KillKeeps(s, c, i);
      KeepsWf(s, Kill(s, i), c);
      PollProgress(s0, Kill(s, i), hand, now, c, max, i);
    } else {
      var m, r := MessageOf(Handed(s, c, i, now)), PollFrom(Deliver(s, c, i, now), c, now, max - 1, i);
      DeliverProgress(s0, s, hand, now, c, i);
      DeliverKeeps(s, c, i, now);
      KeepsWf(s, Deliver(s, c, i, now), c);
      PollProgress(s0, Deliver(s, c, i, now), hand + [m], now, c, max - 1, i);
      assert hand + [m] + r.ready == hand + ([m] + r.ready);
    }
  }

  lemma {:induction false} ReceiveProgress(s0: Queue, s: Queue, now: int, c: Config, max: nat, deadline: int)
    requires Wf(s0, c) && Wf(s, c) && Progress(s0, s, [], now, c)
    ensures var r := ReceiveFrom(s, c, max, now, deadline); Progress(s0, r.queue, r.ready, r.end, c)
    decreases deadline - now
  {
    hide Wf;
    hide Progress;
    hide Keeps;
    var p := Poll(s, c, now, max);
    PollProgress(s0, s, [], now, c, max, 0);
    assert [] + p.ready == p.ready;
    if !(p.ready != [] || p.queue.closed || now >= deadline) {
      PollKeeps(s, c, now, max, 0);
      KeepsWf(s, p.queue, c);
      TimePasses(s0, p.queue, [], now, now + 100, c);
      ReceiveProgress(s0, p.queue, now + 100, c, max, deadline);
    }
  }

  // ---------------------------------------------------------------- acking and handing back

  lemma HoldingFirst(base: map<nat, Envelope>, flight: map<nat, Envelope>, hand: seq<Message>)
    requires hand != [] && Holding(base, flight, hand)
    ensures hand[0].receiptHandle in flight && MessageOf(flight[hand[0].receiptHandle]) == hand[0]
    ensures Holding(base, flight - {hand[0].receiptHandle}, hand[1..])
  {
    assert hand == [hand[0]] + hand[1..];
    HandedToFirst(hand[0], hand[1..]);
  }

  lemma InHandRest(hand: seq<Message>)
    requires hand != []
    ensures forall id :: InHand(hand, id) <==> id == hand[0].id || InHand(hand[1..], id)
  {
    forall id | InHand(hand, id) && id != hand[0].id ensures InHand(hand[1..], id) {
      var k :| 0 <= k < |hand| && hand[k].id == id;
      assert hand[1..][k - 1] == hand[k];
    }
    forall id | InHand(hand[1..], id) ensures InHand(hand, id) {
      var k :| 0 <= k < |hand[1..]| && hand[1..][k].id == id;
      assert hand[k + 1] == hand[1..][k];
    }
  }

  lemma AckProgress(s0: Queue, s: Queue, base: map<nat, Envelope>, hand: seq<Message>, now: int, c: Config)
    requires Wf(s0, c) && hand != [] && Progress(s0, s, hand, now, c) && Holding(base, s.inFlight, hand)
    requires hand[0].job.DownloadMediaAsset?
    ensures var s' := AfterAck(s, hand[0].receiptHandle);
            && Progress(s0, s', hand[1..], now, c)
            && Holding(base, s'.inFlight, hand[1..]) && s'.acked == s.acked + [hand[0].id]
  {
    var s' := AfterAck(s, hand[0].receiptHandle);
    HoldingFirst(base, s.inFlight, hand);
    InHandRest(hand);
    assert HeldSoFar(s0.messages, hand[0], now, c);
    var j :| 0 <= j < |s0.messages| && s0.messages[j].id == hand[0].id && Runnable(s0.messages[j], c);
    forall k | 0 <= k < |s0.messages| ensures Accounted(s', hand[1..], s0.messages[k], now, c) {
      assert Accounted(s, hand, s0.messages[k], now, c);
      if s0.messages[k].id == hand[0].id { assert j == k; }
    }
    forall k | 0 <= k < |hand| - 1 ensures HeldSoFar(s0.messages, hand[1..][k], now, c) {
      assert HeldSoFar(s0.messages, hand[k + 1], now, c);
    }
  }

  lemma NackProgress(s0: Queue, s: Queue, base: map<nat, Envelope>, hand: seq<Message>, now: int, c: Config)
    requires Wf(s0, c) && hand != [] && Progress(s0, s, hand, now, c) && Holding(base, s.inFlight, hand)
    requires !hand[0].job.DownloadMediaAsset?
    ensures var s' := AfterNack(s, hand[0].receiptHandle, now);
            Progress(s0, s', hand[1..], now, c) && Holding(base, s'.inFlight, hand[1..]) && s'.acked == s.acked
  {
    var s' := AfterNack(s, hand[0].receiptHandle, now);
    HoldingFirst(base, s.inFlight, hand);
    InHandRest(hand);
    var back := s.inFlight[hand[0].receiptHandle].(visibleAt := now);
    assert back.id == hand[0].id && back.job == hand[0].job && s'.messages == s.messages + [back];
    PushList(s.messages, back);
    assert HeldSoFar(s0.messages, hand[0], now, c);
    assert CameFrom(s0.messages, back.id, back.job, now);
    forall i | 0 <= i < |s'.messages| ensures QueuedSoFar(s0.messages, s'.messages[i], now) {
      if i < |s.messages| { assert QueuedSoFar(s0.messages, s.messages[i], now); }
    }
    var j :| 0 <= j < |s0.messages| && s0.messages[j].id == hand[0].id && s0.messages[j].job == hand[0].job;
    forall k | 0 <= k < |s0.messages| ensures Accounted(s', hand[1..], s0.messages[k], now, c) {
      assert Accounted(s, hand, s0.messages[k], now, c);
      if s0.messages[k].id == hand[0].id { assert j == k; }
    }
    forall k | 0 <= k < |hand| - 1 ensures HeldSoFar(s0.messages, hand[1..][k], now, c) {
      assert HeldSoFar(s0.messages, hand[k + 1], now, c);
    }
  }

  // ---------------------------------------------------------------- why it ends

  /** How many more times a message can come back from a receive, plus one. */
  function Budget(receivedCount: nat, ceiling: nat): nat {
    if receivedCount <= ceiling then ceiling + 1 - receivedCount else 0
  }

  function Weight(q: seq<Envelope>, ceiling: nat): nat {
    if q == [] then 0 else Weight(q[..|q| - 1], ceiling) + Budget(q[|q| - 1].receivedCount, ceiling)
  }

  function HandWeight(hand: seq<Message>, ceiling: nat): nat {
    if hand == [] then 0 else Budget(hand[0].receivedCount, ceiling) + HandWeight(hand[1..], ceiling)
  }

  lemma {:induction false} WeightWithout(q: seq<Envelope>, i: nat, ceiling: nat)
    requires i < |q|
    ensures Weight(Without(q, i), ceiling) + Budget(q[i].receivedCount, ceiling) == Weight(q, ceiling)
  {
    var n := |q| - 1;
    if i == n {
      assert Without(q, i) == q[..n];
    } else {
      WeightWithout(q[..n], i, ceiling);
      assert Without(q, i)[..n - 1] == Without(q[..n], i) && Without(q, i)[n - 1] == q[n];
    }
  }

  /** Each delivery uses up one unit of budget, each death all that is left. */
  lemma {:induction false} PollSpends(s: Queue, c: Config, now: int, max: nat, i: nat)
    ensures var r := PollFrom(s, c, now, max, i);
            Weight(r.queue.messages, c.maxReceiveCount) + HandWeight(r.ready, c.maxReceiveCount) + |r.ready|
              <= Weight(s.messages, c.maxReceiveCount)
    decreases |s.messages| - i
  {
    var ceiling := c.maxReceiveCount;
    hide Weight;
    if i >= |s.messages| || max == 0 {
    } else if !Visible(s.messages[i], now) {
      PollSpends(s, c, now, max, i + 1);
    } else if Exhausted(s.messages[i], ceiling) {
      WeightWithout(s.messages, i, ceiling);
      PollSpends(Kill(s, i), c, now, max, i);
    } else {
      WeightWithout(s.messages, i, ceiling);
      var r := PollFrom(Deliver(s, c, i, now), c, now, max - 1, i);
      PollSpends(Deliver(s, c, i, now), c, now, max - 1, i);
      HandWeightFirst(MessageOf(Handed(s, c, i, now)), r.ready, ceiling);
    }
  }

  lemma HandWeightFirst(m: Message, rest: seq<Message>, ceiling: nat)
    ensures HandWeight([m] + rest, ceiling) == Budget(m.receivedCount, ceiling) + HandWeight(rest, ceiling)
  {
    assert ([m] + rest)[1..] == rest;
  }

  lemma {:induction false} ReceiveSpends(s: Queue, c: Config, max: nat, now: int, deadline: int)
    ensures var r := ReceiveFrom(s, c, max, now, deadline);
            Weight(r.queue.messages, c.maxReceiveCount) + HandWeight(r.ready, c.maxReceiveCount) + |r.ready|
              <= Weight(s.messages, c.maxReceiveCount)
    decreases deadline - now
  {
    hide Weight;
    var p := Poll(s, c, now, max);
    PollSpends(s, c, now, max, 0);
    if !(p.ready != [] || p.queue.closed || now >= deadline) { ReceiveSpends(p.queue, c, max, now + 100, deadline); }
  }

  lemma WeightPush(q: seq<Envelope>, e: Envelope, ceiling: nat)
    ensures Weight(q + [e], ceiling) == Weight(q, ceiling) + Budget(e.receivedCount, ceiling)
  {
    assert (q + [e])[..|q|] == q;
  }

  // ---------------------------------------------------------------- the command

  /** Every ack of the drain was of a download job that was queued at the start and still deliverable. */
  ghost predicate AckedDownloads(start: seq<Envelope>, acked: seq<nat>, from: nat, c: Config) {
    forall k :: from <= k < |acked| ==> exists i :: 0 <= i < |start| && start[i].id == acked[k] && Runnable(start[i], c)
  }

  /**
   * The outcome of a drain that ended at `end`. Messages not yet visible are as they were; of the
   * others, every deliverable download job was run and acked, and everything else, other
   * consumers' jobs included, is in the dead letters.
   */
  ghost predicate Drained(s0: Queue, s: Queue, summary: DrainSummary, end: int, c: Config) {
    && (forall e :: e in s.messages <==> e in s0.messages && !Visible(e, end))
    && (forall i :: 0 <= i < |s0.messages| && Visible(s0.messages[i], end) ==>
          if Runnable(s0.messages[i], c) then s0.messages[i].id in s.acked
          else InList(s.deadLetters, s0.messages[i].id))
    && s.inFlight == s0.inFlight
    && s0.acked <= s.acked && |s.acked| == |s0.acked| + Total(summary)
    && AckedDownloads(s0.messages, s.acked, |s0.acked|, c)
  }

  lemma EmptyReceiveMeansDrained(s0: Queue, s: Queue, summary: DrainSummary, end: int, c: Config)
    requires Wf(s0, c) && Wf(s, c) && Progress(s0, s, [], end, c)
    requires forall i :: 0 <= i < |s.messages| ==> !Visible(s.messages[i], end)
    requires s.inFlight == s0.inFlight && s0.acked <= s.acked && |s.acked| == |s0.acked| + Total(summary)
    requires AckedDownloads(s0.messages, s.acked, |s0.acked|, c)
    ensures Drained(s0, s, summary, end, c)
  {
    forall e | e in s.messages ensures e in s0.messages && !Visible(e, end) {
      var i :| 0 <= i < |s.messages| && s.messages[i] == e;
      assert QueuedSoFar(s0.messages, s.messages[i], end);
    }
    forall i | 0 <= i < |s0.messages|
      ensures if !Visible(s0.messages[i], end) then s0.messages[i] in s.messages
              else if Runnable(s0.messages[i], c) then s0.messages[i].id in s.acked
          else InList(s.deadLetters, s0.messages[i].id)
    {
      var o := s0.messages[i];
      assert Accounted(s, [], o, end, c);
      if Visible(o, end) && InList(s.messages, o.id) {
        var k :| 0 <= k < |s.messages| && s.messages[k].id == o.id;
        assert s.messages[k] in s0.messages;
        SameIdSameEnvelope(s0, s.messages[k], o, c);
      }
    }
  }

  /** The bookkeeping between two operations of the drain, with `hand` still to be dealt with. */
  ghost predicate Drawing(s0: Queue, s: Queue, hand: seq<Message>, summary: DrainSummary, now: int, c: Config) {
    && Wf(s, c)
    && Progress(s0, s, hand, now, c)
    && Holding(s0.inFlight, s.inFlight, hand)
    && s0.acked <= s.acked && |s.acked| == |s0.acked| + Total(summary)
    && AckedDownloads(s0.messages, s.acked, |s0.acked|, c)
  }

  lemma DrawingStarts(s: Queue, now: int, c: Config)
    requires Wf(s, c)
    ensures Drawing(s, s, [], DrainSummary(0, 0, 0, 0), now, c)
  {
  }

  lemma DrawingWaits(s0: Queue, s: Queue, hand: seq<Message>, summary: DrainSummary, now: int, later: int, c: Config)
    requires Drawing(s0, s, hand, summary, now, c) && now <= later
    ensures Drawing(s0, s, hand, summary, later, c)
  {
    TimePasses(s0, s, hand, now, later, c);
  }

  lemma DrawingReceives(s0: Queue, s: Queue, summary: DrainSummary, now: int, waitMs: nat, c: Config)
    requires Wf(s0, c) && Drawing(s0, s, [], summary, now, c)
    ensures var r := ReceiveFrom(s, c, 10, now, now + waitMs);
            && Drawing(s0, r.queue, r.ready, summary, r.end, c) && now <= r.end
            && (r.ready == [] ==> Drained(s0, r.queue, summary, r.end, c))
  {
    hide Wf;
    hide Progress;
    hide Drained;
    var r := ReceiveFrom(s, c, 10, now, now + waitMs);
    ReceiveKeeps(s, c, 10, now, now + waitMs);
    ReceiveProgress(s0, s, now, c, 10, now + waitMs);
    HandlesBounded(s, c);
    ReceiveHandsOut(s, c, 10, now, now + waitMs);
    ReceiveLeavesAcked(s, c, 10, now, now + waitMs);
    assert forall h :: !HandedTo([], h);
    assert s.inFlight == s0.inFlight;
    if r.ready == [] {
      assert r.queue.inFlight == s0.inFlight;
      EmptyReceiveMeansDrained(s0, r.queue, summary, r.end, c);
    }
  }

  lemma HandlesBounded(s: Queue, c: Config)
    requires Wf(s, c)
    ensures forall h :: h in s.inFlight ==> h < s.nextUuid
  {
  }

  lemma {:induction false} ReceiveLeavesAcked(s: Queue, c: Config, max: nat, now: int, deadline: int)
    ensures ReceiveFrom(s, c, max, now, deadline).queue.acked == s.acked
    decreases deadline - now
  {
    var p := Poll(s, c, now, max);
    PollLeavesAcked(s, c, now, max, 0);
    if !(p.ready != [] || p.queue.closed || now >= deadline) {
      ReceiveLeavesAcked(p.queue, c, max, now + 100, deadline);
    }
  }

  lemma DrawingAcks(s0: Queue, s: Queue, hand: seq<Message>, summary: DrainSummary, result: DownloadEnd, now: int,
                    c: Config)
    requires Wf(s0, c) && hand != [] && hand[0].job.DownloadMediaAsset? && Drawing(s0, s, hand, summary, now, c)
    ensures Drawing(s0, AfterAck(s, hand[0].receiptHandle), hand[1..], Counted(summary, result), now, c)
  {
    hide Wf;
    hide Holding;
    var s' := AfterAck(s, hand[0].receiptHandle);
    AckKeeps(s, c, hand[0].receiptHandle);
    KeepsWf(s, s', c);
    AckProgress(s0, s, s0.inFlight, hand, now, c);
    assert HeldSoFar(s0.messages, hand[0], now, c);
  }

  lemma DrawingNacks(s0: Queue, s: Queue, hand: seq<Message>, summary: DrainSummary, now: int, c: Config)
    requires Wf(s0, c) && hand != [] && !hand[0].job.DownloadMediaAsset? && Drawing(s0, s, hand, summary, now, c)
    ensures Drawing(s0, AfterNack(s, hand[0].receiptHandle, now), hand[1..], summary, now, c)
  {
    hide Wf;
    hide Holding;
    NackKeeps(s, c, hand[0].receiptHandle, now);
    KeepsWf(s, AfterNack(s, hand[0].receiptHandle, now), c);
    NackProgress(s0, s, s0.inFlight, hand, now, c);
  }

  /** An ack leaves the budget of the list alone; a nack gives back no more than the message had left. */
  lemma SettlingSpends(s: Queue, base: map<nat, Envelope>, hand: seq<Message>, now: int, ceiling: nat)
    requires hand != [] && Holding(base, s.inFlight, hand)
    ensures Weight(AfterAck(s, hand[0].receiptHandle).messages, ceiling) + HandWeight(hand[1..], ceiling)
              <= Weight(s.messages, ceiling) + HandWeight(hand, ceiling)
    ensures Weight(AfterNack(s, hand[0].receiptHandle, now).messages, ceiling) + HandWeight(hand[1..], ceiling)
              <= Weight(s.messages, ceiling) + HandWeight(hand, ceiling)
  {
    HoldingFirst(base, s.inFlight, hand);
    var back := s.inFlight[hand[0].receiptHandle].(visibleAt := now);
    WeightPush(s.messages, back, ceiling);
  }

  /** One download: of a job that was queued at the start and still deliverable, and how it ended. */
  ghost predicate RanOne(start: seq<Envelope>, id: nat, k: nat, end: DownloadEnd,
                         download: (nat, nat) -> DownloadEnd, c: Config)
  {
    exists i :: 0 <= i < |start| && start[i].id == id && Runnable(start[i], c)
                && end == download(k, start[i].job.mediaId)
  }

  /** The acks since the start are, in order, those of the downloads in the log. */
  ghost predicate Ledger(s0: Queue, acked: seq<nat>, log: seq<DownloadEnd>, download: (nat, nat) -> DownloadEnd,
                         c: Config)
  {
    && |acked| == |s0.acked| + |log|
    && forall k: nat :: k < |log| ==> RanOne(s0.messages, acked[|s0.acked| + k], k, log[k], download, c)
  }

  /** The summary counts the ends of each kind. */
  ghost predicate Tallies(summary: DrainSummary, log: seq<DownloadEnd>) {
    && summary.stored == multiset(log)[WasStored]
    && summary.deduplicated == multiset(log)[WasDeduplicated]
    && summary.skipped == multiset(log)[WasSkipped]
    && summary.failed == multiset(log)[DownloadThrew]
  }

  lemma LedgerPush(s0: Queue, acked: seq<nat>, id: nat, end: DownloadEnd, log: seq<DownloadEnd>,
                   download: (nat, nat) -> DownloadEnd, c: Config)
    requires Ledger(s0, acked, log, download, c) && RanOne(s0.messages, id, |log|, end, download, c)
    ensures Ledger(s0, acked + [id], log + [end], download, c)
  {
    hide RanOne;
    forall k: nat | k < |log| + 1
      ensures RanOne(s0.messages, (acked + [id])[|s0.acked| + k], k, (log + [end])[k], download, c)
    {
      if k < |log| { assert RanOne(s0.messages, acked[|s0.acked| + k], k, log[k], download, c); }
    }
  }

  lemma TallyPush(summary: DrainSummary, log: seq<DownloadEnd>, end: DownloadEnd)
    requires Tallies(summary, log)
    ensures Tallies(Counted(summary, end), log + [end])
  {
  }

  lemma HeldIsRun(start: seq<Envelope>, m: Message, now: int, c: Config, k: nat, download: (nat, nat) -> DownloadEnd)
    requires HeldSoFar(start, m, now, c) && m.job.DownloadMediaAsset?
    ensures RanOne(start, m.id, k, download(k, m.job.mediaId), download, c)
  {
    hide Runnable;
  }

  lemma LedgerAcks(s0: Queue, s: Queue, hand: seq<Message>, summary: DrainSummary, now: int, c: Config,
                   log: seq<DownloadEnd>, download: (nat, nat) -> DownloadEnd)
    requires Wf(s0, c) && hand != [] && hand[0].job.DownloadMediaAsset? && Drawing(s0, s, hand, summary, now, c)
    requires Ledger(s0, s.acked, log, download, c) && Tallies(summary, log)
    ensures var end := download(|log|, hand[0].job.mediaId);
            Ledger(s0, AfterAck(s, hand[0].receiptHandle).acked, log + [end], download, c)
            && Tallies(Counted(summary, end), log + [end])
  {
    hide Wf;
    hide Holding;
    hide HeldSoFar;
    hide Ledger;
    hide Tallies;
    AckProgress(s0, s, s0.inFlight, hand, now, c);
    HeldIsRun(s0.messages, hand[0], now, c, |log|, download);
    var end := download(|log|, hand[0].job.mediaId);
    LedgerPush(s0, s.acked, hand[0].id, end, log, download, c);
    TallyPush(summary, log, end);
  }

  lemma NackLeavesAcked(s: Queue, h: nat, now: int)
    ensures AfterNack(s, h, now).acked == s.acked
  {
  }

  lemma LedgerStarts(s: Queue, download: (nat, nat) -> DownloadEnd, c: Config)
    ensures Ledger(s, s.acked, [], download, c) && Tallies(DrainSummary(0, 0, 0, 0), [])
  {
  }

  /** That many empty receives have waited their time. */
  predicate Waited(start: int, end: int, empty: int, waitMs: nat) {
    start + empty * waitMs <= end
  }

  lemma NoWaitYet(start: int, end: int, waitMs: nat)
    ensures start <= end ==> Waited(start, end, 0, waitMs)
  {
  }

  lemma WaitedFor(start: int, end: int, empty: int, waitMs: nat)
    ensures Waited(start, end, empty, waitMs) <==> start + empty * waitMs <= end
  {
  }

  lemma OneMoreWait(start: int, since: int, now: int, end: int, empty: int, waitMs: nat)
    requires since <= now && now + waitMs <= end && Waited(start, since, empty, waitMs)
    ensures Waited(start, end, empty + 1, waitMs)
  {
    assert (empty + 1) * waitMs == empty * waitMs + waitMs;
  }

  /**
   * Drains until that many receives in a row are empty. `download` gives the end of each download
   * it starts, `delay` the time that passes before each operation; `log` lists those ends. An open
   * queue is given up on only after as many full waits as empty receives were asked for.
   */
  method DrainAssetJobs(queue: Driver, download: (nat, nat) -> DownloadEnd, emptyPollsBeforeStop: int, waitMs: nat,
                        start: int, delay: nat -> nat)
    returns (summary: DrainSummary, end: int, ghost log: seq<DownloadEnd>)
    requires Wf(queue.State(), queue.config)
    modifies queue
    ensures Wf(queue.State(), queue.config)
    ensures start <= end
    ensures emptyPollsBeforeStop > 0 && !old(queue.State()).closed ==> start + emptyPollsBeforeStop * waitMs <= end
    ensures Ledger(old(queue.State()), queue.State().acked, log, download, queue.config) && Tallies(summary, log)
    ensures emptyPollsBeforeStop <= 0 ==> queue.State() == old(queue.State())
    ensures emptyPollsBeforeStop > 0 ==> Drained(old(queue.State()), queue.State(), summary, end, queue.config)
  {
    hide Wf;
    hide Progress;
    hide Holding;
    hide Drained;
    hide AckedDownloads;
    hide Weight;
    hide ReceiveFrom;
    hide Ledger;
    hide Tallies, Waited;
    ghost var s0, c := queue.State(), queue.config;
    var consecutiveEmpty, tick, downloads := 0, 0, 0;
    summary, end := DrainSummary(0, 0, 0, 0), start;
    log := [];
    NoWaitYet(start, end, waitMs);
    DrawingStarts(s0, end, c);
    LedgerStarts(s0, download, c);

    while consecutiveEmpty < emptyPollsBeforeStop
      invariant start <= end && 0 <= consecutiveEmpty
      invariant queue.closed == s0.closed
      invariant !s0.closed ==> Waited(start, end, consecutiveEmpty, waitMs)
      invariant consecutiveEmpty <= emptyPollsBeforeStop || consecutiveEmpty == 0
      invariant Drawing(s0, queue.State(), [], summary, end, c)
      invariant Ledger(s0, queue.State().acked, log, download, c) && Tallies(summary, log) && downloads == |log|
      invariant emptyPollsBeforeStop <= 0 ==> queue.State() == s0
      invariant consecutiveEmpty > 0 ==> Drained(s0, queue.State(), summary, end, c)
      decreases Weight(queue.messages, c.maxReceiveCount), emptyPollsBeforeStop - consecutiveEmpty
    {
      ghost var since := end;
      var now := end + delay(tick);
      tick := tick + 1;
      DrawingWaits(s0, queue.State(), [], summary, end, now, c);
      DrawingReceives(s0, queue.State(), summary, now, waitMs, c);
      ReceiveLeavesAcked(queue.State(), c, 10, now, now + waitMs);
      ReceiveSpends(queue.State(), c, 10, now, now + waitMs);
      ReceiveLooksInTime(queue.State(), c, 10, now, now + waitMs);
      ghost var budget := Weight(queue.messages, c.maxReceiveCount);
      var messages;
      messages, end := queue.Receive(10, waitMs, now);

      if |messages| == 0 {
        if !s0.closed { OneMoreWait(start, since, now, end, consecutiveEmpty, waitMs); }
        consecutiveEmpty := consecutiveEmpty + 1;
        continue;
      }
      consecutiveEmpty := 0;
      NoWaitYet(start, end, waitMs);

      var k := 0;
      while k < |messages|
        invariant 0 <= k <= |messages| && start <= end && queue.closed == s0.closed
        invariant Drawing(s0, queue.State(), messages[k..], summary, end, c)
        invariant Ledger(s0, queue.State().acked, log, download, c) && Tallies(summary, log) && downloads == |log|
        invariant Weight(queue.messages, c.maxReceiveCount) + HandWeight(messages[k..], c.maxReceiveCount) < budget
      {
        var message := messages[k];
        assert messages[k..][0] == message && messages[k..][1..] == messages[k + 1..];
        now := end + delay(tick);
        tick := tick + 1;
        DrawingWaits(s0, queue.State(), messages[k..], summary, end, now, c);
        end := now;
        SettlingSpends(queue.State(), s0.inFlight, messages[k..], now, c.maxReceiveCount);
        if !message.job.DownloadMediaAsset? {
          DrawingNacks(s0, queue.State(), messages[k..], summary, now, c);
          NackLeavesAcked(queue.State(), message.receiptHandle, now);
          queue.Nack(message, now);
        } else {
          var result := download(downloads, message.job.mediaId);
          downloads := downloads + 1;
          LedgerAcks(s0, queue.State(), messages[k..], summary, now, c, log, download);
          log := log + [result];
          DrawingAcks(s0, queue.State(), messages[k..], summary, result, now, c);
          summary := Counted(summary, result);
          queue.Ack(message);
        }
        k := k + 1;
      }
      assert messages[k..] == [];
      NoWaitYet(start, end, waitMs);
    }
    assert Wf(queue.State(), c);
    WaitedFor(start, end, consecutiveEmpty, waitMs);
  }
}
