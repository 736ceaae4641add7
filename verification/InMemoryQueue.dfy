/**
 * The in-process queue that stands in for SQS: invisible while in flight, a fresh receipt handle
 * per delivery, and a dead-letter list for messages received too often. Uuids are drawn from a
 * counter, so that none is ever drawn twice.
 */
module InMemoryQueue {
  datatype Job =
    | DispatchDueSyncs
    | SyncTop(hashtagId: nat)
    | SyncRecent(hashtagId: nat)
    | DownloadMediaAsset(mediaId: nat)

  datatype Envelope = Envelope(id: nat, job: Job, receiptHandle: nat, receivedCount: nat, visibleAt: int)

  /** What a consumer gets: an envelope without its visibility. */
  datatype Message = Message(id: nat, job: Job, receiptHandle: nat, receivedCount: nat)

  datatype Config = Config(visibilityTimeoutMs: nat, maxReceiveCount: nat)

  /** The queue as a value. `acked` logs the ids deleted by an ack. */
  datatype Queue = Queue(
    messages: seq<Envelope>,
    inFlight: map<nat, Envelope>,
    deadLetters: seq<Envelope>,
    acked: seq<nat>,
    nextUuid: nat,
    closed: bool)

  const NEW_QUEUE := Queue([], map[], [], [], 0, false)

  // ---------------------------------------------------------------- one sweep over the list

  predicate Visible(e: Envelope, now: int) {
    e.visibleAt <= now
  }

  /** One more delivery would exceed the ceiling. */
  predicate Exhausted(e: Envelope, ceiling: nat) {
    e.receivedCount + 1 > ceiling
  }

  function Bumped(e: Envelope): Envelope {
    e.(receivedCount := e.receivedCount + 1)
  }

  /** What a scan does with an envelope it reaches. */
  datatype Fate = Stays | Leaves | Dies

  function FateOf(e: Envelope, now: int, ceiling: nat): Fate {
    if !Visible(e, now) then Stays else if Exhausted(e, ceiling) then Dies else Leaves
  }

  /** Where the envelopes of the list end up: left in it, taken for delivery, or dead. */
  datatype Sweep = Sweep(kept: seq<Envelope>, taken: seq<Envelope>, dead: seq<Envelope>)

  function Sorted(e: Envelope, fate: Fate, r: Sweep): Sweep {
    match fate
    case Stays => r.(kept := [e] + r.kept)
    case Leaves => r.(taken := [Bumped(e)] + r.taken)
    case Dies => r.(dead := [Bumped(e)] + r.dead)
  }

  /** What is left of a request for `max` after an envelope of this fate. */
  function Left(max: nat, fate: Fate): nat
    requires max > 0
  {
    if fate == Leaves then max - 1 else max
  }

  function SweepList(q: seq<Envelope>, now: int, max: nat, ceiling: nat): Sweep {
    if q == [] || max == 0 then Sweep(q, [], [])
    else
      var fate := FateOf(q[0], now, ceiling);
      Sorted(q[0], fate, SweepList(q[1..], now, Left(max, fate), ceiling))
  }

  /** The envelopes of one fate, in list order. */
  function Select(q: seq<Envelope>, fate: Fate, now: int, ceiling: nat): seq<Envelope> {
    if q == [] then []
    else if FateOf(q[0], now, ceiling) == fate then [q[0]] + Select(q[1..], fate, now, ceiling)
    else Select(q[1..], fate, now, ceiling)
  }

  function BumpAll(q: seq<Envelope>): seq<Envelope> {
    if q == [] then [] else [Bumped(q[0])] + BumpAll(q[1..])
  }

  /**
   * The sweep without its recursion. In the part of the list it scanned, invisible envelopes stay,
   * the deliverable ones are taken and the exhausted ones die, each group in list order; the rest is
   * untouched. The scan stops at the end of the list or right after the envelope that filled the request.
   */
  ghost predicate IsSplit(scanned: seq<Envelope>, rest: seq<Envelope>, now: int, max: nat, ceiling: nat, s: Sweep) {
    && s.kept == Select(scanned, Stays, now, ceiling) + rest
    && s.taken == BumpAll(Select(scanned, Leaves, now, ceiling))
    && s.dead == BumpAll(Select(scanned, Dies, now, ceiling))
    && |s.taken| <= max
    && (|s.taken| < max ==> rest == [])
    && (|s.taken| == max && scanned != [] ==> FateOf(scanned[|scanned| - 1], now, ceiling) == Leaves)
  }

  lemma SelectFirst(e: Envelope, q: seq<Envelope>, fate: Fate, now: int, ceiling: nat)
    ensures var first, rest := FateOf(e, now, ceiling) == fate, Select(q, fate, now, ceiling);
            && Select([e] + q, fate, now, ceiling) == (if first then [e] + rest else rest)
            && BumpAll(Select([e] + q, fate, now, ceiling))
                == (if first then [Bumped(e)] + BumpAll(rest) else BumpAll(rest))
  {
    assert ([e] + q)[1..] == q;
    assert ([e] + Select(q, fate, now, ceiling))[1..] == Select(q, fate, now, ceiling);
  }

  lemma SplitStep(e: Envelope, scanned: seq<Envelope>, rest: seq<Envelope>, now: int, max: nat, ceiling: nat, r: Sweep)
    requires max > 0
    requires IsSplit(scanned, rest, now, Left(max, FateOf(e, now, ceiling)), ceiling, r)
    requires scanned == [] ==> rest == [] || Left(max, FateOf(e, now, ceiling)) == 0
    ensures IsSplit([e] + scanned, rest, now, max, ceiling, Sorted(e, FateOf(e, now, ceiling), r))
  {
    SelectFirst(e, scanned, Stays, now, ceiling);
    SelectFirst(e, scanned, Leaves, now, ceiling);
    SelectFirst(e, scanned, Dies, now, ceiling);
    assert scanned == [] ==> BumpAll(Select(scanned, Leaves, now, ceiling)) == [];
    assert scanned != [] ==> ([e] + scanned)[|scanned|] == scanned[|scanned| - 1];
    hide Select;
    hide BumpAll;
    hide Bumped;
    assert [e] + (Select(scanned, Stays, now, ceiling) + rest) == ([e] + Select(scanned, Stays, now, ceiling)) + rest;
  }

  lemma {:induction false} SweepIsASplit(q: seq<Envelope>, now: int, max: nat, ceiling: nat)
    returns (scanned: seq<Envelope>, rest: seq<Envelope>)
    ensures q == scanned + rest
    ensures IsSplit(scanned, rest, now, max, ceiling, SweepList(q, now, max, ceiling))
    ensures scanned == [] ==> q == [] || max == 0
  {
    if q == [] || max == 0 {
      scanned, rest := [], q;
    } else {
      hide IsSplit;
      var left := Left(max, FateOf(q[0], now, ceiling));
      scanned, rest := SweepIsASplit(q[1..], now, left, ceiling);
      SplitStep(q[0], scanned, rest, now, max, ceiling, SweepList(q[1..], now, left, ceiling));
      scanned := [q[0]] + scanned;
    }
  }

  // ---------------------------------------------------------------- the operations, as values

  function MessageOf(e: Envelope): Message {
    Message(e.id, e.job, e.receiptHandle, e.receivedCount)
  }

  function Without<T>(q: seq<T>, i: nat): seq<T>
    requires i < |q|
  {
    q[..i] + q[i + 1..]
  }

  function AfterEnqueue(s: Queue, job: Job, visibleAt: int): Queue {
    s.(messages := s.messages + [Envelope(s.nextUuid, job, s.nextUuid + 1, 0, visibleAt)], nextUuid := s.nextUuid + 2)
  }

  /** Parks the i-th message in the dead-letter list. */
  function Kill(s: Queue, i: nat): Queue
    requires i < |s.messages|
  {
    s.(messages := Without(s.messages, i), deadLetters := s.deadLetters + [Bumped(s.messages[i])])
  }

  function Handed(s: Queue, c: Config, i: nat, now: int): Envelope
    requires i < |s.messages|
  {
    Bumped(s.messages[i]).(receiptHandle := s.nextUuid, visibleAt := now + c.visibilityTimeoutMs)
  }

  /** Puts the i-th message in flight under a handle never used before. */
  function Deliver(s: Queue, c: Config, i: nat, now: int): Queue
    requires i < |s.messages|
  {
    s.(messages := Without(s.messages, i),
       inFlight := s.inFlight[s.nextUuid := Handed(s, c, i, now)],
       nextUuid := s.nextUuid + 1)
  }

  datatype Polled = Polled(queue: Queue, ready: seq<Message>)

  /** The scan from index i on, one move at a time. */
  function PollFrom(s: Queue, c: Config, now: int, max: nat, i: nat): Polled
    decreases |s.messages| - i
  {
    if i >= |s.messages| || max == 0 then Polled(s, [])
    else if !Visible(s.messages[i], now) then PollFrom(s, c, now, max, i + 1)
    else if Exhausted(s.messages[i], c.maxReceiveCount) then PollFrom(Kill(s, i), c, now, max, i)
    else
      var r := PollFrom(Deliver(s, c, i, now), c, now, max - 1, i);
      Polled(r.queue, [MessageOf(Handed(s, c, i, now))] + r.ready)
  }

  function Poll(s: Queue, c: Config, now: int, max: nat): Polled {
    PollFrom(s, c, now, max, 0)
  }

  function AfterAck(s: Queue, handle: nat): Queue {
    if handle in s.inFlight then
      s.(inFlight := s.inFlight - {handle}, acked := s.acked + [s.inFlight[handle].id])
    else s
  }

  function AfterNack(s: Queue, handle: nat, now: int): Queue {
    if handle in s.inFlight then
      s.(inFlight := s.inFlight - {handle}, messages := s.messages + [s.inFlight[handle].(visibleAt := now)])
    else s
  }

  function AfterExtend(s: Queue, handle: nat, until: int): Queue {
    if handle in s.inFlight then s.(inFlight := s.inFlight[handle := s.inFlight[handle].(visibleAt := until)]) else s
  }

  // ---------------------------------------------------------------- the scan meets the sweep

  /** The envelopes of a delivery: handles in sequence, invisible until the timeout. */
  function HandedOut(taken: seq<Envelope>, first: nat, until: int): seq<Envelope> {
    seq(|taken|, i requires 0 <= i < |taken| => taken[i].(receiptHandle := first + i, visibleAt := until))
  }

  function ByHandle(es: seq<Envelope>): map<nat, Envelope> {
    if es == [] then map[] else map[es[0].receiptHandle := es[0]] + ByHandle(es[1..])
  }

  function MessagesOf(es: seq<Envelope>): seq<Message> {
    seq(|es|, i requires 0 <= i < |es| => MessageOf(es[i]))
  }

  /** The outcome of a scan read off the sweep. */
  ghost predicate IsSweepOf(r: Polled, s: Queue, c: Config, now: int, w: Sweep, prefix: seq<Envelope>) {
    var out := HandedOut(w.taken, s.nextUuid, now + c.visibilityTimeoutMs);
    && r.queue == s.(messages := prefix + w.kept,
                     deadLetters := s.deadLetters + w.dead,
                     inFlight := s.inFlight + ByHandle(out),
                     nextUuid := s.nextUuid + |w.taken|)
    && r.ready == MessagesOf(out)
  }

  lemma HandedOutFirst(e: Envelope, rest: seq<Envelope>, first: nat, until: int)
    ensures HandedOut([e] + rest, first, until) ==
            [e.(receiptHandle := first, visibleAt := until)] + HandedOut(rest, first + 1, until)
  {
  }

  /** Splicing while stepping the index back leaves what the sweep says. */
  lemma {:induction false} ScanIsSweep(s: Queue, c: Config, now: int, max: nat, i: nat)
    requires i <= |s.messages|
    ensures IsSweepOf(PollFrom(s, c, now, max, i), s, c, now,
                      SweepList(s.messages[i..], now, max, c.maxReceiveCount), s.messages[..i])
    decreases |s.messages| - i
  {
    var q := s.messages;
    if i == |q| || max == 0 {
      assert q[..i] + q[i..] == q;
    } else {
      var e, fate, rest := q[i], FateOf(q[i], now, c.maxReceiveCount), q[i + 1..];
      var r := SweepList(rest, now, Left(max, fate), c.maxReceiveCount);
      assert q[i..][0] == e && q[i..][1..] == rest;
      assert SweepList(q[i..], now, max, c.maxReceiveCount) == Sorted(e, fate, r);
      match fate {
        case Stays =>
          ScanIsSweep(s, c, now, max, i + 1);
          hide SweepList;
          assert q[..i + 1] + r.kept == q[..i] + ([e] + r.kept);
        case Dies =>
          assert Kill(s, i).messages[..i] == q[..i] && Kill(s, i).messages[i..] == rest;
          ScanIsSweep(Kill(s, i), c, now, max, i);
          hide SweepList;
          assert s.deadLetters + [Bumped(e)] + r.dead == s.deadLetters + ([Bumped(e)] + r.dead);
        case Leaves =>
          assert Deliver(s, c, i, now).messages[..i] == q[..i] && Deliver(s, c, i, now).messages[i..] == rest;
          ScanIsSweep(Deliver(s, c, i, now), c, now, max - 1, i);
          DeliveryIsSweep(s, c, now, i, PollFrom(Deliver(s, c, i, now), c, now, max - 1, i), r);
      }
    }
  }

  lemma DeliveryIsSweep(s: Queue, c: Config, now: int, i: nat, r: Polled, w: Sweep)
    requires i < |s.messages| && IsSweepOf(r, Deliver(s, c, i, now), c, now, w, s.messages[..i])
    ensures IsSweepOf(Polled(r.queue, [MessageOf(Handed(s, c, i, now))] + r.ready), s, c, now,
                      Sorted(s.messages[i], Leaves, w), s.messages[..i])
  {
    var until := now + c.visibilityTimeoutMs;
    HandedOutFirst(Bumped(s.messages[i]), w.taken, s.nextUuid, until);
    DeliverFirst(s.inFlight, Handed(s, c, i, now), HandedOut(w.taken, s.nextUuid + 1, until));
  }

  lemma DeliverFirst(m: map<nat, Envelope>, e: Envelope, rest: seq<Envelope>)
    ensures m + ByHandle([e] + rest) == m[e.receiptHandle := e] + ByHandle(rest)
    ensures MessagesOf([e] + rest) == [MessageOf(e)] + MessagesOf(rest)
  {
    assert ([e] + rest)[1..] == rest;
  }

  // ---------------------------------------------------------------- what every operation keeps

  ghost predicate DistinctIds(es: seq<Envelope>) {
    forall i, j :: 0 <= i < j < |es| ==> es[i].id != es[j].id
  }

  ghost predicate InList(es: seq<Envelope>, id: nat) {
    exists i :: 0 <= i < |es| && es[i].id == id
  }

  ghost predicate InFlight(s: Queue, id: nat) {
    exists h :: h in s.inFlight && s.inFlight[h].id == id
  }

  /** A message is in exactly one place, handles name what they hold, and no delivery is over the ceiling. */
  ghost predicate Wf(s: Queue, c: Config) {
    && DistinctIds(s.messages) && DistinctIds(s.deadLetters)
    && (forall i, j :: 0 <= i < j < |s.acked| ==> s.acked[i] != s.acked[j])
    && (forall h, h' :: h in s.inFlight && h' in s.inFlight && h != h' ==> s.inFlight[h].id != s.inFlight[h'].id)
    && (forall h :: h in s.inFlight ==> s.inFlight[h].receiptHandle == h < s.nextUuid)
    && (forall i :: 0 <= i < |s.messages| ==>
          s.messages[i].id < s.nextUuid && s.messages[i].receivedCount <= c.maxReceiveCount)
    && (forall h :: h in s.inFlight ==>
          s.inFlight[h].id < s.nextUuid && 1 <= s.inFlight[h].receivedCount <= c.maxReceiveCount)
    && (forall i :: 0 <= i < |s.deadLetters| ==>
          s.deadLetters[i].id < s.nextUuid && s.deadLetters[i].receivedCount == c.maxReceiveCount + 1)
    && (forall i :: 0 <= i < |s.acked| ==> s.acked[i] < s.nextUuid)
    && (forall id :: InList(s.messages, id) ==> !InFlight(s, id) && !InList(s.deadLetters, id) && id !in s.acked)
    && (forall id :: InFlight(s, id) ==> !InList(s.deadLetters, id) && id !in s.acked)
    && (forall id :: InList(s.deadLetters, id) ==> id !in s.acked)
  }

  /** The message is somewhere in the queue, or was acked. */
  ghost predicate Known(s: Queue, id: nat) {
    InList(s.messages, id) || InFlight(s, id) || InList(s.deadLetters, id) || id in s.acked
  }

  /** No handle that is out of use comes back into use. */
  ghost predicate HandlesRetire(s: Queue, s': Queue) {
    s.nextUuid <= s'.nextUuid && forall h: nat :: h < s.nextUuid && h !in s.inFlight ==> h !in s'.inFlight
  }

  /** What any operation does to the whole: nothing is lost or invented, and old handles stay dead. */
  ghost predicate Keeps(s: Queue, s': Queue, c: Config) {
    && Wf(s', c)
    && HandlesRetire(s, s')
    && (forall id :: Known(s, id) <==> Known(s', id))
    && (forall id :: InList(s.deadLetters, id) ==> InList(s'.deadLetters, id))
    && (forall id :: id in s.acked ==> id in s'.acked)
  }

  lemma WithoutList(q: seq<Envelope>, i: nat)
    requires i < |q| && DistinctIds(q)
    ensures DistinctIds(Without(q, i))
    ensures forall id :: InList(Without(q, i), id) <==> InList(q, id) && id != q[i].id
    ensures forall k :: 0 <= k < |q| - 1 ==> Without(q, i)[k] == if k < i then q[k] else q[k + 1]
  {
    var r := Without(q, i);
    forall id | InList(r, id) ensures InList(q, id) && id != q[i].id {
      var k :| 0 <= k < |r| && r[k].id == id;
      if k < i { assert q[k].id == id; } else { assert q[k + 1].id == id; }
    }
    forall id | InList(q, id) && id != q[i].id ensures InList(r, id) {
      var k :| 0 <= k < |q| && q[k].id == id;
      if k < i { assert r[k].id == id; } else { assert r[k - 1].id == id; }
    }
  }

  lemma PushList(q: seq<Envelope>, e: Envelope)
    ensures forall id :: InList(q + [e], id) <==> InList(q, id) || id == e.id
    ensures DistinctIds(q) && !InList(q, e.id) ==> DistinctIds(q + [e])
  {
    var r := q + [e];
    assert r[|q|] == e;
    forall id | InList(q, id) ensures InList(r, id) {
      var k :| 0 <= k < |q| && q[k].id == id;
      assert r[k].id == id;
    }
  }

  lemma KillKeeps(s: Queue, c: Config, i: nat)
    requires Wf(s, c) && i < |s.messages| && Exhausted(s.messages[i], c.maxReceiveCount)
    ensures Keeps(s, Kill(s, i), c)
  {
    var s', e := Kill(s, i), s.messages[i];
    assert InList(s.messages, e.id);
    WithoutList(s.messages, i);
    PushList(s.deadLetters, Bumped(e));
    forall id ensures InFlight(s', id) == InFlight(s, id) {}
  }

  lemma DeliverKeeps(s: Queue, c: Config, i: nat, now: int)
    requires Wf(s, c) && i < |s.messages| && !Exhausted(s.messages[i], c.maxReceiveCount)
    ensures Keeps(s, Deliver(s, c, i, now), c)
  {
    var s', e := Deliver(s, c, i, now), s.messages[i];
    assert InList(s.messages, e.id);
    WithoutList(s.messages, i);
    InFlightAdd(s, s', s.nextUuid, Handed(s, c, i, now));
  }

  lemma InFlightAdd(s: Queue, s': Queue, h: nat, e: Envelope)
    requires h !in s.inFlight && s'.inFlight == s.inFlight[h := e]
    ensures forall id :: InFlight(s', id) <==> InFlight(s, id) || id == e.id
  {
    forall id | InFlight(s, id) ensures InFlight(s', id) {
      var g :| g in s.inFlight && s.inFlight[g].id == id;
      assert g in s'.inFlight && s'.inFlight[g].id == id;
    }
    assert h in s'.inFlight && s'.inFlight[h].id == e.id;
  }

  lemma InFlightDrop(s: Queue, s': Queue, h: nat, c: Config)
    requires Wf(s, c) && h in s.inFlight && s'.inFlight == s.inFlight - {h}
    ensures forall id :: InFlight(s', id) <==> InFlight(s, id) && id != s.inFlight[h].id
  {
    forall id | InFlight(s, id) && id != s.inFlight[h].id ensures InFlight(s', id) {
      var g :| g in s.inFlight && s.inFlight[g].id == id;
      assert g in s'.inFlight && s'.inFlight[g].id == id;
    }
  }

  lemma KeepsIsTransitive(s: Queue, t: Queue, r: Queue, c: Config)
    requires Keeps(s, t, c) && Keeps(t, r, c)
    ensures Keeps(s, r, c)
  {
  }

  lemma {:induction false} PollKeeps(s: Queue, c: Config, now: int, max: nat, i: nat)
    requires Wf(s, c)
    ensures Keeps(s, PollFrom(s, c, now, max, i).queue, c)
    decreases |s.messages| - i
  {
    hide Wf;
    hide Keeps;
    if i >= |s.messages| || max == 0 {
      NothingKeeps(s, c);
    } else if !Visible(s.messages[i], now) {
      PollKeeps(s, c, now, max, i + 1);
    } else if Exhausted(s.messages[i], c.maxReceiveCount) {
      KillKeeps(s, c, i);
      KeepsWf(s, Kill(s, i), c);
      PollKeeps(Kill(s, i), c, now, max, i);
      KeepsIsTransitive(s, Kill(s, i), PollFrom(s, c, now, max, i).queue, c);
    } else {
      DeliverKeeps(s, c, i, now);
      KeepsWf(s, Deliver(s, c, i, now), c);
      PollKeeps(Deliver(s, c, i, now), c, now, max - 1, i);
      KeepsIsTransitive(s, Deliver(s, c, i, now), PollFrom(s, c, now, max, i).queue, c);
    }
  }

  lemma NothingKeeps(s: Queue, c: Config)
    requires Wf(s, c)
    ensures Keeps(s, s, c)
  {
  }

  lemma KeepsWf(s: Queue, s': Queue, c: Config)
    requires Keeps(s, s', c)
    ensures Wf(s', c)
  {
  }

  lemma AckKeeps(s: Queue, c: Config, h: nat)
    requires Wf(s, c)
    ensures Keeps(s, AfterAck(s, h), c)
  {
    if h in s.inFlight {
      assert InFlight(s, s.inFlight[h].id);
      InFlightDrop(s, AfterAck(s, h), h, c);
      forall id ensures id in AfterAck(s, h).acked <==> id in s.acked || id == s.inFlight[h].id {}
    }
  }

  lemma NackKeeps(s: Queue, c: Config, h: nat, now: int)
    requires Wf(s, c)
    ensures Keeps(s, AfterNack(s, h, now), c)
  {
    if h in s.inFlight {
      assert InFlight(s, s.inFlight[h].id);
      InFlightDrop(s, AfterNack(s, h, now), h, c);
      PushList(s.messages, s.inFlight[h].(visibleAt := now));
    }
  }

  lemma ExtendKeeps(s: Queue, c: Config, h: nat, until: int)
    requires Wf(s, c)
    ensures Keeps(s, AfterExtend(s, h, until), c)
  {
    if h in s.inFlight {
      InFlightTouch(s, AfterExtend(s, h, until), h);
    }
  }

  lemma InFlightTouch(s: Queue, s': Queue, h: nat)
    requires h in s.inFlight && s'.inFlight.Keys == s.inFlight.Keys
    requires forall g :: g in s.inFlight ==> s'.inFlight[g].id == s.inFlight[g].id
    ensures forall id :: InFlight(s', id) <==> InFlight(s, id)
  {
    forall id ensures InFlight(s', id) <==> InFlight(s, id) {
      if InFlight(s, id) {
        var g :| g in s.inFlight && s.inFlight[g].id == id;
        assert g in s'.inFlight && s'.inFlight[g].id == id;
      }
    }
  }

  /** Enqueue adds one message, under an id nobody has. */
  lemma EnqueueKeeps(s: Queue, c: Config, job: Job, visibleAt: int)
    requires Wf(s, c)
    ensures var s' := AfterEnqueue(s, job, visibleAt);
            && Wf(s', c) && HandlesRetire(s, s') && !Known(s, s.nextUuid)
            && forall id :: Known(s', id) <==> Known(s, id) || id == s.nextUuid
  {
    var s' := AfterEnqueue(s, job, visibleAt);
    PushList(s.messages, s'.messages[|s.messages|]);
    forall id ensures InFlight(s', id) == InFlight(s, id) {}
  }

  datatype Reception = Reception(queue: Queue, ready: seq<Message>, end: int)

  /** Passes that deliver nothing, then the one that ends the receive. */
  function ReceiveFrom(s: Queue, c: Config, max: nat, now: int, deadline: int): Reception
    decreases deadline - now
  {
    var p := Poll(s, c, now, max);
    if p.ready != [] || p.queue.closed || now >= deadline then Reception(p.queue, p.ready, now)
    else ReceiveFrom(p.queue, c, max, now + 100, deadline)
  }

  /**
   * A receive keeps the queue well formed, hands out at most what was asked for, and comes back
   * empty-handed from an open queue only after the whole wait, with nothing left that is visible.
   */
  lemma {:induction false} ReceiveKeeps(s: Queue, c: Config, max: nat, now: int, deadline: int)
    requires Wf(s, c)
    ensures var r := ReceiveFrom(s, c, max, now, deadline);
            && Keeps(s, r.queue, c) && now <= r.end && |r.ready| <= max
            && (r.ready == [] && max > 0 ==>
                  && (r.queue.closed || r.end >= deadline)
                  && forall i :: 0 <= i < |r.queue.messages| ==> !Visible(r.queue.messages[i], r.end))
    decreases deadline - now
  {
    hide Wf;
    hide Keeps;
    var p := Poll(s, c, now, max);
    PollKeeps(s, c, now, max, 0);
    KeepsWf(s, p.queue, c);
    PollDrains(s, c, now, max);
    if !(p.ready != [] || p.queue.closed || now >= deadline) {
      ReceiveKeeps(p.queue, c, max, now + 100, deadline);
      KeepsIsTransitive(s, p.queue, ReceiveFrom(s, c, max, now, deadline).queue, c);
    }
  }

  lemma {:induction false} SelectStays(q: seq<Envelope>, now: int, ceiling: nat)
    ensures forall i :: 0 <= i < |Select(q, Stays, now, ceiling)| ==> !Visible(Select(q, Stays, now, ceiling)[i], now)
  {
    if q != [] { SelectStays(q[1..], now, ceiling); }
  }

  /** A pass that is not filled up leaves nothing visible behind. */
  lemma PollDrains(s: Queue, c: Config, now: int, max: nat)
    ensures var r := Poll(s, c, now, max);
            && |r.ready| <= max
            && (|r.ready| < max ==> forall i :: 0 <= i < |r.queue.messages| ==> !Visible(r.queue.messages[i], now))
  {
    ScanIsSweep(s, c, now, max, 0);
    assert s.messages[0..] == s.messages;
    var w := SweepList(s.messages, now, max, c.maxReceiveCount);
    var scanned, rest := SweepIsASplit(s.messages, now, max, c.maxReceiveCount);
    SelectStays(scanned, now, c.maxReceiveCount);
  }

  // ---------------------------------------------------------------- what a pass hands out

  /** A message just handed out: under a new handle, and in flight as it was handed out. */
  ghost predicate JustOut(first: nat, q: Queue, m: Message) {
    first <= m.receiptHandle < q.nextUuid && m.receiptHandle in q.inFlight
    && MessageOf(q.inFlight[m.receiptHandle]) == m
  }

  ghost predicate HandedTo(ready: seq<Message>, h: nat) {
    exists k :: 0 <= k < |ready| && ready[k].receiptHandle == h
  }

  ghost predicate DistinctHandles(ready: seq<Message>) {
    forall j, k :: 0 <= j < k < |ready| ==> ready[j].receiptHandle != ready[k].receiptHandle
  }

  /** What a pass does to the in-flight map: what it hands out is new, and nothing else moves. */
  ghost predicate HandsOut(s: Queue, r: Polled, max: nat) {
    && |r.ready| <= max && s.nextUuid <= r.queue.nextUuid && DistinctHandles(r.ready)
    && (forall h :: h in s.inFlight ==> h in r.queue.inFlight && r.queue.inFlight[h] == s.inFlight[h])
    && (forall k :: 0 <= k < |r.ready| ==> JustOut(s.nextUuid, r.queue, r.ready[k]))
    && (forall h :: h in r.queue.inFlight && h !in s.inFlight ==> HandedTo(r.ready, h))
  }

  lemma {:induction false} PollHandsOut(s: Queue, c: Config, now: int, max: nat, i: nat)
    requires forall h :: h in s.inFlight ==> h < s.nextUuid
    ensures HandsOut(s, PollFrom(s, c, now, max, i), max)
    decreases |s.messages| - i
  {
    if i >= |s.messages| || max == 0 {
    } else if !Visible(s.messages[i], now) {
      PollHandsOut(s, c, now, max, i + 1);
    } else if Exhausted(s.messages[i], c.maxReceiveCount) {
      PollHandsOut(Kill(s, i), c, now, max, i);
    } else {
      PollHandsOut(Deliver(s, c, i, now), c, now, max - 1, i);
      HandOutFirst(s, c, now, max, i, PollFrom(Deliver(s, c, i, now), c, now, max - 1, i));
    }
  }

  lemma HandedToFirst(m: Message, rest: seq<Message>)
    ensures forall h :: HandedTo([m] + rest, h) <==> h == m.receiptHandle || HandedTo(rest, h)
  {
    var all := [m] + rest;
    assert all[0] == m;
    forall h | HandedTo(rest, h) ensures HandedTo(all, h) {
      var k :| 0 <= k < |rest| && rest[k].receiptHandle == h;
      assert all[k + 1] == rest[k];
    }
  }

  lemma HandOutFirst(s: Queue, c: Config, now: int, max: nat, i: nat, r: Polled)
    requires i < |s.messages| && max > 0 && HandsOut(Deliver(s, c, i, now), r, max - 1)
    requires forall h :: h in s.inFlight ==> h < s.nextUuid
    ensures HandsOut(s, Polled(r.queue, [MessageOf(Handed(s, c, i, now))] + r.ready), max)
  {
    var first := MessageOf(Handed(s, c, i, now));
    var ready := [first] + r.ready;
    HandedToFirst(first, r.ready);
    assert s.nextUuid in Deliver(s, c, i, now).inFlight;
    forall k | 0 <= k < |ready| ensures JustOut(s.nextUuid, r.queue, ready[k]) {
      if k > 0 { assert ready[k] == r.ready[k - 1]; }
    }
    assert forall k :: 0 < k < |ready| ==> ready[k] == r.ready[k - 1] && ready[k].receiptHandle > s.nextUuid;
  }

  lemma HandedToAreNew(s: Queue, p: Polled, max: nat)
    requires HandsOut(s, p, max)
    ensures forall h :: HandedTo(p.ready, h) ==> s.nextUuid <= h
  {
    forall h | HandedTo(p.ready, h) ensures s.nextUuid <= h {
      var k :| 0 <= k < |p.ready| && p.ready[k].receiptHandle == h;
      assert JustOut(s.nextUuid, p.queue, p.ready[k]);
    }
  }

  /** A receive hands out what its last pass does; the passes before it hand out nothing. */
  lemma {:induction false} ReceiveHandsOut(s: Queue, c: Config, max: nat, now: int, deadline: int)
    requires forall h :: h in s.inFlight ==> h < s.nextUuid
    ensures var r := ReceiveFrom(s, c, max, now, deadline); HandsOut(s, Polled(r.queue, r.ready), max)
    decreases deadline - now
  {
    var p := Poll(s, c, now, max);
    PollHandsOut(s, c, now, max, 0);
    if !(p.ready != [] || p.queue.closed || now >= deadline) {
      assert forall h :: !HandedTo(p.ready, h);
      ReceiveHandsOut(p.queue, c, max, now + 100, deadline);
    }
  }

  /** A handle that is out of use does nothing in any state it has stayed retired in. */
  lemma OldHandleDoesNothing(s: Queue, s': Queue, h: nat, time: int)
    requires HandlesRetire(s, s') && h < s.nextUuid && h !in s.inFlight
    ensures AfterAck(s', h) == AfterNack(s', h, time) == AfterExtend(s', h, time) == s'
  {
  }

  lemma {:induction false} PollLeavesAcked(s: Queue, c: Config, now: int, max: nat, i: nat)
    ensures PollFrom(s, c, now, max, i).queue.acked == s.acked
    decreases |s.messages| - i
  {
    if i >= |s.messages| || max == 0 {
    } else if !Visible(s.messages[i], now) {
      PollLeavesAcked(s, c, now, max, i + 1);
    } else if Exhausted(s.messages[i], c.maxReceiveCount) {
      PollLeavesAcked(Kill(s, i), c, now, max, i);
    } else {
      PollLeavesAcked(Deliver(s, c, i, now), c, now, max - 1, i);
    }
  }

  lemma {:induction false} PollLeavesOpen(s: Queue, c: Config, now: int, max: nat, i: nat)
    ensures PollFrom(s, c, now, max, i).queue.closed == s.closed
    decreases |s.messages| - i
  {
    if i >= |s.messages| || max == 0 {
    } else if !Visible(s.messages[i], now) {
      PollLeavesOpen(s, c, now, max, i + 1);
    } else if Exhausted(s.messages[i], c.maxReceiveCount) {
      PollLeavesOpen(Kill(s, i), c, now, max, i);
    } else {
      PollLeavesOpen(Deliver(s, c, i, now), c, now, max - 1, i);
    }
  }

  /** A receive looks every 100 ms, and no longer than the wait and one more look. */
  lemma {:induction false} ReceiveLooksInTime(s: Queue, c: Config, max: nat, now: int, deadline: int)
    ensures var r := ReceiveFrom(s, c, max, now, deadline);
            && now <= r.end && (r.end - now) % 100 == 0 && r.end < (if now < deadline then deadline else now) + 100
            && r.queue.closed == s.closed
            && (r.ready == [] && !s.closed ==> r.end >= deadline)
    decreases deadline - now
  {
    var p := Poll(s, c, now, max);
    PollLeavesOpen(s, c, now, max, 0);
    if !(p.ready != [] || p.queue.closed || now >= deadline) {
      ReceiveLooksInTime(p.queue, c, max, now + 100, deadline);
    }
  }

  lemma {:induction false} SelectHas(q: seq<Envelope>, e: Envelope, now: int, ceiling: nat)
    requires e in q
    ensures Bumped(e) in BumpAll(Select(q, FateOf(e, now, ceiling), now, ceiling))
  {
    if q[0] != e {
      assert q == [q[0]] + q[1..];
      SelectHas(q[1..], e, now, ceiling);
      SelectFirst(q[0], q[1..], FateOf(e, now, ceiling), now, ceiling);
    }
  }

  /** A pass with room to spare sends every visible message at the ceiling to the dead letters. */
  lemma {:induction false} ExhaustedDies(s: Queue, c: Config, now: int, max: nat, e: Envelope)
    requires e in s.messages && Visible(e, now) && Exhausted(e, c.maxReceiveCount)
    requires |Poll(s, c, now, max).ready| < max
    ensures InList(Poll(s, c, now, max).queue.deadLetters, e.id)
  {
    hide Select, BumpAll;
    ScanIsSweep(s, c, now, max, 0);
    assert s.messages[0..] == s.messages;
    var w := SweepList(s.messages, now, max, c.maxReceiveCount);
    var scanned, rest := SweepIsASplit(s.messages, now, max, c.maxReceiveCount);
    assert rest == [];
    SelectHas(scanned, e, now, c.maxReceiveCount);
    assert Bumped(e) in w.dead;
    var r := Poll(s, c, now, max);
    var i :| 0 <= i < |w.dead| && w.dead[i] == Bumped(e);
    assert r.queue.deadLetters[|s.deadLetters| + i] == w.dead[i];
  }

  // ---------------------------------------------------------------- the queue object

  class Driver {
    const config: Config
    var messages: seq<Envelope>
    var inFlight: map<nat, Envelope>
    var deadLetters: seq<Envelope>
    var nextUuid: nat
    var closed: bool
    ghost var acked: seq<nat>

    ghost function State(): Queue
      reads this
    {
      Queue(messages, inFlight, deadLetters, acked, nextUuid, closed)
    }

    constructor (visibilityTimeoutMs: nat, maxReceiveCount: nat)
      ensures State() == NEW_QUEUE && config == Config(visibilityTimeoutMs, maxReceiveCount)
    {
      config := Config(visibilityTimeoutMs, maxReceiveCount);
      messages, inFlight, deadLetters, nextUuid, closed, acked := [], map[], [], 0, false, [];
    }

    /** False is the throw on a closed queue. */
    method Enqueue(job: Job, delayMs: nat, now: int) returns (ok: bool)
      modifies this
      ensures ok == !old(closed)
      ensures State() == if ok then AfterEnqueue(old(State()), job, now + delayMs) else old(State())
    {
      if closed { return false; }
      messages := messages + [Envelope(nextUuid, job, nextUuid + 1, 0, now + delayMs)];
      nextUuid := nextUuid + 2;
      return true;
    }

    /** One pass of the receive loop: splice out what is visible, stepping the index back each time. */
    method PollOnce(max: nat, now: int) returns (ready: seq<Message>)
      modifies this
      ensures Polled(State(), ready) == Poll(old(State()), config, now, max)
    {
      ready := [];
      var i := 0;
      while i < |messages| && |ready| < max
        invariant 0 <= i <= |messages| && |ready| <= max
        invariant Poll(old(State()), config, now, max).queue == PollFrom(State(), config, now, max - |ready|, i).queue
        invariant Poll(old(State()), config, now, max).ready
            == ready + PollFrom(State(), config, now, max - |ready|, i).ready
        decreases |messages| - i
      {
        var envelope := messages[i];
        if envelope.visibleAt > now {
          i := i + 1;
          continue;
        }
        messages := messages[..i] + messages[i + 1..];
        i := i - 1;
        envelope := envelope.(receivedCount := envelope.receivedCount + 1);
        if envelope.receivedCount > config.maxReceiveCount {
          deadLetters := deadLetters + [envelope];
          i := i + 1;
          continue;
        }
        envelope := envelope.(receiptHandle := nextUuid, visibleAt := now + config.visibilityTimeoutMs);
        nextUuid := nextUuid + 1;
        inFlight := inFlight[envelope.receiptHandle := envelope];
        ready := ready + [MessageOf(envelope)];
        i := i + 1;
      }
    }

    /** Long polling: passes at 100 ms intervals until one delivers, the queue closes, or the wait is over. */
    method Receive(max: nat, waitMs: nat, start: int) returns (ready: seq<Message>, end: int)
      modifies this
      ensures Reception(State(), ready, end) == ReceiveFrom(old(State()), config, max, start, start + waitMs)
    {
      var now := start;
      while true
        invariant ReceiveFrom(State(), config, max, now, start + waitMs)
            == ReceiveFrom(old(State()), config, max, start, start + waitMs)
        decreases start + waitMs - now
      {
        ready := PollOnce(max, now);
        if ready != [] || closed || now >= start + waitMs {
          return ready, now;
        }
        now := now + 100;
      }
    }

    method Ack(message: Message)
      modifies this
      ensures State() == AfterAck(old(State()), message.receiptHandle)
    {
      if message.receiptHandle in inFlight {
        acked := acked + [inFlight[message.receiptHandle].id];
      }
      inFlight := inFlight - {message.receiptHandle};
    }

    method Nack(message: Message, now: int)
      modifies this
      ensures State() == AfterNack(old(State()), message.receiptHandle, now)
    {
      if message.receiptHandle !in inFlight {
        return;
      }
      var envelope := inFlight[message.receiptHandle];
      inFlight := inFlight - {message.receiptHandle};
      messages := messages + [envelope.(visibleAt := now)];
    }

    method ExtendVisibility(message: Message, seconds: nat, now: int)
      modifies this
      ensures State() == AfterExtend(old(State()), message.receiptHandle, now + seconds * 1000)
      ensures var h := message.receiptHandle;
              inFlight.Keys == old(inFlight).Keys && inFlight - {h} == old(inFlight) - {h}
              && (h in inFlight ==> inFlight[h] == old(inFlight)[h].(visibleAt := now + seconds * 1000))
    {
      if message.receiptHandle in inFlight {
        var envelope := inFlight[message.receiptHandle];
        inFlight := inFlight[message.receiptHandle := envelope.(visibleAt := now + seconds * 1000)];
      }
    }

    method Close()
      modifies this
      ensures State() == old(State()).(closed := true)
    {
      closed := true;
    }
  }
}
