/**
 * The local storage driver: a put streams into `<target>.<pid>.partial` and renames it into place,
 * so that a crash cannot leave a truncated file at a content-addressed key. Writers interleave
 * chunk by chunk over one file system of names and inodes.
 */
module LocalDiskStorage {
  type Bytes = seq<bv8>

  /** The two kinds of path the driver touches. */
  datatype Name = Target(key: string) | Partial(key: string, pid: nat)

  /** One call of putStream. */
  datatype Put = Put(key: string, pid: nat, body: Bytes) {
    function Temp(): Name { Partial(key, pid) }
  }

  datatype Stage = Waiting | Open(inode: nat, written: nat) | Published | Broken

  datatype Action = OpenTemp(w: nat) | WriteChunk(w: nat, size: nat) | Rename(w: nat) | Break(w: nat) | Die(w: nat)

  /** `next` is the next free inode number. */
  datatype State = State(names: map<Name, nat>, inodes: map<nat, Bytes>, next: nat, stages: map<nat, Stage>)

  type Puts = map<nat, Put>

  function Patch(content: Bytes, at: nat, chunk: Bytes): Bytes {
    var padded := if |content| < at then content + seq(at - |content|, i => 0) else content;
    padded[..at] + chunk + if at + |chunk| < |padded| then padded[at + |chunk|..] else []
  }

  function StageOf(s: State, w: nat): Stage {
    if w in s.stages then s.stages[w] else Waiting
  }

  /** createWriteStream opens with 'w': an existing file is truncated and shared, not replaced. */
  function AfterOpen(s: State, puts: Puts, w: nat): State
    requires w in puts
  {
    var temp := puts[w].Temp();
    if temp in s.names then
      s.(inodes := s.inodes[s.names[temp] := []], stages := s.stages[w := Open(s.names[temp], 0)])
    else
      State(s.names[temp := s.next], s.inodes[s.next := []], s.next + 1, s.stages[w := Open(s.next, 0)])
  }

  function AfterWrite(s: State, puts: Puts, w: nat, size: nat): State
    requires w in puts && StageOf(s, w).Open?
  {
    var stage := StageOf(s, w);
    var end := if stage.written + size < |puts[w].body| then stage.written + size else |puts[w].body|;
    if stage.written > end then s else
    var content := if stage.inode in s.inodes then s.inodes[stage.inode] else [];
    s.(inodes := s.inodes[stage.inode := Patch(content, stage.written, puts[w].body[stage.written..end])],
       stages := s.stages[w := Open(stage.inode, end)])
  }

  /** Only once the stream is drained. A temp file somebody else renamed away is an error. */
  function AfterRename(s: State, puts: Puts, w: nat): State
    requires w in puts && StageOf(s, w).Open?
  {
    var temp := puts[w].Temp();
    if StageOf(s, w).written != |puts[w].body| then s
    else if temp !in s.names then s.(stages := s.stages[w := Broken])
    else s.(names := (s.names - {temp})[Target(puts[w].key) := s.names[temp]], stages := s.stages[w := Published])
  }

  function Apply(s: State, puts: Puts, a: Action): State {
    if a.w !in puts then s else
    match a
    case OpenTemp(w) => if StageOf(s, w).Waiting? then AfterOpen(s, puts, w) else s
    case WriteChunk(w, size) => if StageOf(s, w).Open? then AfterWrite(s, puts, w, size) else s
    case Rename(w) => if StageOf(s, w).Open? then AfterRename(s, puts, w) else s
    // a failing stream unlinks the temp file; a crash leaves it
    case Break(w) =>
      if StageOf(s, w).Open? then s.(names := s.names - {puts[w].Temp()}, stages := s.stages[w := Broken]) else s
    case Die(w) => if StageOf(s, w).Open? then s.(stages := s.stages[w := Broken]) else s
  }

  function After(s: State, puts: Puts, acts: seq<Action>): State {
    if acts == [] then s else Apply(After(s, puts, acts[..|acts| - 1]), puts, acts[|acts| - 1])
  }

  const EMPTY := State(map[], map[], 0, map[])

  /** Every published file is the whole body of some put to its key. */
  ghost predicate Whole(s: State, puts: Puts) {
    forall key :: Target(key) in s.names ==> IsWhole(s, puts, key)
  }

  predicate IsWhole(s: State, puts: Puts, key: string)
    requires Target(key) in s.names
  {
    s.names[Target(key)] in s.inodes
    && exists w :: w in puts && puts[w].key == key && puts[w].body == s.inodes[s.names[Target(key)]]
  }

  // ---------------------------------------------------------------- no two open puts share a temp file

  predicate IsOpen(s: State, w: nat) {
    w in s.stages && s.stages[w].Open?
  }

  /** The put holds its temp file, which contains what it has written so far and nothing else. */
  predicate WriterOk(s: State, puts: Puts, w: nat)
    requires IsOpen(s, w)
  {
    var stage := s.stages[w];
    w in puts && puts[w].Temp() in s.names && s.names[puts[w].Temp()] == stage.inode
    && stage.inode in s.inodes && stage.written <= |puts[w].body|
    && s.inodes[stage.inode] == puts[w].body[..stage.written]
  }

  ghost predicate WritersOk(s: State, puts: Puts) {
    forall w :: IsOpen(s, w) ==> WriterOk(s, puts, w)
  }

  /** No inode has two names, and the next number is unused. */
  ghost predicate NamesOk(s: State) {
    (forall n :: n in s.names ==> s.names[n] in s.inodes)
    && (forall i :: i in s.inodes ==> i < s.next)
    && (forall m, n :: m in s.names && n in s.names && s.names[m] == s.names[n] ==> m == n)
  }

  ghost predicate Exclusive(s: State, puts: Puts) {
    forall v, w :: v in puts && w in puts && IsOpen(s, v) && IsOpen(s, w) && puts[v].Temp() == puts[w].Temp() ==> v == w
  }

  ghost predicate Inv(s: State, puts: Puts) {
    NamesOk(s) && WritersOk(s, puts) && Exclusive(s, puts) && Whole(s, puts)
  }

  /** A put opens its temp file only while no other open put uses that name. */
  ghost predicate OpensAlone(s: State, puts: Puts, a: Action) {
    a.OpenTemp? && a.w in puts ==>
      forall v :: v in puts && IsOpen(s, v) ==> puts[v].Temp() != puts[a.w].Temp()
  }

  lemma {:induction false} OpenKeepsInv(s: State, puts: Puts, w: nat)
    requires Inv(s, puts) && w in puts && StageOf(s, w).Waiting? && OpensAlone(s, puts, OpenTemp(w))
    ensures Inv(AfterOpen(s, puts, w), puts)
  {
    hide IsWhole;
    var t := AfterOpen(s, puts, w);
    forall x | IsOpen(t, x) ensures WriterOk(t, puts, x) {
      assert x != w ==> IsOpen(s, x) && WriterOk(s, puts, x);
    }
    forall key | Target(key) in t.names ensures IsWhole(t, puts, key) {
      SameFileIsWhole(s, t, puts, key);
    }
  }

  lemma SameFileIsWhole(s: State, t: State, puts: Puts, key: string)
    requires Target(key) in s.names && IsWhole(s, puts, key)
    requires Target(key) in t.names && t.names[Target(key)] == s.names[Target(key)]
    requires t.names[Target(key)] in t.inodes && t.inodes[t.names[Target(key)]] == s.inodes[s.names[Target(key)]]
    ensures IsWhole(t, puts, key)
  {
  }

  lemma AppendIsPatch(body: Bytes, written: nat, end: nat)
    requires written <= end <= |body|
    ensures Patch(body[..written], written, body[written..end]) == body[..end]
  {
  }

  lemma {:induction false} WriteKeepsInv(s: State, puts: Puts, w: nat, size: nat)
    requires Inv(s, puts) && w in puts && IsOpen(s, w)
    ensures Inv(AfterWrite(s, puts, w, size), puts)
  {
    hide IsWhole, Patch;
    var t := AfterWrite(s, puts, w, size);
    var stage := s.stages[w];
    assert WriterOk(s, puts, w);
    AppendIsPatch(puts[w].body, stage.written, t.stages[w].written);
    forall x | IsOpen(t, x) ensures WriterOk(t, puts, x) {
      assert x != w ==> IsOpen(s, x) && WriterOk(s, puts, x);
    }
    forall key | Target(key) in t.names ensures IsWhole(t, puts, key) {
      SameFileIsWhole(s, t, puts, key);
    }
  }

  lemma {:induction false} RenameKeepsInv(s: State, puts: Puts, w: nat)
    requires Inv(s, puts) && w in puts && IsOpen(s, w)
    ensures Inv(AfterRename(s, puts, w), puts)
  {
    hide IsWhole;
    var t := AfterRename(s, puts, w);
    assert WriterOk(s, puts, w);
    forall x | IsOpen(t, x) ensures WriterOk(t, puts, x) {
      assert x != w ==> IsOpen(s, x) && WriterOk(s, puts, x);
    }
    forall key | Target(key) in t.names ensures IsWhole(t, puts, key) {
      if t.stages[w].Published? && key == puts[w].key {
        FinishedIsWhole(t, puts, w);
      } else {
        SameFileIsWhole(s, t, puts, key);
      }
    }
  }

  lemma FinishedIsWhole(s: State, puts: Puts, w: nat)
    requires w in puts && Target(puts[w].key) in s.names
    requires s.names[Target(puts[w].key)] in s.inodes && s.inodes[s.names[Target(puts[w].key)]] == puts[w].body
    ensures IsWhole(s, puts, puts[w].key)
  {
  }

  lemma {:induction false} StepKeepsInv(s: State, puts: Puts, a: Action)
    requires Inv(s, puts) && OpensAlone(s, puts, a)
    ensures Inv(Apply(s, puts, a), puts)
  {
    hide AfterOpen, AfterWrite, AfterRename, IsWhole;
    if a.w in puts {
      match a
      case OpenTemp(w) => if StageOf(s, w).Waiting? { OpenKeepsInv(s, puts, w); }
      case WriteChunk(w, size) => if IsOpen(s, w) { WriteKeepsInv(s, puts, w, size); }
      case Rename(w) => if IsOpen(s, w) { RenameKeepsInv(s, puts, w); }
      case Break(w) => LeaveKeepsInv(s, puts, a);
      case Die(w) => LeaveKeepsInv(s, puts, a);
    }
  }

  lemma {:induction false} LeaveKeepsInv(s: State, puts: Puts, a: Action)
    requires Inv(s, puts) && a.w in puts && (a.Break? || a.Die?)
    ensures Inv(Apply(s, puts, a), puts)
  {
    hide IsWhole;
    var t := Apply(s, puts, a);
    forall x | IsOpen(t, x) ensures WriterOk(t, puts, x) {
      assert x != a.w ==> IsOpen(s, x) && WriterOk(s, puts, x);
    }
    forall key | Target(key) in t.names ensures IsWhole(t, puts, key) {
      SameFileIsWhole(s, t, puts, key);
    }
  }

  ghost predicate AllAlone(puts: Puts, acts: seq<Action>) {
    acts == [] || (AllAlone(puts, acts[..|acts| - 1])
                   && OpensAlone(After(EMPTY, puts, acts[..|acts| - 1]), puts, acts[|acts| - 1]))
  }

  /**
   * While no two open puts share a temp file, every file at a key is the whole body of a put to
   * that key, at every moment, however writes, failures and crashes interleave.
   */
  lemma {:induction false} PublishedFilesAreWhole(puts: Puts, acts: seq<Action>)
    requires AllAlone(puts, acts)
    ensures Inv(After(EMPTY, puts, acts), puts) && Whole(After(EMPTY, puts, acts), puts)
  {
    hide Apply, NamesOk, WritersOk, Exclusive, Whole, OpensAlone;
    if acts == [] {
      EmptyIsOk(puts);
    } else {
      PublishedFilesAreWhole(puts, acts[..|acts| - 1]);
      StepKeepsInv(After(EMPTY, puts, acts[..|acts| - 1]), puts, acts[|acts| - 1]);
    }
  }

  lemma EmptyIsOk(puts: Puts)
    ensures Inv(EMPTY, puts)
  {
  }

  // ---------------------------------------------------------------- two puts of one process

  /** Two puts of one process to one key: the temp name is the same. */
  predicate Clash(puts: Puts, v: nat, w: nat) {
    v in puts && w in puts && v != w && puts[v].Temp() == puts[w].Temp()
  }

  /** A content-addressed key has one body. */
  predicate Addressed(puts: Puts) {
    forall v, w :: v in puts && w in puts && puts[v].key == puts[w].key ==> puts[v].body == puts[w].body
  }

  lemma AfterFive(puts: Puts, acts: seq<Action>)
    requires |acts| == 5
    ensures After(EMPTY, puts, acts)
            == var s := Apply(Apply(Apply(EMPTY, puts, acts[0]), puts, acts[1]), puts, acts[2]);
               Apply(Apply(s, puts, acts[3]), puts, acts[4])
  {
    hide Apply;
    assert acts[..4][..3] == acts[..3] && acts[..3][..2] == acts[..2] && acts[..2][..1] == acts[..1]
        && acts[..1][..0] == [];
    assert After(EMPTY, puts, acts[..1]) == Apply(EMPTY, puts, acts[0]);
    assert After(EMPTY, puts, acts[..2]) == Apply(Apply(EMPTY, puts, acts[0]), puts, acts[1]);
    assert After(EMPTY, puts, acts[..3]) == Apply(After(EMPTY, puts, acts[..2]), puts, acts[2]);
  }

  function Overlap(puts: Puts, v: nat, w: nat): seq<Action>
    requires v in puts
  {
    [OpenTemp(v), WriteChunk(v, |puts[v].body|), OpenTemp(w), Rename(v), Die(w)]
  }

  /**
   * The pid does not tell two downloads of one worker apart. If the second opens the shared temp
   * file before the first renames it, the first put succeeds and publishes an empty file, which a
   * crash then leaves at the key for good.
   */
  lemma {:induction false} SharedTempFilePublishesTruncated(puts: Puts, v: nat, w: nat)
    requires Addressed(puts) && Clash(puts, v, w) && puts[v].body != []
    ensures var s := After(EMPTY, puts, Overlap(puts, v, w));
            StageOf(s, v).Published? && StageOf(s, w).Broken? && !Whole(s, puts)
  {
    hide After, Apply, Whole, Shared, Left;
    AfterFive(puts, Overlap(puts, v, w));
    FirstThreeSteps(puts, v, w);
    LastTwoSteps(puts, v, w);
    LeftIsTruncated(puts, v, w);
  }

  /** Both have the temp file open, and opening it the second time emptied it. */
  function Shared(puts: Puts, v: nat, w: nat): State
    requires v in puts
  {
    State(map[puts[v].Temp() := 0], map[0 := []], 1, map[v := Open(0, |puts[v].body|), w := Open(0, 0)])
  }

  function Left(puts: Puts, v: nat, w: nat): State
    requires v in puts
  {
    State(map[Target(puts[v].key) := 0], map[0 := []], 1, map[v := Published, w := Broken])
  }

  lemma FirstThreeSteps(puts: Puts, v: nat, w: nat)
    requires Clash(puts, v, w)
    ensures Apply(Apply(Apply(EMPTY, puts, OpenTemp(v)), puts, WriteChunk(v, |puts[v].body|)), puts, OpenTemp(w))
            == Shared(puts, v, w)
  {
    var body, temp := puts[v].body, puts[v].Temp();
    var s1 := State(map[temp := 0], map[0 := []], 1, map[v := Open(0, 0)]);
    var s2 := State(map[temp := 0], map[0 := body], 1, map[v := Open(0, |body|)]);
    assert Apply(EMPTY, puts, OpenTemp(v)) == s1;
    assert Apply(s1, puts, WriteChunk(v, |body|)) == s2 by {
      AppendIsPatch(body, 0, |body|);
      assert body[..0] == [] && body[..|body|] == body;
    }
    assert Apply(s2, puts, OpenTemp(w)) == Shared(puts, v, w);
  }

  lemma LastTwoSteps(puts: Puts, v: nat, w: nat)
    requires Clash(puts, v, w)
    ensures Apply(Apply(Shared(puts, v, w), puts, Rename(v)), puts, Die(w)) == Left(puts, v, w)
  {
    var s4 := State(map[Target(puts[v].key) := 0], map[0 := []], 1, map[v := Published, w := Open(0, 0)]);
    assert Apply(Shared(puts, v, w), puts, Rename(v)) == s4;
  }

  lemma LeftIsTruncated(puts: Puts, v: nat, w: nat)
    requires Addressed(puts) && Clash(puts, v, w) && puts[v].body != []
    ensures var s := Left(puts, v, w); StageOf(s, v).Published? && StageOf(s, w).Broken? && !Whole(s, puts)
  {
    assert !IsWhole(Left(puts, v, w), puts, puts[v].key);
  }

  // ---------------------------------------------------------------- exactly when every schedule is safe

  /** The pair shares a temp file, and there is something in it to truncate. */
  predicate CanTear(puts: Puts, v: nat, w: nat) {
    Clash(puts, v, w) && puts[v].body != []
  }

  /** A put that writes something: without a pair that can tear, its temp name is its own. */
  predicate Writes(puts: Puts, w: nat) {
    w in puts && puts[w].body != []
  }

  predicate HandleOk(s: State, puts: Puts, w: nat)
    requires IsOpen(s, w)
  {
    w in puts && s.stages[w].inode in s.inodes && s.stages[w].written <= |puts[w].body|
    && (Writes(puts, w) ==> WriterOk(s, puts, w))
  }

  ghost predicate HandlesOk(s: State, puts: Puts) {
    forall w :: IsOpen(s, w) ==> HandleOk(s, puts, w)
  }

  /** A temp file under its name: only its own put can have made it, or it is empty and stays so. */
  predicate TempOk(s: State, puts: Puts, w: nat)
    requires w in puts
  {
    puts[w].Temp() in s.names ==>
      if Writes(puts, w) then !StageOf(s, w).Waiting?
      else s.names[puts[w].Temp()] in s.inodes && s.inodes[s.names[puts[w].Temp()]] == []
  }

  ghost predicate TempsOk(s: State, puts: Puts) {
    forall w :: w in puts ==> TempOk(s, puts, w)
  }

  ghost predicate Untorn(s: State, puts: Puts) {
    NamesOk(s) && HandlesOk(s, puts) && TempsOk(s, puts) && Whole(s, puts)
  }

  lemma EmptyIsUntorn(puts: Puts)
    ensures Untorn(EMPTY, puts)
  {
  }

  lemma {:induction false} OpenKeepsUntorn(s: State, puts: Puts, w: nat)
    requires Untorn(s, puts) && w in puts && StageOf(s, w).Waiting?
    requires forall v, x :: !CanTear(puts, v, x)
    ensures Untorn(AfterOpen(s, puts, w), puts)
  {
    hide IsWhole;
    var t := AfterOpen(s, puts, w);
    assert TempOk(s, puts, w);
    forall x | IsOpen(t, x) ensures HandleOk(t, puts, x) {
      if x != w { assert IsOpen(s, x) && HandleOk(s, puts, x); }
    }
    forall x | x in puts ensures TempOk(t, puts, x) {
      assert TempOk(s, puts, x);
      assert !CanTear(puts, x, w);
    }
    forall key | Target(key) in t.names ensures IsWhole(t, puts, key) {
      SameFileIsWhole(s, t, puts, key);
    }
  }

  /** A put of no bytes writes nothing wherever it stands. */
  lemma NothingIsPatched(content: Bytes)
    ensures Patch(content, 0, []) == content
  {
  }

  lemma {:induction false} WriteKeepsUntorn(s: State, puts: Puts, w: nat, size: nat)
    requires Untorn(s, puts) && w in puts && IsOpen(s, w)
    requires forall v, x :: !CanTear(puts, v, x)
    ensures Untorn(AfterWrite(s, puts, w, size), puts)
  {
    hide IsWhole, Patch;
    var t := AfterWrite(s, puts, w, size);
    var stage := s.stages[w];
    assert HandleOk(s, puts, w);
    if Writes(puts, w) {
      AppendIsPatch(puts[w].body, stage.written, t.stages[w].written);
    } else {
      NothingIsPatched(s.inodes[stage.inode]);
      assert t.inodes == s.inodes;
    }
    forall x | IsOpen(t, x) ensures HandleOk(t, puts, x) {
      if x != w { assert IsOpen(s, x) && HandleOk(s, puts, x) && !CanTear(puts, w, x); }
    }
    forall x | x in puts ensures TempOk(t, puts, x) {
      assert TempOk(s, puts, x) && !CanTear(puts, w, x);
    }
    forall key | Target(key) in t.names ensures IsWhole(t, puts, key) {
      SameFileIsWhole(s, t, puts, key);
    }
  }

  lemma {:induction false} RenameKeepsUntorn(s: State, puts: Puts, w: nat)
    requires Untorn(s, puts) && w in puts && IsOpen(s, w)
    requires forall v, x :: !CanTear(puts, v, x)
    ensures Untorn(AfterRename(s, puts, w), puts)
  {
    hide IsWhole;
    var t := AfterRename(s, puts, w);
    assert HandleOk(s, puts, w) && TempOk(s, puts, w);
    forall x | IsOpen(t, x) ensures HandleOk(t, puts, x) {
      assert IsOpen(s, x) && HandleOk(s, puts, x) && !CanTear(puts, x, w);
    }
    forall x | x in puts ensures TempOk(t, puts, x) {
      assert TempOk(s, puts, x);
    }
    forall key | Target(key) in t.names ensures IsWhole(t, puts, key) {
      if t.stages[w].Published? && key == puts[w].key {
        FinishedIsWhole(t, puts, w);
      } else {
        SameFileIsWhole(s, t, puts, key);
      }
    }
  }

  lemma {:induction false} LeaveKeepsUntorn(s: State, puts: Puts, a: Action)
    requires Untorn(s, puts) && a.w in puts && IsOpen(s, a.w) && (a.Break? || a.Die?)
    requires forall v, x :: !CanTear(puts, v, x)
    ensures Untorn(Apply(s, puts, a), puts)
  {
    hide IsWhole;
    var t := Apply(s, puts, a);
    forall x | IsOpen(t, x) ensures HandleOk(t, puts, x) {
      assert IsOpen(s, x) && HandleOk(s, puts, x) && !CanTear(puts, x, a.w);
    }
    forall x | x in puts ensures TempOk(t, puts, x) {
      assert TempOk(s, puts, x);
    }
    forall key | Target(key) in t.names ensures IsWhole(t, puts, key) {
      SameFileIsWhole(s, t, puts, key);
    }
  }

  lemma {:induction false} EveryScheduleIsUntorn(puts: Puts, acts: seq<Action>)
    requires forall v, w :: !CanTear(puts, v, w)
    ensures Untorn(After(EMPTY, puts, acts), puts)
  {
    hide AfterOpen, AfterWrite, AfterRename, Untorn, CanTear;
    if acts == [] {
      EmptyIsUntorn(puts);
    } else {
      var s, a := After(EMPTY, puts, acts[..|acts| - 1]), acts[|acts| - 1];
      EveryScheduleIsUntorn(puts, acts[..|acts| - 1]);
      if a.w in puts {
        match a
        case OpenTemp(w) => if StageOf(s, w).Waiting? { OpenKeepsUntorn(s, puts, w); }
        case WriteChunk(w, size) => if IsOpen(s, w) { WriteKeepsUntorn(s, puts, w, size); }
        case Rename(w) => if IsOpen(s, w) { RenameKeepsUntorn(s, puts, w); }
        case Break(w) => if IsOpen(s, w) { LeaveKeepsUntorn(s, puts, a); }
        case Die(w) => if IsOpen(s, w) { LeaveKeepsUntorn(s, puts, a); }
      }
    }
  }

  /**
   * For any set of puts to content-addressed keys: every schedule of opens, chunks, renames,
   * failures and crashes leaves only whole files exactly when no two puts of one process to one
   * key have something to write.
   */
  lemma {:induction false} PutsAreSafeExactly(puts: Puts)
    requires Addressed(puts)
    ensures (forall acts :: Whole(After(EMPTY, puts, acts), puts)) <==> (forall v, w :: !CanTear(puts, v, w))
  {
    hide Whole, After;
    if v, w :| CanTear(puts, v, w) {
      SharedTempFilePublishesTruncated(puts, v, w);
    } else {
      forall acts ensures Whole(After(EMPTY, puts, acts), puts) {
        EveryScheduleIsUntorn(puts, acts);
        UntornIsWhole(After(EMPTY, puts, acts), puts);
      }
    }
  }

  lemma UntornIsWhole(s: State, puts: Puts)
    requires Untorn(s, puts)
    ensures Whole(s, puts)
  {
  }

  // ---------------------------------------------------------------- one put

  /** No put that is open uses this put's temp file. */
  ghost predicate Undisturbed(s: State, puts: Puts, w: nat) {
    w in puts && StageOf(s, w).Waiting? && forall v :: v in puts && IsOpen(s, v) ==> puts[v].Temp() != puts[w].Temp()
  }

  /** The put as far as writing n bytes, in one chunk, and then its last step. */
  function OnePut(w: nat, n: nat, last: Action): seq<Action> {
    [OpenTemp(w), WriteChunk(w, n), last]
  }

  lemma AfterMore(puts: Puts, acts: seq<Action>, w: nat, n: nat, last: Action)
    ensures After(EMPTY, puts, acts + OnePut(w, n, last))
            == Apply(Apply(Apply(After(EMPTY, puts, acts), puts, OpenTemp(w)), puts, WriteChunk(w, n)), puts, last)
  {
    hide Apply;
    var all := acts + OnePut(w, n, last);
    assert all[..|acts| + 2][..|acts| + 1] == all[..|acts| + 1] && all[..|acts| + 1][..|acts|] == acts;
    assert all[..|all| - 1] == all[..|acts| + 2];
    assert After(EMPTY, puts, all[..|acts| + 1]) == Apply(After(EMPTY, puts, acts), puts, OpenTemp(w));
    assert After(EMPTY, puts, all[..|acts| + 2])
           == Apply(After(EMPTY, puts, all[..|acts| + 1]), puts, WriteChunk(w, n));
  }

  /** The put's temp file under its name, and every other file as it was. */
  ghost predicate TempIs(s: State, t: State, puts: Puts, w: nat, content: Bytes)
    requires w in puts
  {
    var temp := puts[w].Temp();
    NamesOk(t) && temp in t.names && t.stages == s.stages[w := Open(t.names[temp], |content|)]
    && t.inodes[t.names[temp]] == content && t.names - {temp} == s.names - {temp}
  }

  lemma {:induction false} TempOpened(s: State, puts: Puts, w: nat)
    requires NamesOk(s) && Undisturbed(s, puts, w)
    ensures TempIs(s, Apply(s, puts, OpenTemp(w)), puts, w, [])
  {
  }

  /** Opened and written, the temp file holds that much of the body. */
  lemma {:induction false} TempHolds(s: State, puts: Puts, w: nat, n: nat)
    requires NamesOk(s) && Undisturbed(s, puts, w) && n <= |puts[w].body|
    ensures TempIs(s, Apply(Apply(s, puts, OpenTemp(w)), puts, WriteChunk(w, n)), puts, w, puts[w].body[..n])
  {
    hide AfterOpen, Patch;
    TempOpened(s, puts, w);
    var t := Apply(s, puts, OpenTemp(w));
    AppendIsPatch(puts[w].body, 0, n);
    assert puts[w].body[..0] == [];
    assert s.stages[w := Open(t.names[puts[w].Temp()], 0)][w := Open(t.names[puts[w].Temp()], n)]
           == s.stages[w := Open(t.names[puts[w].Temp()], n)];
  }

  /**
   * After any schedule, a put that nobody disturbs: written to the end and renamed it publishes its
   * body at its key and leaves no temp file; broken off by an error it leaves none either and changes
   * no key; killed it leaves what it had written under the temp name.
   */
  lemma {:induction false} UndisturbedPut(puts: Puts, acts: seq<Action>, w: nat, n: nat)
    requires AllAlone(puts, acts) && Undisturbed(After(EMPTY, puts, acts), puts, w) && n <= |puts[w].body|
    ensures var s, temp, key := After(EMPTY, puts, acts), puts[w].Temp(), Target(puts[w].key);
            var whole := After(EMPTY, puts, acts + OnePut(w, |puts[w].body|, Rename(w)));
            var broken := After(EMPTY, puts, acts + OnePut(w, n, Break(w)));
            var killed := After(EMPTY, puts, acts + OnePut(w, n, Die(w)));
            && StageOf(whole, w) == Published && whole.names.Keys == s.names.Keys - {temp} + {key}
            && whole.names[key] in whole.inodes && whole.inodes[whole.names[key]] == puts[w].body
            && StageOf(broken, w) == Broken && broken.names == s.names - {temp}
            && StageOf(killed, w) == Broken && temp in killed.names && killed.names[temp] in killed.inodes
            && killed.inodes[killed.names[temp]] == puts[w].body[..n]
  {
    hide AfterOpen, AfterWrite, Whole, WritersOk, Exclusive, Undisturbed, AllAlone;
    var s := After(EMPTY, puts, acts);
    PublishedFilesAreWhole(puts, acts);
    IsInPuts(s, puts, w);
    AfterMore(puts, acts, w, |puts[w].body|, Rename(w));
    AfterMore(puts, acts, w, n, Break(w));
    AfterMore(puts, acts, w, n, Die(w));
    TempHolds(s, puts, w, |puts[w].body|);
    TempHolds(s, puts, w, n);
    assert puts[w].body[..|puts[w].body|] == puts[w].body;
  }

  lemma IsInPuts(s: State, puts: Puts, w: nat)
    requires Undisturbed(s, puts, w)
    ensures w in puts
  {
  }
}
