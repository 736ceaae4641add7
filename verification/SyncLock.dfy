/**
 * Many processes syncing: each takes a pooled connection, tries the advisory lock of its (kind,
 * hashtag), and only then looks for a run to resume or starts one. Postgres locks belong to
 * sessions and are re-entrant, an unlock can fail, and a process can die at any step.
 */
module SyncLock {
  import opened MetaTypes

  datatype Scope = Scope(kind: Source, hashtagId: nat)

  datatype Run = Run(scope: Scope, status: RunStatus)

  /** Re-entrant: one session, counted. */
  datatype Hold = Hold(session: nat, count: nat)

  /** Where one call of sync stands: the step it takes next. */
  datatype Phase =
    | Locking
    | Finding
    | Starting
    | Working(run: nat)
    | Marking(run: nat)
    | Unlocking
    | Releasing

  datatype Sync = Sync(scope: Scope, session: nat, phase: Phase)

  datatype Action =
    | Call(sync: nat, scope: Scope, session: nat)
    | TryLock(sync: nat)
    | TryLockThrows(sync: nat, granted: bool)
    | FindRun(sync: nat)
    | StartRun(sync: nat)
    | Finish(sync: nat, status: RunStatus)
    | Mark(sync: nat, failure: Option<RunStatus>)
    | Abort(sync: nat)
    | Unlock(sync: nat, fails: bool)
    | Release(sync: nat)
    | Die(sync: nat)
    | Recycle(session: nat)

  /** `locks` is what Postgres holds, `runs` the sync_runs rows in start order. */
  datatype State = State(syncs: map<nat, Sync>, locks: map<int, Hold>, runs: seq<Run>)

  const EMPTY := State(map[], map[], [])

  /** hashtext of the name `sync:<kind>:<id>`. Two scopes may collide, which only costs a skipped sync. */
  type LockOf = Scope -> int

  /** The newest row still running for the scope. */
  function FindResumableRun(runs: seq<Run>, scope: Scope): (r: Option<nat>)
    ensures r.Some? ==> r.value < |runs| && runs[r.value] == Run(scope, Running)
                        && forall i :: r.value < i < |runs| ==> runs[i] != Run(scope, Running)
    ensures r.None? ==> forall i :: 0 <= i < |runs| ==> runs[i] != Run(scope, Running)
  {
    if runs == [] then None
    else if runs[|runs| - 1] == Run(scope, Running) then Some(|runs| - 1)
    else FindResumableRun(runs[..|runs| - 1], scope)
  }

  /** A pooled client goes to one caller at a time. */
  predicate CheckedOut(s: State, session: nat) {
    exists p :: p in s.syncs && s.syncs[p].session == session
  }

  function Goto(s: State, p: nat, phase: Phase): State
    requires p in s.syncs
  {
    s.(syncs := s.syncs[p := s.syncs[p].(phase := phase)])
  }

  function AfterTryLock(s: State, p: nat, lockOf: LockOf): State
    requires p in s.syncs
  {
    var k, session := lockOf(s.syncs[p].scope), s.syncs[p].session;
    if k in s.locks && s.locks[k].session != session then Goto(s, p, Releasing)
    else Goto(s.(locks := s.locks[k := Hold(session, 1 + if k in s.locks then s.locks[k].count else 0)]), p, Finding)
  }

  function Unlocked(locks: map<int, Hold>, k: int, session: nat): map<int, Hold> {
    if k !in locks || locks[k].session != session then locks
    else if locks[k].count <= 1 then locks - {k}
    else locks[k := locks[k].(count := locks[k].count - 1)]
  }

  /** A closed session loses all its locks. */
  function Closed(locks: map<int, Hold>, session: nat): map<int, Hold> {
    map k | k in locks && locks[k].session != session :: locks[k]
  }

  function SetStatus(s: State, run: nat, status: RunStatus): State {
    if run < |s.runs| then s.(runs := s.runs[run := s.runs[run].(status := status)]) else s
  }

  function Apply(s: State, a: Action, lockOf: LockOf): State {
    match a
    case Call(p, scope, session) =>
      if p in s.syncs || CheckedOut(s, session) then s else s.(syncs := s.syncs[p := Sync(scope, session, Locking)])
    case TryLock(p) => if p in s.syncs && s.syncs[p].phase.Locking? then AfterTryLock(s, p, lockOf) else s
    // the acquire query rejects, before Postgres answered it or after it granted the lock
    case TryLockThrows(p, granted) =>
      if p in s.syncs && s.syncs[p].phase.Locking? then
        Goto(if granted then AfterTryLock(s, p, lockOf) else s, p, Releasing)
      else s
    case FindRun(p) =>
      if p in s.syncs && s.syncs[p].phase.Finding? then
        var found := FindResumableRun(s.runs, s.syncs[p].scope);
        Goto(s, p, if found.Some? then Working(found.value) else Starting)
      else s
    case StartRun(p) =>
      if p in s.syncs && s.syncs[p].phase.Starting? then
        Goto(s.(runs := s.runs + [Run(s.syncs[p].scope, Running)]), p, Working(|s.runs|))
      else s
    // finishRun, by the loop's end or by the catch block
    case Finish(p, status) =>
      if p in s.syncs && s.syncs[p].phase.Working? && !status.Running? then
        Goto(SetStatus(s, s.syncs[p].phase.run, status), p,
             if status.Succeeded? then Marking(s.syncs[p].phase.run) else Unlocking)
      else s
    // markSyncSucceeded stands inside the try: its failure writes the run's outcome again
    case Mark(p, failure) =>
      if p in s.syncs && s.syncs[p].phase.Marking? && failure != Some(Running) then
        Goto(if failure.Some? then SetStatus(s, s.syncs[p].phase.run, failure.value) else s, p, Unlocking)
      else s
    // a throw that records nothing: before the try block, or from the catch block's own write
    case Abort(p) =>
      if p in s.syncs && !s.syncs[p].phase.Locking? && !s.syncs[p].phase.Releasing? then Goto(s, p, Unlocking) else s
    // a failed unlock is logged, and the client goes back to the pool with the lock
    case Unlock(p, fails) =>
      if p in s.syncs && s.syncs[p].phase.Unlocking? then
        var x := s.syncs[p];
        Goto(if fails then s else s.(locks := Unlocked(s.locks, lockOf(x.scope), x.session)), p, Releasing)
      else s
    case Release(p) => if p in s.syncs && s.syncs[p].phase.Releasing? then s.(syncs := s.syncs - {p}) else s
    case Die(p) =>
      if p in s.syncs then s.(syncs := s.syncs - {p}, locks := Closed(s.locks, s.syncs[p].session)) else s
    case Recycle(session) => if CheckedOut(s, session) then s else s.(locks := Closed(s.locks, session))
  }

  function After(acts: seq<Action>, lockOf: LockOf): State {
    if acts == [] then EMPTY else Apply(After(acts[..|acts| - 1], lockOf), acts[|acts| - 1], lockOf)
  }

  // ---------------------------------------------------------------- the invariant

  /** Between a granted lock and its release. */
  predicate Holding(x: Sync) {
    !x.phase.Locking? && !x.phase.Releasing?
  }

  predicate Owns(s: State, x: Sync, lockOf: LockOf) {
    Holding(x) ==> lockOf(x.scope) in s.locks && s.locks[lockOf(x.scope)].session == x.session
                   && s.locks[lockOf(x.scope)].count >= 1
  }

  /** What a phase knows about the run table. */
  predicate RunsFit(s: State, x: Sync) {
    match x.phase
    case Starting => forall i :: 0 <= i < |s.runs| ==> s.runs[i] != Run(x.scope, Running)
    case Working(run) => run < |s.runs| && s.runs[run] == Run(x.scope, Running)
    case Marking(run) => run < |s.runs| && s.runs[run].scope == x.scope && !s.runs[run].status.Running?
    case _ => true
  }

  ghost predicate OneClientEach(s: State) {
    forall p, q :: p in s.syncs && q in s.syncs && s.syncs[p].session == s.syncs[q].session ==> p == q
  }

  ghost predicate LocksOk(s: State, lockOf: LockOf) {
    forall p :: p in s.syncs ==> Owns(s, s.syncs[p], lockOf)
  }

  ghost predicate PhasesOk(s: State) {
    forall p :: p in s.syncs ==> RunsFit(s, s.syncs[p])
  }

  /** At most one running row per (kind, hashtag). */
  predicate OneRunning(runs: seq<Run>) {
    forall i, j :: 0 <= i < j < |runs| && runs[i].status.Running? && runs[j].status.Running? ==>
        runs[i].scope != runs[j].scope
  }

  ghost predicate Inv(s: State, lockOf: LockOf) {
    OneClientEach(s) && LocksOk(s, lockOf) && PhasesOk(s) && OneRunning(s.runs)
  }

  /** Two holders of one lock are the same call: sessions are not shared, so re-entrancy lets nobody in. */
  lemma HoldersCoincide(s: State, p: nat, q: nat, lockOf: LockOf)
    requires OneClientEach(s) && LocksOk(s, lockOf)
    requires p in s.syncs && q in s.syncs && Holding(s.syncs[p]) && Holding(s.syncs[q])
    requires lockOf(s.syncs[p].scope) == lockOf(s.syncs[q].scope)
    ensures p == q
  {
    assert Owns(s, s.syncs[p], lockOf) && Owns(s, s.syncs[q], lockOf);
  }

  lemma {:induction false} StepKeepsClients(s: State, a: Action, lockOf: LockOf)
    requires OneClientEach(s)
    ensures OneClientEach(Apply(s, a, lockOf))
  {
    hide FindResumableRun, Unlocked, Closed;
  }

  lemma {:induction false} StepKeepsLocks(s: State, a: Action, lockOf: LockOf)
    requires Inv(s, lockOf)
    ensures OneClientEach(Apply(s, a, lockOf)) && LocksOk(Apply(s, a, lockOf), lockOf)
  {
    hide FindResumableRun, RunsFit, OneRunning, PhasesOk;
    StepKeepsClients(s, a, lockOf);
  }

  /** Whoever writes the run table holds the lock of the scope it writes, so nobody else's view changes. */
  lemma {:induction false} OthersStillFit(s: State, p: nat, q: nat, runs: seq<Run>, lockOf: LockOf)
    requires Inv(s, lockOf) && p in s.syncs && q in s.syncs && p != q && Holding(s.syncs[p])
    requires |s.runs| <= |runs|
    requires forall i :: 0 <= i < |runs| ==>
      (i < |s.runs| && runs[i] == s.runs[i]) || runs[i].scope == s.syncs[p].scope
    requires forall i :: 0 <= i < |s.runs| ==> runs[i].scope == s.runs[i].scope
    ensures RunsFit(s.(runs := runs), s.syncs[q])
  {
    hide Owns, OneRunning;
    assert RunsFit(s, s.syncs[q]);
    assert s.syncs[p].scope == s.syncs[q].scope ==> !Holding(s.syncs[q]) by {
      if s.syncs[p].scope == s.syncs[q].scope && Holding(s.syncs[q]) { HoldersCoincide(s, p, q, lockOf); }
    }
  }

  lemma {:induction false} StartKeepsRuns(s: State, p: nat, lockOf: LockOf)
    requires Inv(s, lockOf) && p in s.syncs && s.syncs[p].phase.Starting?
    ensures PhasesOk(Apply(s, StartRun(p), lockOf)) && OneRunning(Apply(s, StartRun(p), lockOf).runs)
  {
    hide LocksOk, OneClientEach;
    var t := Apply(s, StartRun(p), lockOf);
    assert RunsFit(s, s.syncs[p]);
    forall q | q in t.syncs ensures RunsFit(t, t.syncs[q]) {
      if q != p { OthersStillFit(s, p, q, t.runs, lockOf); }
    }
  }

  lemma {:induction false} CloseKeepsRuns(s: State, p: nat, run: nat, status: RunStatus, lockOf: LockOf)
    requires Inv(s, lockOf) && p in s.syncs && !status.Running?
    requires s.syncs[p].phase == Working(run) || s.syncs[p].phase == Marking(run)
    ensures var t := SetStatus(s, run, status);
            OneRunning(t.runs)
            && run < |t.runs| && t.runs[run] == Run(s.syncs[p].scope, status)
            && forall q :: q in s.syncs && q != p ==> RunsFit(t, s.syncs[q])
  {
    hide LocksOk, OneClientEach;
    var t := SetStatus(s, run, status);
    assert RunsFit(s, s.syncs[p]);
    forall q | q in s.syncs && q != p ensures RunsFit(t, s.syncs[q]) {
      OthersStillFit(s, p, q, t.runs, lockOf);
    }
  }

  /** Steps that leave the run table alone need only a phase that fits it. */
  lemma SameRunsStillFit(s: State, t: State)
    requires PhasesOk(s) && OneRunning(s.runs) && t.runs == s.runs
    requires forall p :: p in t.syncs ==>
      (p in s.syncs && t.syncs[p] == s.syncs[p]) || t.syncs[p].phase in {Locking, Finding, Unlocking, Releasing}
    ensures PhasesOk(t) && OneRunning(t.runs)
  {
    hide OneRunning;
    forall p | p in t.syncs ensures RunsFit(t, t.syncs[p]) {
      if p in s.syncs { assert RunsFit(s, s.syncs[p]); }
    }
  }

  lemma {:induction false} FindKeepsRuns(s: State, p: nat, lockOf: LockOf)
    requires Inv(s, lockOf)
    ensures PhasesOk(Apply(s, FindRun(p), lockOf)) && OneRunning(Apply(s, FindRun(p), lockOf).runs)
  {
    hide LocksOk, OneClientEach, OneRunning;
    var t := Apply(s, FindRun(p), lockOf);
    forall q | q in t.syncs ensures RunsFit(t, t.syncs[q]) {
      assert RunsFit(s, s.syncs[q]);
    }
  }

  lemma {:induction false} StepKeepsRuns(s: State, a: Action, lockOf: LockOf)
    requires Inv(s, lockOf)
    ensures PhasesOk(Apply(s, a, lockOf)) && OneRunning(Apply(s, a, lockOf).runs)
  {
    hide OneRunning, Unlocked, Closed, CheckedOut, FindResumableRun, LocksOk, OneClientEach, RunsFit;
    var t := Apply(s, a, lockOf);
    match a
    case FindRun(p) => FindKeepsRuns(s, p, lockOf);
    case StartRun(p) =>
      if p in s.syncs && s.syncs[p].phase.Starting? { StartKeepsRuns(s, p, lockOf); }
    case Finish(p, status) =>
      if p in s.syncs && s.syncs[p].phase.Working? && !status.Running? {
        CloseKeepsRuns(s, p, s.syncs[p].phase.run, status, lockOf);
        ClosedStillFits(s, p, s.syncs[p].phase.run, status, t.syncs[p].phase, lockOf);
      }
    case Mark(p, failure) =>
      if p in s.syncs && s.syncs[p].phase.Marking? && failure != Some(Running) {
        if failure.Some? {
          CloseKeepsRuns(s, p, s.syncs[p].phase.run, failure.value, lockOf);
          ClosedStillFits(s, p, s.syncs[p].phase.run, failure.value, Unlocking, lockOf);
        } else {
          SameRunsStillFit(s, t);
        }
      }
    case _ => SameRunsStillFit(s, t);
  }

  lemma ClosedStillFits(s: State, p: nat, run: nat, status: RunStatus, phase: Phase, lockOf: LockOf)
    requires p in s.syncs && !status.Running? && run < |s.runs|
    requires phase == Marking(run) || phase == Unlocking
    requires var u := SetStatus(s, run, status);
             u.runs[run] == Run(s.syncs[p].scope, status)
             && forall q :: q in s.syncs && q != p ==> RunsFit(u, s.syncs[q])
    ensures PhasesOk(Goto(SetStatus(s, run, status), p, phase))
  {
    var u := SetStatus(s, run, status);
    var t := Goto(u, p, phase);
    forall q | q in t.syncs ensures RunsFit(t, t.syncs[q]) {
      if q != p { assert RunsFit(u, s.syncs[q]); }
    }
  }

  /**
   * Over every interleaving of sync calls, deaths, throws and failed unlocks: at most one row per
   * (kind, hashtag) is running, at most one call works on the scope, and the row it works on is
   * that running row.
   */
  lemma {:induction false} SingleActiveRun(acts: seq<Action>, lockOf: LockOf)
    ensures Inv(After(acts, lockOf), lockOf)
    ensures var s := After(acts, lockOf);
            OneRunning(s.runs)
            && OneAtWork(s)
            && (forall p :: p in s.syncs && s.syncs[p].phase.Working? ==> RunsFit(s, s.syncs[p]))
  {
    hide Apply, RunsFit, Owns, OneRunning;
    if acts == [] {
      assert OneRunning(EMPTY.runs) by { NothingRuns(); }
    } else {
      var before := After(acts[..|acts| - 1], lockOf);
      SingleActiveRun(acts[..|acts| - 1], lockOf);
      StepKeepsLocks(before, acts[|acts| - 1], lockOf);
      StepKeepsRuns(before, acts[|acts| - 1], lockOf);
    }
    var s := After(acts, lockOf);
    forall p, q | p in s.syncs && q in s.syncs && Holding(s.syncs[p]) && Holding(s.syncs[q])
                  && s.syncs[p].scope == s.syncs[q].scope
      ensures p == q
    {
      HoldersCoincide(s, p, q, lockOf);
    }
  }

  /** At most one call per (kind, hashtag) is past its lock. */
  ghost predicate OneAtWork(s: State) {
    forall p, q :: p in s.syncs && q in s.syncs && s.syncs[p].scope == s.syncs[q].scope ==>
      !Holding(s.syncs[p]) || !Holding(s.syncs[q]) || p == q
  }

  lemma NothingRuns()
    ensures OneRunning([])
  {
  }

  // ---------------------------------------------------------------- terminal rows and leaked locks

  lemma {:induction false} AfterAppend(acts: seq<Action>, a: Action, lockOf: LockOf)
    ensures After(acts + [a], lockOf) == Apply(After(acts, lockOf), a, lockOf)
  {
    assert (acts + [a])[..|acts|] == acts;
  }

  predicate HasOutcome(runs: seq<Run>, run: nat) {
    run < |runs| && !runs[run].status.Running?
  }

  lemma {:induction false} StepKeepsOutcome(s: State, a: Action, run: nat, lockOf: LockOf)
    requires HasOutcome(s.runs, run)
    ensures var t := Apply(s, a, lockOf); HasOutcome(t.runs, run) && t.runs[run].scope == s.runs[run].scope
  {
    hide FindResumableRun, Unlocked, Closed, CheckedOut;
  }

  /** Once a run has an outcome, no continuation of the schedule sets it running or moves it. */
  lemma {:induction false} TerminalIsTerminal(acts: seq<Action>, more: seq<Action>, run: nat, lockOf: LockOf)
    requires HasOutcome(After(acts, lockOf).runs, run)
    ensures var runs := After(acts + more, lockOf).runs;
            HasOutcome(runs, run) && runs[run].scope == After(acts, lockOf).runs[run].scope
  {
    hide After, Apply;
    if more == [] {
      assert acts + more == acts;
    } else {
      var some, a := more[..|more| - 1], more[|more| - 1];
      assert acts + more == (acts + some) + [a];
      TerminalIsTerminal(acts, some, run, lockOf);
      AfterAppend(acts + some, a, lockOf);
      StepKeepsOutcome(After(acts + some, lockOf), a, run, lockOf);
    }
  }

  /** The session holds the lock more often than its calls account for: an unlock failed. */
  ghost predicate Leaked(s: State, k: int, session: nat, lockOf: LockOf) {
    k in s.locks && s.locks[k].session == session
    && s.locks[k].count >= if Held(s, k, lockOf) then 2 else 1
  }

  ghost predicate Held(s: State, k: int, lockOf: LockOf) {
    exists p :: p in s.syncs && Holding(s.syncs[p]) && lockOf(s.syncs[p].scope) == k
  }

  predicate Closes(s: State, a: Action, session: nat) {
    (a.Recycle? && a.session == session) || (a.Die? && a.sync in s.syncs && s.syncs[a.sync].session == session)
  }

  /** The call's unlock of lock k fails: the client goes back to the pool still holding it. */
  predicate UnlockFails(s: State, a: Action, k: int, session: nat, lockOf: LockOf) {
    a.Unlock? && a.fails && a.sync in s.syncs && s.syncs[a.sync].phase.Unlocking?
    && s.syncs[a.sync].session == session && lockOf(s.syncs[a.sync].scope) == k
  }

  /** The acquire query of lock k rejects after it was granted: the client goes back holding it. */
  predicate GrantIsLost(s: State, a: Action, k: int, session: nat, lockOf: LockOf) {
    a.TryLockThrows? && a.granted && a.sync in s.syncs && s.syncs[a.sync].phase.Locking?
    && s.syncs[a.sync].session == session && lockOf(s.syncs[a.sync].scope) == k
    && (k in s.locks ==> s.locks[k].session == session)
  }

  /** The call returns its client without having released the lock the client holds. */
  predicate Strands(s: State, a: Action, k: int, session: nat, lockOf: LockOf) {
    UnlockFails(s, a, k, session, lockOf) || GrantIsLost(s, a, k, session, lockOf)
  }

  /** A failed unlock leaks the lock. */
  lemma {:induction false} FailedUnlockLeaks(s: State, a: Action, k: int, session: nat, lockOf: LockOf)
    requires Inv(s, lockOf) && UnlockFails(s, a, k, session, lockOf)
    ensures Leaked(Apply(s, a, lockOf), k, session, lockOf)
  {
    hide OneRunning, PhasesOk;
    var t := Apply(s, a, lockOf);
    assert Owns(s, s.syncs[a.sync], lockOf);
    if q :| q in t.syncs && Holding(t.syncs[q]) && lockOf(t.syncs[q].scope) == k {
      HoldersCoincide(s, q, a.sync, lockOf);
    }
  }

  /** So does a grant the caller never learns of. */
  lemma {:induction false} LostGrantLeaks(s: State, a: Action, k: int, session: nat, lockOf: LockOf)
    requires Inv(s, lockOf) && Counted(s) && GrantIsLost(s, a, k, session, lockOf)
    ensures Leaked(Apply(s, a, lockOf), k, session, lockOf)
  {
    hide OneRunning, PhasesOk;
    forall q | q in s.syncs ensures Owns(s, s.syncs[q], lockOf) {}
  }

  /** A rejected acquire query that was not granted, or refused, changes no lock and no holder. */
  lemma {:induction false} RejectionDoesNotLeak(s: State, a: Action, k: int, session: nat, lockOf: LockOf)
    requires Inv(s, lockOf) && Counted(s) && a.TryLockThrows?
    requires !Leaked(s, k, session, lockOf) && !GrantIsLost(s, a, k, session, lockOf)
    ensures !Leaked(Apply(s, a, lockOf), k, session, lockOf)
  {
    hide OneRunning, PhasesOk;
    var t := Apply(s, a, lockOf);
    if Held(s, k, lockOf) {
      var q :| q in s.syncs && Holding(s.syncs[q]) && lockOf(s.syncs[q].scope) == k;
      assert q in t.syncs && Holding(t.syncs[q]) && lockOf(t.syncs[q].scope) == k;
    }
  }

  /** A granted lock has its new holder, and a re-entrant grant would need the holder's own connection. */
  lemma {:induction false} GrantsDoNotLeak(s: State, p: nat, k: int, session: nat, lockOf: LockOf)
    requires Inv(s, lockOf) && Counted(s) && p in s.syncs && s.syncs[p].phase.Locking?
    requires !Leaked(s, k, session, lockOf)
    ensures !Leaked(AfterTryLock(s, p, lockOf), k, session, lockOf)
  {
    hide OneRunning, PhasesOk;
    var t := AfterTryLock(s, p, lockOf);
    if Held(s, k, lockOf) {
      var q :| q in s.syncs && Holding(s.syncs[q]) && lockOf(s.syncs[q].scope) == k;
      assert Owns(s, s.syncs[q], lockOf) && q != p;
      assert q in t.syncs && Holding(t.syncs[q]);
      assert Held(t, k, lockOf);
    } else if lockOf(s.syncs[p].scope) == k && Holding(t.syncs[p]) {
      assert Held(t, k, lockOf);
    }
  }

  /** A step other than a grant, an unlock or a death leaves every lock with the same holders. */
  lemma QuietStepsDoNotLeak(s: State, a: Action, k: int, session: nat, lockOf: LockOf)
    requires !a.TryLock? && !a.TryLockThrows? && !a.Unlock? && !a.Die?
    requires !Leaked(s, k, session, lockOf)
    ensures !Leaked(Apply(s, a, lockOf), k, session, lockOf)
  {
    hide FindResumableRun;
    var t := Apply(s, a, lockOf);
    if Held(s, k, lockOf) {
      var q :| q in s.syncs && Holding(s.syncs[q]) && lockOf(s.syncs[q].scope) == k;
      assert q in t.syncs && Holding(t.syncs[q]) && lockOf(t.syncs[q].scope) == k;
    }
  }

  /** Nothing but a failed unlock or a lost grant leaks a lock. */
  lemma {:induction false} OnlyStrandingLeaks(s: State, a: Action, k: int, session: nat, lockOf: LockOf)
    requires Inv(s, lockOf) && Counted(s)
    requires !Leaked(s, k, session, lockOf) && !Strands(s, a, k, session, lockOf)
    ensures !Leaked(Apply(s, a, lockOf), k, session, lockOf)
  {
    hide FindResumableRun, OneRunning, PhasesOk, AfterTryLock;
    if a.TryLock? {
      if a.sync in s.syncs && s.syncs[a.sync].phase.Locking? { GrantsDoNotLeak(s, a.sync, k, session, lockOf); }
    } else if a.TryLockThrows? {
      RejectionDoesNotLeak(s, a, k, session, lockOf);
    } else if a.Unlock? || a.Die? {
      LeavingDoesNotLeak(s, a, k, session, lockOf);
    } else {
      QuietStepsDoNotLeak(s, a, k, session, lockOf);
    }
  }

  lemma {:induction false} LeavingDoesNotLeak(s: State, a: Action, k: int, session: nat, lockOf: LockOf)
    requires Inv(s, lockOf) && Counted(s) && (a.Unlock? || a.Die?)
    requires !Leaked(s, k, session, lockOf) && !UnlockFails(s, a, k, session, lockOf)
    ensures !Leaked(Apply(s, a, lockOf), k, session, lockOf)
  {
    hide OneRunning, PhasesOk;
    var t := Apply(s, a, lockOf);
    if Held(s, k, lockOf) {
      var q :| q in s.syncs && Holding(s.syncs[q]) && lockOf(s.syncs[q].scope) == k;
      assert Owns(s, s.syncs[q], lockOf);
      if q != a.sync {
        assert q in t.syncs && Holding(t.syncs[q]) && lockOf(t.syncs[q].scope) == k;
      }
    }
  }

  /** A lock that is held at all is held at least once. */
  ghost predicate Counted(s: State) {
    forall k :: k in s.locks ==> s.locks[k].count >= 1
  }

  lemma StepKeepsCounted(s: State, a: Action, lockOf: LockOf)
    requires Counted(s)
    ensures Counted(Apply(s, a, lockOf))
  {
    hide FindResumableRun;
  }

  lemma {:induction false} LeakSurvivesStep(s: State, a: Action, k: int, session: nat, lockOf: LockOf)
    requires Inv(s, lockOf) && Leaked(s, k, session, lockOf) && !Closes(s, a, session)
    ensures Leaked(Apply(s, a, lockOf), k, session, lockOf)
  {
    hide FindResumableRun, RunsFit, OneRunning, PhasesOk;
    var t := Apply(s, a, lockOf);
    if Held(t, k, lockOf) && !Held(s, k, lockOf) {
      assert a.TryLock?;
    }
  }

  lemma ClosingFrees(s: State, a: Action, k: int, session: nat, lockOf: LockOf)
    requires OneClientEach(s) && Closes(s, a, session)
    ensures a.Die? || !CheckedOut(s, session) ==> !Leaked(Apply(s, a, lockOf), k, session, lockOf)
  {
  }

  /** The session is really closed: an idle connection is recycled, or its process dies. */
  predicate Ends(s: State, a: Action, session: nat) {
    Closes(s, a, session) && (a.Recycle? ==> !CheckedOut(s, session))
  }

  /** Lock k was stranded on the session, and the session has not been closed since. */
  ghost predicate LeftBehind(acts: seq<Action>, k: int, session: nat, lockOf: LockOf) {
    acts != [] &&
    var before, a := acts[..|acts| - 1], acts[|acts| - 1];
    var s := After(before, lockOf);
    Strands(s, a, k, session, lockOf) || (LeftBehind(before, k, session, lockOf) && !Ends(s, a, session))
  }

  lemma {:induction false} EveryLockIsCounted(acts: seq<Action>, lockOf: LockOf)
    ensures Counted(After(acts, lockOf))
  {
    hide Apply;
    if acts != [] {
      EveryLockIsCounted(acts[..|acts| - 1], lockOf);
      StepKeepsCounted(After(acts[..|acts| - 1], lockOf), acts[|acts| - 1], lockOf);
    }
  }

  /** A recycled connection that is in use is not closed. */
  lemma BusyIsNotClosed(s: State, a: Action, session: nat, lockOf: LockOf)
    requires Closes(s, a, session) && !Ends(s, a, session)
    ensures Apply(s, a, lockOf) == s
  {
  }

  /**
   * Over every schedule: a session holds a lock beyond its calls exactly when a call stranded it
   * there, by a failed unlock or a grant it never learned of, and the session has not been closed
   * since. Where neither happens nothing is left behind.
   */
  lemma {:induction false} LockLeaksExactly(acts: seq<Action>, k: int, session: nat, lockOf: LockOf)
    ensures Leaked(After(acts, lockOf), k, session, lockOf) <==> LeftBehind(acts, k, session, lockOf)
  {
    hide Apply, Leaked, Strands, Ends, Closes, CheckedOut, Inv;
    if acts == [] {
      NothingLeaked(k, session, lockOf);
    } else {
      var before, a := acts[..|acts| - 1], acts[|acts| - 1];
      var s := After(before, lockOf);
      LockLeaksExactly(before, k, session, lockOf);
      SingleActiveRun(before, lockOf);
      EveryLockIsCounted(before, lockOf);
      LeakStep(s, a, k, session, lockOf);
    }
  }

  lemma NothingLeaked(k: int, session: nat, lockOf: LockOf)
    ensures !Leaked(EMPTY, k, session, lockOf)
  {
  }

  lemma {:induction false} LeakStep(s: State, a: Action, k: int, session: nat, lockOf: LockOf)
    requires Inv(s, lockOf) && Counted(s)
    ensures Leaked(Apply(s, a, lockOf), k, session, lockOf)
            <==> Strands(s, a, k, session, lockOf) || (Leaked(s, k, session, lockOf) && !Ends(s, a, session))
  {
    hide Apply, Leaked, CheckedOut, OneRunning, PhasesOk, LocksOk;
    if UnlockFails(s, a, k, session, lockOf) {
      FailedUnlockLeaks(s, a, k, session, lockOf);
    } else if GrantIsLost(s, a, k, session, lockOf) {
      LostGrantLeaks(s, a, k, session, lockOf);
    } else if !Leaked(s, k, session, lockOf) {
      OnlyStrandingLeaks(s, a, k, session, lockOf);
    } else if Ends(s, a, session) {
      ClosingFrees(s, a, k, session, lockOf);
    } else if Closes(s, a, session) {
      BusyIsNotClosed(s, a, session, lockOf);
    } else {
      LeakSurvivesStep(s, a, k, session, lockOf);
    }
  }

  /** None of the further steps closes the session. */
  ghost predicate NeverCloses(acts: seq<Action>, more: seq<Action>, session: nat, lockOf: LockOf) {
    forall i :: 0 <= i < |more| ==> !Ends(After(acts + more[..i], lockOf), more[i], session)
  }

  /** A leaked lock outlives every continuation that does not close its session. */
  lemma {:induction false} LeakPersists(acts: seq<Action>, more: seq<Action>, k: int, session: nat, lockOf: LockOf)
    requires Leaked(After(acts, lockOf), k, session, lockOf) && NeverCloses(acts, more, session, lockOf)
    ensures Leaked(After(acts + more, lockOf), k, session, lockOf)
  {
    hide After, Apply, Leaked, Ends, Inv;
    if more == [] {
      assert acts + more == acts;
    } else {
      var some, a := more[..|more| - 1], more[|more| - 1];
      assert acts + more == (acts + some) + [a];
      forall i | 0 <= i < |some| ensures some[..i] == more[..i] {}
      LeakPersists(acts, some, k, session, lockOf);
      AfterAppend(acts + some, a, lockOf);
      SingleActiveRun(acts + some, lockOf);
      EveryLockIsCounted(acts + some, lockOf);
      LeakStep(After(acts + some, lockOf), a, k, session, lockOf);
    }
  }

  /** While a lock is leaked, only calls on that very connection are past it. */
  lemma LeakShutsOut(s: State, p: nat, k: int, session: nat, lockOf: LockOf)
    requires Inv(s, lockOf) && Leaked(s, k, session, lockOf)
    requires p in s.syncs && lockOf(s.syncs[p].scope) == k && s.syncs[p].session != session
    ensures !Holding(s.syncs[p])
    ensures s.syncs[p].phase.Locking? ==> Apply(s, TryLock(p), lockOf) == Goto(s, p, Releasing)
  {
    hide OneRunning, PhasesOk;
    assert Owns(s, s.syncs[p], lockOf);
  }

  /**
   * After a failed unlock or a lost grant, until the session is closed, every later call of the scope
   * on any other connection is skipped: at no point is it past the lock, and each try is refused.
   */
  lemma {:induction false} StrandedLockBlocksOthers(
    acts: seq<Action>, a: Action, more: seq<Action>, k: int, session: nat, p: nat, lockOf: LockOf)
    requires Strands(After(acts, lockOf), a, k, session, lockOf)
    requires NeverCloses(acts + [a], more, session, lockOf)
    requires var s := After((acts + [a]) + more, lockOf);
             p in s.syncs && lockOf(s.syncs[p].scope) == k && s.syncs[p].session != session
    ensures var s := After((acts + [a]) + more, lockOf);
            !Holding(s.syncs[p])
            && (s.syncs[p].phase.Locking? ==>
                  After((acts + [a]) + more + [TryLock(p)], lockOf) == Goto(s, p, Releasing))
  {
    hide After, Apply, Leaked, Strands, Inv, NeverCloses;
    SingleActiveRun(acts, lockOf);
    AfterAppend(acts, a, lockOf);
    EveryLockIsCounted(acts, lockOf);
    LeakStep(After(acts, lockOf), a, k, session, lockOf);
    LeakPersists(acts + [a], more, k, session, lockOf);
    SingleActiveRun((acts + [a]) + more, lockOf);
    LeakShutsOut(After((acts + [a]) + more, lockOf), p, k, session, lockOf);
    AfterAppend((acts + [a]) + more, TryLock(p), lockOf);
  }

  // ---------------------------------------------------------------- a free lock is granted

  /** The call got its lock and has not tried to release it yet. */
  predicate PastTheLock(x: Sync) {
    x.phase.Finding? || x.phase.Starting? || x.phase.Working? || x.phase.Marking? || x.phase.Unlocking?
  }

  /** Some other call is past the lock, or another session was left with it. */
  ghost predicate Taken(acts: seq<Action>, p: nat, k: int, session: nat, lockOf: LockOf) {
    var s := After(acts, lockOf);
    (exists q :: q in s.syncs && q != p && PastTheLock(s.syncs[q]) && lockOf(s.syncs[q].scope) == k)
    || (exists other: nat :: other != session && LeftBehind(acts, k, other, lockOf))
  }

  lemma {:induction false} TakenIsElsewhere(acts: seq<Action>, p: nat, lockOf: LockOf)
    requires p in After(acts, lockOf).syncs && After(acts, lockOf).syncs[p].phase.Locking?
    ensures var s := After(acts, lockOf);
            var k, session := lockOf(s.syncs[p].scope), s.syncs[p].session;
            Taken(acts, p, k, session, lockOf) <==> k in s.locks && s.locks[k].session != session
  {
    hide After, LeftBehind, OneRunning, PhasesOk;
    var s := After(acts, lockOf);
    var k, session := lockOf(s.syncs[p].scope), s.syncs[p].session;
    SingleActiveRun(acts, lockOf);
    EveryLockIsCounted(acts, lockOf);
    forall other: nat ensures Leaked(s, k, other, lockOf) <==> LeftBehind(acts, k, other, lockOf) {
      LockLeaksExactly(acts, k, other, lockOf);
    }
    forall q | q in s.syncs ensures Owns(s, s.syncs[q], lockOf) {}
    if k in s.locks && s.locks[k].session != session {
      if Held(s, k, lockOf) {
        var q :| q in s.syncs && Holding(s.syncs[q]) && lockOf(s.syncs[q].scope) == k;
        assert PastTheLock(s.syncs[q]) && q != p;
      } else {
        assert Leaked(s, k, s.locks[k].session, lockOf);
      }
    }
  }

  /**
   * After any schedule, a call that tries the lock gets it if and only if no other call is past it
   * and no other session was left with it. A refused call goes away without touching a lock.
   */
  lemma {:induction false} GrantedExactly(acts: seq<Action>, p: nat, lockOf: LockOf)
    requires p in After(acts, lockOf).syncs && After(acts, lockOf).syncs[p].phase.Locking?
    ensures var s, t := After(acts, lockOf), After(acts + [TryLock(p)], lockOf);
            var k, session := lockOf(s.syncs[p].scope), s.syncs[p].session;
            p in t.syncs && t.runs == s.runs
            && (!Taken(acts, p, k, session, lockOf) ==>
                  t.syncs[p].phase == Finding && k in t.locks && t.locks[k].session == session)
            && (Taken(acts, p, k, session, lockOf) ==> t.syncs[p].phase == Releasing && t.locks == s.locks)
  {
    hide After, Taken;
    AfterAppend(acts, TryLock(p), lockOf);
    TakenIsElsewhere(acts, p, lockOf);
  }

  /** An unlock that succeeds frees the lock, unless the session was left with it before, and no other lock. */
  lemma {:induction false} UnlockFreesExactly(acts: seq<Action>, p: nat, lockOf: LockOf)
    requires p in After(acts, lockOf).syncs && After(acts, lockOf).syncs[p].phase.Unlocking?
    ensures var s, t := After(acts, lockOf), After(acts + [Unlock(p, false)], lockOf);
            var k, session := lockOf(s.syncs[p].scope), s.syncs[p].session;
            (k in t.locks <==> LeftBehind(acts, k, session, lockOf))
            && t.locks - {k} == s.locks - {k} && t.runs == s.runs
            && p in t.syncs && t.syncs[p].phase == Releasing
  {
    hide After, LeftBehind, OneRunning, PhasesOk;
    var s := After(acts, lockOf);
    SingleActiveRun(acts, lockOf);
    LockLeaksExactly(acts, lockOf(s.syncs[p].scope), s.syncs[p].session, lockOf);
    AfterAppend(acts, Unlock(p, false), lockOf);
    assert Owns(s, s.syncs[p], lockOf);
  }

  // ---------------------------------------------------------------- one whole call

  /**
   * The steps of a call that runs to its end; marking the hashtag may throw. Starting a run is not
   * possible when one was found, and marking only after success.
   */
  function WholeCall(p: nat, scope: Scope, session: nat, status: RunStatus, failure: Option<RunStatus>): seq<Action> {
    [Call(p, scope, session), TryLock(p), FindRun(p), StartRun(p), Finish(p, status), Mark(p, failure),
     Unlock(p, false), Release(p)]
  }

  /** How it ends: a success whose marking threw is overwritten by the catch block. */
  function EndsAs(status: RunStatus, failure: Option<RunStatus>): RunStatus {
    if status.Succeeded? && failure.Some? then failure.value else status
  }

  function Steps(s: State, acts: seq<Action>, lockOf: LockOf): State
    decreases |acts|
  {
    if acts == [] then s else Steps(Apply(s, acts[0], lockOf), acts[1..], lockOf)
  }

  lemma {:induction false} AfterSteps(acts: seq<Action>, more: seq<Action>, lockOf: LockOf)
    ensures After(acts + more, lockOf) == Steps(After(acts, lockOf), more, lockOf)
    decreases |more|
  {
    hide After, Apply;
    if more == [] {
      assert acts + more == acts;
    } else {
      assert acts + more == (acts + [more[0]]) + more[1..];
      AfterAppend(acts, more[0], lockOf);
      AfterSteps(acts + [more[0]], more[1..], lockOf);
    }
  }

  function Two(s: State, a: Action, b: Action, lockOf: LockOf): State {
    Apply(Apply(s, a, lockOf), b, lockOf)
  }

  lemma StepsTwo(s: State, acts: seq<Action>, lockOf: LockOf)
    requires |acts| >= 2
    ensures Steps(s, acts, lockOf) == Steps(Two(s, acts[0], acts[1], lockOf), acts[2..], lockOf)
  {
    hide Apply;
    assert acts[1..][1..] == acts[2..];
  }

  /** The outcome goes to the run the scope had running, or to a new one. */
  ghost predicate OutcomeRecorded(before: seq<Run>, after: seq<Run>, scope: Scope, status: RunStatus) {
    if Run(scope, Running) in before
    then exists i :: 0 <= i < |before| && before[i] == Run(scope, Running) && after == before[i := Run(scope, status)]
    else after == before + [Run(scope, status)]
  }

  /** The locks with one more hold of k. */
  function LockedOnce(locks: map<int, Hold>, k: int, session: nat): map<int, Hold> {
    locks[k := Hold(session, 1 + if k in locks then locks[k].count else 0)]
  }

  lemma {:induction false} CallGetsTheLock(s: State, p: nat, scope: Scope, session: nat, lockOf: LockOf)
    requires p !in s.syncs && !CheckedOut(s, session)
    requires lockOf(scope) in s.locks ==> s.locks[lockOf(scope)].session == session
    ensures Two(s, Call(p, scope, session), TryLock(p), lockOf)
            == State(s.syncs[p := Sync(scope, session, Finding)], LockedOnce(s.locks, lockOf(scope), session), s.runs)
  {
  }

  /** It works on the run it found, or on the one it starts. */
  lemma {:induction false} CallPicksItsRun(s: State, p: nat, lockOf: LockOf) returns (i: nat, runs: seq<Run>)
    requires p in s.syncs && s.syncs[p].phase.Finding?
    ensures var t := Two(s, FindRun(p), StartRun(p), lockOf);
            t == State(s.syncs[p := s.syncs[p].(phase := Working(i))], s.locks, runs)
    ensures i < |runs| && runs[i] == Run(s.syncs[p].scope, Running)
    ensures runs == if Run(s.syncs[p].scope, Running) in s.runs then s.runs else s.runs + [runs[i]]
    ensures Run(s.syncs[p].scope, Running) !in s.runs ==> i == |s.runs|
  {
    var found := FindResumableRun(s.runs, s.syncs[p].scope);
    i := if found.Some? then found.value else |s.runs|;
    runs := if found.Some? then s.runs else s.runs + [Run(s.syncs[p].scope, Running)];
    assert s.syncs[p := s.syncs[p].(phase := Starting)][p := s.syncs[p].(phase := Working(|s.runs|))]
           == s.syncs[p := s.syncs[p].(phase := Working(|s.runs|))];
  }

  lemma {:induction false} CallFinishes(s: State, p: nat, status: RunStatus, failure: Option<RunStatus>, lockOf: LockOf)
    requires p in s.syncs && s.syncs[p].phase.Working? && s.syncs[p].phase.run < |s.runs|
    requires !status.Running? && failure != Some(Running)
    ensures var i := s.syncs[p].phase.run;
            Two(s, Finish(p, status), Mark(p, failure), lockOf)
            == State(s.syncs[p := s.syncs[p].(phase := Unlocking)], s.locks,
                     s.runs[i := s.runs[i].(status := EndsAs(status, failure))])
  {
    var i := s.syncs[p].phase.run;
    assert s.runs[i := s.runs[i].(status := status)][i := s.runs[i].(status := EndsAs(status, failure))]
           == s.runs[i := s.runs[i].(status := EndsAs(status, failure))];
    assert s.syncs[p := s.syncs[p].(phase := Marking(i))][p := s.syncs[p].(phase := Unlocking)]
           == s.syncs[p := s.syncs[p].(phase := Unlocking)];
  }

  lemma {:induction false} CallLeaves(s: State, p: nat, locks: map<int, Hold>, lockOf: LockOf)
    requires p in s.syncs && s.syncs[p].phase.Unlocking?
    requires var k, session := lockOf(s.syncs[p].scope), s.syncs[p].session;
             s.locks == LockedOnce(locks, k, session) && (k in locks ==> locks[k].session == session)
             && (k in locks ==> locks[k].count >= 1)
    ensures Two(s, Unlock(p, false), Release(p), lockOf) == State(s.syncs - {p}, locks, s.runs)
  {
    var k, session := lockOf(s.syncs[p].scope), s.syncs[p].session;
    assert Unlocked(s.locks, k, session) == locks;
    assert s.syncs[p := s.syncs[p].(phase := Releasing)] - {p} == s.syncs - {p};
  }

  /**
   * A call on an idle connection that finds its lock free, or already its connection's own, runs to
   * the end: its outcome is recorded on the one row of its scope that was running or on a new row,
   * and the locks and the other calls are as before it.
   */
  lemma {:induction false} WholeCallRecordsItsOutcome(
    acts: seq<Action>, p: nat, scope: Scope, session: nat, status: RunStatus, failure: Option<RunStatus>,
    lockOf: LockOf)
    requires !status.Running? && failure != Some(Running)
    requires var s := After(acts, lockOf);
             p !in s.syncs && !CheckedOut(s, session)
             && (lockOf(scope) in s.locks ==> s.locks[lockOf(scope)].session == session)
    ensures var s, t := After(acts, lockOf), After(acts + WholeCall(p, scope, session, status, failure), lockOf);
            var outcome := if status == Succeeded && failure.Some? then failure.value else status;
            t.syncs == s.syncs && t.locks == s.locks && OutcomeRecorded(s.runs, t.runs, scope, outcome)
  {
    hide After, Steps, Apply, Two, CheckedOut, LockedOnce;
    var s, all := After(acts, lockOf), WholeCall(p, scope, session, status, failure);
    AfterSteps(acts, all, lockOf);
    EveryLockIsCounted(acts, lockOf);
    CallGetsTheLock(s, p, scope, session, lockOf);
    var s2 := Two(s, all[0], all[1], lockOf);
    var i, runs := CallPicksItsRun(s2, p, lockOf);
    var s4 := Two(s2, all[2], all[3], lockOf);
    CallFinishes(s4, p, status, failure, lockOf);
    var s6 := Two(s4, all[4], all[5], lockOf);
    CallLeaves(s6, p, s.locks, lockOf);
    StepsTwo(s, all, lockOf);
    StepsTwo(s2, all[2..], lockOf);
    StepsTwo(s4, all[4..], lockOf);
    StepsTwo(s6, all[6..], lockOf);
    assert all[2..][2..] == all[4..] && all[4..][2..] == all[6..] && all[6..][2..] == [];
    assert s6.syncs - {p} == s.syncs;
    NoSteps(Two(s6, all[6], all[7], lockOf), lockOf);
    RunWasPicked(s.runs, runs, i, scope, EndsAs(status, failure));
  }

  lemma NoSteps(s: State, lockOf: LockOf)
    ensures Steps(s, [], lockOf) == s
  {
  }

  lemma RunWasPicked(before: seq<Run>, runs: seq<Run>, i: nat, scope: Scope, status: RunStatus)
    requires i < |runs| && runs[i] == Run(scope, Running)
    requires runs == if Run(scope, Running) in before then before else before + [runs[i]]
    requires Run(scope, Running) !in before ==> i == |before|
    ensures OutcomeRecorded(before, runs[i := Run(scope, status)], scope, status)
  {
  }
}
