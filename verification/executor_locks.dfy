/** Who holds the client locks, and the one way they can be left behind. */
module ExecutorLocks {
  import opened Tables
  import opened Disks
  import opened Machine
  import opened ExecutorInvariant
  import opened ExecutorInduction
  import opened ExecutorRuns
  import opened ExecutorTheorems

  // ---------------------------------------------------------------------
  // The window between the terminal save and the release.

  /** Version `k` is the one before it after `h`'s terminal save, so `h`'s locks
      are still there and nothing would release them on a restart. */
  ghost predicate TerminalSave(vs: seq<Db>, k: nat, h: SeqId) {
    && 0 < k < |vs|
    && Live(vs[k - 1], h) && h in vs[k].seqs && !Live(vs[k], h)
    && vs[k] == Apply(vs[k - 1], SaveSequence(h, vs[k].seqs[h]))
  }

  /** Every lock of every version, recoverable or not, has an owner. */
  ghost predicate VersionsExplained(s: State) {
    forall k: nat, c | k < |s.disk.versions| && c in s.disk.versions[k].locks ::
      var h := s.disk.versions[k].locks[c];
      Live(s.disk.versions[k], h) || h in s.leaked || TerminalSave(s.disk.versions, k, h)
  }

  ghost predicate ReleasesNext(s: State) {
    s.proc.Running? && s.proc.act.pc.Releasing? ==>
      TerminalSave(s.disk.versions, |s.disk.versions| - 1, s.proc.act.id)
  }

  /** A step that ends at the release is the terminal save, or writes nothing. */
  lemma FinishingOnly(p: Plan, db: Db, a: Active, o: Outcome)
    requires MainStep(p, db, a, o).Some? && MainStep(p, db, a, o).value.act.pc.Releasing?
    ensures a.pc.Finishing?
    ensures var e := MainStep(p, db, a, o).value;
      e.act.id == a.id && e.act.row.phase.Terminal() && e.op == Lazy(SaveSequence(a.id, e.act.row))
  {
  }

  lemma StillReleasing(cfg: Config, s: State, l: Label)
    requires HasPlan(cfg, s) && OfRun(l) && !l.Main? && RunEffect(cfg, s, l).Some?
    requires RunEffect(cfg, s, l).value.act.pc.Releasing?
    ensures var e := RunEffect(cfg, s, l).value;
      e.op.NoWrite? && s.proc.act.pc.Releasing? && e.act.id == s.proc.act.id
  {
  }

  lemma SavedTerminal(d: Disk, id: SeqId, row: SeqRow)
    requires Live(d.Current(), id) && row.phase.Terminal()
    ensures TerminalSave(Commit(d, SaveSequence(id, row)).versions, |d.versions|, id)
  {
  }

  lemma RunReleasesNext(cfg: Config, s: State, l: Label)
    requires Inv(cfg, s) && HasPlan(cfg, s) && OfRun(l) && RunEffect(cfg, s, l).Some? && ReleasesNext(s)
    ensures ReleasesNext(Perform(s, RunEffect(cfg, s, l).value))
  {
    var e, a := RunEffect(cfg, s, l).value, s.proc.act;
    if e.act.pc.Releasing? {
      if l.Main? {
        FinishingOnly(cfg.plans[a.row.plan], s.disk.Current(), a, l.o);
        FinishingIsLive(cfg, s);
      } else {
        StillReleasing(cfg, s, l);
      }
    }
    EffectReleasesNext(s, e);
  }

  lemma EffectReleasesNext(s: State, e: Effect)
    requires ReleasesNext(s) && s.proc.Running?
    requires e.act.pc.Releasing? ==>
      && e.act.id == s.proc.act.id
      && (|| (e.op.NoWrite? && s.proc.act.pc.Releasing?)
          || (&& e.op == Lazy(SaveSequence(e.act.id, e.act.row)) && e.act.row.phase.Terminal()
              && Live(s.disk.Current(), e.act.id)))
    ensures ReleasesNext(Perform(s, e))
  {
    if e.act.pc.Releasing? && !e.op.NoWrite? {
      SavedTerminal(s.disk, e.act.id, e.act.row);
    }
  }

  lemma FinishingIsLive(cfg: Config, s: State)
    requires Inv(cfg, s) && s.proc.Running? && s.proc.act.pc.Finishing?
    ensures Live(s.disk.Current(), s.proc.act.id)
  {
  }

  lemma StepReleasesNext(cfg: Config, s: State, l: Label, s': State)
    requires Inv(cfg, s) && StepOf(cfg, s, l, s') && ReleasesNext(s)
    ensures ReleasesNext(s')
  {
    if OfRun(l) {
      RunReleasesNext(cfg, s, l);
    }
  }

  /** A step keeps old versions, appends one or drops some. */
  lemma VersionsMove(cfg: Config, s: State, l: Label, s': State, k: nat)
    requires StepOf(cfg, s, l, s') && k < |s'.disk.versions| - 1
    ensures s.leaked <= s'.leaked
    ensures k < |s.disk.versions| && s'.disk.versions[k] == s.disk.versions[k]
    ensures k > 0 ==> s'.disk.versions[k - 1] == s.disk.versions[k - 1]
  {
  }

  lemma LastExplained(cfg: Config, s: State, c: Client)
    requires Inv(cfg, s) && ReleasesNext(s) && c in s.disk.Current().locks
    ensures var h := s.disk.Current().locks[c];
      Live(s.disk.Current(), h) || h in s.leaked || TerminalSave(s.disk.versions, |s.disk.versions| - 1, h)
  {
  }

  lemma StepKeepsExplained(cfg: Config, s: State, l: Label, s': State)
    requires Inv(cfg, s) && Inv(cfg, s') && StepOf(cfg, s, l, s')
    requires VersionsExplained(s) && ReleasesNext(s')
    ensures VersionsExplained(s')
  {
    var vs, vs' := s.disk.versions, s'.disk.versions;
    forall k: nat, c | k < |vs'| && c in vs'[k].locks
      ensures Live(vs'[k], vs'[k].locks[c]) || vs'[k].locks[c] in s'.leaked || TerminalSave(vs', k, vs'[k].locks[c])
    {
      if k < |vs'| - 1 {
        VersionsMove(cfg, s, l, s', k);
      } else {
        LastExplained(cfg, s', c);
      }
    }
  }

  lemma {:induction false} LocksExplainedAt(cfg: Config, ss: seq<State>, ls: seq<Label>, i: nat)
    requires IsRun(cfg, ss, ls) && i < |ss|
    ensures VersionsExplained(ss[i]) && ReleasesNext(ss[i])
  {
    if i > 0 {
      LocksExplainedAt(cfg, ss, ls, i - 1);
      assert StepAt(cfg, ss, ls, i - 1);
      RunInv(cfg, ss, ls, i - 1);
      RunInv(cfg, ss, ls, i);
      StepReleasesNext(cfg, ss[i - 1], ls[i - 1], ss[i]);
      StepKeepsExplained(cfg, ss[i - 1], ls[i - 1], ss[i]);
    }
  }

  // ---------------------------------------------------------------------
  // Leaks.

  predicate HoldsLock(db: Db, h: SeqId) {
    exists c :: c in db.locks && db.locks[c] == h
  }

  /** A crash in `s` that catches `h` between its terminal save and its release,
      with locks to release: the process dies there, or a power cut falls back to
      a version that ends there. */
  ghost predicate CrashInWindow(s: State, l: Label, h: SeqId) {
    match l
    case ProcessCrash =>
      s.proc.Running? && s.proc.act.pc.Releasing? && s.proc.act.id == h && HoldsLock(s.disk.Current(), h)
    case Cut(k) =>
      Recoverable(s, k) && TerminalSave(s.disk.versions, k, h) && HoldsLock(s.disk.versions[k], h)
    case _ => false
  }

  /** A crash before state `i` caught `h` in its window. */
  ghost predicate CaughtBefore(ss: seq<State>, ls: seq<Label>, i: nat, h: SeqId)
    requires i < |ss| == |ls| + 1
  {
    exists m | 0 <= m < i :: CrashInWindow(ss[m], ls[m], h)
  }

  lemma LeakedByHolders(db: Db, h: SeqId)
    ensures h in LeakedBy(db) <==> HoldsLock(db, h) && !Live(db, h)
  {
  }

  lemma ProcessCrashLeaks(cfg: Config, s: State, h: SeqId)
    requires Inv(cfg, s) && ReleasesNext(s) && h !in s.leaked
    ensures h in LeakedBy(s.disk.Current()) <==> CrashInWindow(s, ProcessCrash, h)
  {
    LeakedByHolders(s.disk.Current(), h);
  }

  lemma CutLeaks(s: State, k: nat, h: SeqId)
    requires VersionsExplained(s) && Recoverable(s, k) && h !in s.leaked
    ensures h in LeakedBy(PowerCut(s.disk, k).Current()) <==> CrashInWindow(s, Cut(k), h)
  {
    assert PowerCut(s.disk, k).Current() == s.disk.versions[k];
    LeakedByHolders(s.disk.versions[k], h);
  }

  lemma LeakStep(cfg: Config, s: State, l: Label, s': State, h: SeqId)
    requires Inv(cfg, s) && VersionsExplained(s) && ReleasesNext(s) && StepOf(cfg, s, l, s')
    ensures h in s'.leaked <==> h in s.leaked || CrashInWindow(s, l, h)
  {
    if h !in s.leaked {
      if l.ProcessCrash? {
        ProcessCrashLeaks(cfg, s, h);
      } else if l.Cut? {
        CutLeaks(s, l.k, h);
      }
    } else {
      LeakedStays(cfg, s, l, s', h);
    }
  }

  lemma LeakedStays(cfg: Config, s: State, l: Label, s': State, h: SeqId)
    requires StepOf(cfg, s, l, s') && h in s.leaked
    ensures h in s'.leaked
  {
  }

  lemma LeakStepAt(cfg: Config, ss: seq<State>, ls: seq<Label>, i: nat, h: SeqId)
    requires IsRun(cfg, ss, ls) && i < |ls|
    ensures h in ss[i + 1].leaked <==> h in ss[i].leaked || CrashInWindow(ss[i], ls[i], h)
  {
    assert StepAt(cfg, ss, ls, i);
    RunInv(cfg, ss, ls, i);
    LocksExplainedAt(cfg, ss, ls, i);
    LeakStep(cfg, ss[i], ls[i], ss[i + 1], h);
  }

  lemma {:induction false} LeakedMeansCaught(cfg: Config, ss: seq<State>, ls: seq<Label>, i: nat, h: SeqId)
    requires IsRun(cfg, ss, ls) && i < |ss|
    ensures h in ss[i].leaked <==> CaughtBefore(ss, ls, i, h)
  {
    if i > 0 {
      LeakedMeansCaught(cfg, ss, ls, i - 1, h);
      LeakStepAt(cfg, ss, ls, i - 1, h);
    }
  }

  /** In every database a restart could find, every lock names the one unfinished
      sequence, or a sequence whose terminal save is the last thing that database
      contains, or one that an earlier crash caught in that window. */
  lemma LocksNameTheOwner(cfg: Config, ss: seq<State>, ls: seq<Label>, i: nat, k: nat, c: Client)
    requires IsRun(cfg, ss, ls) && i < |ss| && Recoverable(ss[i], k) && c in ss[i].disk.versions[k].locks
    ensures var vs := ss[i].disk.versions; var h := vs[k].locks[c];
      || (Live(vs[k], h) && forall id | Live(vs[k], id) :: id == h)
      || TerminalSave(vs, k, h)
      || CaughtBefore(ss, ls, i, h)
  {
    RunInv(cfg, ss, ls, i);
    LocksExplainedAt(cfg, ss, ls, i);
    LeakedMeansCaught(cfg, ss, ls, i, ss[i].disk.versions[k].locks[c]);
    assert Good(ss[i].disk.versions[k]);
  }

  /** A crash leaves behind locks of a finished sequence, one that no earlier
      crash had caught, exactly when it catches it between its terminal save and
      its release. */
  lemma LeaksExactlyInTheWindow(cfg: Config, ss: seq<State>, ls: seq<Label>, i: nat, h: SeqId)
    requires IsRun(cfg, ss, ls) && i < |ls| && IsCrash(ls[i]) && !CaughtBefore(ss, ls, i, h)
    ensures var db := ss[i + 1].disk.Current();
      HoldsLock(db, h) && !Live(db, h) <==> CrashInWindow(ss[i], ls[i], h)
  {
    LeakedMeansCaught(cfg, ss, ls, i, h);
    RunInv(cfg, ss, ls, i);
    LocksExplainedAt(cfg, ss, ls, i);
    assert StepAt(cfg, ss, ls, i);
    LeakedByHolders(ss[i + 1].disk.Current(), h);
    if ls[i].Cut? {
      CutLeaks(ss[i], ls[i].k, h);
    } else {
      ProcessCrashLeaks(cfg, ss[i], h);
    }
  }

  // ---------------------------------------------------------------------
  // What a leaked lock does.

  /** `c` is locked by a finished sequence that nothing is about to release. */
  predicate Stuck(s: State, c: Client, h: SeqId) {
    && Locked(s.disk.Current(), c, h)
    && h in s.disk.Current().seqs && !Live(s.disk.Current(), h)
    && (s.proc.Running? ==> s.proc.act.id != h)
  }

  lemma OwnWriteSparesOthers(db: Db, a: Active, op: WriteOp, c: Client, h: SeqId)
    requires OwnWrite(db, a, op) && a.id != h
    requires Locked(db, c, h) && h in db.seqs && !Live(db, h)
    ensures var db' := After(db, op); Locked(db', c, h) && h in db'.seqs && !Live(db', h)
  {
  }

  lemma RunStepStaysStuck(cfg: Config, s: State, l: Label, c: Client, h: SeqId)
    requires Inv(cfg, s) && HasPlan(cfg, s) && OfRun(l) && RunEffect(cfg, s, l).Some? && Stuck(s, c, h)
    ensures Stuck(Perform(s, RunEffect(cfg, s, l).value), c, h)
  {
    RunFits(cfg, s, l);
    OwnWriteSparesOthers(s.disk.Current(), s.proc.act, RunEffect(cfg, s, l).value.op, c, h);
  }

  lemma StepStaysStuck(cfg: Config, s: State, l: Label, s': State, c: Client, h: SeqId)
    requires Inv(cfg, s) && StepOf(cfg, s, l, s') && !l.Cut? && Stuck(s, c, h)
    ensures Stuck(s', c, h)
  {
    if OfRun(l) {
      RunStepStaysStuck(cfg, s, l, c, h);
    }
  }

  lemma StepStaysStuckAt(cfg: Config, ss: seq<State>, ls: seq<Label>, i: nat, c: Client, h: SeqId)
    requires IsRun(cfg, ss, ls) && i < |ls| && !ls[i].Cut? && Stuck(ss[i], c, h)
    ensures Stuck(ss[i + 1], c, h)
  {
    assert StepAt(cfg, ss, ls, i);
    RunInv(cfg, ss, ls, i);
    StepStaysStuck(cfg, ss[i], ls[i], ss[i + 1], c, h);
  }

  /** Every power cut between states `i` and `j` still finds the leaked lock. */
  ghost predicate CutsKeepStuck(ss: seq<State>, ls: seq<Label>, i: nat, j: nat, c: Client, h: SeqId)
    requires j < |ss| == |ls| + 1
  {
    forall m | i <= m < j && ls[m].Cut? :: Stuck(ss[m + 1], c, h)
  }

  lemma {:induction false} StuckStays(cfg: Config, ss: seq<State>, ls: seq<Label>, i: nat, j: nat, c: Client, h: SeqId)
    requires IsRun(cfg, ss, ls) && i <= j < |ss| && Stuck(ss[i], c, h) && CutsKeepStuck(ss, ls, i, j, c, h)
    ensures Stuck(ss[j], c, h)
    decreases j - i
  {
    if i < j {
      StuckStays(cfg, ss, ls, i, j - 1, c, h);
      if !ls[j - 1].Cut? {
        StepStaysStuckAt(cfg, ss, ls, j - 1, c, h);
      }
    }
  }

  lemma StuckMeansNoCommand(cfg: Config, ss: seq<State>, ls: seq<Label>, j: nat, c: Client, h: SeqId)
    requires IsRun(cfg, ss, ls) && j < |ls| && Stuck(ss[j], c, h)
    ensures forall id, stage: nat, n :: !Emits(ss[j], ss[j + 1], Command(id, stage, c, n))
  {
    forall id: SeqId, stage: nat, n: IntentId ensures !Emits(ss[j], ss[j + 1], Command(id, stage, c, n)) {
      if Emits(ss[j], ss[j + 1], Command(id, stage, c, n)) {
        CommandSituation(cfg, ss, ls, j, id, stage, c, n);
      }
    }
  }

  /** A client whose lock leaked stays locked for ever, exactly as long as no power
      cut falls back to before the leak, and while it does no sequence ever
      commands it. */
  lemma LeakedLockBlocksForever(cfg: Config, ss: seq<State>, ls: seq<Label>, i: nat, j: nat, c: Client, h: SeqId)
    requires IsRun(cfg, ss, ls) && i <= j < |ls| && Stuck(ss[i], c, h)
    ensures (forall m | i <= m <= j :: Stuck(ss[m], c, h)) <==> CutsKeepStuck(ss, ls, i, j, c, h)
    ensures CutsKeepStuck(ss, ls, i, j, c, h) ==>
      forall id, stage: nat, n :: !Emits(ss[j], ss[j + 1], Command(id, stage, c, n))
  {
    if CutsKeepStuck(ss, ls, i, j, c, h) {
      forall m | i <= m <= j ensures Stuck(ss[m], c, h) {
        StuckStays(cfg, ss, ls, i, m, c, h);
      }
      StuckMeansNoCommand(cfg, ss, ls, j, c, h);
    }
  }
}
