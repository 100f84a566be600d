/** Concrete runs showing that what the theorems except really happens. */
module ExecutorWitnesses {
  import opened Options
  import opened Tables
  import opened Machine
  import opened Paths
  import opened ExecutorRuns
  import opened ExecutorLocks
  import opened ExecutorFutures
  import opened ExecutorRequests

  /** One plan with one stage holding one client, with or without a post-shutdown
      action. */
  function Home(post: bool): Config {
    Config(map["rack" := Plan([Stage(["nas"], false, false)], true, post, 1, 1)], {"nas"})
  }

  const FRESH := FreshRow("rack")

  function Rows(row: SeqRow): Db {
    EMPTY.(seqs := map[0 := row])
  }

  /** The run so far ends in a process `p` over the tables `db`. */
  ghost predicate EndsIn(ss: seq<State>, p: Proc, db: Db) {
    |ss| > 0 && ss[|ss| - 1].proc == p && ss[|ss| - 1].disk.Current() == db
  }

  lemma Overwrites<K, V>(k: K, a: V, b: V)
    ensures map[k := a][k := b] == map[k := b]
  {
  }

  lemma Advance(cfg: Config, ss: seq<State>, ls: seq<Label>, l: Label) returns (ss': seq<State>, ls': seq<Label>)
    requires IsRun(cfg, ss, ls) && Next(cfg, ss[|ls|], l).Some?
    ensures IsRun(cfg, ss', ls') && ls' == ls + [l] && ss' == ss + [Next(cfg, ss[|ls|], l).value]
  {
    ss', ls' := ss + [Next(cfg, ss[|ls|], l).value], ls + [l];
    StepExtendsRun(cfg, ss, ls, l, ss'[|ls'|]);
  }

  /** A step of the sequence that writes nothing. */
  lemma Proceeds(cfg: Config, ss: seq<State>, ls: seq<Label>, o: Outcome, next: Active) returns (ss': seq<State>, ls': seq<Label>)
    requires IsRun(cfg, ss, ls) && HasPlan(cfg, ss[|ls|])
    requires var s := ss[|ls|];
      MainStep(cfg.plans[s.proc.act.row.plan], s.disk.Current(), s.proc.act, o) == Some(Effect(next, NoWrite, []))
    ensures IsRun(cfg, ss', ls') && ls' == ls + [Main(o)] && ss' == ss + [ss[|ls|].(proc := Running(next))]
  {
    ss', ls' := Advance(cfg, ss, ls, Main(o));
    assert ss[|ls|].trace + [] == ss[|ls|].trace;
  }

  function At(row: SeqRow, pc: Pc): Proc {
    Running(Active(0, row, false, false, pc))
  }

  /** The same with an abort request pending. */
  function Asked(row: SeqRow, pc: Pc): Proc {
    Running(Active(0, row, true, false, pc))
  }

  /** Trigger, first save, top of the loop. */
  lemma ReachesCheck(post: bool) returns (ss: seq<State>, ls: seq<Label>)
    ensures IsRun(Home(post), ss, ls) && StaysUp(ls, 0, |ls|) && |ls| == 3
    ensures EndsIn(ss, At(FRESH, AbortCheck(0)), Rows(FRESH)) && ss[3].nextIntent == 0 && ss[3].nextSeq == 1
    ensures ss[3].disk.synced == 0 && |ss[3].disk.versions| == 3 && ss[3].disk.versions[2] == Rows(FRESH)
  {
    ss, ls := [INIT], [];
    ss, ls := Advance(Home(post), ss, ls, Trigger("rack"));
    ss, ls := Advance(Home(post), ss, ls, Main(Plain));
    assert EndsIn(ss, At(FRESH, LoopTop(0)), Rows(FRESH));
    ss, ls := Advance(Home(post), ss, ls, Main(Plain));
  }

  // ---------------------------------------------------------------------
  // A power cut can undo an abort: the abort is saved without a flush.

  lemma EntersAbort() returns (ss: seq<State>, ls: seq<Label>)
    ensures IsRun(Home(false), ss, ls) && |ls| == 5 && Emits(ss[4], ss[5], AbortEntered(0))
    ensures ss[5].disk.synced == 0 && |ss[5].disk.versions| == 4 && ss[5].disk.versions[2] == Rows(FRESH)
    ensures ss[5].disk.Current() == Rows(FRESH.(phase := Aborting, aborted := true))
  {
    ss, ls := ReachesCheck(false);
    ss, ls := Advance(Home(false), ss, ls, Main(AbortNow));
    assert EndsIn(ss, At(FRESH, AbortSave), Rows(FRESH));
    ss, ls := Advance(Home(false), ss, ls, Main(Plain));
    Overwrites(0 as SeqId, FRESH, FRESH.(phase := Aborting, aborted := true));
  }

  /** AbortIsHonoured excepts something real: after a power cut that loses the
      abort, the saved phase is back at shutting_down and a client the operator
      had spared is commanded. */
  lemma PowerCutUndoesAbort() returns (ss: seq<State>, ls: seq<Label>, i: nat, j: nat, n: IntentId)
    ensures IsRun(Home(false), ss, ls) && i + 1 < j < |ls|
    ensures Emits(ss[i], ss[i + 1], AbortEntered(0))
    ensures ss[i + 1].disk.Current().seqs == map[0 := FRESH.(phase := Aborting, aborted := true)]
    ensures ss[i + 2].disk.Current().seqs == map[0 := FRESH]
    ensures Emits(ss[j], ss[j + 1], Command(0, 0, "nas", n))
  {
    var ss0, ls0 := EntersAbort();
    ss0, ls0 := Advance(Home(false), ss0, ls0, Cut(2));
    assert EndsIn(ss0, Down, Rows(FRESH));
    ss, ls, n := CommandAhead(Home(false), ss0, ls0, 0, 0, "nas");
    assert ss[..7] == ss0;
    i, j := 4, |ls| - 1;
  }

  // ---------------------------------------------------------------------
  // A power cut can lose a stage record, and with it the flag that the
  // post-shutdown action has run.

  const SKIPPED := Rows(FRESH).(stages := map[StageKey(0, 0) := true])

  lemma WaitsInVain(post: bool, ss0: seq<State>, ls0: seq<Label>) returns (ss: seq<State>, ls: seq<Label>)
    requires IsRun(Home(post), ss0, ls0) && EndsIn(ss0, At(FRESH, AbortCheck(0)), Rows(FRESH))
    ensures IsRun(Home(post), ss, ls) && ls == ls0 + [Main(NoAbort), Main(Plain)]
    ensures EndsIn(ss, At(FRESH, WaitAbort(0)), Rows(FRESH)) && ss[|ls|].disk == ss0[|ls0|].disk
  {
    ss, ls := Advance(Home(post), ss0, ls0, Main(NoAbort));
    assert EndsIn(ss, At(FRESH, Waiting(0)), Rows(FRESH));
    ss, ls := Advance(Home(post), ss, ls, Main(Plain));
  }

  /** The wait for the stage runs out and the skip is recorded. */
  lemma SkipsStage(post: bool) returns (ss: seq<State>, ls: seq<Label>)
    ensures IsRun(Home(post), ss, ls) && PowerHolds(ls, 0, |ls|) && |ls| == 7
    ensures EndsIn(ss, At(FRESH, LoopTop(1)), SKIPPED)
    ensures ss[7].disk.synced == 0 && |ss[7].disk.versions| == 4
    ensures ss[7].disk.versions[2] == Rows(FRESH) && ss[7].disk.versions[3] == SKIPPED
  {
    ss, ls := ReachesCheck(post);
    ss, ls := WaitsInVain(post, ss, ls);
    ss, ls := Advance(Home(post), ss, ls, Main(Expired));
    assert EndsIn(ss, At(FRESH, Expiring(0)), Rows(FRESH));
    ss, ls := Advance(Home(post), ss, ls, Main(Plain));
    assert EMPTY.stages[StageKey(0, 0) := true] == map[StageKey(0, 0) := true];
  }

  /** RecordedStageNeverReruns excepts something real: a client of a stage already
      recorded is commanded after a power cut. */
  lemma PowerCutRerunsStage() returns (ss: seq<State>, ls: seq<Label>, i: nat, j: nat, n: IntentId)
    ensures IsRun(Home(false), ss, ls) && i < j < |ls|
    ensures Recorded(ss[i].disk.Current(), 0, 0)
    ensures Emits(ss[j], ss[j + 1], Command(0, 0, "nas", n))
  {
    var ss0, ls0 := SkipsStage(false);
    ss0, ls0 := Advance(Home(false), ss0, ls0, Cut(2));
    assert EndsIn(ss0, Down, Rows(FRESH));
    ss, ls, n := CommandAhead(Home(false), ss0, ls0, 0, 0, "nas");
    assert ss[7] == ss0[7];
    i, j := 7, |ls| - 1;
  }

  const CLAIMED := FRESH.(postRun := true)

  lemma IssuesPost() returns (ss: seq<State>, ls: seq<Label>)
    ensures IsRun(Home(true), ss, ls) && PowerHolds(ls, 0, |ls|) && |ls| == 10
    ensures Emits(ss[9], ss[10], PostIssued(0))
    ensures EndsIn(ss, At(CLAIMED, PostSave(true)), SKIPPED)
    ensures ss[10].disk.synced == 0 && |ss[10].disk.versions| == 4 && ss[10].disk.versions[3] == SKIPPED
  {
    ss, ls := SkipsStage(true);
    ss, ls := Advance(Home(true), ss, ls, Main(Plain));
    assert EndsIn(ss, At(FRESH, PostCheck), SKIPPED);
    ss, ls := Advance(Home(true), ss, ls, Main(Plain));
    assert EndsIn(ss, At(CLAIMED, PostIssue), SKIPPED);
    ss, ls := Advance(Home(true), ss, ls, Main(Issue));
  }

  /** PostNotRepeated excepts something real: the process dies between issuing the
      action and saving the flag, and the action is issued again. */
  lemma CrashRepeatsPost() returns (ss: seq<State>, ls: seq<Label>, i: nat, j: nat)
    ensures IsRun(Home(true), ss, ls) && PowerHolds(ls, 0, |ls|) && i < j < |ls|
    ensures Emits(ss[i], ss[i + 1], PostIssued(0)) && Emits(ss[j], ss[j + 1], PostIssued(0))
  {
    var ss0, ls0 := IssuesPost();
    ss0, ls0 := Advance(Home(true), ss0, ls0, ProcessCrash);
    assert EndsIn(ss0, Down, SKIPPED);
    ss, ls := PostAhead(Home(true), ss0, ls0, 0);
    forall m | 0 <= m < |ls| ensures !ls[m].Cut? {
      assert m < |ls0| ==> ls[m] == ls0[m];
    }
    assert ss[9] == ss0[9] && ss[10] == ss0[10];
    i, j := 9, |ls| - 1;
  }

  /** And when the flag has been saved, a power cut can lose it: the save is not
      flushed. */
  lemma PowerCutRepeatsPost() returns (ss: seq<State>, ls: seq<Label>, i: nat, j: nat)
    ensures IsRun(Home(true), ss, ls) && i + 1 < j < |ls|
    ensures Emits(ss[i], ss[i + 1], PostIssued(0)) && Emits(ss[i + 1], ss[i + 2], PostSaved(0))
    ensures Emits(ss[j], ss[j + 1], PostIssued(0))
  {
    var ss0, ls0 := IssuesPost();
    ss0, ls0 := Advance(Home(true), ss0, ls0, Main(Plain));
    ss0, ls0 := Advance(Home(true), ss0, ls0, Cut(3));
    assert EndsIn(ss0, Down, SKIPPED);
    ss, ls := PostAhead(Home(true), ss0, ls0, 0);
    assert ss[9] == ss0[9] && ss[10] == ss0[10] && ss[11] == ss0[11];
    i, j := 9, |ls| - 1;
  }

  // ---------------------------------------------------------------------
  // A process crash between the terminal save and the lock release.

  function OpenStage(db: Db): Db {
    db.(stages := map[StageKey(0, 0) := false])
  }

  /** From the abort check into the stage. */
  lemma OpensRack(ss0: seq<State>, ls0: seq<Label>) returns (ss: seq<State>, ls: seq<Label>)
    requires IsRun(Home(false), ss0, ls0) && EndsIn(ss0, At(FRESH, AbortCheck(0)), Rows(FRESH))
    ensures IsRun(Home(false), ss, ls) && ls == ls0 + [Main(NoAbort), Main(WhenTrue), Main(Plain), Main(Plain)]
    ensures EndsIn(ss, At(FRESH, InStage(0, map["nas" := Todo])), OpenStage(Rows(FRESH)))
    ensures ss[|ls|].nextIntent == ss0[|ls0|].nextIntent
  {
    ss, ls := Proceeds(Home(false), ss0, ls0, NoAbort, At(FRESH, Waiting(0)).act);
    ss, ls := Proceeds(Home(false), ss, ls, WhenTrue, At(FRESH, Entering(0)).act);
    ss, ls := Proceeds(Home(false), ss, ls, Plain, At(FRESH, Opening(0)).act);
    ss, ls := Advance(Home(false), ss, ls, Main(Plain));
    assert StageClients(Stage(["nas"], false, false)) == map["nas" := Todo];
  }

  const DB_LOCKED := OpenStage(Rows(FRESH)).(locks := map["nas" := 0])
  const DB_INTENT := DB_LOCKED.(intents := map[0 := Intent(0, "nas", Dispatching)])

  /** The client's lock and its intent. */
  lemma LocksNas(ss0: seq<State>, ls0: seq<Label>) returns (ss: seq<State>, ls: seq<Label>)
    requires IsRun(Home(false), ss0, ls0) && ss0[|ls0|].nextIntent == 0
    requires EndsIn(ss0, At(FRESH, InStage(0, map["nas" := Todo])), OpenStage(Rows(FRESH)))
    ensures IsRun(Home(false), ss, ls)
    ensures ls == ls0 + [ClientStep("nas", TryLock), ClientStep("nas", SaveIntentFirst)]
    ensures EndsIn(ss, At(FRESH, InStage(0, map["nas" := Recording(0)])), DB_INTENT)
  {
    Overwrites("nas", Todo, Holding);
    Overwrites("nas", Holding, Recording(0));
    ss, ls := Advance(Home(false), ss0, ls0, ClientStep("nas", TryLock));
    assert EMPTY.locks["nas" := 0] == map["nas" := 0];
    assert EndsIn(ss, At(FRESH, InStage(0, map["nas" := Holding])), DB_LOCKED);
    ss, ls := Advance(Home(false), ss, ls, ClientStep("nas", SaveIntentFirst));
    assert EMPTY.intents[0 := Intent(0, "nas", Dispatching)] == map[0 := Intent(0, "nas", Dispatching)];
  }

  const DB_CLOSED := DB_INTENT.(
    intents := map[0 := Intent(0, "nas", Dispatched)], stages := map[StageKey(0, 0) := true])

  lemma FinishesNas(ss0: seq<State>, ls0: seq<Label>) returns (ss: seq<State>, ls: seq<Label>)
    requires IsRun(Home(false), ss0, ls0)
    requires EndsIn(ss0, At(FRESH, InStage(0, map["nas" := Recording(0)])), DB_INTENT)
    ensures IsRun(Home(false), ss, ls) && ls == ls0 + [ClientStep("nas", Skip), Main(Plain)]
    ensures EndsIn(ss, At(FRESH, LoopTop(1)), DB_CLOSED)
  {
    Overwrites("nas", Recording(0), Done);
    Overwrites(0 as IntentId, Intent(0, "nas", Dispatching), Intent(0, "nas", Dispatched));
    ss, ls := Advance(Home(false), ss0, ls0, ClientStep("nas", Skip));
    assert EndsIn(ss, At(FRESH, InStage(0, map["nas" := Done])), DB_CLOSED.(stages := map[StageKey(0, 0) := false]));
    Overwrites(StageKey(0, 0), false, true);
    ss, ls := Advance(Home(false), ss, ls, Main(Plain));
  }

  function Row(p: Phase): SeqRow {
    FRESH.(phase := p)
  }

  function Closed(p: Phase): Db {
    DB_CLOSED.(seqs := map[0 := Row(p)])
  }

  lemma LeavesLoop(ss0: seq<State>, ls0: seq<Label>) returns (ss: seq<State>, ls: seq<Label>)
    requires IsRun(Home(false), ss0, ls0) && EndsIn(ss0, At(FRESH, LoopTop(1)), DB_CLOSED)
    ensures IsRun(Home(false), ss, ls) && ls == ls0 + [Main(Plain), Main(Plain)]
    ensures EndsIn(ss, At(FRESH, GateSave), DB_CLOSED)
  {
    ss, ls := Advance(Home(false), ss0, ls0, Main(Plain));
    assert EndsIn(ss, At(FRESH, PostCheck), DB_CLOSED);
    ss, ls := Advance(Home(false), ss, ls, Main(Plain));
  }

  lemma ReachesGate(ss0: seq<State>, ls0: seq<Label>) returns (ss: seq<State>, ls: seq<Label>)
    requires IsRun(Home(false), ss0, ls0) && EndsIn(ss0, At(FRESH, GateSave), DB_CLOSED)
    ensures IsRun(Home(false), ss, ls) && ls == ls0 + [Main(Plain)]
    ensures EndsIn(ss, At(Row(WakeGate), AtGate), Closed(WakeGate))
  {
    ss, ls := Advance(Home(false), ss0, ls0, Main(Plain));
    Overwrites(0 as SeqId, FRESH, Row(WakeGate));
  }

  lemma PassesGate(ss0: seq<State>, ls0: seq<Label>) returns (ss: seq<State>, ls: seq<Label>)
    requires IsRun(Home(false), ss0, ls0) && EndsIn(ss0, At(Row(WakeGate), AtGate), Closed(WakeGate))
    ensures IsRun(Home(false), ss, ls) && ls == ls0 + [Main(GateOpen)]
    ensures EndsIn(ss, At(Row(Waking), InWake(1)), Closed(Waking))
  {
    Overwrites(0 as SeqId, Row(WakeGate), Row(Waking));
    ss, ls := Advance(Home(false), ss0, ls0, Main(GateOpen));
  }

  lemma BeginsTurn(ss0: seq<State>, ls0: seq<Label>) returns (ss: seq<State>, ls: seq<Label>)
    requires IsRun(Home(false), ss0, ls0) && EndsIn(ss0, At(Row(Waking), InWake(1)), Closed(Waking))
    ensures IsRun(Home(false), ss, ls) && ls == ls0 + [Main(NoAbort)]
    ensures EndsIn(ss, At(Row(Waking), InTurn(0, 2)), Closed(Waking))
  {
    ss, ls := Advance(Home(false), ss0, ls0, Main(NoAbort));
  }

  /** One stage, its client shut down, and then its turn to be woken. */
  lemma RunsThrough() returns (ss: seq<State>, ls: seq<Label>)
    ensures IsRun(Home(false), ss, ls) && StaysUp(ls, 0, |ls|)
    ensures EndsIn(ss, At(Row(Waking), InTurn(0, 2)), Closed(Waking))
  {
    ss, ls := ReachesCheck(false);
    ss, ls := OpensRack(ss, ls);
    ss, ls := LocksNas(ss, ls);
    ss, ls := FinishesNas(ss, ls);
    ss, ls := LeavesLoop(ss, ls);
    ss, ls := ReachesGate(ss, ls);
    ss, ls := PassesGate(ss, ls);
    ss, ls := BeginsTurn(ss, ls);
  }

  lemma EndsWake(ss0: seq<State>, ls0: seq<Label>) returns (ss: seq<State>, ls: seq<Label>)
    requires IsRun(Home(false), ss0, ls0) && EndsIn(ss0, At(Row(Waking), InTurn(0, 2)), Closed(Waking))
    ensures IsRun(Home(false), ss, ls) && ls == ls0 + [Main(TurnOver), Main(WakeEnd)]
    ensures EndsIn(ss, At(Row(Waking), Finishing), Closed(Waking))
  {
    ss, ls := Proceeds(Home(false), ss0, ls0, TurnOver, At(Row(Waking), InWake(0)).act);
    ss, ls := Proceeds(Home(false), ss, ls, WakeEnd, At(Row(Waking), Finishing).act);
  }

  lemma CrashesInWindow(ss0: seq<State>, ls0: seq<Label>) returns (ss: seq<State>, ls: seq<Label>)
    requires IsRun(Home(false), ss0, ls0) && EndsIn(ss0, At(Row(Waking), Finishing), Closed(Waking))
    ensures IsRun(Home(false), ss, ls) && ls == ls0 + [Main(Plain), ProcessCrash]
    ensures EndsIn(ss, Down, Closed(Completed))
  {
    Overwrites(0 as SeqId, Row(Waking), Row(Completed));
    ss, ls := Advance(Home(false), ss0, ls0, Main(Plain));
    assert EndsIn(ss, At(Row(Completed), Releasing), Closed(Completed));
    ss, ls := Advance(Home(false), ss, ls, ProcessCrash);
  }

  /** The window is real: one process crash there leaves a client locked by a
      completed sequence, and by LeakedLockBlocksForever it stays so. */
  lemma CrashLeaksLock() returns (ss: seq<State>, ls: seq<Label>)
    ensures IsRun(Home(false), ss, ls) && PowerHolds(ls, 0, |ls|)
    ensures |ss| > 0 && Stuck(ss[|ss| - 1], "nas", 0)
  {
    ss, ls := RunsThrough();
    ss, ls := EndsWake(ss, ls);
    ss, ls := CrashesInWindow(ss, ls);
  }

  /** A request during the turn, and a wake command after it. */
  lemma AsksInTurn(ss0: seq<State>, ls0: seq<Label>) returns (ss: seq<State>, ls: seq<Label>)
    requires IsRun(Home(false), ss0, ls0) && EndsIn(ss0, At(Row(Waking), InTurn(0, 2)), Closed(Waking))
    ensures IsRun(Home(false), ss, ls) && ls == ls0 + [RequestAbort, Main(SendWake)] && ss0 <= ss
    ensures Accepts(ss, |ls0|, 0) && Emits(ss[|ls| - 1], ss[|ls|], WakeSent(0))
    ensures EndsIn(ss, Asked(Row(Waking), Verifying(0, 1)), Closed(Waking))
  {
    ss, ls := Advance(Home(false), ss0, ls0, RequestAbort);
    assert EndsIn(ss, Asked(Row(Waking), InTurn(0, 2)), Closed(Waking));
    ss, ls := Advance(Home(false), ss, ls, Main(SendWake));
  }

  /** The boot deadline passes, and the command goes out again. */
  lemma WakesAgain(ss0: seq<State>, ls0: seq<Label>) returns (ss: seq<State>, ls: seq<Label>)
    requires IsRun(Home(false), ss0, ls0) && EndsIn(ss0, Asked(Row(Waking), Verifying(0, 1)), Closed(Waking))
    ensures IsRun(Home(false), ss, ls) && ls == ls0 + [Main(Expired), Main(SendWake)] && ss0 <= ss
    ensures Emits(ss[|ls| - 1], ss[|ls|], WakeSent(0))
    ensures EndsIn(ss, Asked(Row(Waking), Verifying(0, 0)), Closed(Waking))
  {
    ss, ls := Advance(Home(false), ss0, ls0, Main(Expired));
    assert EndsIn(ss, Asked(Row(Waking), InTurn(0, 1)), Closed(Waking));
    ss, ls := Advance(Home(false), ss, ls, Main(SendWake));
  }

  lemma LeavesWake(ss0: seq<State>, ls0: seq<Label>) returns (ss: seq<State>, ls: seq<Label>)
    requires IsRun(Home(false), ss0, ls0) && EndsIn(ss0, Asked(Row(Waking), Verifying(0, 0)), Closed(Waking))
    ensures IsRun(Home(false), ss, ls) && ls == ls0 + [Main(TurnOver), Main(WakeEnd)] && ss0 <= ss
    ensures EndsIn(ss, Asked(Row(Waking), Finishing), Closed(Waking))
  {
    ss, ls := Proceeds(Home(false), ss0, ls0, TurnOver, Asked(Row(Waking), InWake(0)).act);
    ss, ls := Proceeds(Home(false), ss, ls, WakeEnd, Asked(Row(Waking), Finishing).act);
  }

  lemma Completes(ss0: seq<State>, ls0: seq<Label>) returns (ss: seq<State>, ls: seq<Label>)
    requires IsRun(Home(false), ss0, ls0) && EndsIn(ss0, Asked(Row(Waking), Finishing), Closed(Waking))
    ensures IsRun(Home(false), ss, ls) && ls == ls0 + [Main(Plain)] && ss0 <= ss
    ensures ss[|ls|].proc == Asked(Row(Completed), Releasing)
  {
    ss, ls := Advance(Home(false), ss0, ls0, Main(Plain));
  }

  /** What OnlyTheTurnBegunIsWoken, OneWakeAfterRequest and RequestEndsAborted
      except does happen: a request is accepted in the last client's turn, the
      client is sent a wake command, and when the boot deadline passes unseen
      another, and the sequence completes. */
  lemma RequestInTurnIsMissed() returns (ss: seq<State>, ls: seq<Label>, asked: nat)
    ensures IsRun(Home(false), ss, ls) && StaysUp(ls, 0, |ls|) && asked + 4 < |ls| && Accepts(ss, asked, 0)
    ensures Emits(ss[asked + 1], ss[asked + 2], WakeSent(0)) && Emits(ss[asked + 3], ss[asked + 4], WakeSent(0))
    ensures ss[|ls|].proc == Asked(Row(Completed), Releasing)
  {
    ss, ls := RunsThrough();
    asked := |ls|;
    ss, ls := AsksInTurn(ss, ls);
    var one := ss;
    ss, ls := WakesAgain(ss, ls);
    var two := ss;
    ss, ls := LeavesWake(ss, ls);
    var three := ss;
    ss, ls := Completes(ss, ls);
    assert one <= two <= three <= ss;
  }

  // ---------------------------------------------------------------------
  // An abort the operator asks for wakes nobody.

  /** Two stages of one client each. */
  const TWO := Config(
    map["rack" := Plan([Stage(["nas"], false, false), Stage(["db"], false, false)], true, false, 2, 0)], {"nas", "db"})

  ghost predicate Stood(ss: seq<State>, ls: seq<Label>, p: Proc) {
    IsRun(TWO, ss, ls) && ss[|ls|].proc == p
  }

  lemma EntersFirst() returns (ss: seq<State>, ls: seq<Label>)
    ensures Stood(ss, ls, At(FRESH, Entering(0))) && StaysUp(ls, 0, |ls|) && Main(SendWake) !in ls
    ensures ss[|ls|].disk.Current().locks == map[] && ss[|ls|].nextIntent == 0
  {
    ss, ls := [INIT], [];
    ss, ls := Advance(TWO, ss, ls, Trigger("rack"));
    ss, ls := Advance(TWO, ss, ls, Main(Plain));
    assert Stood(ss, ls, At(FRESH, LoopTop(0)));
    ss, ls := Advance(TWO, ss, ls, Main(Plain));
    assert Stood(ss, ls, At(FRESH, AbortCheck(0)));
    ss, ls := Proceeds(TWO, ss, ls, NoAbort, At(FRESH, Waiting(0)).act);
    ss, ls := Proceeds(TWO, ss, ls, WhenTrue, At(FRESH, Entering(0)).act);
  }

  lemma OpensFirst() returns (ss: seq<State>, ls: seq<Label>)
    ensures Stood(ss, ls, At(FRESH, InStage(0, map["nas" := Todo]))) && StaysUp(ls, 0, |ls|) && Main(SendWake) !in ls
    ensures ss[|ls|].disk.Current().locks == map[] && ss[|ls|].nextIntent == 0
  {
    ss, ls := EntersFirst();
    ss, ls := Advance(TWO, ss, ls, Main(Plain));
    assert Stood(ss, ls, At(FRESH, Opening(0)));
    ss, ls := Advance(TWO, ss, ls, Main(Plain));
    assert StageClients(Stage(["nas"], false, false)) == map["nas" := Todo];
  }

  lemma LocksFirst() returns (ss: seq<State>, ls: seq<Label>)
    ensures Stood(ss, ls, At(FRESH, InStage(0, map["nas" := Recording(0)]))) && StaysUp(ls, 0, |ls|) && Main(SendWake) !in ls
  {
    ss, ls := OpensFirst();
    Overwrites("nas", Todo, Holding);
    ss, ls := Advance(TWO, ss, ls, ClientStep("nas", TryLock));
    assert Stood(ss, ls, At(FRESH, InStage(0, map["nas" := Holding])));
    Overwrites("nas", Holding, Recording(0));
    ss, ls := Advance(TWO, ss, ls, ClientStep("nas", SaveIntentFirst));
  }

  /** The client of the first stage is commanded, and the stage recorded. */
  lemma CommandsFirst() returns (ss: seq<State>, ls: seq<Label>, sent: nat)
    ensures Stood(ss, ls, At(FRESH, LoopTop(1))) && StaysUp(ls, 0, |ls|) && Main(SendWake) !in ls
    ensures sent < |ls| && Emits(ss[sent], ss[sent + 1], Command(0, 0, "nas", 0))
  {
    ss, ls := LocksFirst();
    sent := |ls|;
    Overwrites("nas", Recording(0), Sent(0));
    ss, ls := Advance(TWO, ss, ls, ClientStep("nas", Send));
    assert Stood(ss, ls, At(FRESH, InStage(0, map["nas" := Sent(0)])));
    ss, ls := RecordsFirst(ss, ls);
  }

  lemma RecordsFirst(ss0: seq<State>, ls0: seq<Label>) returns (ss: seq<State>, ls: seq<Label>)
    requires Stood(ss0, ls0, At(FRESH, InStage(0, map["nas" := Sent(0)])))
    ensures Stood(ss, ls, At(FRESH, LoopTop(1))) && ss0 <= ss
    ensures ls == ls0 + [ClientStep("nas", Report), ClientStep("nas", Settle), Main(Plain)]
  {
    Overwrites("nas", Sent(0), Settling);
    ss, ls := Advance(TWO, ss0, ls0, ClientStep("nas", Report));
    assert Stood(ss, ls, At(FRESH, InStage(0, map["nas" := Settling])));
    Overwrites("nas", Settling, Done);
    ss, ls := Advance(TWO, ss, ls, ClientStep("nas", Settle));
    assert Stood(ss, ls, At(FRESH, InStage(0, map["nas" := Done])));
    ss, ls := Advance(TWO, ss, ls, Main(Plain));
  }

  const SPARED := FRESH.(stage := 1, phase := Aborting, aborted := true)

  /** The operator asks, and the abort path is entered. */
  lemma AsksToStop(ss0: seq<State>, ls0: seq<Label>) returns (ss: seq<State>, ls: seq<Label>)
    requires Stood(ss0, ls0, At(FRESH, LoopTop(1)))
    ensures Stood(ss, ls, Asked(SPARED, AbortSettle)) && ss0 <= ss && |ls| == |ls0| + 4
    ensures ls == ls0 + [RequestAbort, Main(Plain), Main(AbortNow), Main(Plain)]
    ensures Accepts(ss, |ls0|, 0) && Emits(ss[|ls| - 1], ss[|ls|], AbortEntered(0))
  {
    ss, ls := Advance(TWO, ss0, ls0, RequestAbort);
    assert Stood(ss, ls, Asked(FRESH, LoopTop(1)));
    ss, ls := Advance(TWO, ss, ls, Main(Plain));
    assert Stood(ss, ls, Asked(FRESH.(stage := 1), AbortCheck(1)));
    ss, ls := Advance(TWO, ss, ls, Main(AbortNow));
    assert Stood(ss, ls, Asked(FRESH.(stage := 1), AbortSave));
    ss, ls := Advance(TWO, ss, ls, Main(Plain));
  }

  lemma FindsGateOpen(ss0: seq<State>, ls0: seq<Label>) returns (ss: seq<State>, ls: seq<Label>)
    requires Stood(ss0, ls0, Asked(SPARED, AbortSettle))
    ensures Stood(ss, ls, Asked(SPARED.(phase := Waking), InWake(2))) && ss0 <= ss
    ensures ls == ls0 + [Main(Plain), Main(GateOpen)]
  {
    ss, ls := Advance(TWO, ss0, ls0, Main(Plain));
    assert Stood(ss, ls, Asked(SPARED.(phase := WakeGate), AtGate));
    ss, ls := Advance(TWO, ss, ls, Main(GateOpen));
  }

  /** The wake is given up before the first client. */
  lemma GivesUpWake(ss0: seq<State>, ls0: seq<Label>) returns (ss: seq<State>, ls: seq<Label>)
    requires Stood(ss0, ls0, Asked(SPARED.(phase := Waking), InWake(2)))
    ensures Stood(ss, ls, Asked(SPARED.(phase := Aborted), Clearing)) && ss0 <= ss
    ensures ls == ls0 + [Main(AbortNow), Main(Plain), Main(Plain)]
  {
    ss, ls := Advance(TWO, ss0, ls0, Main(AbortNow));
    assert Stood(ss, ls, Asked(SPARED.(phase := Waking), Finishing));
    ss, ls := Advance(TWO, ss, ls, Main(Plain));
    assert Stood(ss, ls, Asked(SPARED.(phase := Aborted), Releasing));
    ss, ls := Advance(TWO, ss, ls, Main(Plain));
  }

  /** What AbortWakesExactly excludes does happen: a client is shut down, the
      operator aborts before the next stage, the gate is open, and the sequence
      ends without anything having woken that client. */
  lemma RequestedAbortLeavesClientDown() returns (ss: seq<State>, ls: seq<Label>, sent: nat, asked: nat, entered: nat)
    ensures IsRun(TWO, ss, ls) && StaysUp(ls, 0, |ls|) && sent < asked < entered < |ls|
    ensures Emits(ss[sent], ss[sent + 1], Command(0, 0, "nas", 0))
    ensures Accepts(ss, asked, 0) && Emits(ss[entered], ss[entered + 1], AbortEntered(0))
    ensures Main(GateOpen) in ls && Main(SendWake) !in ls
    ensures ss[|ls|].proc == Asked(SPARED.(phase := Aborted), Clearing)
  {
    ss, ls, sent := CommandsFirst();
    ghost var first := ss;
    asked := |ls|;
    ss, ls := AsksToStop(ss, ls);
    entered := |ls| - 1;
    ss, ls := FindsGateOpen(ss, ls);
    ss, ls := GivesUpWake(ss, ls);
    assert first <= ss;
  }
}
