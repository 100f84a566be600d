/** The tables of internal/state: sequences, stage records, intents and client
    locks, with the statements the executor runs against them. */
module Tables {

  type SeqId = nat
  type IntentId = nat
  type Client = string

  datatype Phase = ShuttingDown | Aborting | WakeGate | Waking | Completed | Aborted | Failed {

    /** The states GetActiveSequence filters out. */
    predicate Terminal() {
      Completed? || Aborted? || Failed?
    }

    /** Position along the life of a sequence. */
    function Rank(): nat {
      match this
      case ShuttingDown => 0
      case Aborting => 1
      case WakeGate => 2
      case Waking => 3
      case _ => 4
    }
  }

  datatype SeqRow = SeqRow(plan: string, phase: Phase, stage: nat, ponr: bool, aborted: bool, postRun: bool)

  datatype IntentStatus = Dispatching | Dispatched | Reconciled

  datatype Intent = Intent(seqId: SeqId, client: Client, status: IntentStatus)

  datatype StageKey = StageKey(seqId: SeqId, index: nat)

  /** `stages[k]` says whether the record carries a completion time. */
  datatype Db = Db(
    seqs: map<SeqId, SeqRow>,
    stages: map<StageKey, bool>,
    intents: map<IntentId, Intent>,
    locks: map<Client, SeqId>)

  const EMPTY := Db(map[], map[], map[], map[])

  datatype Write =
    | SaveSequence(id: SeqId, row: SeqRow)
    | SaveStageRecord(id: SeqId, index: nat, completed: bool)
    | SaveIntent(intentId: IntentId, intent: Intent)
    | AcquireClientLock(client: Client, id: SeqId)
    | ReleaseSequenceLocks(id: SeqId)
    | FailOrphanedSequence(id: SeqId)

  /** The effect of one committed statement (or, for the last, one transaction).
      The upserts keep the columns their conflict clauses do not name. */
  function Apply(db: Db, w: Write): Db {
    match w
    case SaveSequence(id, row) =>
      db.(seqs := db.seqs[id := if id in db.seqs then row.(plan := db.seqs[id].plan) else row])
    case SaveStageRecord(id, index, completed) =>
      db.(stages := db.stages[StageKey(id, index) := completed])
    case SaveIntent(n, intent) =>
      db.(intents := db.intents[n := if n in db.intents then db.intents[n].(status := intent.status) else intent])
    case AcquireClientLock(c, id) =>
      if c in db.locks then db else db.(locks := db.locks[c := id])
    case ReleaseSequenceLocks(id) =>
      db.(locks := ReleaseLocks(db.locks, id))
    case FailOrphanedSequence(id) =>
      db.(seqs := if id in db.seqs then db.seqs[id := db.seqs[id].(phase := Failed)] else db.seqs,
          locks := ReleaseLocks(db.locks, id),
          intents := CloseIntents(db.intents, id))
  }

  function ReleaseLocks(locks: map<Client, SeqId>, id: SeqId): map<Client, SeqId> {
    map c | c in locks && locks[c] != id :: locks[c]
  }

  function CloseIntents(intents: map<IntentId, Intent>, id: SeqId): map<IntentId, Intent> {
    map n | n in intents ::
      if intents[n].seqId == id && intents[n].status == Dispatching
      then intents[n].(status := Reconciled) else intents[n]
  }

  /** The lock is re-entrant: only a different holder is refused. */
  predicate CanLock(db: Db, c: Client, id: SeqId) {
    c in db.locks ==> db.locks[c] == id
  }

  predicate Live(db: Db, id: SeqId) {
    id in db.seqs && !db.seqs[id].phase.Terminal()
  }

  ghost predicate AllTerminal(db: Db) {
    forall id | id in db.seqs :: db.seqs[id].phase.Terminal()
  }

  /** The stage is in the answer of GetCompletedStages. */
  predicate Recorded(db: Db, id: SeqId, i: nat) {
    StageKey(id, i) in db.stages && db.stages[StageKey(id, i)]
  }

  ghost predicate RecordedBelow(db: Db, id: SeqId, i: nat) {
    forall j: nat :: Recorded(db, id, j) <==> j < i
  }

  predicate HasIntent(db: Db, n: IntentId, id: SeqId, c: Client) {
    n in db.intents && db.intents[n].seqId == id && db.intents[n].client == c
  }

  // ---------------------------------------------------------------------
  // What every committed version of the tables satisfies.

  predicate FlagsAgree(r: SeqRow) {
    && (r.phase.ShuttingDown? || r.phase.Completed? ==> !r.aborted)
    && (r.phase.Aborting? || r.phase.Aborted? ==> r.aborted)
  }

  ghost predicate ReferencesHold(db: Db) {
    && (forall n | n in db.intents :: db.intents[n].seqId in db.seqs)
    && (forall k | k in db.stages :: k.seqId in db.seqs)
    && (forall c | c in db.locks :: db.locks[c] in db.seqs)
  }

  ghost predicate OneLive(db: Db) {
    forall a, b | Live(db, a) && Live(db, b) :: a == b
  }

  ghost predicate RecordsFormPrefix(db: Db) {
    forall id, i: nat, j: nat | Recorded(db, id, i) && j < i :: Recorded(db, id, j)
  }

  ghost predicate Good(db: Db) {
    && ReferencesHold(db)
    && OneLive(db)
    && RecordsFormPrefix(db)
    && (forall id | id in db.seqs :: FlagsAgree(db.seqs[id]))
  }

  // ---------------------------------------------------------------------
  // How a later version relates to an earlier one.

  predicate RowLe(r: SeqRow, r': SeqRow) {
    && r.plan == r'.plan
    && r.phase.Rank() <= r'.phase.Rank()
    && (r.ponr ==> r'.ponr)
    && (r.aborted ==> r'.aborted)
    && (r.postRun ==> r'.postRun)
    && (r.phase.Terminal() ==> r == r')
  }

  ghost predicate RowsAdvance(a: Db, b: Db) {
    forall id | id in a.seqs :: id in b.seqs && RowLe(a.seqs[id], b.seqs[id])
  }

  ghost predicate IntentsStay(a: Db, b: Db) {
    forall n | n in a.intents :: HasIntent(b, n, a.intents[n].seqId, a.intents[n].client)
  }

  ghost predicate RecordsStay(a: Db, b: Db) {
    forall id, i: nat | Recorded(a, id, i) :: Recorded(b, id, i)
  }

  ghost predicate Advances(a: Db, b: Db) {
    RowsAdvance(a, b) && IntentsStay(a, b) && RecordsStay(a, b)
  }

  lemma AdvancesTransitive(a: Db, b: Db, c: Db)
    requires Advances(a, b) && Advances(b, c)
    ensures Advances(a, c)
  {
    forall id | id in a.seqs ensures id in c.seqs && RowLe(a.seqs[id], c.seqs[id]) {
      assert RowLe(a.seqs[id], b.seqs[id]);
      assert RowLe(b.seqs[id], c.seqs[id]);
    }
    forall n | n in a.intents ensures HasIntent(c, n, a.intents[n].seqId, a.intents[n].client) {
      assert HasIntent(b, n, a.intents[n].seqId, a.intents[n].client);
    }
  }

  // ---------------------------------------------------------------------
  // The discipline the executor follows when it writes.

  ghost predicate LegalRow(db: Db, id: SeqId, row: SeqRow) {
    && FlagsAgree(row)
    && (id in db.seqs ==>
        && !db.seqs[id].phase.Terminal()
        && RowLe(db.seqs[id], row))
    && (id !in db.seqs ==> AllTerminal(db) && !row.phase.Terminal())
  }

  ghost predicate Legal(db: Db, w: Write) {
    match w
    case SaveSequence(id, row) => LegalRow(db, id, row)
    case SaveStageRecord(id, index, completed) => Live(db, id) && RecordedBelow(db, id, index)
    case SaveIntent(n, intent) =>
      && intent.seqId in db.seqs
      && (n in db.intents ==> HasIntent(db, n, intent.seqId, intent.client))
    case AcquireClientLock(c, id) => Live(db, id) && CanLock(db, c, id)
    case ReleaseSequenceLocks(id) => id in db.seqs && !Live(db, id)
    case FailOrphanedSequence(id) => Live(db, id)
  }

  /** A legal write keeps every version good and only moves the tables forward. */
  lemma LegalWriteAdvances(db: Db, w: Write)
    requires Good(db) && Legal(db, w)
    ensures Good(Apply(db, w)) && Advances(db, Apply(db, w))
  {
    match w
    case SaveSequence(id, row) => LegalSequence(db, id, row);
    case SaveStageRecord(id, index, completed) => LegalStage(db, id, index, completed);
    case SaveIntent(n, intent) => LegalIntent(db, n, intent);
    case AcquireClientLock(c, id) => OnlyLocksChange(db, Apply(db, w), id);
    case ReleaseSequenceLocks(id) => OnlyLocksChange(db, Apply(db, w), id);
    case FailOrphanedSequence(id) => LegalOrphan(db, id);
  }

  lemma OnlyLocksChange(db: Db, db': Db, id: SeqId)
    requires Good(db) && db' == db.(locks := db'.locks) && id in db.seqs
    requires forall c | c in db'.locks :: db'.locks[c] == id || (c in db.locks && db.locks[c] == db'.locks[c])
    ensures Good(db') && Advances(db, db')
  {
    assert forall k :: Live(db', k) <==> Live(db, k);
    assert forall j, i: nat :: Recorded(db', j, i) <==> Recorded(db, j, i);
  }

  lemma LegalSequence(db: Db, id: SeqId, row: SeqRow)
    requires Good(db) && LegalRow(db, id, row)
    ensures Good(Apply(db, SaveSequence(id, row))) && Advances(db, Apply(db, SaveSequence(id, row)))
  {
    var db' := Apply(db, SaveSequence(id, row));
    forall a, b | Live(db', a) && Live(db', b) ensures a == b {
      assert a != id ==> Live(db, a);
      assert b != id ==> Live(db, b);
      assert id in db.seqs ==> Live(db, id);
    }
    assert forall j, i: nat :: Recorded(db', j, i) <==> Recorded(db, j, i);
  }

  lemma LegalStage(db: Db, id: SeqId, index: nat, completed: bool)
    requires Good(db) && Live(db, id) && RecordedBelow(db, id, index)
    ensures Good(Apply(db, SaveStageRecord(id, index, completed)))
    ensures Advances(db, Apply(db, SaveStageRecord(id, index, completed)))
    ensures RecordedBelow(Apply(db, SaveStageRecord(id, index, completed)), id,
                          if completed then index + 1 else index)
  {
    var db' := Apply(db, SaveStageRecord(id, index, completed));
    assert forall k, i: nat :: k != id ==> (Recorded(db', k, i) <==> Recorded(db, k, i));
    assert forall i: nat :: i != index ==> (Recorded(db', id, i) <==> Recorded(db, id, i));
    assert Recorded(db', id, index) <==> completed;
    assert !Recorded(db, id, index);
    assert forall k :: Live(db', k) <==> Live(db, k);
  }

  lemma LegalIntent(db: Db, n: IntentId, intent: Intent)
    requires Good(db) && Legal(db, SaveIntent(n, intent))
    ensures Good(Apply(db, SaveIntent(n, intent))) && Advances(db, Apply(db, SaveIntent(n, intent)))
    ensures HasIntent(Apply(db, SaveIntent(n, intent)), n, intent.seqId, intent.client)
  {
    var db' := Apply(db, SaveIntent(n, intent));
    assert forall k :: Live(db', k) <==> Live(db, k);
    assert forall j, i: nat :: Recorded(db', j, i) <==> Recorded(db, j, i);
  }

  lemma LegalOrphan(db: Db, id: SeqId)
    requires Good(db) && Live(db, id)
    ensures Good(Apply(db, FailOrphanedSequence(id))) && Advances(db, Apply(db, FailOrphanedSequence(id)))
    ensures AllTerminal(Apply(db, FailOrphanedSequence(id)))
  {
    var db' := Apply(db, FailOrphanedSequence(id));
    assert forall j, i: nat :: Recorded(db', j, i) <==> Recorded(db, j, i);
    forall k | k in db'.seqs ensures db'.seqs[k].phase.Terminal() {
      assert k in db.seqs && (db.seqs[k].phase.Terminal() || Live(db, k));
    }
  }
}
