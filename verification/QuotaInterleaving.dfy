/**
 Any number of quota transactions at once, interleaved statement by statement.

 The database is reduced to what the code leans on: a statement that writes a row, inserts it, or
 selects it FOR UPDATE holds that row's lock until commit or rollback, and what it wrote is seen by
 others only after the commit.  The one read that takes no lock is SELECT .. FOR UPDATE of a
 counter row that is not there (`BlindRead`).
 */
module QuotaInterleaving {
  import opened QuotaLedger
  import opened QuotaSerial

  datatype Resource = Counter(key: Key) | Reservation(id: RowId)

  /** The row a statement is about to lock, if it touches one. */
  function Target(st: Step, loc: Local): set<Resource> {
    match st
    case TryReserve(k, units, limit) => if units > limit then {} else {Counter(k)}
    case AddRow(id, _) => if loc.ok then {Reservation(id)} else {}
    case ReadUsage(k) => {Counter(k)}
    case WriteGrant(k, requested, limit) => if Grant(loc.cur, requested, limit) == 0 then {} else {Counter(k)}
    case RecordRow(id, _) => {Reservation(id)}
    case Claim(id) => {Reservation(id)}
    case Mark(id, _) => {Reservation(id)}
    case Charge(id, _) => if id in loc.claimed then {Counter(KeyOf(id, loc.claimed[id]))} else {}
  }

  /** A transaction in progress: `over` is what it has written and not yet committed. */
  datatype Tx = Tx(txn: Txn, steps: seq<Step>, pc: nat, loc: Local, locks: set<Resource>, over: Ledger, live: bool)

  /** The committed ledger, the transactions, and the statements of those committed, in commit order. */
  datatype State = State(db: Ledger, txs: seq<Tx>, history: seq<seq<Step>>)

  datatype Event =
    | Begin(txn: Txn)
    | Advance(i: nat)    // the next statement of transaction i
    | Miss(i: nat)       // its UPDATE or INSERT matches nothing: settled already, or recorded already
    | BlindRead(i: nat)  // its FOR UPDATE finds no counter row, and locks nothing
    | Commit(i: nat)
    | Rollback(i: nat)

  function Started(t: Txn): Tx {
    Tx(t, Steps(t), 0, START, {}, EMPTY, true)
  }

  predicate Running(s: State, i: nat) {
    i < |s.txs| && s.txs[i].live && s.txs[i].pc < |s.txs[i].steps|
  }

  function NextStep(s: State, i: nat): Step
    requires Running(s, i)
  {
    s.txs[i].steps[s.txs[i].pc]
  }

  function Goal(s: State, i: nat): set<Resource>
    requires Running(s, i)
  {
    Target(NextStep(s, i), s.txs[i].loc)
  }

  predicate FreeFor(s: State, i: nat, rs: set<Resource>) {
    forall j | 0 <= j < |s.txs| && j != i :: s.txs[j].locks !! rs
  }

  /** What transaction i sees. */
  function View(s: State, i: nat): Ledger
    requires i < |s.txs|
  {
    Merge(s.db, s.txs[i].over)
  }

  ghost predicate Enabled(s: State, e: Event, lim: Key -> int) {
    match e
    case Begin(t) => TxnOk(t, lim)
    case Advance(i) =>
      && Running(s, i) && FreeFor(s, i, Goal(s, i))
      && RowMatches(NextStep(s, i), s.txs[i].loc, View(s, i))
      && (NextStep(s, i).ReadUsage? ==> NextStep(s, i).key in View(s, i).usage)
    case Miss(i) =>
      && Running(s, i) && s.txs[i].pc == 0 && FreeFor(s, i, Goal(s, i))
      && match s.txs[i].txn {
           case Settle(id, _) => id !in s.db.rows || s.db.rows[id].status != Reserved
           case Record(id, _) => id in s.db.rows
           case _ => false
         }
    case BlindRead(i) => Running(s, i) && NextStep(s, i).ReadUsage? && NextStep(s, i).key !in View(s, i).usage
    case Commit(i) =>
      && i < |s.txs| && s.txs[i].live && s.txs[i].pc == |s.txs[i].steps|
      && forall k :: View(s, i).recorded[k] <= View(s, i).accepted[k]
    case Rollback(i) => i < |s.txs| && s.txs[i].live
  }

  function Stepped(s: State, i: nat, locks: set<Resource>): State
    requires Running(s, i)
  {
    s.(txs := s.txs[i := After(s.db, s.txs[i], locks)])
  }

  function Ended(t: Tx): Tx {
    t.(locks := {}, over := EMPTY, live := false)
  }

  function Apply(s: State, e: Event): State {
    match e
    case Begin(t) => s.(txs := s.txs + [Started(t)])
    case Advance(i) => if Running(s, i) then Stepped(s, i, Goal(s, i)) else s
    case Miss(i) => if i < |s.txs| then s.(txs := s.txs[i := s.txs[i].(steps := [], pc := 0)]) else s
    case BlindRead(i) => if Running(s, i) then Stepped(s, i, {}) else s
    case Commit(i) =>
      if i < |s.txs|
      then State(View(s, i), s.txs[i := Ended(s.txs[i])], s.history + [s.txs[i].steps])
      else s
    case Rollback(i) => if i < |s.txs| then s.(txs := s.txs[i := Ended(s.txs[i])]) else s
  }

  function Play(s: State, es: seq<Event>): State {
    if es == [] then s else Apply(Play(s, es[..|es| - 1]), es[|es| - 1])
  }

  /** `es` is a run from `s`: each event is enabled where it happens. */
  ghost predicate IsRun(s: State, es: seq<Event>, lim: Key -> int) {
    es == [] || (IsRun(s, es[..|es| - 1], lim) && Enabled(Play(s, es[..|es| - 1]), es[|es| - 1], lim))
  }

  /** A blind read can do harm only if the key has any limit at all: a batch is granted nothing of the others. */
  ghost predicate Harmless(s: State, e: Event, lim: Key -> int) {
    match e
    case BlindRead(i) => Running(s, i) && NextStep(s, i).ReadUsage? && lim(NextStep(s, i).key) < 1
    case _ => true
  }

  ghost predicate AllHarmless(s: State, es: seq<Event>, lim: Key -> int) {
    es == [] || (AllHarmless(s, es[..|es| - 1], lim) && Harmless(Play(s, es[..|es| - 1]), es[|es| - 1], lim))
  }

  // ---------------------------------------------------------------- two-phase locking

  /** The two ledgers hold the same rows wherever `locks` says. */
  ghost predicate Agree(a: Ledger, b: Ledger, locks: set<Resource>) {
    && (forall k | Counter(k) in locks ::
        (k in a.usage <==> k in b.usage) && (k in a.usage ==> a.usage[k] == b.usage[k]))
    && (forall id | Reservation(id) in locks ::
        (id in a.rows <==> id in b.rows) && (id in a.rows ==> a.rows[id] == b.rows[id]))
  }

  ghost predicate WithinLocks(d: Ledger, locks: set<Resource>) {
    && (forall k | k in d.usage :: Counter(k) in locks)
    && (forall id | id in d.rows :: Reservation(id) in locks)
  }

  /** Keys without any limit count nothing. */
  ghost predicate Capped(l: Ledger, lim: Key -> int) {
    forall k | lim(k) < 1 :: Counters(l, k) == Usage(0, 0)
  }

  lemma GoodIsCapped(l: Ledger, lim: Key -> int)
    requires Good(l, lim)
    ensures Capped(l, lim)
  {
    forall k | lim(k) < 1 ensures Counters(l, k) == Usage(0, 0) {
      assert KeyOk(l, k, lim);
    }
  }

  /** Started now on any such ledger that agrees with the committed one on the rows it has locked, the
      transaction would have done exactly what it did. */
  ghost predicate Replayable(db: Ledger, t: Tx, lim: Key -> int) {
    forall l | Agree(l, db, t.locks) && Capped(l, lim) :: ReplaysOn(l, t)
  }

  ghost predicate ReplaysOn(l: Ledger, t: Tx)
  {
    t.pc <= |t.steps| && RowsMatch(t.steps[..t.pc], l) && Run(t.steps[..t.pc], l) == (t.loc, Merge(l, t.over))
  }

  /** Like `Valid`, without the condition on grants, which is checked at commit. */
  ghost predicate RowMatches(st: Step, loc: Local, l: Ledger) {
    match st
    case AddRow(id, _) => loc.ok ==> id !in l.rows
    case RecordRow(id, row) => id !in l.rows
    case Claim(id) => id in l.rows && l.rows[id].status == Reserved
    case _ => true
  }

  ghost predicate RowsMatch(steps: seq<Step>, l: Ledger) {
    steps == [] ||
    var before := steps[..|steps| - 1];
    RowsMatch(before, l) && RowMatches(steps[|steps| - 1], Run(before, l).0, Run(before, l).1)
  }

  lemma DeltaIsLocal(st: Step, loc: Local, a: Ledger, b: Ledger)
    requires Agree(a, b, Target(st, loc))
    ensures Delta(st, loc, a) == Delta(st, loc, b)
    ensures RowMatches(st, loc, a) == RowMatches(st, loc, b)
    ensures WithinLocks(Delta(st, loc, a).1, Target(st, loc))
  {
  }

  lemma MergeAgrees(a: Ledger, b: Ledger, d: Ledger, locks: set<Resource>)
    requires Agree(a, b, locks)
    ensures Agree(Merge(a, d), Merge(b, d), locks)
  {
  }

  lemma MapsAssociate<K, V>(a: map<K, V>, b: map<K, V>, c: map<K, V>)
    ensures a + b + c == a + (b + c)
  {
  }

  lemma MergeAssociates(l: Ledger, d: Ledger, e: Ledger)
    ensures Merge(Merge(l, d), e) == Merge(l, Merge(d, e))
  {
    MapsAssociate(l.usage, d.usage, e.usage);
    MapsAssociate(l.rows, d.rows, e.rows);
  }

  // ---------------------------------------------------------------- the invariant

  function Redo(history: seq<seq<Step>>, l: Ledger): Ledger {
    if history == [] then l
    else Run(history[|history| - 1], Redo(history[..|history| - 1], l)).1
  }

  ghost predicate TxOk(db: Ledger, t: Tx, lim: Key -> int) {
    && WithinLocks(t.over, t.locks)
    && (t.live ==> Replayable(db, t, lim) && TxnOk(t.txn, lim) && (t.steps == Steps(t.txn) || t.steps == []))
  }

  ghost predicate Exclusive(s: State) {
    forall i, j | 0 <= i < j < |s.txs| :: s.txs[i].locks !! s.txs[j].locks
  }

  ghost predicate Inv(s: State, origin: Ledger, lim: Key -> int) {
    && Exclusive(s)
    && (forall i | 0 <= i < |s.txs| :: TxOk(s.db, s.txs[i], lim))
    && Good(s.db, lim)
    && s.db == Redo(s.history, origin)
  }

  /** Transaction t after its next statement, run on committed ledger db. */
  function After(db: Ledger, t: Tx, locks: set<Resource>): Tx
    requires t.pc < |t.steps|
  {
    var (loc, d) := Delta(t.steps[t.pc], t.loc, Merge(db, t.over));
    t.(pc := t.pc + 1, loc := loc, locks := t.locks + locks, over := Merge(t.over, d))
  }

  lemma StepReplaysOn(l: Ledger, db: Ledger, t: Tx, locks: set<Resource>)
    requires t.pc < |t.steps| && ReplaysOn(l, t)
    requires Delta(t.steps[t.pc], t.loc, Merge(l, t.over)) == Delta(t.steps[t.pc], t.loc, Merge(db, t.over))
    requires RowMatches(t.steps[t.pc], t.loc, Merge(l, t.over))
    ensures ReplaysOn(l, After(db, t, locks))
  {
    var st := t.steps[t.pc];
    var d := Delta(st, t.loc, Merge(db, t.over)).1;
    var before, steps := t.steps[..t.pc], t.steps[..t.pc + 1];
    assert steps[..|steps| - 1] == before && steps[|steps| - 1] == st;
    assert Run(steps, l) == Exec(st, Run(before, l));
    MergeAssociates(l, t.over, d);
  }

  lemma SteppedReplays(db: Ledger, t: Tx, locks: set<Resource>, lim: Key -> int)
    requires t.pc < |t.steps| && Replayable(db, t, lim) && WithinLocks(t.over, t.locks)
    requires Target(t.steps[t.pc], t.loc) <= locks
    requires RowMatches(t.steps[t.pc], t.loc, Merge(db, t.over))
    ensures var t' := After(db, t, locks); Replayable(db, t', lim) && WithinLocks(t'.over, t'.locks)
  {
    var t', st := After(db, t, locks), t.steps[t.pc];
    forall l | Agree(l, db, t'.locks) && Capped(l, lim) ensures ReplaysOn(l, t') {
      assert Agree(l, db, t.locks) && ReplaysOn(l, t);
      MergeAgrees(l, db, t.over, Target(st, t.loc));
      DeltaIsLocal(st, t.loc, Merge(l, t.over), Merge(db, t.over));
      StepReplaysOn(l, db, t, locks);
    }
    DeltaIsLocal(st, t.loc, Merge(db, t.over), Merge(db, t.over));
  }

  /** A counter that is not there, of a key without any limit, reads the same on every such ledger. */
  lemma BlindReplays(db: Ledger, t: Tx, lim: Key -> int)
    requires t.pc < |t.steps| && Replayable(db, t, lim) && WithinLocks(t.over, t.locks)
    requires t.steps[t.pc].ReadUsage? && lim(t.steps[t.pc].key) < 1 && t.steps[t.pc].key !in Merge(db, t.over).usage
    ensures var t' := After(db, t, {}); Replayable(db, t', lim) && WithinLocks(t'.over, t'.locks)
  {
    var t', k := After(db, t, {}), t.steps[t.pc].key;
    assert t'.locks == t.locks;
    forall l | Agree(l, db, t'.locks) && Capped(l, lim) ensures ReplaysOn(l, t') {
      assert ReplaysOn(l, t) && k !in t.over.usage;
      assert Counters(Merge(l, t.over), k) == Counters(l, k) == Usage(0, 0);
      StepReplaysOn(l, db, t, {});
    }
  }

  lemma CommitFrames(db: Ledger, d: Ledger, mine: set<Resource>, t: Tx, lim: Key -> int)
    requires WithinLocks(d, mine) && mine !! t.locks && Replayable(db, t, lim)
    ensures Replayable(Merge(db, d), t, lim)
  {
  }

  lemma {:induction false} RowsMatchIsValid(t: Txn, l: Ledger)
    requires RowsMatch(Steps(t), l)
    requires forall k :: Run(Steps(t), l).1.recorded[k] <= Run(Steps(t), l).1.accepted[k]
    ensures Valid(Steps(t), l)
  {
    if t.Record? {
      var steps := [RecordRow(t.id, t.row)];
      assert steps[..0] == [];
      assert Run(steps, l) == Exec(steps[0], Run([], l));
      var k := KeyOf(t.id, t.row);
      assert Run(steps, l).1.recorded[k] == l.recorded[k] + t.row.units;
      assert Run(steps, l).1.accepted[k] == l.accepted[k];
    } else {
      NoRecordRow(t);
      MatchAll(Steps(t), l);
    }
  }

  lemma {:induction false} MatchAll(steps: seq<Step>, l: Ledger)
    requires RowsMatch(steps, l) && forall st | st in steps :: !st.RecordRow?
    ensures Valid(steps, l)
  {
    if steps != [] {
      MatchAll(steps[..|steps| - 1], l);
    }
  }

  lemma NoRecordRow(t: Txn)
    requires !t.Record?
    ensures forall st | st in Steps(t) :: !st.RecordRow?
  {
    match t
    case ReserveMany(items, n, now) => NoRecordInReserve(items, n, now);
    case ReserveBatch(items) => NoRecordInBatch(items);
    case Settle(id, outcome) => NoRecordInSweep([id], outcome);
    case Sweep(ids) => NoRecordInSweep(ids, Released);
  }

  lemma NoRecordInReserve(items: seq<Item>, n: string, now: int)
    ensures forall st | st in ReserveSteps(items, n, now) :: !st.RecordRow?
  {
  }

  lemma NoRecordInBatch(items: seq<Item>)
    ensures forall st | st in BatchSteps(items) :: !st.RecordRow?
  {
  }

  lemma {:induction false} NoRecordInSweep(ids: seq<RowId>, outcome: Status)
    ensures forall st | st in ClaimSteps(ids) + FinishSteps(ids, outcome) :: !st.RecordRow?
  {
    if ids != [] {
      NoRecordInSweep(ids[..|ids| - 1], outcome);
    }
  }

  // ---------------------------------------------------------------- each event keeps it

  lemma BeginKeepsInv(s: State, t: Txn, origin: Ledger, lim: Key -> int)
    requires Inv(s, origin, lim) && TxnOk(t, lim)
    ensures Inv(Apply(s, Begin(t)), origin, lim)
  {
    var n := Started(t);
    forall l | Agree(l, s.db, n.locks) && Capped(l, lim) ensures ReplaysOn(l, n) {
      assert n.steps[..0] == [] && Merge(l, EMPTY) == l;
    }
  }

  lemma AdvanceKeepsInv(s: State, i: nat, origin: Ledger, lim: Key -> int)
    requires Inv(s, origin, lim) && Enabled(s, Advance(i), lim)
    ensures Inv(Apply(s, Advance(i)), origin, lim)
  {
    assert TxOk(s.db, s.txs[i], lim);
    SteppedReplays(s.db, s.txs[i], Goal(s, i), lim);
    var s' := Apply(s, Advance(i));
    forall j | 0 <= j < |s'.txs| ensures TxOk(s'.db, s'.txs[j], lim) {
      if j != i {
        assert TxOk(s.db, s.txs[j], lim);
      }
    }
  }

  lemma BlindReadKeepsInv(s: State, i: nat, origin: Ledger, lim: Key -> int)
    requires Inv(s, origin, lim) && Enabled(s, BlindRead(i), lim) && Harmless(s, BlindRead(i), lim)
    ensures Inv(Apply(s, BlindRead(i)), origin, lim)
  {
    assert TxOk(s.db, s.txs[i], lim);
    BlindReplays(s.db, s.txs[i], lim);
    var s' := Apply(s, BlindRead(i));
    forall j | 0 <= j < |s'.txs| ensures TxOk(s'.db, s'.txs[j], lim) {
      if j != i {
        assert TxOk(s.db, s.txs[j], lim);
      }
    }
  }

  lemma MissKeepsInv(s: State, i: nat, origin: Ledger, lim: Key -> int)
    requires Inv(s, origin, lim) && Enabled(s, Miss(i), lim)
    ensures Inv(Apply(s, Miss(i)), origin, lim)
  {
  }

  /** A commit is the whole transaction run at once on the committed ledger. */
  lemma CommitIsSerial(s: State, i: nat, origin: Ledger, lim: Key -> int)
    requires Inv(s, origin, lim) && Enabled(s, Commit(i), lim)
    ensures View(s, i) == Run(s.txs[i].steps, s.db).1
    ensures Good(View(s, i), lim)
  {
    var t := s.txs[i];
    assert TxOk(s.db, t, lim);
    GoodIsCapped(s.db, lim);
    assert Agree(s.db, s.db, t.locks) && ReplaysOn(s.db, t);
    assert t.steps[..t.pc] == t.steps;
    if t.steps == Steps(t.txn) {
      RowsMatchIsValid(t.txn, s.db);
      TxnKeepsGood(t.txn, s.db, lim);
    }
  }

  lemma CommitKeepsInv(s: State, i: nat, origin: Ledger, lim: Key -> int)
    requires Inv(s, origin, lim) && Enabled(s, Commit(i), lim)
    ensures Inv(Apply(s, Commit(i)), origin, lim)
  {
    CommitIsSerial(s, i, origin, lim);
    var s' := Apply(s, Commit(i));
    assert s'.history[..|s'.history| - 1] == s.history;
    assert TxOk(s.db, s.txs[i], lim);
    forall j | 0 <= j < |s'.txs| ensures TxOk(s'.db, s'.txs[j], lim) {
      if j != i && s.txs[j].live {
        assert TxOk(s.db, s.txs[j], lim);
        CommitFrames(s.db, s.txs[i].over, s.txs[i].locks, s.txs[j], lim);
      } else if j != i {
        assert TxOk(s.db, s.txs[j], lim);
      }
    }
  }

  lemma RollbackKeepsInv(s: State, i: nat, origin: Ledger, lim: Key -> int)
    requires Inv(s, origin, lim) && Enabled(s, Rollback(i), lim)
    ensures Inv(Apply(s, Rollback(i)), origin, lim)
  {
  }

  lemma {:induction false} RunsKeepInv(s: State, es: seq<Event>, origin: Ledger, lim: Key -> int)
    requires Inv(s, origin, lim) && IsRun(s, es, lim) && AllHarmless(s, es, lim)
    ensures Inv(Play(s, es), origin, lim)
  {
    if es != [] {
      var before, e := es[..|es| - 1], es[|es| - 1];
      RunsKeepInv(s, before, origin, lim);
      var m := Play(s, before);
      match e
      case Begin(t) => BeginKeepsInv(m, t, origin, lim);
      case Advance(i) => AdvanceKeepsInv(m, i, origin, lim);
      case BlindRead(i) => BlindReadKeepsInv(m, i, origin, lim);
      case Miss(i) => MissKeepsInv(m, i, origin, lim);
      case Commit(i) => CommitKeepsInv(m, i, origin, lim);
      case Rollback(i) => RollbackKeepsInv(m, i, origin, lim);
    }
  }

  // ---------------------------------------------------------------- the theorems

  function Idle(l: Ledger): State {
    State(l, [], [])
  }

  lemma IdleIsInv(l: Ledger, lim: Key -> int)
    requires Good(l, lim)
    ensures Inv(Idle(l), l, lim)
  {
  }

  /** Cap safety and conservation: whatever the interleaving, as long as every batch finds the counter
      rows it selects FOR UPDATE, or asks for a key without any limit, each committed counter stays within
      its limit and says what the rows say; and the ledger is the committed transactions run one after
      another, in commit order. */
  lemma InterleavingsAreSafe(l: Ledger, es: seq<Event>, lim: Key -> int)
    requires Good(l, lim) && IsRun(Idle(l), es, lim) && AllHarmless(Idle(l), es, lim)
    ensures var s := Play(Idle(l), es); Good(s.db, lim) && s.db == Redo(s.history, l)
  {
    IdleIsInv(l, lim);
    RunsKeepInv(Idle(l), es, l, lim);
  }

  // ---------------------------------------------------------------- runs composed

  lemma {:induction false} PlayAppends(s: State, a: seq<Event>, b: seq<Event>, lim: Key -> int)
    requires IsRun(s, a, lim) && IsRun(Play(s, a), b, lim)
    ensures IsRun(s, a + b, lim) && Play(s, a + b) == Play(Play(s, a), b)
  {
    if b == [] {
      assert a + b == a;
    } else {
      assert (a + b)[..|a + b| - 1] == a + b[..|b| - 1];
      PlayAppends(s, a, b[..|b| - 1], lim);
    }
  }

  lemma {:induction false} RunThrough(es: seq<Event>, s: State, states: seq<State>, lim: Key -> int)
    requires |states| == |es| + 1 && states[0] == s
    requires forall i | 0 <= i < |es| :: Enabled(states[i], es[i], lim) && states[i + 1] == Apply(states[i], es[i])
    ensures IsRun(s, es, lim) && Play(s, es) == states[|es|]
  {
    if es != [] {
      RunThrough(es[..|es| - 1], s, states[..|es|], lim);
    }
  }
}
