/**
 Two more facts about interleaved quota transactions: settled reservations stay settled, and
 transactions that reserve never deadlock among themselves, nor with those that record and settle.
 */
module QuotaLocks {
  import opened QuotaLedger
  import opened QuotaSerial
  import opened QuotaInterleaving

  // ---------------------------------------------------------------- settled once

  /** What a transaction has claimed is locked and still reserved; what it has rewritten was reserved. */
  ghost predicate ClaimOk(rows: map<RowId, Row>, t: Tx) {
    && (forall id | id in t.over.rows :: Reservation(id) in t.locks)
    && (t.live ==> forall id | id in t.loc.claimed ::
          Reservation(id) in t.locks && (id in rows ==> rows[id] == t.loc.claimed[id] && rows[id].status == Reserved))
    && (forall id | id in t.over.rows && id in rows ::
          rows[id].status == Reserved && SameButStatus(t.over.rows[id], rows[id]))
  }

  predicate SameButStatus(a: Row, b: Row) {
    a.(status := Reserved) == b.(status := Reserved)
  }

  ghost predicate ClaimInv(s: State) {
    Exclusive(s) && forall i | 0 <= i < |s.txs| :: ClaimOk(s.db.rows, s.txs[i])
  }

  /** `after` keeps every row of `before`, and a row that was settled keeps its outcome too. */
  ghost predicate Settles(before: map<RowId, Row>, after: map<RowId, Row>) {
    forall id | id in before ::
      id in after && SameButStatus(after[id], before[id]) && (before[id].status != Reserved ==> after[id] == before[id])
  }

  lemma ClaimKeepsClaim(rows: map<RowId, Row>, t: Tx, id: RowId, row: Row)
    requires ClaimOk(rows, t) && t.live
    requires row.status == Reserved
             && ((id in t.over.rows && t.over.rows[id] == row) || (id in rows && rows[id] == row))
    ensures ClaimOk(rows, t.(loc := t.loc.(claimed := t.loc.claimed[id := row]), locks := t.locks + {Reservation(id)}))
  {
  }

  lemma WriteKeepsClaim(rows: map<RowId, Row>, t: Tx, id: RowId, row: Row)
    requires ClaimOk(rows, t) && t.live
    requires id in rows ==> rows[id].status == Reserved && SameButStatus(row, rows[id])
    ensures ClaimOk(rows,
                    t.(over := Merge(t.over, EMPTY.(rows := map[id := row])), locks := t.locks + {Reservation(id)}))
  {
  }

  /** Only the rows part of a transaction matters, and more locks never hurt. */
  lemma ClaimIgnoresTheRest(rows: map<RowId, Row>, t: Tx, t': Tx)
    requires ClaimOk(rows, t) && t'.live == t.live && t.locks <= t'.locks
    requires t'.over.rows == t.over.rows && t'.loc.claimed == t.loc.claimed
    ensures ClaimOk(rows, t')
  {
  }

  lemma StepKeepsClaim(s: State, i: nat, locks: set<Resource>)
    requires ClaimInv(s) && Running(s, i) && (Goal(s, i) <= locks || NextStep(s, i).ReadUsage?)
    requires RowMatches(NextStep(s, i), s.txs[i].loc, View(s, i))
    ensures ClaimOk(s.db.rows, Stepped(s, i, locks).txs[i])
  {
    var t, st := s.txs[i], NextStep(s, i);
    var t' := Stepped(s, i, locks).txs[i];
    assert ClaimOk(s.db.rows, t);
    if st.Claim? {
      ClaimKeepsClaim(s.db.rows, t, st.id, View(s, i).rows[st.id]);
    } else if st.Mark? && st.id in t.loc.claimed && st.id in View(s, i).rows {
      WriteKeepsClaim(s.db.rows, t, st.id, View(s, i).rows[st.id].(status := st.outcome));
    } else if st.AddRow? && t.loc.ok {
      WriteKeepsClaim(s.db.rows, t, st.id, st.row);
    } else if st.RecordRow? {
      WriteKeepsClaim(s.db.rows, t, st.id, st.row);
    } else {
      ClaimIgnoresTheRest(s.db.rows, t, t');
    }
  }

  lemma EventSettles(s: State, e: Event, lim: Key -> int)
    requires ClaimInv(s) && Enabled(s, e, lim)
    ensures ClaimInv(Apply(s, e)) && Settles(s.db.rows, Apply(s, e).db.rows)
  {
    var s' := Apply(s, e);
    forall j | 0 <= j < |s'.txs| ensures ClaimOk(s'.db.rows, s'.txs[j]) {
      if j < |s.txs| {
        assert ClaimOk(s.db.rows, s.txs[j]);
      }
      match e
      case Begin(_) =>
      case Advance(i) => if j == i { StepKeepsClaim(s, i, Goal(s, i)); }
      case BlindRead(i) => if j == i { StepKeepsClaim(s, i, {}); }
      case Miss(i) =>
      case Commit(i) => if j != i { assert s.txs[i].locks !! s.txs[j].locks; }
      case Rollback(i) =>
    }
    if e.Commit? {
      assert ClaimOk(s.db.rows, s.txs[e.i]);
    }
  }

  lemma {:induction false} RunSettles(s: State, es: seq<Event>, lim: Key -> int)
    requires ClaimInv(s) && IsRun(s, es, lim)
    ensures ClaimInv(Play(s, es)) && Settles(s.db.rows, Play(s, es).db.rows)
  {
    if es != [] {
      RunSettles(s, es[..|es| - 1], lim);
      EventSettles(Play(s, es[..|es| - 1]), es[|es| - 1], lim);
    }
  }

  /** Exactly-once settlement: between any two moments of any run, no reservation is lost, and one that
      was consumed or released keeps that first outcome whatever settles or sweeps come later. */
  lemma FirstOutcomeWins(l: Ledger, es: seq<Event>, more: seq<Event>, lim: Key -> int)
    requires IsRun(Idle(l), es + more, lim)
    ensures Settles(Play(Idle(l), es).db.rows, Play(Idle(l), es + more).db.rows)
  {
    RunSplits(Idle(l), es, more, lim);
    RunSettles(Idle(l), es, lim);
    RunSettles(Play(Idle(l), es), more, lim);
  }

  lemma {:induction false} RunSplits(s: State, a: seq<Event>, b: seq<Event>, lim: Key -> int)
    requires IsRun(s, a + b, lim)
    ensures IsRun(s, a, lim) && IsRun(Play(s, a), b, lim) && Play(s, a + b) == Play(Play(s, a), b)
  {
    if b == [] {
      assert a + b == a;
    } else {
      assert (a + b)[..|a + b| - 1] == a + b[..|b| - 1];
      RunSplits(s, a, b[..|b| - 1], lim);
    }
  }

  // ---------------------------------------------------------------- no deadlock among reservers

  /** Lock order: by channel, the counter before the reservation row. */
  predicate Lower(a: Resource, b: Resource) {
    Before(ChannelOf(a), ChannelOf(b)) || (ChannelOf(a) == ChannelOf(b) && a.Counter? && b.Reservation?)
  }

  function ChannelOf(r: Resource): string {
    match r
    case Counter(k) => k.channel
    case Reservation(id) => id.channel
  }

  lemma LowerIsTransitive(a: Resource, b: Resource, c: Resource)
    requires Lower(a, b) && Lower(b, c)
    ensures Lower(a, c)
  {
    if Before(ChannelOf(a), ChannelOf(b)) && Before(ChannelOf(b), ChannelOf(c)) {
      BeforeIsTransitive(ChannelOf(a), ChannelOf(b), ChannelOf(c));
    }
  }

  lemma LowerIsIrreflexive(a: Resource)
    ensures !Lower(a, a)
  {
    BeforeIsIrreflexive(ChannelOf(a));
  }

  predicate Reserves(t: Txn) {
    t.ReserveMany? || t.ReserveBatch?
  }

  /** The row statement p of a reserving transaction works on. */
  function RowOf(t: Txn, p: nat): Resource
    requires Reserves(t) && p < |Steps(t)|
  {
    var items := if t.ReserveMany? then t.items else t.batch;
    if t.ReserveMany? && p % 2 == 1 then Reservation(RowId(t.notification, items[p / 2].key.channel))
    else Counter(items[p / 2].key)
  }

  lemma {:induction false} StepTargets(t: Txn, p: nat, loc: Local)
    requires Reserves(t) && p < |Steps(t)|
    ensures Target(Steps(t)[p], loc) <= {RowOf(t, p)}
    decreases if t.ReserveMany? then |t.items| else |t.batch|
  {
    if t.ReserveMany? {
      if p < 2 * (|t.items| - 1) {
        StepTargets(t.(items := t.items[..|t.items| - 1]), p, loc);
      }
    } else {
      if p < 2 * (|t.batch| - 1) {
        StepTargets(t.(batch := t.batch[..|t.batch| - 1]), p, loc);
      }
    }
  }

  lemma RowsAscend(t: Txn, p: nat, q: nat, lim: Key -> int)
    requires TxnOk(t, lim) && Reserves(t) && p < q < |Steps(t)|
    ensures RowOf(t, p) == RowOf(t, q) || Lower(RowOf(t, p), RowOf(t, q))
  {
  }

  /** A reserving transaction holds nothing but rows of statements it is past. */
  ghost predicate LocksBehind(t: Tx, lim: Key -> int) {
    Reserves(t.txn) ==>
      && TxnOk(t.txn, lim) && t.steps == Steps(t.txn) && t.pc <= |t.steps|
      && (forall r | r in t.locks :: exists p :: 0 <= p < t.pc && RowOf(t.txn, p) == r)
  }

  ghost predicate LockInv(s: State, lim: Key -> int) {
    Exclusive(s) && forall i | 0 <= i < |s.txs| :: LocksBehind(s.txs[i], lim)
  }

  lemma StepKeepsLocksBehind(s: State, i: nat, locks: set<Resource>, lim: Key -> int)
    requires LockInv(s, lim) && Running(s, i) && locks <= Goal(s, i)
    ensures LocksBehind(Stepped(s, i, locks).txs[i], lim)
  {
    var t, t' := s.txs[i], Stepped(s, i, locks).txs[i];
    assert LocksBehind(t, lim);
    if Reserves(t.txn) {
      StepTargets(t.txn, t.pc, t.loc);
      forall r | r in t'.locks ensures exists p :: 0 <= p < t'.pc && RowOf(t'.txn, p) == r {
        if r in t.locks {
          var p :| 0 <= p < t.pc && RowOf(t.txn, p) == r;
        } else {
          assert RowOf(t.txn, t.pc) == r;
        }
      }
    }
  }

  lemma EventKeepsLockInv(s: State, e: Event, lim: Key -> int)
    requires LockInv(s, lim) && Enabled(s, e, lim)
    ensures LockInv(Apply(s, e), lim)
  {
    var s' := Apply(s, e);
    forall j | 0 <= j < |s'.txs| ensures LocksBehind(s'.txs[j], lim) {
      if j < |s.txs| {
        assert LocksBehind(s.txs[j], lim);
      }
      match e
      case Begin(_) =>
      case Advance(i) => if j == i { StepKeepsLocksBehind(s, i, Goal(s, i), lim); }
      case BlindRead(i) => if j == i { StepKeepsLocksBehind(s, i, {}, lim); }
      case Miss(i) =>
      case Commit(i) =>
      case Rollback(i) =>
    }
  }

  lemma {:induction false} RunKeepsLockInv(s: State, es: seq<Event>, lim: Key -> int)
    requires LockInv(s, lim) && IsRun(s, es, lim)
    ensures LockInv(Play(s, es), lim)
  {
    if es != [] {
      RunKeepsLockInv(s, es[..|es| - 1], lim);
      EventKeepsLockInv(Play(s, es[..|es| - 1]), es[|es| - 1], lim);
    }
  }

  /** i waits for j: its next statement needs a row j has locked. */
  ghost predicate WaitsFor(s: State, i: nat, j: nat) {
    Running(s, i) && j < |s.txs| && j != i && Goal(s, i) * s.txs[j].locks != {}
  }

  ghost predicate AllReserve(s: State, path: seq<nat>) {
    forall m | 0 <= m < |path| :: path[m] < |s.txs| && Reserves(s.txs[path[m]].txn)
  }

  /** The row i is about to work on (any row, if i is not a reserving transaction at work). */
  function Wanted(s: State, i: nat): Resource {
    if Running(s, i) && Reserves(s.txs[i].txn) && s.txs[i].steps == Steps(s.txs[i].txn)
    then RowOf(s.txs[i].txn, s.txs[i].pc) else Counter(Key("", "", "", ""))
  }

  lemma WaitingRises(s: State, i: nat, j: nat, k: nat, lim: Key -> int)
    requires LockInv(s, lim) && WaitsFor(s, i, j) && WaitsFor(s, j, k)
    requires Reserves(s.txs[i].txn) && Reserves(s.txs[j].txn)
    ensures Lower(Wanted(s, i), Wanted(s, j))
  {
    var ti, tj := s.txs[i], s.txs[j];
    assert LocksBehind(ti, lim) && LocksBehind(tj, lim);
    StepTargets(ti.txn, ti.pc, ti.loc);
    StepTargets(tj.txn, tj.pc, tj.loc);
    var r :| r in Goal(s, i) * tj.locks;
    var g :| g in Goal(s, j) * s.txs[k].locks;
    var p :| 0 <= p < tj.pc && RowOf(tj.txn, p) == r;
    assert tj.locks !! s.txs[k].locks;
    RowsAscend(tj.txn, p, tj.pc, lim);
  }

  ghost predicate WaitChain(s: State, path: seq<nat>) {
    forall m, n | 0 <= m < |path| && n == m + 1 && n < |path| :: WaitsFor(s, path[m], path[n])
  }

  /** Along a chain of waiting transactions the wanted rows rise. */
  lemma {:induction false} ChainRises(s: State, path: seq<nat>, m: nat, lim: Key -> int)
    requires LockInv(s, lim) && WaitChain(s, path) && AllReserve(s, path) && 1 <= m < |path| - 1
    ensures Lower(Wanted(s, path[0]), Wanted(s, path[m]))
  {
    var before, here, next := path[m - 1], path[m], path[m + 1];
    assert WaitsFor(s, before, here) && WaitsFor(s, here, next);
    WaitingRises(s, before, here, next, lim);
    if m > 1 {
      ChainRises(s, path, m - 1, lim);
      LowerIsTransitive(Wanted(s, path[0]), Wanted(s, before), Wanted(s, here));
    }
  }

  lemma RoundAgain(s: State, circle: seq<nat>)
    requires WaitChain(s, circle) && AllReserve(s, circle) && |circle| >= 2 && circle[0] == circle[|circle| - 1]
    ensures WaitChain(s, circle + [circle[1]]) && AllReserve(s, circle + [circle[1]])
  {
    assert WaitsFor(s, circle[0], circle[1]);
  }

  lemma CircleRises(s: State, circle: seq<nat>, lim: Key -> int)
    requires LockInv(s, lim) && WaitChain(s, circle) && AllReserve(s, circle)
    requires |circle| >= 2 && circle[0] == circle[|circle| - 1]
    ensures Lower(Wanted(s, circle[0]), Wanted(s, circle[0]))
  {
    var path, last := circle + [circle[1]], |circle| - 1;
    RoundAgain(s, circle);
    ChainRises(s, path, last, lim);
    assert path[0] == circle[0] && path[last] == circle[last];
  }

  lemma NoCircle(s: State, circle: seq<nat>, lim: Key -> int)
    requires LockInv(s, lim) && WaitChain(s, circle) && AllReserve(s, circle) && |circle| >= 2
    ensures circle[0] != circle[|circle| - 1]
  {
    if circle[0] == circle[|circle| - 1] {
      CircleRises(s, circle, lim);
      LowerIsIrreflexive(Wanted(s, circle[0]));
    }
  }

  /** No deadlock: in no state of any run, blind reads included, do reserving transactions wait for each
      other in a circle. */
  lemma ReserversNeverDeadlock(l: Ledger, es: seq<Event>, circle: seq<nat>, lim: Key -> int)
    requires IsRun(Idle(l), es, lim) && |circle| >= 2
    requires WaitChain(Play(Idle(l), es), circle) && AllReserve(Play(Idle(l), es), circle)
    ensures circle[0] != circle[|circle| - 1]
  {
    RunKeepsLockInv(Idle(l), es, lim);
    NoCircle(Play(Idle(l), es), circle, lim);
  }

  // ---------------------------------------------------------------- nor with recorders and settlers

  /** A recorder at work holds nothing yet, a settler at most its reservation. */
  ghost predicate HoldsLittle(t: Tx) {
    match t.txn
    case Record(id, row) => t.steps in {[], Steps(t.txn)} && (t.live && t.pc < |t.steps| ==> t.pc == 0 && t.locks == {})
    case Settle(id, outcome) =>
      && t.steps in {[], Steps(t.txn)} && (t.live && t.pc == 0 ==> t.locks == {})
      && (t.live && 0 < t.pc < |t.steps| ==> t.locks == {Reservation(id)})
    case _ => true
  }

  lemma SettleSteps(id: RowId, outcome: Status)
    ensures Steps(Settle(id, outcome)) == [Claim(id), Mark(id, outcome), Charge(id, outcome)]
  {
    OneRowSteps(id, outcome);
  }

  lemma EventKeepsLittle(s: State, e: Event, lim: Key -> int)
    requires Enabled(s, e, lim) && forall j | 0 <= j < |s.txs| :: HoldsLittle(s.txs[j])
    ensures forall j | 0 <= j < |Apply(s, e).txs| :: HoldsLittle(Apply(s, e).txs[j])
  {
    var s' := Apply(s, e);
    forall j | 0 <= j < |s'.txs| ensures HoldsLittle(s'.txs[j]) {
      if s'.txs[j].txn.Settle? {
        SettleSteps(s'.txs[j].txn.settled, s'.txs[j].txn.outcome);
      }
      if j < |s.txs| {
        assert HoldsLittle(s.txs[j]);
      }
    }
  }

  lemma {:induction false} RunKeepsLittle(s: State, es: seq<Event>, lim: Key -> int)
    requires IsRun(s, es, lim) && forall j | 0 <= j < |s.txs| :: HoldsLittle(s.txs[j])
    ensures forall j | 0 <= j < |Play(s, es).txs| :: HoldsLittle(Play(s, es).txs[j])
  {
    if es != [] {
      RunKeepsLittle(s, es[..|es| - 1], lim);
      EventKeepsLittle(Play(s, es[..|es| - 1]), es[|es| - 1], lim);
    }
  }

  /** No reserving transaction asks for a reservation that is just being settled. */
  ghost predicate AsksForNoneSettled(s: State) {
    forall i: nat, j: nat | WaitsFor(s, i, j) && Reserves(s.txs[i].txn) && s.txs[j].txn.Settle? ::
      Reservation(s.txs[j].txn.settled) !in Goal(s, i)
  }

  /** The transaction adds reservation rows of this notification. */
  predicate AddsFor(t: Txn, notification: string) {
    match t
    case ReserveMany(_, n, _) => n == notification
    case Record(id, _) => id.notification == notification
    case _ => false
  }

  lemma AddsInReserve(items: seq<Item>, n: string, now: int)
    ensures forall st | st in ReserveSteps(items, n, now) && st.AddRow? :: st.id.notification == n
  {
  }

  lemma AddsInBatch(items: seq<Item>)
    ensures forall st | st in BatchSteps(items) :: !st.AddRow?
  {
  }

  lemma {:induction false} AddsInSweep(ids: seq<RowId>, outcome: Status)
    ensures forall st | st in ClaimSteps(ids) + FinishSteps(ids, outcome) :: !st.AddRow?
  {
    if ids != [] {
      AddsInSweep(ids[..|ids| - 1], outcome);
    }
  }

  lemma AddsItsOwn(t: Txn, st: Step)
    requires st in Steps(t) && (st.AddRow? || st.RecordRow?)
    ensures AddsFor(t, st.id.notification)
  {
    if !t.Record? {
      NoRecordRow(t);
    }
    match t
    case ReserveMany(items, n, now) => AddsInReserve(items, n, now);
    case ReserveBatch(items) => AddsInBatch(items);
    case Settle(id, outcome) => AddsInSweep([id], outcome);
    case Sweep(ids) => AddsInSweep(ids, Released);
    case Record(_, _) =>
  }

  /** A transaction writes rows that are there or of its own notification, and settles only a row that is there. */
  ghost predicate WritesOwn(rows: map<RowId, Row>, t: Tx) {
    && (t.steps == Steps(t.txn) || t.steps == []) && (t.pc == 0 || !t.live ==> t.locks == {} && t.over.rows == map[])
    && (forall id | id in t.over.rows :: id in rows || AddsFor(t.txn, id.notification))
    && (t.txn.Settle? && t.pc > 0 ==> t.txn.settled in rows)
  }

  /** A transaction that has ended adds rows of this notification. */
  ghost predicate AddedBy(txs: seq<Tx>, notification: string) {
    exists j :: 0 <= j < |txs| && !txs[j].live && AddsFor(txs[j].txn, notification)
  }

  /** Every row was there at the start, or a transaction that has ended added it. */
  ghost predicate OriginInv(l: Ledger, s: State) {
    && (forall j | 0 <= j < |s.txs| :: WritesOwn(s.db.rows, s.txs[j]))
    && (forall id | id in s.db.rows && id !in l.rows :: AddedBy(s.txs, id.notification))
  }

  lemma MoreRowsAreOwn(rows: map<RowId, Row>, more: map<RowId, Row>, t: Tx)
    requires WritesOwn(rows, t)
    ensures WritesOwn(rows + more, t)
  {
  }

  /** A transaction stays what it is, and once it has ended it has. */
  ghost predicate Continues(txs: seq<Tx>, txs': seq<Tx>) {
    |txs| <= |txs'| && forall j | 0 <= j < |txs| :: txs'[j].txn == txs[j].txn && (!txs[j].live ==> !txs'[j].live)
  }

  lemma EventContinues(s: State, e: Event, lim: Key -> int)
    requires Enabled(s, e, lim)
    ensures Continues(s.txs, Apply(s, e).txs)
  {
  }

  lemma AddedStays(txs: seq<Tx>, txs': seq<Tx>, notification: string)
    requires AddedBy(txs, notification) && Continues(txs, txs')
    ensures AddedBy(txs', notification)
  {
    var j :| 0 <= j < |txs| && !txs[j].live && AddsFor(txs[j].txn, notification);
    assert !txs'[j].live && AddsFor(txs'[j].txn, notification);
  }

  lemma StepWritesOwn(s: State, i: nat, locks: set<Resource>)
    requires Running(s, i) && WritesOwn(s.db.rows, s.txs[i])
    requires RowMatches(NextStep(s, i), s.txs[i].loc, View(s, i))
    ensures WritesOwn(s.db.rows, Stepped(s, i, locks).txs[i])
  {
    var t, st := s.txs[i], NextStep(s, i);
    if st.AddRow? || st.RecordRow? {
      AddsItsOwn(t.txn, st);
    }
    if t.txn.Settle? {
      SettleSteps(t.txn.settled, t.txn.outcome);
    }
  }

  /** A commit's rows were there, or are now of a transaction that has ended. */
  lemma CommitKeepsOrigin(l: Ledger, s: State, i: nat, lim: Key -> int)
    requires OriginInv(l, s) && Enabled(s, Commit(i), lim)
    ensures OriginInv(l, Apply(s, Commit(i)))
  {
    var s' := Apply(s, Commit(i));
    EventContinues(s, Commit(i), lim);
    assert WritesOwn(s.db.rows, s.txs[i]) && !s'.txs[i].live;
    forall id | id in s'.db.rows && id !in l.rows ensures AddedBy(s'.txs, id.notification) {
      if id in s.db.rows {
        AddedStays(s.txs, s'.txs, id.notification);
      }
    }
    forall j | 0 <= j < |s'.txs| ensures WritesOwn(s'.db.rows, s'.txs[j]) {
      MoreRowsAreOwn(s.db.rows, s.txs[i].over.rows, s.txs[j]);
    }
  }

  lemma EventWritesOwn(s: State, e: Event, lim: Key -> int, j: nat)
    requires Enabled(s, e, lim) && !e.Commit? && j < |Apply(s, e).txs|
    requires j < |s.txs| ==> WritesOwn(s.db.rows, s.txs[j])
    ensures WritesOwn(s.db.rows, Apply(s, e).txs[j])
  {
    match e
    case Advance(i) => if j == i { StepWritesOwn(s, i, Goal(s, i)); }
    case BlindRead(i) => if j == i { StepWritesOwn(s, i, {}); }
    case _ =>
  }

  lemma EventKeepsOrigin(l: Ledger, s: State, e: Event, lim: Key -> int)
    requires OriginInv(l, s) && Enabled(s, e, lim)
    ensures OriginInv(l, Apply(s, e))
  {
    if e.Commit? {
      CommitKeepsOrigin(l, s, e.i, lim);
    } else {
      var s' := Apply(s, e);
      assert s'.db == s.db;
      EventContinues(s, e, lim);
      forall j | 0 <= j < |s'.txs| ensures WritesOwn(s.db.rows, s'.txs[j]) {
        EventWritesOwn(s, e, lim, j);
      }
      forall id | id in s.db.rows && id !in l.rows ensures AddedBy(s'.txs, id.notification) {
        AddedStays(s.txs, s'.txs, id.notification);
      }
    }
  }

  lemma {:induction false} RunKeepsOrigin(l: Ledger, s: State, es: seq<Event>, lim: Key -> int)
    requires IsRun(s, es, lim) && OriginInv(l, s)
    ensures OriginInv(l, Play(s, es))
  {
    if es != [] {
      RunKeepsOrigin(l, s, es[..|es| - 1], lim);
      EventKeepsOrigin(l, Play(s, es[..|es| - 1]), es[|es| - 1], lim);
    }
  }

  /** Every notification reserved for is new: without rows at the start, and named by no other transaction that adds
      rows. */
  predicate NewNotifications(l: Ledger, txs: seq<Tx>) {
    forall i | 0 <= i < |txs| && txs[i].txn.ReserveMany? ::
      && (forall id | id in l.rows :: id.notification != txs[i].txn.notification)
      && (forall j | 0 <= j < |txs| && j != i :: !AddsFor(txs[j].txn, txs[i].txn.notification))
  }

  /** A row of a new notification is of no transaction that has ended, so it is not there yet. */
  lemma NewRowIsNotThere(l: Ledger, s: State, i: nat, id: RowId)
    requires OriginInv(l, s) && NewNotifications(l, s.txs) && Running(s, i) && s.txs[i].txn.ReserveMany?
    requires id.notification == s.txs[i].txn.notification
    ensures id !in s.db.rows
  {
  }

  /** So no reservation asks for a row that is being settled. */
  lemma NewOnesAskForNone(l: Ledger, s: State, lim: Key -> int)
    requires OriginInv(l, s) && LockInv(s, lim) && NewNotifications(l, s.txs)
    ensures AsksForNoneSettled(s)
  {
    forall i: nat, j: nat | WaitsFor(s, i, j) && Reserves(s.txs[i].txn) && s.txs[j].txn.Settle?
      ensures Reservation(s.txs[j].txn.settled) !in Goal(s, i)
    {
      var t, id := s.txs[i].txn, s.txs[j].txn.settled;
      assert WritesOwn(s.db.rows, s.txs[j]) && LocksBehind(s.txs[i], lim);
      StepTargets(t, s.txs[i].pc, s.txs[i].loc);
      if t.ReserveMany? && t.notification == id.notification {
        NewRowIsNotThere(l, s, i, id);
      }
    }
  }

  /** What is waited for, by one that is waited for itself, reserves. */
  lemma WaitedForReserves(s: State, h: nat, i: nat, j: nat, k: nat)
    requires Exclusive(s) && (forall n | 0 <= n < |s.txs| :: HoldsLittle(s.txs[n]) && !s.txs[n].txn.Sweep?)
    requires AsksForNoneSettled(s) && WaitsFor(s, h, i) && WaitsFor(s, i, j) && WaitsFor(s, j, k)
    ensures Reserves(s.txs[j].txn)
  {
    assert HoldsLittle(s.txs[i]) && HoldsLittle(s.txs[j]);
    if s.txs[i].txn.Settle? {
      SettleSteps(s.txs[i].txn.settled, s.txs[i].txn.outcome);
    }
    var r :| r in Goal(s, i) * s.txs[j].locks;
    assert s.txs[i].locks !! s.txs[j].locks;
  }

  lemma ChainsJoin(s: State, a: seq<nat>, b: seq<nat>)
    requires WaitChain(s, a) && WaitChain(s, b) && a != [] && b != [] && a[|a| - 1] == b[0]
    ensures WaitChain(s, a + b[1..])
  {
    var path := a + b[1..];
    forall m, n | 0 <= m < |path| && n == m + 1 && n < |path| ensures WaitsFor(s, path[m], path[n]) {
      if m < |a| - 1 {
        assert WaitsFor(s, a[m], a[n]);
      } else {
        assert WaitsFor(s, b[m - |a| + 1], b[n - |a| + 1]);
      }
    }
  }

  /** Three times round, every transaction of a circle has two before it and one after. */
  lemma ThreeRounds(s: State, circle: seq<nat>) returns (path: seq<nat>)
    requires WaitChain(s, circle) && |circle| >= 2 && circle[0] == circle[|circle| - 1]
    ensures WaitChain(s, path) && |path| == 3 * |circle| - 2
    ensures forall m | 0 <= m < |circle| - 1 :: path[m + 2 * |circle| - 2] == circle[m]
  {
    ChainsJoin(s, circle, circle);
    var twice := circle + circle[1..];
    ChainsJoin(s, twice, circle);
    path := twice + circle[1..];
  }

  lemma CirclesReserve(s: State, circle: seq<nat>)
    requires Exclusive(s) && (forall n | 0 <= n < |s.txs| :: HoldsLittle(s.txs[n]) && !s.txs[n].txn.Sweep?)
    requires AsksForNoneSettled(s) && WaitChain(s, circle) && |circle| >= 2 && circle[0] == circle[|circle| - 1]
    ensures AllReserve(s, circle)
  {
    var path := ThreeRounds(s, circle);
    forall m | 0 <= m < |circle| - 1 ensures circle[m] < |s.txs| && Reserves(s.txs[circle[m]].txn) {
      var k := m + 2 * |circle| - 2;
      assert WaitsFor(s, path[k - 2], path[k - 1]) && WaitsFor(s, path[k - 1], path[k])
             && WaitsFor(s, path[k], path[k + 1]);
      WaitedForReserves(s, path[k - 2], path[k - 1], path[k], path[k + 1]);
    }
  }

  /** Nor do transactions that reserve, record or settle, whatever they settle, if the notifications reserved for
      are new. */
  lemma OnlySweepsDeadlock(l: Ledger, es: seq<Event>, circle: seq<nat>, lim: Key -> int)
    requires IsRun(Idle(l), es, lim) && |circle| >= 2 && WaitChain(Play(Idle(l), es), circle)
    requires var txs := Play(Idle(l), es).txs;
             NewNotifications(l, txs) && forall n | 0 <= n < |txs| :: !txs[n].txn.Sweep?
    ensures circle[0] != circle[|circle| - 1]
  {
    var s := Play(Idle(l), es);
    RunKeepsLockInv(Idle(l), es, lim);
    RunKeepsLittle(Idle(l), es, lim);
    RunKeepsOrigin(l, Idle(l), es, lim);
    NewOnesAskForNone(l, s, lim);
    if circle[0] == circle[|circle| - 1] {
      CirclesReserve(s, circle);
      NoCircle(s, circle, lim);
    }
  }
}
