/**
 One transaction at a time: every transaction of quota.js keeps conservation and the cap.
 */
module QuotaSerial {
  import opened QuotaLedger

  /** The row conditions a statement relies on: a reservation is written once, a settled row was reserved,
      and a recorded unit was granted to the batch before. */
  ghost predicate Matches(st: Step, loc: Local, l: Ledger) {
    match st
    case AddRow(id, _) => loc.ok ==> id !in l.rows
    case RecordRow(id, row) => id !in l.rows && l.recorded[KeyOf(id, row)] + row.units <= l.accepted[KeyOf(id, row)]
    case Claim(id) => id in l.rows && l.rows[id].status == Reserved
    case _ => true
  }

  ghost predicate Valid(steps: seq<Step>, l: Ledger) {
    steps == [] ||
    var before := steps[..|steps| - 1];
    Valid(before, l) && Matches(steps[|steps| - 1], Run(before, l).0, Run(before, l).1)
  }

  lemma {:induction false} RunAppend(a: seq<Step>, b: Step, c: Step, l: Ledger)
    ensures Run(a + [b, c], l) == Exec(c, Exec(b, Run(a, l)))
    ensures Valid(a + [b, c], l) ==>
              Valid(a, l) && Matches(b, Run(a, l).0, Run(a, l).1)
              && Matches(c, Exec(b, Run(a, l)).0, Exec(b, Run(a, l)).1)
  {
    var ab, abc := a + [b], a + [b, c];
    assert abc[..|abc| - 1] == ab && abc[|abc| - 1] == c;
    assert ab[..|ab| - 1] == a && ab[|ab| - 1] == b;
    assert Run(ab, l) == Exec(b, Run(a, l));
    if Valid(abc, l) {
      assert Valid(ab, l);
    }
  }

  // ---------------------------------------------------------------- single blocks

  lemma MergeNothing(l: Ledger)
    ensures Merge(l, EMPTY) == l
  {
  }

  /** What one row contributes to its key. */
  function WeightAt(rows: map<RowId, Row>, id: RowId, k: Key, st: Status): nat {
    if id in rows then Weight(id, rows[id], k, st) else 0
  }

  /** Counters of a key that move together with one row leave the key conserved. */
  lemma PutKeepsKey(l: Ledger, l': Ledger, id: RowId, row: Row, k: Key)
    requires ConservedAt(l, k) && l'.rows == l.rows[id := row]
    requires Counters(l', k).reserved + l'.recorded[k] + l.accepted[k] + WeightAt(l.rows, id, k, Reserved)
             == Counters(l, k).reserved + l.recorded[k] + l'.accepted[k] + Weight(id, row, k, Reserved)
    requires Counters(l', k).used + WeightAt(l.rows, id, k, Consumed)
             == Counters(l, k).used + Weight(id, row, k, Consumed)
    ensures ConservedAt(l', k)
  {
    TotalAfterPut(l.rows, id, row, k, Reserved);
    TotalAfterPut(l.rows, id, row, k, Consumed);
  }

  /** The ledger with one row put and one counter set. */
  function Put(l: Ledger, id: RowId, row: Row, k: Key, u: Usage): Ledger {
    Ledger(l.usage[k := u], l.rows[id := row], l.accepted, l.recorded)
  }

  lemma PutKeepsGood(l: Ledger, id: RowId, row: Row, k: Key, u: Usage, lim: Key -> int)
    requires Good(l, lim) && KeyOf(id, row) == k && row.units >= 1 && (id in l.rows ==> KeyOf(id, l.rows[id]) == k)
    requires u.reserved + WeightAt(l.rows, id, k, Reserved) == Counters(l, k).reserved + Weight(id, row, k, Reserved)
    requires u.used + WeightAt(l.rows, id, k, Consumed) == Counters(l, k).used + Weight(id, row, k, Consumed)
    requires u.used + u.reserved <= lim(k)
    ensures Good(Put(l, id, row, k, u), lim)
  {
    var l' := Put(l, id, row, k, u);
    forall j ensures KeyOk(l', j, lim) {
      assert KeyOk(l, j, lim);
      PutKeepsKey(l, l', id, row, j);
    }
  }

  /** Is one unit-reservation let through? */
  predicate Admits(l: Ledger, it: Item) {
    it.units <= it.limit
    && (it.key in l.usage ==> Counters(l, it.key).used + Counters(l, it.key).reserved + it.units <= it.limit)
  }

  function Bumped(l: Ledger, it: Item): Usage {
    Usage(Counters(l, it.key).used, Counters(l, it.key).reserved + it.units)
  }

  /** The ledger after one item is reserved: the counter moves even if the row turns out to exist. */
  function ReservedOne(l: Ledger, it: Item, id: RowId, row: Row): Ledger {
    if !Admits(l, it) then l
    else Ledger(l.usage[it.key := Bumped(l, it)],
                if id in l.rows then l.rows else l.rows[id := row], l.accepted, l.recorded)
  }

  lemma ReserveBlockIs(s: (Local, Ledger), it: Item, id: RowId, row: Row)
    ensures Exec(AddRow(id, row), Exec(TryReserve(it.key, it.units, it.limit), s)).1 == ReservedOne(s.1, it, id, row)
  {
    var s1 := Exec(TryReserve(it.key, it.units, it.limit), s);
    MergeNothing(s1.1);
    if Admits(s.1, it) {
      assert s1.1 == Ledger(s.1.usage[it.key := Bumped(s.1, it)], s.1.rows, s.1.accepted, s.1.recorded);
    } else {
      MergeNothing(s.1);
    }
  }

  /** A granted reservation conserves the ledger exactly when its row is new: ON CONFLICT DO NOTHING on a
      row that is already there leaves the counter moved for nothing. */
  lemma ReservingConservesIffNew(l: Ledger, it: Item, id: RowId, row: Row, lim: Key -> int)
    requires Good(l, lim) && it.units >= 1 && it.limit == lim(it.key) && Admits(l, it)
    requires KeyOf(id, row) == it.key && row.units == it.units && row.status == Reserved
    ensures ConservedAt(ReservedOne(l, it, id, row), it.key) <==> id !in l.rows
  {
    assert KeyOk(l, it.key, lim);
    if id !in l.rows {
      ReservedOneKeepsGood(l, it, id, row, lim);
      assert KeyOk(ReservedOne(l, it, id, row), it.key, lim);
    }
  }

  lemma ReservedOneKeepsGood(l: Ledger, it: Item, id: RowId, row: Row, lim: Key -> int)
    requires Good(l, lim) && it.units >= 1 && it.limit == lim(it.key)
    requires KeyOf(id, row) == it.key && row.units == it.units && row.status == Reserved && id !in l.rows
    ensures Good(ReservedOne(l, it, id, row), lim)
  {
    if Admits(l, it) {
      assert KeyOk(l, it.key, lim);
      PutKeepsGood(l, id, row, it.key, Bumped(l, it), lim);
      assert ReservedOne(l, it, id, row) == Put(l, id, row, it.key, Bumped(l, it));
    }
  }

  lemma ReserveBlockKeepsGood(s: (Local, Ledger), it: Item, id: RowId, row: Row, lim: Key -> int)
    requires Good(s.1, lim) && it.units >= 1 && it.limit == lim(it.key)
    requires KeyOf(id, row) == it.key && row.units == it.units && row.status == Reserved
    requires var s1 := Exec(TryReserve(it.key, it.units, it.limit), s); Matches(AddRow(id, row), s1.0, s1.1)
    ensures Good(Exec(AddRow(id, row), Exec(TryReserve(it.key, it.units, it.limit), s)).1, lim)
  {
    MergeNothing(s.1);
    if id !in s.1.rows {
      ReserveBlockIs(s, it, id, row);
      ReservedOneKeepsGood(s.1, it, id, row, lim);
    }
  }

  /** The ledger after a batch was granted `n` more units of `k`. */
  function Granted(l: Ledger, k: Key, n: nat): Ledger {
    if n == 0 then l else
      Ledger(l.usage[k := Usage(Counters(l, k).used, Counters(l, k).reserved + n)], l.rows,
             l.accepted + multiset{}[k := n], l.recorded)
  }

  lemma BatchBlockGrants(s: (Local, Ledger), it: Item)
    ensures Exec(WriteGrant(it.key, it.units, it.limit), Exec(ReadUsage(it.key), s)).1
            == Granted(s.1, it.key, Grant(Counters(s.1, it.key), it.units, it.limit))
  {
    MergeNothing(s.1);
    var l, n := s.1, Grant(Counters(s.1, it.key), it.units, it.limit);
    var s1 := Exec(ReadUsage(it.key), s);
    assert s1.1 == l && s1.0.cur == Counters(l, it.key);
    var d := Delta(WriteGrant(it.key, it.units, it.limit), s1.0, l).1;
    if n > 0 {
      assert Merge(l, d) == Granted(l, it.key, n);
    }
  }

  lemma BatchBlockKeepsGood(s: (Local, Ledger), it: Item, lim: Key -> int)
    requires Good(s.1, lim) && it.units >= 1 && it.limit == lim(it.key)
    ensures Good(Exec(WriteGrant(it.key, it.units, it.limit), Exec(ReadUsage(it.key), s)).1, lim)
  {
    BatchBlockGrants(s, it);
    GrantKeepsGood(s.1, it.key, Grant(Counters(s.1, it.key), it.units, it.limit), lim);
  }

  lemma GrantKeepsGood(l: Ledger, k: Key, n: nat, lim: Key -> int)
    requires Good(l, lim) && (n > 0 ==> Counters(l, k).used + Counters(l, k).reserved + n <= lim(k))
    ensures Good(Granted(l, k, n), lim)
  {
    if n == 0 {
      return;
    }
    var l' := Granted(l, k, n);
    forall j ensures KeyOk(l', j, lim) {
      assert KeyOk(l, j, lim);
      GrantKeepsKey(l, k, n, j);
    }
  }

  lemma GrantKeepsKey(l: Ledger, k: Key, n: nat, j: Key)
    requires n > 0 && ConservedAt(l, j)
    ensures ConservedAt(Granted(l, k, n), j)
    ensures Granted(l, k, n).recorded[j] == l.recorded[j]
    ensures Granted(l, k, n).accepted[j] == l.accepted[j] + if j == k then n else 0
    ensures Granted(l, k, n).rows == l.rows
  {
  }

  /** A reserved row always finds its counter, with at least its own units in it: the `GREATEST(0, ..)`
      clamp never changes a value. */
  lemma ReservedRowIsCounted(l: Ledger, id: RowId, lim: Key -> int)
    requires Good(l, lim) && id in l.rows && l.rows[id].status == Reserved
    ensures var k := KeyOf(id, l.rows[id]);
            k in l.usage && l.usage[k].reserved >= l.rows[id].units
            && Settled(l.usage[k], l.rows[id].units, Released).reserved == l.usage[k].reserved - l.rows[id].units
  {
    var k := KeyOf(id, l.rows[id]);
    assert KeyOk(l, k, lim);
    TotalSplits(l.rows, id, k, Reserved);
  }

  lemma FinishBlockKeepsGood(s: (Local, Ledger), id: RowId, outcome: Status, lim: Key -> int)
    requires Good(s.1, lim) && outcome != Reserved
    requires id in s.0.claimed && id in s.1.rows && s.1.rows[id] == s.0.claimed[id]
    requires s.1.rows[id].status == Reserved
    ensures var s2 := Exec(Charge(id, outcome), Exec(Mark(id, outcome), s));
            && Good(s2.1, lim) && s2.0 == s.0
            && s2.1.rows == s.1.rows[id := s.1.rows[id].(status := outcome)]
  {
    var l := s.1;
    ReservedRowIsCounted(l, id, lim);
    var row, k := l.rows[id].(status := outcome), KeyOf(id, l.rows[id]);
    var l' := Exec(Charge(id, outcome), Exec(Mark(id, outcome), s)).1;
    var u' := Settled(l.usage[k], row.units, outcome);
    assert KeyOk(l, k, lim);
    assert l' == Put(l, id, row, k, u');
    PutKeepsGood(l, id, row, k, u', lim);
  }

  // ---------------------------------------------------------------- whole transactions

  lemma {:induction false} ReserveKeepsGood(items: seq<Item>, n: string, now: int, l: Ledger, lim: Key -> int)
    requires ItemsOk(items, lim) && Good(l, lim) && Valid(ReserveSteps(items, n, now), l)
    ensures Good(Run(ReserveSteps(items, n, now), l).1, lim)
  {
    if items != [] {
      var before, it := items[..|items| - 1], items[|items| - 1];
      var id, row := RowId(n, it.key.channel), NewRow(it.key, it.units, now);
      RunAppend(ReserveSteps(before, n, now), TryReserve(it.key, it.units, it.limit), AddRow(id, row), l);
      ReserveKeepsGood(before, n, now, l, lim);
      ReserveBlockKeepsGood(Run(ReserveSteps(before, n, now), l), it, id, row, lim);
    }
  }

  lemma {:induction false} BatchKeepsGood(items: seq<Item>, l: Ledger, lim: Key -> int)
    requires ItemsOk(items, lim) && Good(l, lim)
    ensures Good(Run(BatchSteps(items), l).1, lim)
  {
    if items != [] {
      var before, it := items[..|items| - 1], items[|items| - 1];
      RunAppend(BatchSteps(before), ReadUsage(it.key), WriteGrant(it.key, it.units, it.limit), l);
      BatchKeepsGood(before, l, lim);
      BatchBlockKeepsGood(Run(BatchSteps(before), l), it, lim);
    }
  }

  lemma RecordKeepsGood(id: RowId, row: Row, l: Ledger, lim: Key -> int)
    requires row.units >= 1 && row.status == Reserved && Good(l, lim) && Valid(Steps(Record(id, row)), l)
    ensures Good(Run(Steps(Record(id, row)), l).1, lim)
  {
    var steps := [RecordRow(id, row)];
    assert steps[..0] == [] && Valid([], l) && Matches(steps[0], START, l);
    assert Run(steps, l) == Exec(steps[0], Run([], l));
    RecordedKeepsGood(l, id, row, lim);
  }

  lemma RecordedKeepsGood(l: Ledger, id: RowId, row: Row, lim: Key -> int)
    requires row.units >= 1 && row.status == Reserved && Good(l, lim) && Matches(RecordRow(id, row), START, l)
    ensures Good(Exec(RecordRow(id, row), (START, l)).1, lim)
  {
    var l' := Exec(RecordRow(id, row), (START, l)).1;
    forall k ensures KeyOk(l', k, lim) {
      assert KeyOk(l, k, lim);
      assert l'.recorded[k] == l.recorded[k] + if k == KeyOf(id, row) then row.units else 0;
      PutKeepsKey(l, l', id, row, k);
    }
  }

  /** Every row of `ids` is still reserved, and held by the transaction as it is. */
  ghost predicate Claimed(s: (Local, Ledger), ids: seq<RowId>) {
    forall i | 0 <= i < |ids| :: ids[i] in s.1.rows && s.1.rows[ids[i]].status == Reserved
                                 && ids[i] in s.0.claimed && s.0.claimed[ids[i]] == s.1.rows[ids[i]]
  }

  lemma {:induction false} ClaimsOnlyRead(ids: seq<RowId>, l: Ledger)
    requires Valid(ClaimSteps(ids), l)
    ensures Run(ClaimSteps(ids), l).1 == l && Claimed(Run(ClaimSteps(ids), l), ids)
  {
    if ids != [] {
      var before := ids[..|ids| - 1];
      assert ClaimSteps(ids)[..|ClaimSteps(ids)| - 1] == ClaimSteps(before);
      ClaimsOnlyRead(before, l);
      var id := ids[|ids| - 1];
      MergeNothing(l);
      assert Run(ClaimSteps(ids), l) == Exec(Claim(id), Run(ClaimSteps(before), l));
      assert Matches(Claim(id), Run(ClaimSteps(before), l).0, l);
      forall i | 0 <= i < |ids|
        ensures ids[i] in l.rows && l.rows[ids[i]].status == Reserved
                && ids[i] in Run(ClaimSteps(ids), l).0.claimed
                && Run(ClaimSteps(ids), l).0.claimed[ids[i]] == l.rows[ids[i]]
      {
        if i < |before| {
          assert before[i] == ids[i];
        }
      }
    }
  }

  /** The rows once those named by `ids` have been given their outcome. */
  function Finished(rows: map<RowId, Row>, ids: seq<RowId>, outcome: Status): map<RowId, Row> {
    if ids == [] then rows else
      var done, id := Finished(rows, ids[..|ids| - 1], outcome), ids[|ids| - 1];
      if id in done then done[id := done[id].(status := outcome)] else done
  }

  lemma {:induction false} FinishedElsewhere(rows: map<RowId, Row>, ids: seq<RowId>, outcome: Status, id: RowId)
    requires id !in ids
    ensures id in Finished(rows, ids, outcome) <==> id in rows
    ensures id in rows ==> Finished(rows, ids, outcome)[id] == rows[id]
  {
    if ids != [] {
      FinishedElsewhere(rows, ids[..|ids| - 1], outcome, id);
    }
  }

  lemma {:induction false} ResumeAppends(s: (Local, Ledger), a: seq<Step>, b: seq<Step>)
    ensures Resume(s, a + b) == Resume(Resume(s, a), b)
  {
    if b == [] {
      assert a + b == a;
    } else {
      assert (a + b)[..|a + b| - 1] == a + b[..|b| - 1];
      ResumeAppends(s, a, b[..|b| - 1]);
    }
  }

  /** The sweep and a settle, once every row is claimed: mark and charge them one by one. */
  lemma {:induction false} FinishKeepsGood(s: (Local, Ledger), ids: seq<RowId>, outcome: Status, lim: Key -> int)
    requires Good(s.1, lim) && outcome != Reserved && Distinct(ids) && Claimed(s, ids)
    ensures var e := Resume(s, FinishSteps(ids, outcome));
            Good(e.1, lim) && e.0 == s.0 && e.1.rows == Finished(s.1.rows, ids, outcome)
  {
    if ids != [] {
      var before, id := ids[..|ids| - 1], ids[|ids| - 1];
      FinishKeepsGood(s, before, outcome, lim);
      var e := Resume(s, FinishSteps(before, outcome));
      FinishedElsewhere(s.1.rows, before, outcome, id);
      FinishBlockKeepsGood(e, id, outcome, lim);
      ResumeTwo(s, FinishSteps(before, outcome), Mark(id, outcome), Charge(id, outcome));
    }
  }

  lemma ResumeTwo(s: (Local, Ledger), a: seq<Step>, b: Step, c: Step)
    ensures Resume(s, a + [b, c]) == Exec(c, Exec(b, Resume(s, a)))
  {
    var ab, abc := a + [b], a + [b, c];
    assert abc[..|abc| - 1] == ab && abc[|abc| - 1] == c;
    assert ab[..|ab| - 1] == a && ab[|ab| - 1] == b;
    assert Resume(s, ab) == Exec(b, Resume(s, a));
  }

  lemma {:induction false} ValidPrefix(a: seq<Step>, b: seq<Step>, l: Ledger)
    requires Valid(a + b, l)
    ensures Valid(a, l)
  {
    if b == [] {
      assert a + b == a;
    } else {
      assert (a + b)[..|a + b| - 1] == a + b[..|b| - 1];
      ValidPrefix(a, b[..|b| - 1], l);
    }
  }

  /** Run alone, every transaction keeps conservation and the cap. */
  lemma TxnKeepsGood(t: Txn, l: Ledger, lim: Key -> int)
    requires TxnOk(t, lim) && Good(l, lim) && Valid(Steps(t), l)
    ensures Good(Run(Steps(t), l).1, lim)
  {
    match t
    case ReserveMany(items, n, now) => ReserveKeepsGood(items, n, now, l, lim);
    case ReserveBatch(items) => BatchKeepsGood(items, l, lim);
    case Record(id, row) => RecordKeepsGood(id, row, l, lim);
    case Settle(id, outcome) =>
      FinishAfterClaims([id], outcome, l, lim);
    case Sweep(ids) =>
      FinishAfterClaims(ids, Released, l, lim);
  }

  lemma FinishAfterClaims(ids: seq<RowId>, outcome: Status, l: Ledger, lim: Key -> int)
    requires Good(l, lim) && outcome != Reserved && Distinct(ids)
    requires Valid(ClaimSteps(ids) + FinishSteps(ids, outcome), l)
    ensures var e := Run(ClaimSteps(ids) + FinishSteps(ids, outcome), l).1;
            Good(e, lim) && e.rows == Finished(l.rows, ids, outcome)
  {
    ValidPrefix(ClaimSteps(ids), FinishSteps(ids, outcome), l);
    ClaimsOnlyRead(ids, l);
    ResumeAppends((START, l), ClaimSteps(ids), FinishSteps(ids, outcome));
    FinishKeepsGood(Run(ClaimSteps(ids), l), ids, outcome, lim);
  }
}
