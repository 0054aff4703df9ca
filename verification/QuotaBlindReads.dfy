/**
 The read that locks nothing: SELECT .. FOR UPDATE of a counter row that is not there.  For which
 batches quota is safe is decided by the rows present at the start.
 */
module QuotaBlindReads {
  import opened QuotaLedger
  import opened QuotaSerial
  import opened QuotaInterleaving

  // ---------------------------------------------------------------- keys with a row are safe

  /** Batches of the run ask for keys of K only. */
  ghost predicate BatchesOnly(es: seq<Event>, K: set<Key>) {
    forall e | e in es && e.Begin? && e.txn.ReserveBatch? ::
      forall i | 0 <= i < |e.txn.batch| :: e.txn.batch[i].key in K
  }

  predicate ReadsOnly(steps: seq<Step>, K: set<Key>) {
    forall st | st in steps && st.ReadUsage? :: st.key in K
  }

  lemma {:induction false} BatchReads(items: seq<Item>, K: set<Key>)
    requires forall i | 0 <= i < |items| :: items[i].key in K
    ensures ReadsOnly(BatchSteps(items), K)
  {
    if items != [] {
      BatchReads(items[..|items| - 1], K);
    }
  }

  lemma {:induction false} FinishReads(ids: seq<RowId>, outcome: Status, K: set<Key>)
    ensures ReadsOnly(ClaimSteps(ids) + FinishSteps(ids, outcome), K)
  {
    if ids != [] {
      FinishReads(ids[..|ids| - 1], outcome, K);
    }
  }

  lemma {:induction false} ReserveReads(items: seq<Item>, n: string, now: int, K: set<Key>)
    ensures ReadsOnly(ReserveSteps(items, n, now), K)
  {
    if items != [] {
      ReserveReads(items[..|items| - 1], n, now, K);
    }
  }

  lemma TxnReads(t: Txn, K: set<Key>)
    requires t.ReserveBatch? ==> forall i | 0 <= i < |t.batch| :: t.batch[i].key in K
    ensures ReadsOnly(Steps(t), K)
  {
    match t
    case ReserveMany(items, n, now) => ReserveReads(items, n, now, K);
    case ReserveBatch(items) => BatchReads(items, K);
    case Record(_, _) =>
    case Settle(id, outcome) => FinishReads([id], outcome, K);
    case Sweep(ids) => FinishReads(ids, Released, K);
  }

  /** Transactions read only keys of K, and no counter row ever goes away. */
  ghost predicate Covered(s: State, l: Ledger, K: set<Key>) {
    l.usage.Keys <= s.db.usage.Keys && forall i | 0 <= i < |s.txs| :: ReadsOnly(s.txs[i].steps, K)
  }

  lemma EventKeepsCovered(s: State, e: Event, l: Ledger, K: set<Key>, lim: Key -> int)
    requires Covered(s, l, K) && Enabled(s, e, lim) && BatchesOnly([e], K)
    ensures Covered(Apply(s, e), l, K)
  {
    if e.Begin? {
      assert e in [e];
      TxnReads(e.txn, K);
    }
  }

  /** Every key of K with any limit at all has its counter row. */
  ghost predicate RowsPresent(l: Ledger, K: set<Key>, lim: Key -> int) {
    forall k | k in K && lim(k) >= 1 :: k in l.usage
  }

  lemma {:induction false} RunIsHarmless(l: Ledger, es: seq<Event>, K: set<Key>, lim: Key -> int)
    requires IsRun(Idle(l), es, lim) && BatchesOnly(es, K) && RowsPresent(l, K, lim)
    ensures AllHarmless(Idle(l), es, lim) && Covered(Play(Idle(l), es), l, K)
  {
    if es != [] {
      var before, e := es[..|es| - 1], es[|es| - 1];
      RunIsHarmless(l, before, K, lim);
      EventKeepsCovered(Play(Idle(l), before), e, l, K, lim);
    }
  }

  // ---------------------------------------------------------------- a key without a row is not

  // A batch reads a counter that is not there yet, another request takes the whole limit, the batch writes.

  function BlindStart(k: Key, r: nat, limit: nat): seq<Event> {
    [Begin(ReserveBatch([Item(k, r, limit)])), BlindRead(0)]
  }

  function FillLimit(k: Key, limit: nat, n: string, now: int): seq<Event> {
    [Begin(SingleTx(k, limit, n, now).txn), Advance(1), Advance(1), Commit(1)]
  }

  function Overfill(): seq<Event> {
    [Advance(0), Commit(0)]
  }

  function BlindRun(k: Key, r: nat, limit: nat, n: string, now: int): seq<Event> {
    BlindStart(k, r, limit) + FillLimit(k, limit, n, now) + Overfill()
  }

  lemma TwoSteps(k: Key, u: nat, limit: int, n: string, now: int)
    ensures ReserveSteps([Item(k, u, limit)], n, now)
            == [TryReserve(k, u, limit), AddRow(RowId(n, k.channel), NewRow(k, u, now))]
    ensures BatchSteps([Item(k, u, limit)]) == [ReadUsage(k), WriteGrant(k, u, limit)]
  {
  }

  function BatchTx(k: Key, r: nat, limit: nat, pc: nat): Tx {
    Started(ReserveBatch([Item(k, r, limit)])).(pc := pc)
  }

  function SingleTx(k: Key, limit: nat, n: string, now: int): Tx {
    Started(ReserveMany([Item(k, limit, limit)], n, now))
  }

  /** What the single request writes. */
  function Filling(k: Key, limit: nat, n: string, now: int): Ledger {
    EMPTY.(usage := map[k := Usage(0, limit)], rows := map[RowId(n, k.channel) := NewRow(k, limit, now)])
  }

  /** The key has no row yet, and neither has the notification. */
  predicate Missing(l: Ledger, k: Key, n: string) {
    k !in l.usage && RowId(n, k.channel) !in l.rows
  }

  lemma BatchReadsBlindly(l: Ledger, k: Key, r: nat, limit: nat, lim: Key -> int)
    requires lim(k) == limit >= 1 && r >= 1 && k !in l.usage
    ensures IsRun(Idle(l), BlindStart(k, r, limit), lim)
    ensures Play(Idle(l), BlindStart(k, r, limit)) == State(l, [BatchTx(k, r, limit, 1)], [])
  {
    TwoSteps(k, r, limit, "", 0);
    MergeNothing(l);
    MergeNothing(EMPTY);
    var s := State(l, [BatchTx(k, r, limit, 0)], []);
    assert Apply(s, BlindRead(0)).txs[0] == BatchTx(k, r, limit, 1);
    RunThrough(BlindStart(k, r, limit), Idle(l), [Idle(l), s, State(l, [BatchTx(k, r, limit, 1)], [])], lim);
  }

  function SingleMidway(k: Key, limit: nat, n: string, now: int): Tx {
    SingleTx(k, limit, n, now).(pc := 1, loc := START.(ok := true), locks := {Counter(k)},
                                over := EMPTY.(usage := map[k := Usage(0, limit)]))
  }

  function SingleDone(k: Key, limit: nat, n: string, now: int): Tx {
    SingleMidway(k, limit, n, now).(pc := 2, locks := {Counter(k), Reservation(RowId(n, k.channel))},
                                    over := Filling(k, limit, n, now))
  }

  lemma SingleReserves(l: Ledger, b: Tx, k: Key, limit: nat, n: string, now: int, lim: Key -> int)
    requires limit >= 1 && b.locks == {} && k !in l.usage
    ensures var s := State(l, [b, SingleTx(k, limit, n, now)], []);
            Enabled(s, Advance(1), lim) && Apply(s, Advance(1)) == State(l, [b, SingleMidway(k, limit, n, now)], [])
  {
    TwoSteps(k, limit, limit, n, now);
    MergeNothing(l);
    var s := State(l, [b, SingleTx(k, limit, n, now)], []);
    assert Apply(s, Advance(1)).txs[1] == SingleMidway(k, limit, n, now);
  }

  lemma SingleAddsRow(l: Ledger, b: Tx, k: Key, limit: nat, n: string, now: int, lim: Key -> int)
    requires limit >= 1 && b.locks == {} && Missing(l, k, n)
    ensures var s := State(l, [b, SingleMidway(k, limit, n, now)], []);
            Enabled(s, Advance(1), lim) && Apply(s, Advance(1)) == State(l, [b, SingleDone(k, limit, n, now)], [])
  {
    TwoSteps(k, limit, limit, n, now);
    var s := State(l, [b, SingleMidway(k, limit, n, now)], []);
    assert Apply(s, Advance(1)).txs[1] == SingleDone(k, limit, n, now);
  }

  lemma SingleCommits(l: Ledger, b: Tx, k: Key, limit: nat, n: string, now: int, lim: Key -> int)
    requires Good(l, lim)
    ensures var t := SingleDone(k, limit, n, now);
            var s := State(l, [b, t], []);
            && Enabled(s, Commit(1), lim)
            && Apply(s, Commit(1)) == State(Merge(l, t.over), [b, Ended(t)], [t.steps])
  {
    var s := State(l, [b, SingleDone(k, limit, n, now)], []);
    TwoSteps(k, limit, limit, n, now);
    forall j ensures View(s, 1).recorded[j] <= View(s, 1).accepted[j] {
      assert KeyOk(l, j, lim);
    }
  }

  lemma SingleTakesTheLimit(l: Ledger, b: Tx, k: Key, limit: nat, n: string, now: int, lim: Key -> int)
    requires Good(l, lim) && lim(k) == limit >= 1 && b.locks == {} && Missing(l, k, n)
    ensures var s := State(l, [b], []);
            && IsRun(s, FillLimit(k, limit, n, now), lim)
            && var s' := Play(s, FillLimit(k, limit, n, now));
               s'.db == Merge(l, Filling(k, limit, n, now)) && |s'.txs| == 2 && s'.txs[0] == b && s'.txs[1].locks == {}
  {
    SingleReserves(l, b, k, limit, n, now, lim);
    SingleAddsRow(l, b, k, limit, n, now, lim);
    SingleCommits(l, b, k, limit, n, now, lim);
    var t := SingleDone(k, limit, n, now);
    var s0, s1 := State(l, [b], []), State(l, [b, SingleTx(k, limit, n, now)], []);
    var s2, s3 := State(l, [b, SingleMidway(k, limit, n, now)], []), State(l, [b, t], []);
    var s4 := State(Merge(l, t.over), [b, Ended(t)], [t.steps]);
    RunThrough(FillLimit(k, limit, n, now), s0, [s0, s1, s2, s3, s4], lim);
  }

  /** The batch once it has written its grant. */
  function Granting(k: Key, r: nat, limit: nat): Tx {
    BatchTx(k, r, limit, 2).(locks := {Counter(k)},
                             over := EMPTY.(usage := map[k := Usage(0, limit + Min(r, limit))],
                                            accepted := multiset{}[k := Min(r, limit)]))
  }

  lemma BatchWrites(l: Ledger, k: Key, r: nat, limit: nat, n: string, now: int)
    requires limit >= 1 && r >= 1 && k !in l.usage
    ensures var t := BatchTx(k, r, limit, 1);
            && t.pc < |t.steps| && t.steps[t.pc] == WriteGrant(k, r, limit) && |t.steps| == 2
            && Target(t.steps[t.pc], t.loc) == {Counter(k)}
            && After(Merge(l, Filling(k, limit, n, now)), t, {Counter(k)}) == Granting(k, r, limit)
  {
    TwoSteps(k, r, limit, n, now);
    MergeNothing(Merge(l, Filling(k, limit, n, now)));
    MergeNothing(EMPTY);
  }

  lemma GrantAdvances(s: State, l: Ledger, k: Key, r: nat, limit: nat, n: string, now: int, lim: Key -> int)
    requires limit >= 1 && r >= 1 && k !in l.usage
    requires s.db == Merge(l, Filling(k, limit, n, now)) && |s.txs| == 2
    requires s.txs[0] == BatchTx(k, r, limit, 1) && s.txs[1].locks == {}
    ensures Enabled(s, Advance(0), lim) && Apply(s, Advance(0)) == s.(txs := [Granting(k, r, limit), s.txs[1]])
  {
    BatchWrites(l, k, r, limit, n, now);
    assert s.txs[0 := Granting(k, r, limit)] == [Granting(k, r, limit), s.txs[1]];
  }

  lemma BatchOverfills(s: State, l: Ledger, k: Key, r: nat, limit: nat, n: string, now: int, lim: Key -> int)
    requires Good(l, lim) && lim(k) == limit >= 1 && r >= 1 && k !in l.usage
    requires s.db == Merge(l, Filling(k, limit, n, now)) && |s.txs| == 2
    requires s.txs[0] == BatchTx(k, r, limit, 1) && s.txs[1].locks == {}
    ensures IsRun(s, Overfill(), lim)
    ensures var db := Play(s, Overfill()).db; k in db.usage && db.usage[k] == Usage(0, limit + Min(r, limit))
  {
    var s1 := s.(txs := [Granting(k, r, limit), s.txs[1]]);
    GrantAdvances(s, l, k, r, limit, n, now, lim);
    var s2 := Apply(s1, Commit(0));
    GrantCommits(s1, l, k, r, limit, n, now, lim);
    RunThrough(Overfill(), s, [s, s1, s2], lim);
  }

  lemma GrantCommits(s: State, l: Ledger, k: Key, r: nat, limit: nat, n: string, now: int, lim: Key -> int)
    requires Good(l, lim) && s.db == Merge(l, Filling(k, limit, n, now)) && |s.txs| == 2
             && s.txs[0] == Granting(k, r, limit)
    ensures Enabled(s, Commit(0), lim)
    ensures var db := Apply(s, Commit(0)).db; k in db.usage && db.usage[k] == Usage(0, limit + Min(r, limit))
  {
    TwoSteps(k, r, limit, n, now);
    forall j ensures View(s, 0).recorded[j] <= View(s, 0).accepted[j] {
      assert KeyOk(l, j, lim);
    }
  }

  /** Without the row there is nothing to lock, and the cap can be broken: from every good ledger, for every
      key without a row and with any limit at all, and every size of batch, there is such a run. */
  lemma BlindReadBreaksTheCap(l: Ledger, k: Key, r: nat, n: string, now: int, lim: Key -> int)
    requires Good(l, lim) && lim(k) >= 1 && r >= 1 && Missing(l, k, n)
    ensures var es := BlindRun(k, r, lim(k), n, now);
            && IsRun(Idle(l), es, lim)
            && var db := Play(Idle(l), es).db;
               k in db.usage && db.usage[k] == Usage(0, lim(k) + Min(r, lim(k)))
  {
    var limit: nat := lim(k);
    var es1, es2 := BlindStart(k, r, limit), FillLimit(k, limit, n, now);
    BatchReadsBlindly(l, k, r, limit, lim);
    SingleTakesTheLimit(l, BatchTx(k, r, limit, 1), k, limit, n, now, lim);
    PlayAppends(Idle(l), es1, es2, lim);
    BatchOverfills(Play(Idle(l), es1 + es2), l, k, r, limit, n, now, lim);
    PlayAppends(Idle(l), es1 + es2, Overfill(), lim);
  }

  /** There is always another notification. */
  lemma {:induction false} Longer(ids: set<RowId>) returns (n: string)
    ensures forall id | id in ids :: |id.notification| < |n|
    decreases |ids|
  {
    if ids == {} {
      n := "n";
    } else {
      var id :| id in ids;
      var m := Longer(ids - {id});
      n := m + id.notification + "n";
    }
  }

  // ---------------------------------------------------------------- the exact condition

  /** Whatever runs with these batches from this ledger keeps conservation and the cap. */
  ghost predicate SafeFor(l: Ledger, K: set<Key>, lim: Key -> int) {
    forall es :: KeepsGood(l, es, K, lim)
  }

  ghost predicate KeepsGood(l: Ledger, es: seq<Event>, K: set<Key>, lim: Key -> int) {
    IsRun(Idle(l), es, lim) && BatchesOnly(es, K) ==> Good(Play(Idle(l), es).db, lim)
  }

  lemma MissingRowIsUnsafe(l: Ledger, k: Key, K: set<Key>, lim: Key -> int)
    requires Good(l, lim) && k in K && lim(k) >= 1 && k !in l.usage
    ensures !SafeFor(l, K, lim)
  {
    var n := Longer(l.rows.Keys);
    var es := BlindRun(k, 1, lim(k), n, 0);
    BlindReadBreaksTheCap(l, k, 1, n, 0, lim);
    assert !KeyOk(Play(Idle(l), es).db, k, lim);
    assert !KeepsGood(l, es, K, lim);
  }

  /** Quota is safe for batches over a set of keys, in every interleaving of every kind of transaction, if and
      only if each of those keys that has any limit at all has its counter row at the start. */
  lemma SafeIffRowsPresent(l: Ledger, K: set<Key>, lim: Key -> int)
    requires Good(l, lim)
    ensures SafeFor(l, K, lim) <==> RowsPresent(l, K, lim)
  {
    if RowsPresent(l, K, lim) {
      forall es ensures KeepsGood(l, es, K, lim) {
        if IsRun(Idle(l), es, lim) && BatchesOnly(es, K) {
          RunIsHarmless(l, es, K, lim);
          InterleavingsAreSafe(l, es, lim);
        }
      }
    } else {
      var k :| k in K && lim(k) >= 1 && k !in l.usage;
      MissingRowIsUnsafe(l, k, K, lim);
    }
  }
}
