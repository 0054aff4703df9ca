/**
 What batches and sweeps amount to: a batch is as many single reservations, and repeated sweeps
 release every stale row.
 */
module QuotaProperties {
  import opened QuotaLedger
  import opened QuotaSerial
  import opened QuotaStore

  // ---------------------------------------------------------------- a batch refines singles

  /** One-unit reservations of `k`, one for each row id in turn, and how many were let through. */
  function Singles(l: Ledger, k: Key, limit: int, ids: seq<RowId>, now: int): (Ledger, nat) {
    if ids == [] then (l, 0) else
      var (before, n) := Singles(l, k, limit, ids[..|ids| - 1], now);
      var it := Item(k, 1, limit);
      (ReservedOne(before, it, ids[|ids| - 1], NewRow(k, 1, now)), if Admits(before, it) then n + 1 else n)
  }

  /** The ledger once a recording transaction has been run for each of `ids`. */
  function Recorded(l: Ledger, ids: seq<RowId>, row: Row): Ledger {
    if ids == [] then l else Run(Steps(Record(ids[|ids| - 1], row)), Recorded(l, ids[..|ids| - 1], row)).1
  }

  /** The rows with each of `ids` added. */
  function WithRows(rows: map<RowId, Row>, ids: seq<RowId>, row: Row): map<RowId, Row> {
    if ids == [] then rows else WithRows(rows, ids[..|ids| - 1], row)[ids[|ids| - 1] := row]
  }

  lemma {:induction false} WithRowsElsewhere(rows: map<RowId, Row>, ids: seq<RowId>, row: Row, id: RowId)
    requires id !in ids
    ensures id in WithRows(rows, ids, row) <==> id in rows
  {
    if ids != [] {
      WithRowsElsewhere(rows, ids[..|ids| - 1], row, id);
    }
  }

  /** Recording adds the rows of `ids` and leaves every counter. */
  lemma {:induction false} RecordedIs(l: Ledger, ids: seq<RowId>, row: Row)
    requires Distinct(ids) && forall id | id in ids :: id !in l.rows
    ensures Recorded(l, ids, row).rows == WithRows(l.rows, ids, row) && Recorded(l, ids, row).usage == l.usage
  {
    if ids != [] {
      var before, id := ids[..|ids| - 1], ids[|ids| - 1];
      RecordedIs(l, before, row);
      WithRowsElsewhere(l.rows, before, row, id);
      RecordIs(Recorded(l, before, row), id, row);
    }
  }

  lemma {:induction false} SinglesCounters(l: Ledger, k: Key, limit: int, ids: seq<RowId>, now: int)
    ensures var g := Grant(Counters(l, k), |ids|, limit);
            && Singles(l, k, limit, ids, now).1 == g
            && Singles(l, k, limit, ids, now).0.usage == Granted(l, k, g).usage
  {
    if ids != [] {
      var before := ids[..|ids| - 1];
      SinglesCounters(l, k, limit, before, now);
      var g0, g := Grant(Counters(l, k), |before|, limit), Grant(Counters(l, k), |ids|, limit);
      var l0 := Singles(l, k, limit, before, now).0;
      var u := Counters(l, k);
      assert Counters(l0, k) == Usage(u.used, u.reserved + g0);
      assert g == if Admits(l0, Item(k, 1, limit)) then g0 + 1 else g0;
    }
  }

  lemma SinglesCount(l: Ledger, k: Key, limit: int, ids: seq<RowId>, now: int)
    ensures Singles(l, k, limit, ids, now).1 == Grant(Counters(l, k), |ids|, limit)
  {
    SinglesCounters(l, k, limit, ids, now);
  }

  lemma {:induction false} SinglesRows(l: Ledger, k: Key, limit: int, ids: seq<RowId>, now: int)
    requires Distinct(ids) && forall id | id in ids :: id !in l.rows
    ensures var g := Singles(l, k, limit, ids, now).1;
            g <= |ids| && Singles(l, k, limit, ids, now).0.rows == WithRows(l.rows, ids[..g], NewRow(k, 1, now))
  {
    if ids != [] {
      var before, last := ids[..|ids| - 1], ids[|ids| - 1];
      SinglesRows(l, k, limit, before, now);
      SinglesCount(l, k, limit, before, now);
      SinglesCount(l, k, limit, ids, now);
      var row := NewRow(k, 1, now);
      var (l0, g0) := Singles(l, k, limit, before, now);
      var g := Singles(l, k, limit, ids, now).1;
      assert before[..g0] == ids[..g0] && last !in ids[..g0];
      WithRowsElsewhere(l.rows, ids[..g0], row, last);
      if g != g0 {
        assert g0 == |before| && ids[..g][..g0] == ids[..g0];
        assert ReservedOne(l0, Item(k, 1, limit), last, row).rows == l0.rows[last := row];
      } else {
        assert ReservedOne(l0, Item(k, 1, limit), last, row) == l0;
      }
    }
  }

  /** The ledger a batch of one channel leaves. */
  function Batched(l: Ledger, k: Key, limit: int, units: nat): Ledger {
    Run(Steps(ReserveBatch([Item(k, units, limit)])), l).1
  }

  lemma BatchedIs(l: Ledger, k: Key, limit: int, units: nat)
    ensures Batched(l, k, limit, units) == Granted(l, k, Grant(Counters(l, k), units, limit))
  {
    var items := [Item(k, units, limit)];
    BatchRuns(l, items);
    assert GrantedMany(l, items, 0) == l;
  }

  /** A batch transaction of n units grants what n single units in a row would get, and once the granted units are
      recorded by a transaction each, counters and rows are those of the singles.  What is refused is refused
      because the key is at or over its limit by then. */
  lemma BatchRefinesSingles(l: Ledger, k: Key, limit: int, ids: seq<RowId>, now: int)
    requires Distinct(ids) && forall id | id in ids :: id !in l.rows
    ensures var g := Grant(Counters(l, k), |ids|, limit);
            var (single, n) := Singles(l, k, limit, ids, now);
            && n == g <= |ids|
            && (var batch := Recorded(Batched(l, k, limit, |ids|), ids[..g], NewRow(k, 1, now));
                single.usage == batch.usage && single.rows == batch.rows)
            && (g < |ids| ==> Counters(single, k).used + Counters(single, k).reserved >= limit)
  {
    SinglesCounters(l, k, limit, ids, now);
    SinglesRows(l, k, limit, ids, now);
    BatchedIs(l, k, limit, |ids|);
    RecordedIs(Batched(l, k, limit, |ids|), ids[..Grant(Counters(l, k), |ids|, limit)], NewRow(k, 1, now));
  }

  // ---------------------------------------------------------------- sweeps make progress

  datatype Tables = Tables(ledger: Ledger, notifications: map<string, NotificationStatus>)

  /** Rows past the timeout and not settled. */
  function Stale(t: Tables, cutoff: int): set<RowId> {
    set id | id in t.ledger.rows && t.ledger.rows[id].status == Reserved && t.ledger.rows[id].createdAt < cutoff
             && id.notification in t.notifications
  }

  ghost predicate SweepStep(t: Tables, t': Tables, cutoff: int, terminal: seq<RowId>, orphans: seq<RowId>) {
    && Answers(terminal, t.ledger.rows, t.notifications, {}, cutoff, false)
    && Answers(orphans, t.ledger.rows, t.notifications, {}, cutoff, true)
    && t'.ledger == Run(Steps(Sweep(terminal + orphans)), t.ledger).1
    && t'.notifications == FailOrphans(t.notifications, orphans)
  }

  lemma {:induction false} DistinctSize(ids: seq<RowId>)
    requires Distinct(ids)
    ensures |set id | id in ids| == |ids|
  {
    if ids != [] {
      var before, id := ids[..|ids| - 1], ids[|ids| - 1];
      DistinctSize(before);
      assert (set x | x in ids) == (set x | x in before) + {id};
      assert id !in before;
    }
  }

  lemma {:induction false} SettledAllStatus(l: Ledger, ids: seq<RowId>, id: RowId)
    requires Distinct(ids) && id in ids && id in l.rows && l.rows[id].status == Reserved
    ensures id in SettledAll(l, ids, Released).rows
            && SettledAll(l, ids, Released).rows[id] == l.rows[id].(status := Released)
  {
    var before, last := ids[..|ids| - 1], ids[|ids| - 1];
    if id == last {
      SettledAllElsewhere(l, before, Released, id);
    } else {
      assert id in before;
      SettledAllStatus(l, before, id);
    }
  }

  /** A sweep releases exactly the rows it selected. */
  lemma SweepReleasesSelected(t: Tables, t': Tables, cutoff: int, terminal: seq<RowId>, orphans: seq<RowId>)
    requires SweepStep(t, t', cutoff, terminal, orphans)
    ensures Distinct(terminal + orphans)
    ensures forall id :: id in t'.ledger.rows <==> id in t.ledger.rows
    ensures forall id | id in t.ledger.rows :: t'.ledger.rows[id] ==
              if id in terminal + orphans then t.ledger.rows[id].(status := Released) else t.ledger.rows[id]
  {
    var ids := terminal + orphans;
    AnswersAreDistinct(terminal, orphans, t.ledger.rows, t.notifications, {}, cutoff);
    AnswersAreClaimable(ids, t.ledger);
    SweepIs(t.ledger, ids);
    forall id
      ensures id in t'.ledger.rows <==> id in t.ledger.rows
      ensures id in t.ledger.rows ==>
                t'.ledger.rows[id] == if id in ids then t.ledger.rows[id].(status := Released) else t.ledger.rows[id]
    {
      if id in ids {
        SettledAllStatus(t.ledger, ids, id);
      } else {
        SettledAllElsewhere(t.ledger, ids, Released, id);
      }
    }
  }

  /** So it takes them out of the stale rows, all of which were past the timeout and unsettled. */
  lemma SweepRemovesSelected(t: Tables, t': Tables, cutoff: int, terminal: seq<RowId>, orphans: seq<RowId>)
    requires SweepStep(t, t', cutoff, terminal, orphans)
    ensures Stale(t', cutoff) == Stale(t, cutoff) - (set id | id in terminal + orphans)
    ensures forall id | id in terminal + orphans :: id in Stale(t, cutoff)
  {
    SweepReleasesSelected(t, t', cutoff, terminal, orphans);
    var ids := terminal + orphans;
    forall id | id in ids ensures id in Stale(t, cutoff) {
      assert id in terminal || id in orphans;
    }
    assert t'.notifications.Keys == t.notifications.Keys;
  }

  /** When neither query is cut off, every stale row is selected. */
  lemma AllStaleSelected(t: Tables, cutoff: int, terminal: seq<RowId>, orphans: seq<RowId>)
    requires Answers(terminal, t.ledger.rows, t.notifications, {}, cutoff, false) && |terminal| < SWEEP_LIMIT
    requires Answers(orphans, t.ledger.rows, t.notifications, {}, cutoff, true) && |orphans| < SWEEP_LIMIT
    ensures forall id | id in Stale(t, cutoff) :: id in terminal + orphans
  {
    forall id | id in Stale(t, cutoff) ensures id in terminal + orphans {
      assert Matched(t.ledger.rows, t.notifications, id, cutoff, false)
             || Matched(t.ledger.rows, t.notifications, id, cutoff, true);
    }
  }

  lemma SweepProgresses(t: Tables, t': Tables, cutoff: int, terminal: seq<RowId>, orphans: seq<RowId>)
    requires SweepStep(t, t', cutoff, terminal, orphans)
    ensures |Stale(t', cutoff)| <= Max(0, |Stale(t, cutoff)| - SWEEP_LIMIT)
  {
    var ids := terminal + orphans;
    var picked := set id | id in ids;
    SweepReleasesSelected(t, t', cutoff, terminal, orphans);
    SweepRemovesSelected(t, t', cutoff, terminal, orphans);
    DistinctSize(ids);
    assert picked <= Stale(t, cutoff) && Stale(t', cutoff) == Stale(t, cutoff) - picked;
    if |terminal| < SWEEP_LIMIT && |orphans| < SWEEP_LIMIT {
      AllStaleSelected(t, cutoff, terminal, orphans);
      assert Stale(t', cutoff) == {};
    }
  }

  /** Sweeps one after another, with nothing else going on. */
  ghost predicate Sweeps(ts: seq<Tables>, cutoff: int) {
    forall i, j | 0 <= i && j == i + 1 && j < |ts| ::
      exists terminal, orphans :: SweepStep(ts[i], ts[j], cutoff, terminal, orphans)
  }

  lemma {:induction false} SweepsProgress(ts: seq<Tables>, cutoff: int, m: nat)
    requires Sweeps(ts, cutoff) && m < |ts|
    ensures |Stale(ts[m], cutoff)| <= Max(0, |Stale(ts[0], cutoff)| - m * SWEEP_LIMIT)
  {
    if m > 0 {
      SweepsProgress(ts, cutoff, m - 1);
      var terminal, orphans :| SweepStep(ts[m - 1], ts[m], cutoff, terminal, orphans);
      SweepProgresses(ts[m - 1], ts[m], cutoff, terminal, orphans);
    }
  }

  /** n stale rows are all gone after ceil(n / 200) sweeps, though each query returns at most 200. */
  lemma StaleRowsAllGo(ts: seq<Tables>, cutoff: int)
    requires ts != [] && Sweeps(ts, cutoff)
    requires |ts| - 1 >= (|Stale(ts[0], cutoff)| + SWEEP_LIMIT - 1) / SWEEP_LIMIT
    ensures Stale(ts[|ts| - 1], cutoff) == {}
  {
    SweepsProgress(ts, cutoff, |ts| - 1);
  }
}
