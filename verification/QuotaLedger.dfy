/**
 The two tables behind quota accounting, and the statements that write them.

 `quota_usage` keeps the counters (used, reserved) of an (app, owner, channel, period) key;
 `quota_reservations` keeps one row per (notification, channel).  A transaction is a list of
 SQL statements; `Delta` says what one statement writes, and `Run` executes a list of them.
 */
module QuotaLedger {

  datatype Key = Key(app: string, owner: string, channel: string, period: string)
  datatype Usage = Usage(used: nat, reserved: nat)

  datatype Status = Reserved | Consumed | Released
  datatype RowId = RowId(notification: string, channel: string)
  datatype Row = Row(app: string, owner: string, period: string, units: nat, status: Status, createdAt: int)

  /** `accepted` and `recorded` are bookkeeping, not columns: the bag of units a batch was granted, and
      the bag of those units that a reservation row has been written for since. */
  datatype Ledger = Ledger(usage: map<Key, Usage>, rows: map<RowId, Row>,
                           accepted: multiset<Key>, recorded: multiset<Key>)

  const EMPTY: Ledger := Ledger(map[], map[], multiset{}, multiset{})

  function KeyOf(id: RowId, row: Row): Key {
    Key(row.app, row.owner, id.channel, row.period)
  }

  function Counters(l: Ledger, k: Key): Usage {
    if k in l.usage then l.usage[k] else Usage(0, 0)
  }

  function Max(a: int, b: int): int { if a < b then b else a }

  function Min(a: int, b: int): int { if a < b then a else b }

  /** What a batch is granted: never more than is asked for, never more than is left. */
  function Grant(cur: Usage, requested: nat, limit: int): nat {
    Min(requested, Max(0, limit - cur.used - cur.reserved))
  }

  // ---------------------------------------------------------------- statements

  datatype Step =
    | TryReserve(key: Key, units: nat, limit: int)   // guarded INSERT .. ON CONFLICT DO UPDATE .. WHERE
    | AddRow(id: RowId, row: Row)                    // the reservation row of a granted TryReserve
    | ReadUsage(key: Key)                            // SELECT .. FOR UPDATE
    | WriteGrant(key: Key, requested: nat, limit: int)
    | RecordRow(id: RowId, row: Row)                 // the row of a unit a batch was granted earlier
    | Claim(id: RowId)                               // select the row if it is still reserved
    | Mark(id: RowId, outcome: Status)
    | Charge(id: RowId, outcome: Status)             // move the units out of `reserved`

  /** What a transaction remembers between its statements. */
  datatype Local = Local(ok: bool, cur: Usage, claimed: map<RowId, Row>)

  const START: Local := Local(false, Usage(0, 0), map[])

  function Merge(l: Ledger, d: Ledger): Ledger {
    Ledger(l.usage + d.usage, l.rows + d.rows, l.accepted + d.accepted, l.recorded + d.recorded)
  }

  function Settled(u: Usage, units: nat, outcome: Status): Usage {
    Usage(if outcome == Consumed then u.used + units else u.used, Max(0, u.reserved - units))
  }

  /** What one statement learns and what it writes. */
  function Delta(st: Step, loc: Local, l: Ledger): (Local, Ledger) {
    match st
    case TryReserve(k, units, limit) =>
      var u := Counters(l, k);
      if units > limit || (k in l.usage && u.used + u.reserved + units > limit)
      then (loc.(ok := false), EMPTY)
      else (loc.(ok := true), EMPTY.(usage := map[k := Usage(u.used, u.reserved + units)]))
    case AddRow(id, row) =>
      (loc, if loc.ok && id !in l.rows then EMPTY.(rows := map[id := row]) else EMPTY)
    case ReadUsage(k) =>
      (loc.(cur := Counters(l, k)), EMPTY)
    case WriteGrant(k, requested, limit) =>
      var n := Grant(loc.cur, requested, limit);
      var u := Counters(l, k);
      (loc, if n == 0 then EMPTY
            else EMPTY.(usage := map[k := Usage(u.used, u.reserved + n)], accepted := multiset{}[k := n]))
    case RecordRow(id, row) =>
      (loc, if id in l.rows then EMPTY
            else EMPTY.(rows := map[id := row], recorded := multiset{}[KeyOf(id, row) := row.units]))
    case Claim(id) =>
      (if id in l.rows && l.rows[id].status == Reserved
       then loc.(claimed := loc.claimed[id := l.rows[id]]) else loc, EMPTY)
    case Mark(id, outcome) =>
      (loc, if id in loc.claimed && id in l.rows
            then EMPTY.(rows := map[id := l.rows[id].(status := outcome)]) else EMPTY)
    case Charge(id, outcome) =>
      (loc, if id in loc.claimed && KeyOf(id, loc.claimed[id]) in l.usage
            then var k := KeyOf(id, loc.claimed[id]);
                 EMPTY.(usage := map[k := Settled(l.usage[k], loc.claimed[id].units, outcome)])
            else EMPTY)
  }

  function Exec(st: Step, s: (Local, Ledger)): (Local, Ledger) {
    var (loc, d) := Delta(st, s.0, s.1);
    (loc, Merge(s.1, d))
  }

  function Resume(s: (Local, Ledger), steps: seq<Step>): (Local, Ledger) {
    if steps == [] then s
    else Exec(steps[|steps| - 1], Resume(s, steps[..|steps| - 1]))
  }

  function Run(steps: seq<Step>, l: Ledger): (Local, Ledger) {
    Resume((START, l), steps)
  }

  // ---------------------------------------------------------------- transactions

  datatype Item = Item(key: Key, units: nat, limit: int)

  datatype Txn =
    | ReserveMany(items: seq<Item>, notification: string, now: int)   // reserveForChannels
    | ReserveBatch(batch: seq<Item>)                                  // reserveForBatch
    | Record(id: RowId, row: Row)                                     // recordBatchReservation
    | Settle(settled: RowId, outcome: Status)                         // settleOnClient
    | Sweep(ids: seq<RowId>)                                          // releaseStaleReservations

  function NewRow(k: Key, units: nat, now: int): Row {
    Row(k.app, k.owner, k.period, units, Reserved, now)
  }

  function ReserveSteps(items: seq<Item>, n: string, now: int): (r: seq<Step>)
    ensures |r| == 2 * |items|
  {
    if items == [] then [] else
      var it := items[|items| - 1];
      ReserveSteps(items[..|items| - 1], n, now)
      + [TryReserve(it.key, it.units, it.limit), AddRow(RowId(n, it.key.channel), NewRow(it.key, it.units, now))]
  }

  function BatchSteps(items: seq<Item>): (r: seq<Step>)
    ensures |r| == 2 * |items|
  {
    if items == [] then [] else
      var it := items[|items| - 1];
      BatchSteps(items[..|items| - 1]) + [ReadUsage(it.key), WriteGrant(it.key, it.units, it.limit)]
  }

  function ClaimSteps(ids: seq<RowId>): seq<Step> {
    if ids == [] then [] else ClaimSteps(ids[..|ids| - 1]) + [Claim(ids[|ids| - 1])]
  }

  function FinishSteps(ids: seq<RowId>, outcome: Status): seq<Step> {
    if ids == [] then [] else
      FinishSteps(ids[..|ids| - 1], outcome) + [Mark(ids[|ids| - 1], outcome), Charge(ids[|ids| - 1], outcome)]
  }

  lemma OneMoreRow(ids: seq<RowId>, id: RowId, outcome: Status)
    ensures ClaimSteps(ids + [id]) == ClaimSteps(ids) + [Claim(id)]
    ensures FinishSteps(ids + [id], outcome) == FinishSteps(ids, outcome) + [Mark(id, outcome), Charge(id, outcome)]
  {
    assert (ids + [id])[..|ids|] == ids;
  }

  lemma OneRowSteps(id: RowId, outcome: Status)
    ensures ClaimSteps([id]) == [Claim(id)]
    ensures FinishSteps([id], outcome) == [Mark(id, outcome), Charge(id, outcome)]
  {
    OneMoreRow([], id, outcome);
    assert [] + [id] == [id];
  }

  function Steps(t: Txn): seq<Step> {
    match t
    case ReserveMany(items, n, now) => ReserveSteps(items, n, now)
    case ReserveBatch(items) => BatchSteps(items)
    case Record(id, row) => [RecordRow(id, row)]
    case Settle(id, outcome) => ClaimSteps([id]) + FinishSteps([id], outcome)
    case Sweep(ids) => ClaimSteps(ids) + FinishSteps(ids, Released)
  }

  // ---------------------------------------------------------------- what the ledger promises

  function Weight(id: RowId, row: Row, k: Key, st: Status): nat {
    if KeyOf(id, row) == k && row.status == st then row.units else 0
  }

  /** Units of the rows of key `k` in status `st`. */
  ghost function Total(rows: map<RowId, Row>, k: Key, st: Status): nat
    decreases |rows|
  {
    if rows == map[] then 0 else
      var id :| id in rows;
      var rest := rows - {id};
      assert rest.Keys == rows.Keys - {id} && |rest.Keys| < |rows.Keys|;
      Weight(id, rows[id], k, st) + Total(rest, k, st)
  }

  /** Conservation: the counters say exactly what the rows, and the grants not yet recorded, say. */
  ghost predicate ConservedAt(l: Ledger, k: Key) {
    && Counters(l, k).reserved + l.recorded[k] == Total(l.rows, k, Reserved) + l.accepted[k]
    && Counters(l, k).used == Total(l.rows, k, Consumed)
  }

  /** A key's counters are conserved, within its limit, and no batch caller recorded more of its units
      than it was granted. */
  ghost predicate KeyOk(l: Ledger, k: Key, lim: Key -> int) {
    && ConservedAt(l, k)
    && l.recorded[k] <= l.accepted[k]
    && (k in l.usage ==> l.usage[k].used + l.usage[k].reserved <= lim(k))
  }

  ghost predicate Good(l: Ledger, lim: Key -> int) {
    && (forall k :: KeyOk(l, k, lim))
    && (forall id | id in l.rows :: l.rows[id].units >= 1)
  }

  /** Items are well formed: positive units, the limit in force, one key per channel in ascending order. */
  ghost predicate ItemsOk(items: seq<Item>, lim: Key -> int) {
    && (forall i | 0 <= i < |items| :: items[i].units >= 1 && items[i].limit == lim(items[i].key))
    && (forall i, j | 0 <= i < j < |items| :: Before(items[i].key.channel, items[j].key.channel))
  }

  ghost predicate Distinct(ids: seq<RowId>) {
    forall i, j | 0 <= i < j < |ids| :: ids[i] != ids[j]
  }

  ghost predicate TxnOk(t: Txn, lim: Key -> int) {
    match t
    case ReserveMany(items, _, _) => ItemsOk(items, lim)
    case ReserveBatch(items) => ItemsOk(items, lim)
    case Record(id, row) => row.units >= 1 && row.status == Reserved
    case Settle(id, outcome) => outcome != Reserved
    case Sweep(ids) => Distinct(ids)
  }

  /** Alphabetical order of channel names (by UTF-16 code unit). */
  predicate Before(a: string, b: string) {
    b != [] && (a == [] || a[0] < b[0] || (a[0] == b[0] && Before(a[1..], b[1..])))
  }

  lemma {:induction false} BeforeIsTransitive(a: string, b: string, c: string)
    requires Before(a, b) && Before(b, c)
    ensures Before(a, c)
  {
    if a != [] && a[0] == b[0] == c[0] {
      BeforeIsTransitive(a[1..], b[1..], c[1..]);
    }
  }

  lemma {:induction false} BeforeIsIrreflexive(a: string)
    ensures !Before(a, a)
  {
    if a != [] {
      BeforeIsIrreflexive(a[1..]);
    }
  }

  lemma {:induction false} BeforeIsTotal(a: string, b: string)
    ensures a == b || Before(a, b) || Before(b, a)
  {
    if a != [] && b != [] && a[0] == b[0] {
      BeforeIsTotal(a[1..], b[1..]);
      assert a == [a[0]] + a[1..] && b == [b[0]] + b[1..];
    }
  }

  // ---------------------------------------------------------------- sums over the rows

  lemma {:induction false} TotalSplits(rows: map<RowId, Row>, id: RowId, k: Key, st: Status)
    requires id in rows
    ensures Total(rows, k, st) == Weight(id, rows[id], k, st) + Total(rows - {id}, k, st)
    decreases |rows|
  {
    var x :| x in rows && Total(rows, k, st) == Weight(x, rows[x], k, st) + Total(rows - {x}, k, st);
    if x != id {
      var rest := rows - {x};
      assert rest.Keys == rows.Keys - {x} && |rest.Keys| < |rows.Keys|;
      TotalSplits(rest, id, k, st);
      TotalSplits(rows - {id}, x, k, st) by {
        assert (rows - {id}).Keys == rows.Keys - {id} && |(rows - {id}).Keys| < |rows.Keys|;
      }
      assert rows - {x} - {id} == rows - {id} - {x};
    }
  }

  lemma TotalAfterPut(rows: map<RowId, Row>, id: RowId, row: Row, k: Key, st: Status)
    ensures Total(rows[id := row], k, st) == Weight(id, row, k, st) + Total(rows - {id}, k, st)
    ensures Total(rows, k, st) == (if id in rows then Weight(id, rows[id], k, st) else 0) + Total(rows - {id}, k, st)
  {
    TotalSplits(rows[id := row], id, k, st);
    assert rows[id := row] - {id} == rows - {id};
    if id in rows {
      TotalSplits(rows, id, k, st);
    } else {
      assert rows - {id} == rows;
    }
  }
}
