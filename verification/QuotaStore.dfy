/**
 The quota functions themselves, over the two tables, each proved to run its transaction.
 */
module QuotaStore {
  import opened QuotaLedger
  import opened QuotaSerial
  import opened Text

  datatype LimitConfig = LimitConfig(limit: int, periodStart: string)

  datatype ReserveResult =
    | TooMany                                              // more units than the limit itself
    | Blocked(used: nat, reserved: nat, remaining: nat)
    | Accepted(used: nat, reserved: nat, remaining: nat)
  {
    predicate IsBlocked() { !Accepted? }
  }

  datatype BatchResult = BatchResult(accepted: int, blocked: int, limit: Option<int>, used: nat, remaining: nat)

  datatype NotificationStatus = Pending | Delivered | Partial | Failed

  const SWEEP_LIMIT: nat := 200

  // ---------------------------------------------------------------- alphabetical order

  predicate Least(c: string, s: set<string>) {
    c in s && forall d | d in s :: d == c || Before(c, d)
  }

  lemma {:induction false} LeastExists(s: set<string>)
    requires s != {}
    ensures exists c :: Least(c, s)
  {
    var x :| x in s;
    var rest := s - {x};
    if rest == {} {
      assert s == {x} && Least(x, s);
    } else {
      LeastExists(rest);
      var c :| Least(c, rest);
      BeforeIsTotal(x, c);
      if Before(x, c) {
        forall d | d in s ensures d == x || Before(x, d) {
          if d != x && d != c {
            BeforeIsTransitive(x, c, d);
          }
        }
        assert Least(x, s);
      } else {
        assert Least(c, s);
      }
    }
  }

  lemma LeastIsUnique(s: set<string>)
    ensures forall c, d | Least(c, s) && Least(d, s) :: c == d
  {
    forall c, d | Least(c, s) && Least(d, s) ensures c == d {
      if c != d {
        BeforeIsTransitive(c, d, c);
        BeforeIsIrreflexive(c);
      }
    }
  }

  /** `[...keys].sort()` */
  function Sorted(s: set<string>): (r: seq<string>)
    ensures forall c :: c in r <==> c in s
    ensures forall i, j | 0 <= i < j < |r| :: Before(r[i], r[j]) && r[i] != r[j]
  {
    if s == {} then [] else
      LeastExists(s);
      LeastIsUnique(s);
      var c :| c in s && Least(c, s);
      [c] + Sorted(s - {c})
  }

  // ---------------------------------------------------------------- what a request asks for

  /** The channels a request asks a positive number of units of, and that have a limit. */
  function Limited(channelUnits: map<string, int>, limits: map<string, LimitConfig>): set<string> {
    set c | c in channelUnits && channelUnits[c] > 0 && c in limits
  }

  function ItemFor(app: string, owner: string, c: string, units: nat, cfg: LimitConfig): Item {
    Item(Key(app, owner, c, cfg.periodStart), units, cfg.limit)
  }

  function ItemsFor(app: string, owner: string, channels: seq<string>, channelUnits: map<string, int>,
                    limits: map<string, LimitConfig>): (r: seq<Item>)
    requires forall c | c in channels :: c in channelUnits && channelUnits[c] > 0 && c in limits
    ensures |r| == |channels|
    ensures forall i | 0 <= i < |r| ::
            r[i] == ItemFor(app, owner, channels[i], channelUnits[channels[i]], limits[channels[i]])
  {
    if channels == [] then [] else
      var c := channels[|channels| - 1];
      ItemsFor(app, owner, channels[..|channels| - 1], channelUnits, limits)
      + [ItemFor(app, owner, c, channelUnits[c], limits[c])]
  }

  /** The items of a request: its limited channels in alphabetical order. */
  function RequestFor(app: string, owner: string, channelUnits: map<string, int>,
                      limits: map<string, LimitConfig>): seq<Item> {
    ItemsFor(app, owner, Sorted(Limited(channelUnits, limits)), channelUnits, limits)
  }

  /** A request's items are in order and well formed, so the transaction theorems apply to it. */
  lemma RequestIsOk(app: string, owner: string, channelUnits: map<string, int>, limits: map<string, LimitConfig>,
                    lim: Key -> int)
    requires forall c | c in limits :: limits[c].limit == lim(Key(app, owner, c, limits[c].periodStart))
    ensures ItemsOk(RequestFor(app, owner, channelUnits, limits), lim)
  {
    var channels := Sorted(Limited(channelUnits, limits));
    assert forall i | 0 <= i < |channels| :: channels[i] in Limited(channelUnits, limits);
  }

  /** One item for each limited channel, and nothing else. */
  lemma RequestCoversLimited(app: string, owner: string, channelUnits: map<string, int>,
                             limits: map<string, LimitConfig>)
    ensures var items := RequestFor(app, owner, channelUnits, limits);
            OneKeyPerChannel(items) && Channels(items) == Limited(channelUnits, limits)
  {
  }

  predicate OneKeyPerChannel(items: seq<Item>) {
    forall i, j | 0 <= i < j < |items| :: items[i].key.channel != items[j].key.channel
  }

  function Channels(items: seq<Item>): set<string> {
    set i | 0 <= i < |items| :: items[i].key.channel
  }

  // ---------------------------------------------------------------- the ledger a request leaves

  /** After the first `i` items of a request. */
  function ReservedMany(l: Ledger, items: seq<Item>, i: nat, n: string, now: int): Ledger
    requires i <= |items|
  {
    if i == 0 then l else
      var it := items[i - 1];
      ReservedOne(ReservedMany(l, items, i - 1, n, now), it, RowId(n, it.key.channel), NewRow(it.key, it.units, now))
  }

  function GrantedOne(l: Ledger, it: Item): Ledger {
    Granted(l, it.key, Grant(Counters(l, it.key), it.units, it.limit))
  }

  /** After the first `i` items of a batch. */
  function GrantedMany(l: Ledger, items: seq<Item>, i: nat): Ledger
    requires i <= |items|
  {
    if i == 0 then l else GrantedOne(GrantedMany(l, items, i - 1), items[i - 1])
  }

  lemma {:induction false} ReserveManyIs(l: Ledger, items: seq<Item>, i: nat, n: string, now: int)
    requires i <= |items|
    ensures Run(ReserveSteps(items[..i], n, now), l).1 == ReservedMany(l, items, i, n, now)
  {
    if i > 0 {
      var it := items[i - 1];
      var id, row := RowId(n, it.key.channel), NewRow(it.key, it.units, now);
      ReserveManyIs(l, items, i - 1, n, now);
      assert items[..i][..i - 1] == items[..i - 1];
      ResumeTwo((START, l), ReserveSteps(items[..i - 1], n, now), TryReserve(it.key, it.units, it.limit),
                AddRow(id, row));
      ReserveBlockIs(Run(ReserveSteps(items[..i - 1], n, now), l), it, id, row);
    }
  }

  lemma {:induction false} ReserveBatchIs(l: Ledger, items: seq<Item>, i: nat)
    requires i <= |items|
    ensures Run(BatchSteps(items[..i]), l).1 == GrantedMany(l, items, i)
  {
    if i > 0 {
      var it := items[i - 1];
      ReserveBatchIs(l, items, i - 1);
      assert items[..i][..i - 1] == items[..i - 1];
      ResumeTwo((START, l), BatchSteps(items[..i - 1]), ReadUsage(it.key), WriteGrant(it.key, it.units, it.limit));
      BatchBlockGrants(Run(BatchSteps(items[..i - 1]), l), it);
    }
  }

  lemma RequestRuns(l: Ledger, items: seq<Item>, n: string, now: int)
    ensures Run(Steps(ReserveMany(items, n, now)), l).1 == ReservedMany(l, items, |items|, n, now)
  {
    ReserveManyIs(l, items, |items|, n, now);
    assert items[..|items|] == items;
  }

  lemma BatchRuns(l: Ledger, items: seq<Item>)
    ensures Run(Steps(ReserveBatch(items)), l).1 == GrantedMany(l, items, |items|)
  {
    ReserveBatchIs(l, items, |items|);
    assert items[..|items|] == items;
  }

  lemma OneStepRun(st: Step, l: Ledger)
    ensures Run([st], l) == Exec(st, (START, l))
  {
    var steps := [st];
    assert steps[..0] == [] && Run(steps, l) == Exec(steps[0], Run([], l));
  }

  /** The ledger once a unit a batch was granted is recorded. */
  function RecordedOne(l: Ledger, id: RowId, row: Row): Ledger {
    if id in l.rows then l
    else l.(rows := l.rows[id := row], recorded := l.recorded + multiset{}[KeyOf(id, row) := row.units])
  }

  lemma RecordIs(l: Ledger, id: RowId, row: Row)
    ensures Run(Steps(Record(id, row)), l).1 == RecordedOne(l, id, row)
  {
    OneStepRun(RecordRow(id, row), l);
    MergeNothing(l);
    var l', added := Exec(RecordRow(id, row), (START, l)).1, multiset{}[KeyOf(id, row) := row.units];
    assert id !in l.rows ==> l' == Ledger(l.usage, l.rows[id := row], l.accepted, l.recorded + added);
  }

  lemma {:induction false} OtherKeysStay(l: Ledger, items: seq<Item>, i: nat, n: string, now: int, k: Key)
    requires i <= |items| && forall j | 0 <= j < i :: items[j].key != k
    ensures k in ReservedMany(l, items, i, n, now).usage <==> k in l.usage
    ensures k in l.usage ==> ReservedMany(l, items, i, n, now).usage[k] == l.usage[k]
    ensures Counters(GrantedMany(l, items, i), k) == Counters(l, k)
  {
    if i > 0 {
      OtherKeysStay(l, items, i - 1, n, now, k);
    }
  }

  /** What a batch is told about one item, asked of ledger `l`: accepted and blocked add up to the request, what is
      accepted fits the limit, and something is blocked only because the limit is then reached. */
  function GrantResult(l: Ledger, it: Item): (r: BatchResult)
    ensures r.accepted + r.blocked == it.units && 0 <= r.accepted <= it.units
    ensures var u := Counters(l, it.key);
            && (r.accepted > 0 ==> u.used + u.reserved + r.accepted <= it.limit)
            && (r.blocked > 0 ==> u.used + u.reserved + r.accepted >= it.limit)
            && r.used == u.used && r.remaining == Max(0, it.limit - u.used - u.reserved - r.accepted)
  {
    var cur := Counters(l, it.key);
    var n := Grant(cur, it.units, it.limit);
    BatchResult(n, it.units - n, Some(it.limit), cur.used, Max(0, it.limit - cur.used - cur.reserved) - n)
  }

  /** Items of other channels do not decide whether this one is admitted. */
  lemma AdmissionStays(l: Ledger, items: seq<Item>, i: nat, n: string, now: int)
    requires i < |items| && OneKeyPerChannel(items)
    ensures Admits(ReservedMany(l, items, i, n, now), items[i]) == Admits(l, items[i])
    ensures GrantResult(GrantedMany(l, items, i), items[i]) == GrantResult(l, items[i])
  {
    OtherKeysStay(l, items, i, n, now, items[i].key);
  }

  // ---------------------------------------------------------------- the ledger a settle leaves

  function SettledOne(l: Ledger, id: RowId, outcome: Status): Ledger {
    if id !in l.rows || l.rows[id].status != Reserved then l else
      var row, k := l.rows[id], KeyOf(id, l.rows[id]);
      l.(rows := l.rows[id := row.(status := outcome)],
         usage := if k in l.usage then l.usage[k := Settled(l.usage[k], row.units, outcome)] else l.usage)
  }

  lemma MarkIs(s: (Local, Ledger), id: RowId, outcome: Status)
    requires id in s.1.rows && id in s.0.claimed
    ensures Exec(Mark(id, outcome), s) == (s.0, s.1.(rows := s.1.rows[id := s.1.rows[id].(status := outcome)]))
  {
    var row := s.1.rows[id].(status := outcome);
    assert Exec(Mark(id, outcome), s).1 == Ledger(s.1.usage, s.1.rows[id := row], s.1.accepted, s.1.recorded);
  }

  lemma ChargeIs(s: (Local, Ledger), id: RowId, outcome: Status)
    requires id in s.0.claimed
    ensures var u, k := s.1.usage, KeyOf(id, s.0.claimed[id]);
            Exec(Charge(id, outcome), s)
            == (s.0, s.1.(usage := if k in u then u[k := Settled(u[k], s.0.claimed[id].units, outcome)] else u))
  {
    var u, k := s.1.usage, KeyOf(id, s.0.claimed[id]);
    if k in u {
      var u' := u[k := Settled(u[k], s.0.claimed[id].units, outcome)];
      assert Exec(Charge(id, outcome), s).1 == Ledger(u', s.1.rows, s.1.accepted, s.1.recorded);
    } else {
      MergeNothing(s.1);
    }
  }

  lemma FinishBlockIs(s: (Local, Ledger), id: RowId, outcome: Status)
    requires id in s.1.rows && id in s.0.claimed && s.0.claimed[id] == s.1.rows[id] && s.1.rows[id].status == Reserved
    ensures Exec(Charge(id, outcome), Exec(Mark(id, outcome), s)) == (s.0, SettledOne(s.1, id, outcome))
  {
    MarkIs(s, id, outcome);
    ChargeIs(Exec(Mark(id, outcome), s), id, outcome);
  }

  lemma SettleRuns(l: Ledger, id: RowId, outcome: Status)
    ensures Run(Steps(Settle(id, outcome)), l)
            == Exec(Charge(id, outcome), Exec(Mark(id, outcome), Exec(Claim(id), (START, l))))
  {
    OneRowSteps(id, outcome);
    OneStepRun(Claim(id), l);
    ResumeTwo((START, l), [Claim(id)], Mark(id, outcome), Charge(id, outcome));
  }

  lemma SettleIs(l: Ledger, id: RowId, outcome: Status)
    ensures Run(Steps(Settle(id, outcome)), l).1 == SettledOne(l, id, outcome)
  {
    var s1 := Exec(Claim(id), (START, l));
    SettleRuns(l, id, outcome);
    MergeNothing(l);
    if id in l.rows && l.rows[id].status == Reserved {
      FinishBlockIs(s1, id, outcome);
    } else {
      UnclaimedIsLeft(l, id, outcome);
    }
  }

  lemma UnclaimedIsLeft(l: Ledger, id: RowId, outcome: Status)
    ensures Exec(Charge(id, outcome), Exec(Mark(id, outcome), (START, l))) == (START, l)
  {
    MergeNothing(l);
  }

  function SettledAll(l: Ledger, ids: seq<RowId>, outcome: Status): Ledger {
    if ids == [] then l else SettledOne(SettledAll(l, ids[..|ids| - 1], outcome), ids[|ids| - 1], outcome)
  }

  lemma {:induction false} SettledAllElsewhere(l: Ledger, ids: seq<RowId>, outcome: Status, id: RowId)
    requires id !in ids
    ensures id in SettledAll(l, ids, outcome).rows <==> id in l.rows
    ensures id in l.rows ==> SettledAll(l, ids, outcome).rows[id] == l.rows[id]
  {
    if ids != [] {
      SettledAllElsewhere(l, ids[..|ids| - 1], outcome, id);
    }
  }

  lemma OneMoreSettled(l: Ledger, ids: seq<RowId>, i: nat)
    requires Distinct(ids) && i < |ids| && ids[i] in l.rows
    ensures SettledAll(l, ids[..i + 1], Released) == SettledOne(SettledAll(l, ids[..i], Released), ids[i], Released)
    ensures ids[i] in SettledAll(l, ids[..i], Released).rows
            && SettledAll(l, ids[..i], Released).rows[ids[i]] == l.rows[ids[i]]
  {
    assert ids[..i + 1][..i] == ids[..i];
    SettledAllElsewhere(l, ids[..i], Released, ids[i]);
  }

  lemma {:induction false} FinishIsSettleAll(s: (Local, Ledger), ids: seq<RowId>, outcome: Status)
    requires Distinct(ids) && Claimed(s, ids)
    ensures Resume(s, FinishSteps(ids, outcome)) == (s.0, SettledAll(s.1, ids, outcome))
  {
    if ids != [] {
      var before, id := ids[..|ids| - 1], ids[|ids| - 1];
      FinishIsSettleAll(s, before, outcome);
      SettledAllElsewhere(s.1, before, outcome, id);
      ResumeTwo(s, FinishSteps(before, outcome), Mark(id, outcome), Charge(id, outcome));
      FinishBlockIs((s.0, SettledAll(s.1, before, outcome)), id, outcome);
    }
  }

  lemma FinishAfterClaimsIs(ids: seq<RowId>, outcome: Status, l: Ledger)
    requires Distinct(ids) && Valid(ClaimSteps(ids), l)
    ensures Run(ClaimSteps(ids) + FinishSteps(ids, outcome), l).1 == SettledAll(l, ids, outcome)
  {
    ClaimsOnlyRead(ids, l);
    var s := Run(ClaimSteps(ids), l);
    FinishIsSettleAll(s, ids, outcome);
    ResumeThrough((START, l), ClaimSteps(ids), FinishSteps(ids, outcome), s, (s.0, SettledAll(l, ids, outcome)));
  }

  /** A sweep is a settle of each row it selects. */
  lemma SweepIs(l: Ledger, ids: seq<RowId>)
    requires Distinct(ids) && Valid(ClaimSteps(ids), l)
    ensures Run(Steps(Sweep(ids)), l).1 == SettledAll(l, ids, Released)
  {
    FinishAfterClaimsIs(ids, Released, l);
  }

  lemma ResumeThrough(s: (Local, Ledger), a: seq<Step>, b: seq<Step>, s1: (Local, Ledger), s2: (Local, Ledger))
    requires Resume(s, a) == s1 && Resume(s1, b) == s2
    ensures Resume(s, a + b) == s2
  {
    ResumeAppends(s, a, b);
  }

  // ---------------------------------------------------------------- the sweep's queries

  predicate Terminal(st: NotificationStatus) {
    st == Delivered || st == Partial || st == Failed
  }

  /** The rows one of the sweep's two queries matches. */
  predicate Matched(rows: map<RowId, Row>, notifications: map<string, NotificationStatus>, id: RowId, cutoff: int,
                    orphan: bool) {
    && id in rows && rows[id].status == Reserved && rows[id].createdAt < cutoff
    && id.notification in notifications
    && (if orphan then notifications[id.notification] == Pending else Terminal(notifications[id.notification]))
  }

  /** `ids` is an answer of `.. FOR UPDATE OF qr SKIP LOCKED LIMIT 200`. */
  ghost predicate Answers(ids: seq<RowId>, rows: map<RowId, Row>, notifications: map<string, NotificationStatus>,
                          locked: set<RowId>, cutoff: int, orphan: bool) {
    && Distinct(ids) && |ids| <= SWEEP_LIMIT
    && (forall id | id in ids :: Matched(rows, notifications, id, cutoff, orphan) && id !in locked)
    && (|ids| < SWEEP_LIMIT ==> forall id | Matched(rows, notifications, id, cutoff, orphan) && id !in locked ::
        id in ids)
  }

  function FailOrphans(notifications: map<string, NotificationStatus>,
                       orphans: seq<RowId>): map<string, NotificationStatus> {
    map n | n in notifications ::
      if notifications[n] == Pending && (exists i | 0 <= i < |orphans| :: orphans[i].notification == n) then Failed
          else notifications[n]
  }

  lemma AnswersAreDistinct(terminal: seq<RowId>, orphans: seq<RowId>, rows: map<RowId, Row>,
                           notifications: map<string, NotificationStatus>, locked: set<RowId>, cutoff: int)
    requires Answers(terminal, rows, notifications, locked, cutoff, false)
    requires Answers(orphans, rows, notifications, locked, cutoff, true)
    ensures Distinct(terminal + orphans)
    ensures forall id | id in terminal + orphans :: id in rows && rows[id].status == Reserved
  {
    var stale := terminal + orphans;
    forall i, j | 0 <= i < |terminal| <= j < |stale| ensures stale[i] != stale[j] {
      assert stale[i] == terminal[i] && terminal[i] in terminal;
      assert stale[j] == orphans[j - |terminal|] && stale[j] in orphans;
    }
  }

  lemma AnswersAreClaimable(ids: seq<RowId>, l: Ledger)
    requires forall id | id in ids :: id in l.rows && l.rows[id].status == Reserved
    ensures Valid(ClaimSteps(ids), l) && Run(ClaimSteps(ids), l).1 == l
  {
    if ids != [] {
      AnswersAreClaimable(ids[..|ids| - 1], l);
      MergeNothing(l);
      assert ids[|ids| - 1] in ids;
    }
  }

  // ---------------------------------------------------------------- the store

  /** An answer: blocked as the ledger before decides, and reporting the counter after. */
  predicate AnswersItem(r: ReserveResult, it: Item, l: Ledger, l': Ledger) {
    && (r.IsBlocked() <==> !Admits(l, it)) && (r.TooMany? <==> it.units > it.limit)
    && (!r.TooMany? ==> Usage(r.used, r.reserved) == Counters(l', it.key))
    && (!r.TooMany? ==> r.remaining == Max(0, it.limit - r.used - r.reserved))
  }

  /** The first `n` items are answered. */
  predicate AnswersReserve(results: map<string, ReserveResult>, items: seq<Item>, n: nat, l: Ledger, l': Ledger) {
    n <= |items| &&
    forall i | 0 <= i < n ::
        items[i].key.channel in results && AnswersItem(results[items[i].key.channel], items[i], l, l')
  }

  predicate AnswersBatch(results: map<string, BatchResult>, items: seq<Item>, n: nat, l: Ledger) {
    n <= |items| &&
    forall i | 0 <= i < n ::
        items[i].key.channel in results && results[items[i].key.channel] == GrantResult(l, items[i])
  }

  lemma OneMoreAnswer(results: map<string, ReserveResult>, items: seq<Item>, i: nat, l: Ledger, before: Ledger,
                      after: Ledger, r: ReserveResult)
    requires i < |items| && OneKeyPerChannel(items) && AnswersReserve(results, items, i, l, before)
    requires AnswersItem(r, items[i], l, after)
    requires forall k | k != items[i].key :: Counters(after, k) == Counters(before, k)
    ensures AnswersReserve(results[items[i].key.channel := r], items, i + 1, l, after)
  {
  }

  lemma OneMoreGrant(results: map<string, BatchResult>, items: seq<Item>, i: nat, l: Ledger, r: BatchResult)
    requires i < |items| && OneKeyPerChannel(items) && AnswersBatch(results, items, i, l)
             && r == GrantResult(l, items[i])
    ensures AnswersBatch(results[items[i].key.channel := r], items, i + 1, l)
  {
  }

  lemma AllAnswered(results: map<string, ReserveResult>, items: seq<Item>, l: Ledger, l': Ledger)
    requires results.Keys <= Channels(items) && AnswersReserve(results, items, |items|, l, l')
    ensures results.Keys == Channels(items)
  {
  }

  lemma AllGranted(results: map<string, BatchResult>, items: seq<Item>, l: Ledger)
    requires results.Keys <= Channels(items) && AnswersBatch(results, items, |items|, l)
    ensures results.Keys == Channels(items)
  {
  }

  /** A batch's answers: channels without a limit are granted in full. */
  function BatchAnswers(channelUnits: map<string, int>, granted: map<string, BatchResult>): map<string, BatchResult> {
    map c | c in channelUnits :: if c in granted then granted[c] else BatchResult(channelUnits[c], 0, None, 0, 0)
  }

  lemma AnswersStand(channelUnits: map<string, int>, granted: map<string, BatchResult>, items: seq<Item>, l: Ledger)
    requires AnswersBatch(granted, items, |items|, l) && granted.Keys == Channels(items) <= channelUnits.Keys
    ensures var results := BatchAnswers(channelUnits, granted);
            && results.Keys == channelUnits.Keys && AnswersBatch(results, items, |items|, l)
            && forall c | c in results && c !in Channels(items) ::
                results[c] == BatchResult(channelUnits[c], 0, None, 0, 0)
  {
    forall i | 0 <= i < |items| ensures items[i].key.channel in channelUnits {
      assert items[i].key.channel in Channels(items);
    }
  }

  class Store {
    var usage: map<Key, Usage>
    var rows: map<RowId, Row>
    var notifications: map<string, NotificationStatus>
    ghost var accepted: multiset<Key>
    ghost var recorded: multiset<Key>

    constructor ()
      ensures Contents() == EMPTY && notifications == map[]
    {
      usage, rows, notifications, accepted, recorded := map[], map[], map[], multiset{}, multiset{};
    }

    ghost function Contents(): Ledger
      reads this
    {
      Ledger(usage, rows, accepted, recorded)
    }

    /** Reserve one channel inside a transaction (_reserveOnClient). */
    method ReserveOnClient(it: Item, id: RowId, row: Row) returns (r: ReserveResult)
      modifies this
      ensures Contents() == ReservedOne(old(Contents()), it, id, row) && notifications == old(notifications)
      ensures AnswersItem(r, it, old(Contents()), Contents())
    {
      if it.units > it.limit {
        return TooMany;
      }
      if it.key in usage {
        var u := usage[it.key];
        if u.used + u.reserved + it.units > it.limit {
          return Blocked(u.used, u.reserved, Max(0, it.limit - u.used - u.reserved));
        }
        usage := usage[it.key := Usage(u.used, u.reserved + it.units)];
      } else {
        usage := usage[it.key := Usage(0, it.units)];
      }
      if id !in rows {
        rows := rows[id := row];
      }
      var now := usage[it.key];
      return Accepted(now.used, now.reserved, Max(0, it.limit - now.used - now.reserved));
    }

    /** Reserve every limited channel of a request, in alphabetical order, in one transaction. */
    method ReserveForChannels(app: string, owner: string, n: string, channelUnits: map<string, int>,
                              limits: map<string, LimitConfig>, now: int)
      returns (results: map<string, ReserveResult>, anyBlocked: bool)
      modifies this
      ensures var items := RequestFor(app, owner, channelUnits, limits);
              && Contents() == Run(Steps(ReserveMany(items, n, now)), old(Contents())).1
              && AnswersReserve(results, items, |items|, old(Contents()), Contents())
      ensures results.Keys == Limited(channelUnits, limits) && notifications == old(notifications)
      ensures anyBlocked <==> exists c :: c in results && results[c].IsBlocked()
    {
      var items := RequestFor(app, owner, channelUnits, limits);
      RequestRuns(Contents(), items, n, now);
      RequestCoversLimited(app, owner, channelUnits, limits);
      ghost var l := Contents();
      results := ReserveItems(items, n, now);
      AllAnswered(results, items, l, Contents());
      anyBlocked := exists c | c in results :: results[c].IsBlocked();
    }

    /** The loop of a request over its limited channels. */
    method ReserveItems(items: seq<Item>, n: string, now: int) returns (results: map<string, ReserveResult>)
      requires OneKeyPerChannel(items)
      modifies this
      ensures Contents() == ReservedMany(old(Contents()), items, |items|, n, now) && notifications == old(notifications)
      ensures results.Keys <= Channels(items) && AnswersReserve(results, items, |items|, old(Contents()), Contents())
    {
      ghost var l := Contents();
      results := map[];
      for i := 0 to |items|
        invariant Contents() == ReservedMany(l, items, i, n, now) && notifications == old(notifications)
        invariant results.Keys <= Channels(items)
        invariant AnswersReserve(results, items, i, l, Contents())
      {
        var it := items[i];
        AdmissionStays(l, items, i, n, now);
        ghost var before := Contents();
        var r := ReserveOnClient(it, RowId(n, it.key.channel), NewRow(it.key, it.units, now));
        OneMoreAnswer(results, items, i, l, before, Contents(), r);
        results := results[it.key.channel := r];
      }
    }

    /** One channel of a batch: select the counter FOR UPDATE, then add what is granted. */
    method GrantOnClient(it: Item) returns (r: BatchResult)
      modifies this
      ensures Contents() == GrantedOne(old(Contents()), it) && notifications == old(notifications)
      ensures r == GrantResult(old(Contents()), it)
    {
      var cur := if it.key in usage then usage[it.key] else Usage(0, 0);
      var available: nat := Max(0, it.limit - cur.used - cur.reserved);
      var granted: nat := Min(it.units, available);
      ghost var l := Contents();
      assert cur == Counters(l, it.key) && granted == Grant(cur, it.units, it.limit);
      if granted > 0 {
        usage := usage[it.key := Usage(cur.used, cur.reserved + granted)];
        accepted := accepted + multiset{}[it.key := granted];
      }
      assert Contents() == Granted(l, it.key, granted);
      r := BatchResult(granted, it.units - granted, Some(it.limit), cur.used, Max(0, available - granted));
    }

    /** Grant a batch as much of each channel as is left. */
    method ReserveForBatch(app: string, owner: string, channelUnits: map<string, int>, limits: map<string, LimitConfig>)
      returns (results: map<string, BatchResult>)
      modifies this
      ensures var items := RequestFor(app, owner, channelUnits, limits);
              && Contents() == Run(Steps(ReserveBatch(items)), old(Contents())).1
              && AnswersBatch(results, items, |items|, old(Contents()))
      ensures results.Keys == channelUnits.Keys && notifications == old(notifications)
      ensures forall c | c in results && c !in Limited(channelUnits, limits) ::
                results[c] == BatchResult(channelUnits[c], 0, None, 0, 0)
    {
      var items := RequestFor(app, owner, channelUnits, limits);
      BatchRuns(Contents(), items);
      RequestCoversLimited(app, owner, channelUnits, limits);
      ghost var l := Contents();
      var granted := GrantItems(items);
      AllGranted(granted, items, l);
      AnswersStand(channelUnits, granted, items, l);
      results := BatchAnswers(channelUnits, granted);
    }

    /** The loop of a batch over its limited channels. */
    method GrantItems(items: seq<Item>) returns (results: map<string, BatchResult>)
      requires OneKeyPerChannel(items)
      modifies this
      ensures Contents() == GrantedMany(old(Contents()), items, |items|) && notifications == old(notifications)
      ensures results.Keys <= Channels(items) && AnswersBatch(results, items, |items|, old(Contents()))
    {
      ghost var l := Contents();
      results := map[];
      for i := 0 to |items|
        invariant Contents() == GrantedMany(l, items, i) && notifications == old(notifications)
        invariant results.Keys <= Channels(items)
        invariant AnswersBatch(results, items, i, l)
      {
        AdmissionStays(l, items, i, "", 0);
        var r := GrantOnClient(items[i]);
        OneMoreGrant(results, items, i, l, r);
        results := results[items[i].key.channel := r];
      }
    }

    /** Write the reservation row of a unit a batch was granted; no period means no limit, and no row. */
    method RecordBatchReservation(id: RowId, row: Row, limited: bool)
      modifies this
      ensures Contents() == if limited then Run(Steps(Record(id, row)), old(Contents())).1 else old(Contents())
      ensures notifications == old(notifications)
    {
      if !limited {
        return;
      }
      RecordIs(Contents(), id, row);
      if id !in rows {
        rows := rows[id := row];
        recorded := recorded + multiset{}[KeyOf(id, row) := row.units];
      }
    }

    /** Move a reservation to its outcome, once. */
    method SettleOnClient(id: RowId, outcome: Status)
      modifies this
      ensures Contents() == Run(Steps(Settle(id, outcome)), old(Contents())).1
      ensures notifications == old(notifications)
    {
      SettleIs(Contents(), id, outcome);
      if id in rows && rows[id].status == Reserved {
        SettleRow(id, rows[id], outcome);
      }
    }

    /** The two UPDATEs of a settle, for a row still reserved. */
    method SettleRow(id: RowId, row: Row, outcome: Status)
      requires id in rows && rows[id] == row && row.status == Reserved
      modifies this
      ensures Contents() == SettledOne(old(Contents()), id, outcome) && notifications == old(notifications)
    {
      rows := rows[id := row.(status := outcome)];
      var k := KeyOf(id, row);
      if k in usage {
        var u := usage[k];
        if outcome == Consumed {
          usage := usage[k := Usage(u.used + row.units, Max(0, u.reserved - row.units))];
        } else {
          usage := usage[k := Usage(u.used, Max(0, u.reserved - row.units))];
        }
      }
    }

    /** Release the rows the two queries select, and fail the notifications of the orphans. */
    method ReleaseStaleReservations(terminal: seq<RowId>, orphans: seq<RowId>, ghost locked: set<RowId>,
                                    ghost cutoff: int)
      returns (count: nat)
      requires Answers(terminal, rows, notifications, locked, cutoff, false)
      requires Answers(orphans, rows, notifications, locked, cutoff, true)
      modifies this
      ensures Contents() == Run(Steps(Sweep(terminal + orphans)), old(Contents())).1
      ensures Valid(ClaimSteps(terminal + orphans), old(Contents()))
      ensures count == |terminal| + |orphans|
      ensures notifications == FailOrphans(old(notifications), orphans)
    {
      var stale := terminal + orphans;
      AnswersAreDistinct(terminal, orphans, rows, notifications, locked, cutoff);
      AnswersAreClaimable(stale, Contents());
      SweepIs(Contents(), stale);
      count := ReleaseAll(stale);
      notifications := FailOrphans(notifications, orphans);
    }

    /** The loop of the sweep over the rows it selected. */
    method ReleaseAll(stale: seq<RowId>) returns (count: nat)
      requires Distinct(stale) && forall id | id in stale :: id in rows && rows[id].status == Reserved
      modifies this
      ensures Contents() == SettledAll(old(Contents()), stale, Released) && notifications == old(notifications)
      ensures count == |stale|
    {
      ghost var l := Contents();
      var selected := map id | id in stale :: rows[id];
      count := 0;
      assert stale[..0] == [];
      for i := 0 to |stale|
        invariant Contents() == SettledAll(l, stale[..i], Released) && count == i
        invariant notifications == old(notifications)
      {
        OneMoreSettled(l, stale, i);
        ReleaseOne(stale[i], selected[stale[i]]);
        count := count + 1;
      }
      assert stale[..|stale|] == stale;
    }

    /** The two UPDATEs of the sweep for one selected row. */
    method ReleaseOne(id: RowId, row: Row)
      requires id in rows && rows[id] == row && row.status == Reserved
      modifies this
      ensures Contents() == SettledOne(old(Contents()), id, Released) && notifications == old(notifications)
    {
      rows := rows[id := row.(status := Released)];
      var k := KeyOf(id, row);
      if k in usage {
        usage := usage[k := Usage(usage[k].used, Max(0, usage[k].reserved - row.units))];
      }
    }
  }
}
