/** The webhook delivery protocol (src/workers/webhook-delivery.worker.js): any number of processes claim rows
    under a one-hour lease, call the receiver and write the outcome. Times are in milliseconds. */
module WebhookDelivery {
  const HOUR := 3_600_000
  const HTTP_TIMEOUT := 15_000
  const BATCH_SIZE := 20
  const MAX_ATTEMPTS := 5

  /** The wait nextAttemptAt adds, by the number of attempts made so far; past the table it stays at two hours. */
  function Backoff(attempts: nat): nat {
    match attempts
    case 0 => 0
    case 1 => 30_000
    case 2 => 300_000
    case 3 => 1_800_000
    case _ => 7_200_000
  }

  datatype Status = Pending | Delivered | Failed

  /** One completed delivery: when its row was claimed, when the call returned, and how. */
  datatype Attempt = Attempt(claimed: int, returned: int, ok: bool)

  /** A row of webhook_deliveries. `event` stands for the app, event type and notification it reports; `log` is its
      history since it was last reset, which no code reads. */
  datatype Row = Row(event: int, status: Status, attempts: nat, due: int, log: seq<Attempt>)

  datatype Phase = Calling | Writing(ok: bool) | Recovering

  /** A tick under way: the claimed rows with the attempts read for each, and how far the loop has come. */
  datatype Tick = Tick(batch: seq<int>, taken: seq<nat>, claimed: int, at: nat, phase: Phase, since: int)

  datatype State = State(now: int, rows: map<int, Row>, busy: map<int, Tick>)

  /** How long a write of an outcome, and the write of the error path, may take. */
  datatype Bounds = Bounds(write: nat, recover: nat)

  datatype Event =
    | Wait(until: int)
    | Enqueue(id: int, event: int)
    | Claim(p: int, batch: seq<int>)
    | Return(p: int, ok: bool)
    | Write(p: int)
    | LostReply(p: int)
    | Throw(p: int)
    | Recover(p: int, done: bool)
    | Crash(p: int)
    | Retry(id: int)

  // ---------------------------------------------------------------- what the statements do to a row

  function Leased(row: Row, now: int): Row {
    row.(attempts := row.attempts + 1, due := now + HOUR)
  }

  /** The write after a call that returned at `since`; `attempts` counts this one. */
  function Written(row: Row, attempts: nat, claimed: int, since: int, ok: bool, now: int): Row {
    var log := row.log + [Attempt(claimed, since, ok)];
    if ok then row.(status := Delivered, log := log)
    else if attempts >= MAX_ATTEMPTS then row.(status := Failed, due := now, log := log)
    else row.(status := Pending, due := since + Backoff(attempts), log := log)
  }

  /** The write of the error path, whatever the number of attempts. */
  function Recovered(row: Row, attempts: nat, since: int): Row {
    row.(status := Pending, due := since + Backoff(attempts))
  }

  function Reset(event: int, now: int): Row {
    Row(event, Pending, 0, now, [])
  }

  /** Rows the unique index covers: at most one of them for each event. */
  predicate Live(row: Row) {
    row.status != Failed
  }

  /** Another live row reports the event, so the index keeps this one from doing so. */
  predicate Taken(rows: map<int, Row>, id: int, event: int) {
    exists other :: other in rows && other != id && Live(rows[other]) && rows[other].event == event
  }

  predicate Due(row: Row, now: int) {
    row.status == Pending && row.due <= now
  }

  function Claimed(rows: map<int, Row>, batch: seq<int>, now: int): map<int, Row> {
    map id | id in rows :: if id in batch then Leased(rows[id], now) else rows[id]
  }

  /** What one claim may take: due rows, each once, at most a batch of them. The query picks the oldest, skips
      rows locked by another claim and those without an active subscribed webhook. */
  predicate Claimable(rows: map<int, Row>, batch: seq<int>, now: int) {
    && 0 < |batch| <= BATCH_SIZE
    && (forall i, j | 0 <= i < j < |batch| :: batch[i] != batch[j])
    && (forall j | 0 <= j < |batch| :: batch[j] in rows && Due(rows[batch[j]], now))
  }

  // ---------------------------------------------------------------- steps

  function Limit(b: Bounds, phase: Phase): nat {
    match phase
    case Calling => HTTP_TIMEOUT
    case Writing(_) => b.write
    case Recovering => b.recover
  }

  /** Process p is working on a row of the table. */
  predicate Working(s: State, p: int) {
    p in s.busy && s.busy[p].at < |s.busy[p].batch| == |s.busy[p].taken| && s.busy[p].batch[s.busy[p].at] in s.rows
  }

  predicate Enabled(b: Bounds, s: State, e: Event) {
    match e
    case Wait(until) => s.now <= until && forall p | p in s.busy :: until <= s.busy[p].since + Limit(b, s.busy[p].phase)
    case Enqueue(id, _) => id !in s.rows
    case Claim(p, batch) => p !in s.busy && Claimable(s.rows, batch, s.now)
    case Return(p, _) => Working(s, p) && s.busy[p].phase == Calling
    case Write(p) => Working(s, p) && s.busy[p].phase.Writing?
    case LostReply(p) => Working(s, p) && s.busy[p].phase.Writing?
    case Throw(p) => Working(s, p) && s.busy[p].phase != Recovering
    case Recover(p, _) => Working(s, p) && s.busy[p].phase == Recovering
    case Crash(p) => p in s.busy
    case Retry(id) => id in s.rows
  }

  function Current(s: State, p: int): int
    requires Working(s, p)
  {
    s.busy[p].batch[s.busy[p].at]
  }

  function Enter(s: State, p: int, phase: Phase): State
    requires p in s.busy
  {
    s.(busy := s.busy[p := s.busy[p].(phase := phase, since := s.now)])
  }

  /** The loop moves on to its next row, or the tick ends. */
  function Next(s: State, p: int): State
    requires p in s.busy
  {
    var t := s.busy[p];
    if t.at + 1 < |t.batch| then s.(busy := s.busy[p := t.(at := t.at + 1, phase := Calling, since := s.now)])
    else s.(busy := s.busy - {p})
  }

  function Put(s: State, id: int, row: Row): State {
    s.(rows := s.rows[id := row])
  }

  function AfterWrite(s: State, p: int): State
    requires Working(s, p) && s.busy[p].phase.Writing?
  {
    var t, id := s.busy[p], Current(s, p);
    Put(s, id, Written(s.rows[id], t.taken[t.at] + 1, t.claimed, t.since, t.phase.ok, s.now))
  }

  function AfterRecovery(s: State, p: int): State
    requires Working(s, p)
  {
    var t, id := s.busy[p], Current(s, p);
    Put(s, id, Recovered(s.rows[id], t.taken[t.at] + 1, t.since))
  }

  function AttemptsOf(rows: map<int, Row>, batch: seq<int>): (taken: seq<nat>)
    requires forall j | 0 <= j < |batch| :: batch[j] in rows
    ensures |taken| == |batch| && forall j | 0 <= j < |batch| :: taken[j] == rows[batch[j]].attempts
  {
    seq<nat>(|batch|, j requires 0 <= j < |batch| => rows[batch[j]].attempts)
  }

  function Apply(b: Bounds, s: State, e: Event): State
    requires Enabled(b, s, e)
  {
    match e
    case Wait(until) => s.(now := until)
    case Enqueue(id, event) => if Taken(s.rows, id, event) then s else Put(s, id, Reset(event, s.now))
    case Claim(p, batch) =>
      s.(rows := Claimed(s.rows, batch, s.now),
         busy := s.busy[p := Tick(batch, AttemptsOf(s.rows, batch), s.now, 0, Calling, s.now)])
    case Return(p, ok) => Enter(s, p, Writing(ok))
    case Write(p) => Next(AfterWrite(s, p), p)
    case LostReply(p) => Enter(AfterWrite(s, p), p, Recovering)
    case Throw(p) => Enter(s, p, Recovering)
    case Recover(p, done) => Next(if done then AfterRecovery(s, p) else s, p)
    case Crash(p) => s.(busy := s.busy - {p})
    case Retry(id) => if Taken(s.rows, id, s.rows[id].event) then s else Put(s, id, Reset(s.rows[id].event, s.now))
  }

  function Start(now: int): State {
    State(now, map[], map[])
  }

  // ---------------------------------------------------------------- runs

  predicate IsRun(b: Bounds, s: State, es: seq<Event>)
    decreases |es|
  {
    es == [] || (Enabled(b, s, es[0]) && IsRun(b, Apply(b, s, es[0]), es[1..]))
  }

  function Play(b: Bounds, s: State, es: seq<Event>): State
    requires IsRun(b, s, es)
    decreases |es|
  {
    if es == [] then s else Play(b, Apply(b, s, es[0]), es[1..])
  }

  /** Row id is among those process p has claimed and not finished. */
  ghost predicate Holds(t: Tick, id: int) {
    exists j :: t.at <= j < |t.batch| && t.batch[j] == id
  }

  ghost predicate InFlight(s: State, id: int) {
    exists p :: p in s.busy && Holds(s.busy[p], id)
  }

  ghost predicate Exclusive(s: State) {
    forall p, q, id | p in s.busy && q in s.busy && Holds(s.busy[p], id) && Holds(s.busy[q], id) :: p == q
  }

  /** The dashboard's retry takes effect on no row in flight: nobody holds it, or the index refuses it. */
  ghost predicate HarmlessRetry(s: State, id: int)
    requires id in s.rows
  {
    !InFlight(s, id) || Taken(s.rows, id, s.rows[id].event)
  }

  /** The number of the attempt p is making. */
  function AttemptOf(t: Tick): nat
    requires t.at < |t.taken|
  {
    t.taken[t.at] + 1
  }

  /** The outcome being written is final. */
  predicate WritesFinal(t: Tick)
    requires t.at < |t.taken| && t.phase.Writing?
  {
    t.phase.ok || AttemptOf(t) >= MAX_ATTEMPTS
  }

  /** A write commits and reports an error: the row is not final, and stays leased while the error path may run. */
  predicate HarmlessReply(b: Bounds, now: int, t: Tick)
    requires t.at < |t.taken| && t.phase.Writing?
  {
    !WritesFinal(t) && now + b.recover < t.since + Backoff(AttemptOf(t))
  }

  /** The hypotheses on a step. */
  ghost predicate Careful(b: Bounds, s: State, e: Event)
    requires Enabled(b, s, e)
  {
    match e
    case LostReply(p) => HarmlessReply(b, s.now, s.busy[p])
    case Retry(id) => HarmlessRetry(s, id)
    case _ => true
  }

  ghost predicate AllCareful(b: Bounds, s: State, es: seq<Event>)
    requires IsRun(b, s, es)
    decreases |es|
  {
    es == [] || (Careful(b, s, es[0]) && AllCareful(b, Apply(b, s, es[0]), es[1..]))
  }

  // ---------------------------------------------------------------- the lease

  /** A full batch, every row taking as long as it may, ends before its lease does. */
  predicate Fits(b: Bounds) {
    BATCH_SIZE * Slot(b) < HOUR
  }

  function Slot(b: Bounds): nat {
    HTTP_TIMEOUT + b.write + b.recover
  }

  /** The latest moment row number `at` of a tick can have reached `phase`. */
  function Latest(b: Bounds, t: Tick): int {
    t.claimed + t.at * Slot(b) +
    match t.phase
    case Calling => 0
    case Writing(_) => HTTP_TIMEOUT
    case Recovering => HTTP_TIMEOUT + b.write
  }

  predicate OnTime(b: Bounds, now: int, t: Tick) {
    t.since <= now <= t.since + Limit(b, t.phase) && t.since <= Latest(b, t)
  }

  predicate Shaped(t: Tick) {
    && t.at < |t.batch| == |t.taken| <= BATCH_SIZE
    && (forall i, j | 0 <= i < j < |t.batch| :: t.batch[i] != t.batch[j])
  }

  /** Row j of a tick is leased: for the hour, or, if it is in hand and its write went through unnoticed, for as long
      as the error path may run. */
  predicate Leasing(b: Bounds, row: Row, t: Tick, j: nat)
    requires j < |t.taken|
  {
    && row.status == Pending && row.attempts == t.taken[j] + 1
    && (row.due == t.claimed + HOUR || (j == t.at && t.phase == Recovering && t.since + b.recover < row.due))
  }

  /** Every row a tick still holds is leased. */
  predicate Held(b: Bounds, rows: map<int, Row>, t: Tick) {
    forall j | t.at <= j < |t.batch| == |t.taken| :: t.batch[j] in rows && Leasing(b, rows[t.batch[j]], t, j)
  }

  ghost predicate Inv(b: Bounds, s: State) {
    && (forall p | p in s.busy :: Shaped(s.busy[p]) && OnTime(b, s.now, s.busy[p]) && Held(b, s.rows, s.busy[p]))
    && Exclusive(s)
  }

  /** While the tick runs, its lease is good. */
  lemma LeaseOutlastsTick(b: Bounds, now: int, t: Tick)
    requires Fits(b) && Shaped(t) && OnTime(b, now, t)
    ensures now < t.claimed + HOUR
  {
    MulGrows(t.at, BATCH_SIZE - 1, Slot(b));
  }

  lemma MulGrows(m: nat, n: nat, x: nat)
    requires m <= n
    ensures m * x <= n * x
  {
  }

  lemma ClaimTakesFreeRows(b: Bounds, s: State, batch: seq<int>)
    requires Fits(b) && Inv(b, s) && Claimable(s.rows, batch, s.now)
    ensures forall id | id in batch :: !InFlight(s, id)
  {
    forall id | id in batch ensures !InFlight(s, id) {
      if InFlight(s, id) {
        var p :| p in s.busy && Holds(s.busy[p], id);
        LeaseOutlastsTick(b, s.now, s.busy[p]);
      }
    }
  }

  lemma ClaimKeepsInv(b: Bounds, s: State, p: int, batch: seq<int>)
    requires Fits(b) && Inv(b, s) && Enabled(b, s, Claim(p, batch))
    ensures Inv(b, Apply(b, s, Claim(p, batch)))
  {
    ClaimTakesFreeRows(b, s, batch);
    var s' := Apply(b, s, Claim(p, batch));
    forall q | q in s'.busy
        ensures Shaped(s'.busy[q]) && OnTime(b, s'.now, s'.busy[q]) && Held(b, s'.rows, s'.busy[q]) {
      if q != p {
        forall j | s.busy[q].at <= j < |s.busy[q].batch| ensures s.busy[q].batch[j] !in batch {
          assert Holds(s.busy[q], s.busy[q].batch[j]);
        }
      }
    }
    assert Exclusive(s') by {
      forall q, id | q in s'.busy && q != p && Holds(s'.busy[q], id) ensures !Holds(s'.busy[p], id) {
        assert InFlight(s, id);
      }
    }
  }

  lemma OthersHold(b: Bounds, s: State, p: int, row: Row, q: int)
    requires Inv(b, s) && Working(s, p) && q in s.busy && q != p
    ensures Held(b, s.rows[Current(s, p) := row], s.busy[q])
  {
    forall j | s.busy[q].at <= j < |s.busy[q].batch| ensures s.busy[q].batch[j] != Current(s, p) {
      assert Holds(s.busy[p], Current(s, p)) && Holds(s.busy[q], s.busy[q].batch[j]);
    }
  }

  lemma NextHoldsLess(s: State, p: int, row: Row)
    requires Working(s, p)
    ensures var s' := Next(Put(s, Current(s, p), row), p);
            s'.busy.Keys <= s.busy.Keys && forall q, x | q in s'.busy && Holds(s'.busy[q], x) :: Holds(s.busy[q], x)
  {
    var s' := Next(Put(s, Current(s, p), row), p);
    forall q, x | q in s'.busy && Holds(s'.busy[q], x) ensures Holds(s.busy[q], x) {
      var j :| s'.busy[q].at <= j < |s'.busy[q].batch| && s'.busy[q].batch[j] == x;
      assert s.busy[q].batch[j] == x;
    }
  }

  /** A row that no tick but p's holds may be changed once p lets go of it. */
  lemma NextKeepsInv(b: Bounds, s: State, p: int, row: Row)
    requires Inv(b, s) && Working(s, p)
    ensures Inv(b, Next(Put(s, Current(s, p), row), p)) && Inv(b, Next(s, p))
  {
    var t, id := s.busy[p], Current(s, p);
    assert Holds(t, id);
    var s' := Next(Put(s, id, row), p);
    assert (t.at + 1) * Slot(b) == t.at * Slot(b) + Slot(b);
    forall q | q in s'.busy ensures Held(b, s'.rows, s'.busy[q]) && Held(b, s.rows, s'.busy[q]) {
      if q != p {
        OthersHold(b, s, p, row, q);
      }
    }
    NextHoldsLess(s, p, row);
  }

  lemma EnterKeepsInv(b: Bounds, s: State, p: int, phase: Phase)
    requires Inv(b, s) && Working(s, p)
    requires s.busy[p].phase != Recovering && (phase == Recovering || (phase.Writing? && s.busy[p].phase == Calling))
    ensures Inv(b, Enter(s, p, phase))
  {
  }

  /** A write that went through unnoticed keeps its row out of reach until the error path is done. */
  lemma LostReplyKeepsInv(b: Bounds, s: State, p: int)
    requires Inv(b, s) && Enabled(b, s, LostReply(p)) && HarmlessReply(b, s.now, s.busy[p])
    ensures Inv(b, Apply(b, s, LostReply(p)))
  {
    var id := Current(s, p);
    assert Holds(s.busy[p], id);
    var s' := Apply(b, s, LostReply(p));
    forall q | q in s'.busy ensures Held(b, s'.rows, s'.busy[q]) {
      if q != p {
        forall j | s.busy[q].at <= j < |s.busy[q].batch| ensures s.busy[q].batch[j] != id {
          assert Holds(s.busy[q], s.busy[q].batch[j]);
        }
      }
    }
    forall q, x | q in s'.busy ensures Holds(s'.busy[q], x) <==> Holds(s.busy[q], x) {
    }
  }

  lemma FreeRowKeepsInv(b: Bounds, s: State, id: int, row: Row)
    requires Inv(b, s) && !InFlight(s, id)
    ensures Inv(b, Put(s, id, row))
  {
  }

  /** Every careful step keeps the leases and their exclusion. */
  lemma StepKeepsInv(b: Bounds, s: State, e: Event)
    requires Fits(b) && Inv(b, s) && Enabled(b, s, e) && Careful(b, s, e)
    ensures Inv(b, Apply(b, s, e))
  {
    match e
    case Claim(p, batch) => ClaimKeepsInv(b, s, p, batch);
    case Return(p, ok) => EnterKeepsInv(b, s, p, Writing(ok));
    case Throw(p) => EnterKeepsInv(b, s, p, Recovering);
    case Write(p) => NextKeepsInv(b, s, p, AfterWrite(s, p).rows[Current(s, p)]);
    case Recover(p, _) => NextKeepsInv(b, s, p, AfterRecovery(s, p).rows[Current(s, p)]);
    case LostReply(p) => LostReplyKeepsInv(b, s, p);
    case Retry(id) =>
      if !InFlight(s, id) {
        FreeRowKeepsInv(b, s, id, Reset(s.rows[id].event, s.now));
      }
    case Enqueue(id, event) =>
      if InFlight(s, id) {
        assert false;
      }
      FreeRowKeepsInv(b, s, id, Reset(event, s.now));
    case _ =>
  }

  /** Lease exclusion: with every careful run, however many processes take part and crash, no row is ever held by
      two of them. */
  lemma {:induction false} RunKeepsInv(b: Bounds, s: State, es: seq<Event>)
    requires Fits(b) && Inv(b, s) && IsRun(b, s, es) && AllCareful(b, s, es)
    ensures Inv(b, Play(b, s, es))
    decreases |es|
  {
    if es != [] {
      StepKeepsInv(b, s, es[0]);
      RunKeepsInv(b, Apply(b, s, es[0]), es[1..]);
    }
  }

  lemma OneStep(b: Bounds, s: State, e: Event)
    requires Enabled(b, s, e)
    ensures IsRun(b, s, [e]) && Play(b, s, [e]) == Apply(b, s, e)
    ensures Careful(b, s, e) ==> AllCareful(b, s, [e])
  {
  }

  /** Runs compose. */
  lemma {:induction false} RunThrough(b: Bounds, s: State, es: seq<Event>, fs: seq<Event>)
    requires IsRun(b, s, es) && IsRun(b, Play(b, s, es), fs)
    ensures IsRun(b, s, es + fs) && Play(b, s, es + fs) == Play(b, Play(b, s, es), fs)
    ensures AllCareful(b, s, es) && AllCareful(b, Play(b, s, es), fs) ==> AllCareful(b, s, es + fs)
    decreases |es|
  {
    if es == [] {
      assert es + fs == fs;
    } else {
      assert (es + fs)[0] == es[0] && (es + fs)[1..] == es[1..] + fs;
      RunThrough(b, Apply(b, s, es[0]), es[1..], fs);
    }
  }
}
