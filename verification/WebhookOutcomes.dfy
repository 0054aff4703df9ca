/** What careful runs of the webhook protocol guarantee: terminal rows that stay, one delivery for each event, and
    the retry schedule. */
module WebhookOutcomes {
  import opened WebhookDelivery

  lemma StartHoldsInv(b: Bounds, now: int)
    ensures Inv(b, Start(now))
  {
  }

  // ---------------------------------------------------------------- delivered and failed are final

  lemma StepKeepsTerminal(b: Bounds, s: State, e: Event, id: int)
    requires Fits(b) && Inv(b, s) && Enabled(b, s, e) && Careful(b, s, e) && e != Retry(id)
    requires id in s.rows && s.rows[id].status != Pending
    ensures var s' := Apply(b, s, e); id in s'.rows && s'.rows[id] == s.rows[id]
  {
  }

  /** A delivered or failed row never changes again unless the dashboard retries it. */
  lemma {:induction false} TerminalRowsStay(b: Bounds, s: State, es: seq<Event>, id: int)
    requires Fits(b) && Inv(b, s) && IsRun(b, s, es) && AllCareful(b, s, es) && Retry(id) !in es
    requires id in s.rows && s.rows[id].status != Pending
    ensures var s' := Play(b, s, es); id in s'.rows && s'.rows[id] == s.rows[id]
    decreases |es|
  {
    if es != [] {
      StepKeepsTerminal(b, s, es[0], id);
      StepKeepsInv(b, s, es[0]);
      TerminalRowsStay(b, Apply(b, s, es[0]), es[1..], id);
    }
  }

  // ---------------------------------------------------------------- one delivery for each event

  predicate OneLive(rows: map<int, Row>) {
    forall i, j | i in rows && j in rows && Live(rows[i]) && Live(rows[j]) && rows[i].event == rows[j].event :: i == j
  }

  lemma StepKeepsOneLive(b: Bounds, s: State, e: Event)
    requires Fits(b) && Inv(b, s) && OneLive(s.rows) && Enabled(b, s, e) && Careful(b, s, e)
    ensures OneLive(Apply(b, s, e).rows)
  {
  }

  lemma {:induction false} RunKeepsOneLive(b: Bounds, s: State, es: seq<Event>)
    requires Fits(b) && Inv(b, s) && OneLive(s.rows) && IsRun(b, s, es) && AllCareful(b, s, es)
    ensures OneLive(Play(b, s, es).rows)
    decreases |es|
  {
    if es != [] {
      StepKeepsInv(b, s, es[0]);
      StepKeepsOneLive(b, s, es[0]);
      RunKeepsOneLive(b, Apply(b, s, es[0]), es[1..]);
    }
  }

  /** What the unique index is for: besides a delivered row of an event there is no other live one. */
  lemma EventsAreDeliveredOnce(b: Bounds, now: int, es: seq<Event>, i: int, j: int)
    requires Fits(b) && IsRun(b, Start(now), es) && AllCareful(b, Start(now), es)
    ensures var rows := Play(b, Start(now), es).rows;
            (i in rows && j in rows && rows[i].event == rows[j].event && rows[i].status == Delivered
             && rows[j].status != Failed)
            ==> i == j
  {
    StartHoldsInv(b, now);
    RunKeepsOneLive(b, Start(now), es);
  }

  // ---------------------------------------------------------------- the retry schedule

  /** No crash and no error thrown. */
  predicate Calm(e: Event) {
    !e.Crash? && !e.Throw? && !e.LostReply? && !e.Recover?
  }

  predicate AllFailed(log: seq<Attempt>) {
    forall k | 0 <= k < |log| :: !log[k].ok
  }

  /** Attempt k + 1 is claimed no sooner than Backoff(k) after attempt k returned. */
  predicate Spaced(log: seq<Attempt>) {
    && (forall k | 0 <= k < |log| :: log[k].claimed <= log[k].returned)
    && (forall k | 0 < k < |log| :: log[k].claimed >= log[k - 1].returned + Backoff(k))
  }

  predicate NotBefore(log: seq<Attempt>, time: int) {
    log != [] ==> time >= log[|log| - 1].returned + Backoff(|log|)
  }

  /** The history of a row nobody holds decides its status: delivered by its last attempt, failed by the fifth. */
  predicate Resting(row: Row) {
    && Spaced(row.log) && row.attempts == |row.log| <= MAX_ATTEMPTS
    && match row.status
       case Pending => |row.log| < MAX_ATTEMPTS && AllFailed(row.log) && NotBefore(row.log, row.due)
       case Delivered => row.log != [] && row.log[|row.log| - 1].ok && AllFailed(row.log[..|row.log| - 1])
       case Failed => |row.log| == MAX_ATTEMPTS && AllFailed(row.log)
  }

  /** The history of a row claimed at `claimed` allows one more attempt. */
  predicate Running(row: Row, claimed: int) {
    && Spaced(row.log) && AllFailed(row.log) && row.attempts == |row.log| + 1 <= MAX_ATTEMPTS
        && NotBefore(row.log, claimed)
  }

  predicate Calling(rows: map<int, Row>, t: Tick) {
    && t.claimed <= t.since && t.phase != Recovering
    && (forall j | t.at <= j < |t.batch| :: t.batch[j] in rows && Running(rows[t.batch[j]], t.claimed))
  }

  ghost predicate Scheduled(s: State) {
    && (forall p | p in s.busy :: Calling(s.rows, s.busy[p]))
    && (forall id | id in s.rows && !InFlight(s, id) :: Resting(s.rows[id]))
  }

  lemma WrittenRests(row: Row, t: Tick, now: int)
    requires Running(row, t.claimed) && t.claimed <= t.since && t.phase.Writing?
    ensures Resting(Written(row, row.attempts, t.claimed, t.since, t.phase.ok, now))
  {
    var r := Written(row, row.attempts, t.claimed, t.since, t.phase.ok, now);
    assert r.log[..|r.log| - 1] == row.log && r.log[|r.log| - 1] == Attempt(t.claimed, t.since, t.phase.ok);
    SpacedOn(row.log, r.log[|r.log| - 1]);
  }

  lemma SpacedOn(log: seq<Attempt>, next: Attempt)
    requires Spaced(log) && next.claimed <= next.returned && NotBefore(log, next.claimed)
    ensures Spaced(log + [next])
  {
  }

  /** Once p moves on, every other row in flight still is. */
  lemma OthersStayInFlight(s: State, p: int, row: Row, x: int)
    requires Working(s, p) && x != Current(s, p) && InFlight(s, x)
    ensures InFlight(Next(Put(s, Current(s, p), row), p), x)
  {
    var s' := Next(Put(s, Current(s, p), row), p);
    var q :| q in s.busy && Holds(s.busy[q], x);
    var j :| s.busy[q].at <= j < |s.busy[q].batch| && s.busy[q].batch[j] == x;
    assert q in s'.busy && s'.busy[q].batch[j] == x && s'.busy[q].at <= j;
    assert Holds(s'.busy[q], x);
  }

  lemma TicksStayCalling(b: Bounds, s: State, p: int, row: Row)
    requires Inv(b, s) && Scheduled(s) && Working(s, p)
    ensures var s' := Next(Put(s, Current(s, p), row), p); forall q | q in s'.busy :: Calling(s'.rows, s'.busy[q])
  {
  }

  lemma WriteKeepsSchedule(b: Bounds, s: State, p: int)
    requires Fits(b) && Inv(b, s) && Scheduled(s) && Enabled(b, s, Write(p))
    ensures Scheduled(Apply(b, s, Write(p)))
  {
    var s', t, id := Apply(b, s, Write(p)), s.busy[p], Current(s, p);
    assert Calling(s.rows, t) && Held(b, s.rows, t);
    WrittenRests(s.rows[id], t, s.now);
    TicksStayCalling(b, s, p, AfterWrite(s, p).rows[id]);
    forall x | x in s'.rows && !InFlight(s', x) ensures Resting(s'.rows[x]) {
      if x != id && InFlight(s, x) {
        OthersStayInFlight(s, p, AfterWrite(s, p).rows[id], x);
      }
    }
  }

  lemma ClaimedRowsRun(s: State, batch: seq<int>, j: nat)
    requires Scheduled(s) && Claimable(s.rows, batch, s.now) && j < |batch| && !InFlight(s, batch[j])
    ensures Running(Claimed(s.rows, batch, s.now)[batch[j]], s.now)
  {
  }

  /** After a claim exactly the rows in flight before it and the batch are in flight. */
  lemma ClaimPutsInFlight(b: Bounds, s: State, p: int, batch: seq<int>, x: int)
    requires Enabled(b, s, Claim(p, batch)) && (InFlight(s, x) || x in batch)
    ensures InFlight(Apply(b, s, Claim(p, batch)), x)
  {
    var s' := Apply(b, s, Claim(p, batch));
    if InFlight(s, x) {
      var q :| q in s.busy && Holds(s.busy[q], x);
      assert s'.busy[q] == s.busy[q];
    } else {
      var j :| 0 <= j < |batch| && batch[j] == x;
      assert s'.busy[p].batch[j] == x;
      assert Holds(s'.busy[p], x);
    }
  }

  lemma ClaimKeepsSchedule(b: Bounds, s: State, p: int, batch: seq<int>)
    requires Fits(b) && Inv(b, s) && Scheduled(s) && Enabled(b, s, Claim(p, batch))
    ensures Scheduled(Apply(b, s, Claim(p, batch)))
  {
    ClaimTakesFreeRows(b, s, batch);
    var s' := Apply(b, s, Claim(p, batch));
    forall q | q in s'.busy ensures Calling(s'.rows, s'.busy[q]) {
      if q == p {
        forall j | 0 <= j < |batch| ensures Running(s'.rows[batch[j]], s.now) {
          ClaimedRowsRun(s, batch, j);
        }
      } else {
        assert Calling(s.rows, s.busy[q]);
        forall j | s.busy[q].at <= j < |s.busy[q].batch| ensures s.busy[q].batch[j] !in batch {
          assert Holds(s.busy[q], s.busy[q].batch[j]) && InFlight(s, s.busy[q].batch[j]);
        }
      }
    }
    forall x | x in s'.rows && !InFlight(s', x) ensures Resting(s'.rows[x]) {
      if InFlight(s, x) || x in batch {
        ClaimPutsInFlight(b, s, p, batch, x);
      }
    }
  }

  /** Only what no process holds is put back, and nothing else moves. */
  lemma ResetKeepsSchedule(s: State, id: int, event: int, now: int)
    requires Scheduled(s) && !InFlight(s, id)
    ensures Scheduled(Put(s, id, Reset(event, now)))
  {
  }

  lemma ReturnStaysInFlight(b: Bounds, s: State, p: int, ok: bool, x: int)
    requires Enabled(b, s, Return(p, ok)) && InFlight(s, x)
    ensures InFlight(Apply(b, s, Return(p, ok)), x)
  {
    var s' := Apply(b, s, Return(p, ok));
    var q :| q in s.busy && Holds(s.busy[q], x);
    var j :| s.busy[q].at <= j < |s.busy[q].batch| && s.busy[q].batch[j] == x;
    assert s'.busy[q].batch[j] == x;
    assert Holds(s'.busy[q], x);
  }

  lemma ReturnKeepsSchedule(b: Bounds, s: State, p: int, ok: bool)
    requires Inv(b, s) && Scheduled(s) && Enabled(b, s, Return(p, ok))
    ensures Scheduled(Apply(b, s, Return(p, ok)))
  {
    var s' := Apply(b, s, Return(p, ok));
    forall q | q in s'.busy ensures Calling(s'.rows, s'.busy[q]) {
      assert Calling(s.rows, s.busy[q]);
    }
    forall x | x in s'.rows && !InFlight(s', x) ensures Resting(s'.rows[x]) {
      if InFlight(s, x) {
        ReturnStaysInFlight(b, s, p, ok, x);
      }
    }
  }

  lemma StepKeepsSchedule(b: Bounds, s: State, e: Event)
    requires Fits(b) && Inv(b, s) && Scheduled(s) && Enabled(b, s, e) && Careful(b, s, e) && Calm(e)
    ensures Scheduled(Apply(b, s, e))
  {
    match e
    case Claim(p, batch) => ClaimKeepsSchedule(b, s, p, batch);
    case Return(p, ok) => ReturnKeepsSchedule(b, s, p, ok);
    case Write(p) => WriteKeepsSchedule(b, s, p);
    case Retry(id) =>
      if !InFlight(s, id) {
        ResetKeepsSchedule(s, id, s.rows[id].event, s.now);
      }
    case Enqueue(id, event) =>
      if InFlight(s, id) {
        assert false;
      }
      ResetKeepsSchedule(s, id, event, s.now);
    case Wait(until) =>
      forall id | id in s.rows && !InFlight(Apply(b, s, e), id) ensures !InFlight(s, id) {
      }
  }

  lemma {:induction false} RunKeepsSchedule(b: Bounds, s: State, es: seq<Event>)
    requires Fits(b) && Inv(b, s) && Scheduled(s) && IsRun(b, s, es) && AllCareful(b, s, es)
    requires forall e | e in es :: Calm(e)
    ensures Scheduled(Play(b, s, es))
    decreases |es|
  {
    if es != [] {
      StepKeepsInv(b, s, es[0]);
      StepKeepsSchedule(b, s, es[0]);
      RunKeepsSchedule(b, Apply(b, s, es[0]), es[1..]);
    }
  }

  /** The waits between deliveries, in milliseconds. */
  predicate Waits(log: seq<Attempt>) {
    && (|log| > 1 ==> log[1].claimed - log[0].returned >= 30_000)
    && (|log| > 2 ==> log[2].claimed - log[1].returned >= 300_000)
    && (|log| > 3 ==> log[3].claimed - log[2].returned >= 1_800_000)
    && (|log| > 4 ==> log[4].claimed - log[3].returned >= 7_200_000)
  }

  lemma SpacedWaits(log: seq<Attempt>)
    requires Spaced(log)
    ensures Waits(log) && (|log| == MAX_ATTEMPTS ==> log[4].returned - log[0].claimed >= 9_330_000)
  {
    assert forall k | 0 < k < |log| :: log[k].claimed >= log[k - 1].returned + Backoff(k);
  }

  /** The retry bound: since it was last reset a row has had at most five deliveries, spaced by the schedule; it has
      failed only after five, no sooner than 9330 s after the first claim; and it is delivered by its last one. */
  lemma RetriesAreBounded(b: Bounds, now: int, es: seq<Event>, id: int)
    requires Fits(b) && IsRun(b, Start(now), es) && AllCareful(b, Start(now), es) && forall e | e in es :: Calm(e)
    requires id in Play(b, Start(now), es).rows
    ensures var row := Play(b, Start(now), es).rows[id];
            && |row.log| <= MAX_ATTEMPTS && Waits(row.log)
            && (row.status == Failed ==> |row.log| == MAX_ATTEMPTS && AllFailed(row.log)
                                         && row.log[4].returned - row.log[0].claimed >= 9_330_000)
            && (row.status == Delivered
                ==> row.log != [] && row.log[|row.log| - 1].ok && AllFailed(row.log[..|row.log| - 1]))
            && (row.status == Pending ==> |row.log| < MAX_ATTEMPTS && AllFailed(row.log))
  {
    StartHoldsInv(b, now);
    RunKeepsSchedule(b, Start(now), es);
    RunKeepsInv(b, Start(now), es);
    var s := Play(b, Start(now), es);
    if InFlight(s, id) {
      var p :| p in s.busy && Holds(s.busy[p], id);
      assert Calling(s.rows, s.busy[p]) && Held(b, s.rows, s.busy[p]);
    }
    SpacedWaits(s.rows[id].log);
  }
}
