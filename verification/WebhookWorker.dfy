/** One process's tick as the code runs it, and the run of the protocol it is. */
module WebhookWorker {
  import opened WebhookDelivery
  import opened WebhookLease

  /** How the loop's pass over one row went, with the moments that matter. */
  datatype Reply =
    | Answered(ok: bool, returned: int, written: int)
    | CallThrew(at: int, saved: bool, done: int)
    | WriteThrew(returned: int, at: int, saved: bool, done: int)
  {
    function End(): int {
      if Answered? then written else done
    }
  }

  function Handled(row: Row, attempts: nat, claimed: int, reply: Reply): Row {
    match reply
    case Answered(ok, returned, written) => Written(row, attempts, claimed, returned, ok, written)
    case _ => if reply.saved then Recovered(row, attempts, reply.at) else row
  }

  /** The table after the first n rows of the batch were handled. */
  function HandledRows(rows: map<int, Row>, batch: seq<int>, taken: seq<nat>, now: int, replies: seq<Reply>,
                       n: nat): map<int, Row>
    requires n <= |batch| == |taken| == |replies| && forall j | 0 <= j < |batch| :: batch[j] in rows
    ensures HandledRows(rows, batch, taken, now, replies, n).Keys == rows.Keys
  {
    if n == 0 then rows else
      var before := HandledRows(rows, batch, taken, now, replies, n - 1);
      before[batch[n - 1] := Handled(before[batch[n - 1]], taken[n - 1] + 1, now, replies[n - 1])]
  }

  /** The table after a whole tick that claimed `batch`. */
  function Ticked(rows: map<int, Row>, batch: seq<int>, now: int, replies: seq<Reply>): map<int, Row>
    requires Claimable(rows, batch, now) && |replies| == |batch|
  {
    HandledRows(Claimed(rows, batch, now), batch, AttemptsOf(rows, batch), now, replies, |batch|)
  }

  /** What a claim promises of each row makes up the claimed table. */
  lemma ClaimedIs(before: map<int, Row>, after: map<int, Row>, batch: seq<int>, now: int)
    requires after.Keys == before.Keys && forall id | id in after && id !in batch :: after[id] == before[id]
    requires forall id | id in batch :: id in after && after[id].attempts == before[id].attempts + 1
                                        && (forall t :: Due(after[id], t) <==> t >= now + HOUR)
    requires forall id | id in batch :: id in after && after[id].event == before[id].event
                                        && after[id].status == before[id].status && after[id].log == before[id].log
    ensures after == Claimed(before, batch, now)
  {
    forall id | id in batch ensures id in before && after[id] == Leased(before[id], now) {
      assert Due(after[id], now + HOUR) && !Due(after[id], now + HOUR - 1);
    }
    forall id | id in before ensures after[id] == Claimed(before, batch, now)[id] {
    }
  }

  class Worker {
    var rows: map<int, Row>
    var running: bool

    constructor (table: map<int, Row>)
      ensures rows == table && !running
    {
      rows, running := table, false;
    }

    /** tick: a second one while the first is running does nothing, and so does one that finds nothing due.
        `batch` is what the claiming query returned, `replies` what became of each row. */
    method Tick(now: int, batch: seq<int>, replies: seq<Reply>)
      requires |replies| == |batch| && (batch == [] || Claimable(rows, batch, now))
      modifies this
      ensures old(running) || batch == [] ==> rows == old(rows)
      ensures !old(running) && batch != [] ==> rows == Ticked(old(rows), batch, now, replies)
      ensures running == old(running)
    {
      if running {
        return;
      }
      running := true;
      if batch != [] {
        var taken := AttemptsOf(rows, batch);
        Claim(now, batch);
        assert rows == Claimed(old(rows), batch, now) by {
          ClaimedIs(old(rows), rows, batch, now);
        }
        Deliver(now, batch, taken, replies);
      }
      running := false;
    }

    /** The claiming transaction: rows outside the batch stay as they are, and one in it has made one more attempt
        and cannot be claimed again for an hour. */
    method Claim(now: int, batch: seq<int>)
      requires Claimable(rows, batch, now)
      modifies this`rows
      ensures rows.Keys == old(rows).Keys && forall id | id in rows && id !in batch :: rows[id] == old(rows)[id]
      ensures forall id | id in batch :: id in rows && rows[id].attempts == old(rows)[id].attempts + 1
                                         && (forall t :: Due(rows[id], t) <==> t >= now + HOUR)
      ensures forall id | id in batch :: id in rows && rows[id].event == old(rows)[id].event
                                         && rows[id].status == old(rows)[id].status && rows[id].log == old(rows)[id].log
    {
      rows := map id | id in rows ::
        if id in batch then rows[id].(attempts := rows[id].attempts + 1, due := now + HOUR) else rows[id];
    }

    /** The loop over the claimed rows. */
    method Deliver(now: int, batch: seq<int>, taken: seq<nat>, replies: seq<Reply>)
      requires |batch| == |taken| == |replies| && forall j | 0 <= j < |batch| :: batch[j] in rows
      modifies this`rows
      ensures rows == HandledRows(old(rows), batch, taken, now, replies, |batch|)
    {
      for i := 0 to |batch|
        invariant rows == HandledRows(old(rows), batch, taken, now, replies, i)
      {
        var id, attempts, reply := batch[i], taken[i] + 1, replies[i];
        var row := rows[id];
        if reply.Answered? {
          var log := row.log + [Attempt(now, reply.returned, reply.ok)];
          if reply.ok {
            row := row.(status := Delivered, log := log);
          } else if attempts >= MAX_ATTEMPTS {
            row := row.(status := Failed, due := reply.written, log := log);
          } else {
            row := row.(status := Pending, due := reply.returned + Backoff(attempts), log := log);
          }
        } else if reply.saved {
          row := row.(status := Pending, due := reply.at + Backoff(attempts));
        }
        rows := rows[id := row];
      }
    }
  }

  // ---------------------------------------------------------------- a tick is a run

  /** The pass that began at `since` keeps to the bounds. */
  predicate InTime(b: Bounds, since: int, reply: Reply) {
    match reply
    case Answered(_, returned, written) => since <= returned <= since + HTTP_TIMEOUT
        && returned <= written <= returned + b.write
    case CallThrew(at, _, done) => since <= at <= since + HTTP_TIMEOUT && at <= done <= at + b.recover
    case WriteThrew(returned, at, _, done) =>
      since <= returned <= since + HTTP_TIMEOUT && returned <= at <= returned + b.write && at <= done <= at + b.recover
  }

  function Began(now: int, replies: seq<Reply>, j: nat): int
    requires j <= |replies|
  {
    if j == 0 then now else replies[j - 1].End()
  }

  predicate AllInTime(b: Bounds, now: int, replies: seq<Reply>) {
    forall j | 0 <= j < |replies| :: InTime(b, Began(now, replies, j), replies[j])
  }

  lemma Then(b: Bounds, s: State, s': State, e: Event) returns (s'': State)
    requires Reaches(b, s, s') && Enabled(b, s', e) && Careful(b, s', e)
    ensures s'' == Apply(b, s', e) && Reaches(b, s, s'')
  {
    ReachesOn(b, s, s', e);
    s'' := Apply(b, s', e);
  }

  function AfterPass(s: State, p: int, reply: Reply): State
    requires Working(s, p)
  {
    var t, id := s.busy[p], Current(s, p);
    Next(State(reply.End(), s.rows[id := Handled(s.rows[id], t.taken[t.at] + 1, t.claimed, reply)], s.busy), p)
  }

  /** Process p, alone, is about to call the receiver. */
  ghost predicate Alone(b: Bounds, s: State, s': State, p: int) {
    Reaches(b, s, s') && s'.busy.Keys == {p} && Working(s', p) && s'.busy[p].phase == Calling
        && s'.busy[p].since == s'.now
  }

  lemma AnswerIsARun(b: Bounds, s: State, s': State, p: int, reply: Reply)
    requires Alone(b, s, s', p) && InTime(b, s'.now, reply) && reply.Answered?
    ensures Reaches(b, s, AfterPass(s', p, reply))
  {
    var s1 := Then(b, s, s', Wait(reply.returned));
    var s2 := Then(b, s, s1, Return(p, reply.ok));
    var s3 := Then(b, s, s2, Wait(reply.written));
    var s4 := Then(b, s, s3, Write(p));
  }

  lemma ThrowIsARun(b: Bounds, s: State, s': State, p: int, reply: Reply)
    requires Alone(b, s, s', p) && InTime(b, s'.now, reply) && reply.CallThrew?
    ensures Reaches(b, s, AfterPass(s', p, reply))
  {
    var s1 := Then(b, s, s', Wait(reply.at));
    var s2 := Then(b, s, s1, Throw(p));
    var s3 := Then(b, s, s2, Wait(reply.done));
    var s4 := Then(b, s, s3, Recover(p, reply.saved));
    assert s4.rows == AfterPass(s', p, reply).rows;
  }

  lemma CallIsARun(b: Bounds, s: State, s': State, p: int, returned: int) returns (s'': State)
    requires Alone(b, s, s', p) && s'.now <= returned <= s'.now + HTTP_TIMEOUT
    ensures Reaches(b, s, s'')
            && s'' == State(returned, s'.rows, s'.busy[p := s'.busy[p].(phase := Writing(true), since := returned)])
  {
    var s1 := Then(b, s, s', Wait(returned));
    s'' := Then(b, s, s1, Return(p, true));
  }

  lemma FailedWriteIsARun(b: Bounds, s: State, s': State, p: int, reply: Reply)
    requires Alone(b, s, s', p) && InTime(b, s'.now, reply) && reply.WriteThrew?
    ensures Reaches(b, s, AfterPass(s', p, reply))
  {
    var s2 := CallIsARun(b, s, s', p, reply.returned);
    var s4 := WriteThrows(b, s, s2, p, reply.at);
    var s5 := Then(b, s, s4, Wait(reply.done));
    var s6 := Then(b, s, s5, Recover(p, reply.saved));
    assert s6.rows == AfterPass(s', p, reply).rows;
  }

  lemma WriteThrows(b: Bounds, s: State, s': State, p: int, at: int) returns (s'': State)
    requires Reaches(b, s, s') && s'.busy.Keys == {p} && Working(s', p) && s'.busy[p].phase == Writing(true)
    requires s'.now == s'.busy[p].since <= at <= s'.now + b.write
    ensures Reaches(b, s, s'')
            && s'' == State(at, s'.rows, s'.busy[p := s'.busy[p].(phase := Recovering, since := at)])
  {
    var s1 := Then(b, s, s', Wait(at));
    s'' := Then(b, s, s1, Throw(p));
  }

  /** One pass of the loop as steps of the protocol. */
  lemma PassIsARun(b: Bounds, s: State, s': State, p: int, reply: Reply)
    requires Alone(b, s, s', p) && InTime(b, s'.now, reply)
    ensures Reaches(b, s, AfterPass(s', p, reply))
  {
    match reply
    case Answered(_, _, _) => AnswerIsARun(b, s, s', p, reply);
    case CallThrew(_, _, _) => ThrowIsARun(b, s, s', p, reply);
    case WriteThrew(_, _, _, _) => FailedWriteIsARun(b, s, s', p, reply);
  }

  /** The state with n rows of the batch handled and the next one begun, or the tick over. */
  function Midway(s: State, p: int, batch: seq<int>, replies: seq<Reply>, n: nat): State
    requires Claimable(s.rows, batch, s.now) && |replies| == |batch| && n <= |batch|
  {
    var taken, start := AttemptsOf(s.rows, batch), Began(s.now, replies, n);
    State(start, HandledRows(Claimed(s.rows, batch, s.now), batch, taken, s.now, replies, n),
          if n < |batch| then map[p := Tick(batch, taken, s.now, n, Calling, start)] else map[])
  }

  lemma MidwayPasses(s: State, p: int, batch: seq<int>, replies: seq<Reply>, n: nat)
    requires Claimable(s.rows, batch, s.now) && |replies| == |batch| && n < |batch|
    ensures var m := Midway(s, p, batch, replies, n);
            Working(m, p) && m.busy.Keys == {p} && m.busy[p].phase == Calling
                && m.now == m.busy[p].since == Began(s.now, replies, n)
    ensures AfterPass(Midway(s, p, batch, replies, n), p, replies[n]) == Midway(s, p, batch, replies, n + 1)
  {
  }

  lemma MidwayIsARun(b: Bounds, s: State, p: int, batch: seq<int>, replies: seq<Reply>, n: nat)
    requires Claimable(s.rows, batch, s.now) && |replies| == |batch| && n < |batch| && AllInTime(b, s.now, replies)
    requires Reaches(b, s, Midway(s, p, batch, replies, n))
    ensures Reaches(b, s, Midway(s, p, batch, replies, n + 1))
  {
    MidwayPasses(s, p, batch, replies, n);
    PassIsARun(b, s, Midway(s, p, batch, replies, n), p, replies[n]);
  }

  lemma ClaimIsARun(b: Bounds, s: State, p: int, batch: seq<int>, replies: seq<Reply>)
    requires s.busy == map[] && Claimable(s.rows, batch, s.now) && |replies| == |batch|
    ensures Reaches(b, s, Midway(s, p, batch, replies, 0))
  {
    ReachesItself(b, s);
    var s' := Then(b, s, s, Event.Claim(p, batch));
  }

  lemma {:induction false} PassesAreARun(b: Bounds, s: State, p: int, batch: seq<int>, replies: seq<Reply>, n: nat)
    requires s.busy == map[] && Claimable(s.rows, batch, s.now) && |replies| == |batch| && n <= |batch|
    requires AllInTime(b, s.now, replies)
    ensures Reaches(b, s, Midway(s, p, batch, replies, n))
  {
    if n == 0 {
      ClaimIsARun(b, s, p, batch, replies);
    } else {
      PassesAreARun(b, s, p, batch, replies, n - 1);
      MidwayIsARun(b, s, p, batch, replies, n - 1);
    }
  }

  /** A tick that has the table to itself is a run of the protocol: same claim, same writes, same table. */
  lemma TickIsARun(b: Bounds, s: State, p: int, batch: seq<int>, replies: seq<Reply>)
    requires s.busy == map[] && Claimable(s.rows, batch, s.now) && |replies| == |batch| && AllInTime(b, s.now, replies)
    ensures Reaches(b, s, State(Began(s.now, replies, |batch|), Ticked(s.rows, batch, s.now, replies), map[]))
  {
    PassesAreARun(b, s, p, batch, replies, |batch|);
  }
}
