/** Lease exclusion and its exact condition: a full batch must fit the lease. */
module WebhookLease {
  import opened WebhookDelivery
  import opened WebhookOutcomes

  /** Some careful run leads from one state to the other. */
  ghost predicate Reaches(b: Bounds, s: State, s': State) {
    exists es :: IsRun(b, s, es) && AllCareful(b, s, es) && Play(b, s, es) == s'
  }

  lemma ReachesItself(b: Bounds, s: State)
    ensures Reaches(b, s, s)
  {
    assert IsRun(b, s, []) && Play(b, s, []) == s;
  }

  lemma ReachesOn(b: Bounds, s: State, s': State, e: Event)
    requires Reaches(b, s, s') && Enabled(b, s', e) && Careful(b, s', e)
    ensures Reaches(b, s, Apply(b, s', e))
  {
    var es :| IsRun(b, s, es) && AllCareful(b, s, es) && Play(b, s, es) == s';
    OneStep(b, s', e);
    RunThrough(b, s, es, [e]);
  }

  // ---------------------------------------------------------------- the slowest batch

  /** n fresh rows, due at once. */
  ghost predicate Fresh(s: State, n: nat) {
    s.now == 0 && s.busy == map[] && forall id | 0 <= id < n :: id in s.rows && Due(s.rows[id], 0)
  }

  lemma {:induction false} Filled(b: Bounds, n: nat) returns (s: State)
    ensures Reaches(b, Start(0), s) && Fresh(s, n) && forall id | id in s.rows :: 0 <= id < n && s.rows[id].event == id
  {
    if n == 0 {
      s := Start(0);
      ReachesItself(b, s);
    } else {
      var s' := Filled(b, n - 1);
      ReachesOn(b, Start(0), s', Enqueue(n - 1, n - 1));
      s := Apply(b, s', Enqueue(n - 1, n - 1));
    }
  }

  /** Process 1 has reached row k, at the latest moment it can, and has not touched the rows after it. */
  ghost predicate Slowly(b: Bounds, s: State, k: nat) {
    && k < BATCH_SIZE && s.now == k * Slot(b) && s.busy.Keys == {1}
    && var t := s.busy[1];
       && t.at == k && t.phase == Calling && t.since == s.now && t.claimed == 0
       && |t.batch| == |t.taken| == BATCH_SIZE
       && (forall j | 0 <= j < BATCH_SIZE :: t.batch[j] == j && j in s.rows)
       && (forall j | k <= j < BATCH_SIZE :: s.rows[j].status == Pending && s.rows[j].due == HOUR)
  }

  lemma ClaimsAll(b: Bounds) returns (s: State)
    ensures Reaches(b, Start(0), s) && Slowly(b, s, 0)
  {
    var s' := Filled(b, BATCH_SIZE);
    FirstBatchIsClaimable(b, s');
    ReachesOn(b, Start(0), s', Claim(1, FirstBatch()));
    s := Apply(b, s', Claim(1, FirstBatch()));
    forall j | 0 <= j < BATCH_SIZE ensures s.rows[j] == Leased(s'.rows[j], 0) {
      assert FirstBatch()[j] in FirstBatch();
    }
  }

  function FirstBatch(): (batch: seq<int>)
    ensures |batch| == BATCH_SIZE && forall j | 0 <= j < BATCH_SIZE :: batch[j] == j
  {
    seq(BATCH_SIZE, i => i)
  }

  lemma FirstBatchIsClaimable(b: Bounds, s: State)
    requires Fresh(s, BATCH_SIZE)
    ensures Enabled(b, s, Claim(1, FirstBatch()))
  {
  }

  /** The row in hand takes as long as it may: the call times out, its write throws, and so on. */
  lemma Dawdles(b: Bounds, s: State, k: nat) returns (s': State)
    requires Reaches(b, Start(0), s) && Slowly(b, s, k)
    ensures Reaches(b, Start(0), s') && s'.rows == s.rows && s'.now == (k + 1) * Slot(b)
    ensures s'.busy == map[1 := s.busy[1].(phase := Recovering, since := s.now + HTTP_TIMEOUT + b.write)]
  {
    var at0, at1 := s.now + HTTP_TIMEOUT, s.now + HTTP_TIMEOUT + b.write;
    var s1 := Extend(b, s, Wait(at0));
    var s2 := Extend(b, s1, Return(1, false));
    var s3 := Extend(b, s2, Wait(at1));
    var s4 := Extend(b, s3, Throw(1));
    s' := Extend(b, s4, Wait(at1 + b.recover));
    assert (k + 1) * Slot(b) == k * Slot(b) + Slot(b);
  }

  lemma Extend(b: Bounds, s: State, e: Event) returns (s': State)
    requires Reaches(b, Start(0), s) && Enabled(b, s, e) && Careful(b, s, e)
    ensures s' == Apply(b, s, e) && Reaches(b, Start(0), s')
  {
    ReachesOn(b, Start(0), s, e);
    s' := Apply(b, s, e);
  }

  lemma {:induction false} ReachesRow(b: Bounds, k: nat) returns (s: State)
    requires k < BATCH_SIZE
    ensures Reaches(b, Start(0), s) && Slowly(b, s, k)
  {
    if k == 0 {
      s := ClaimsAll(b);
    } else {
      var s1 := ReachesRow(b, k - 1);
      var s2 := Dawdles(b, s1, k - 1);
      s := Extend(b, s2, Recover(1, true));
    }
  }

  /** When a full batch does not fit, the last row's lease can run out before its tick is done with it. */
  lemma SlowBatchIsClaimedTwice(b: Bounds) returns (s: State)
    requires !Fits(b)
    ensures Reaches(b, Start(0), s) && !Exclusive(s)
  {
    var last := BATCH_SIZE - 1;
    var s1 := ReachesRow(b, last);
    var s2 := Dawdles(b, s1, last);
    s := Extend(b, s2, Claim(2, [last]));
    assert s.busy[1].batch[last] == last && Holds(s.busy[1], last);
    assert s.busy[2].batch[0] == last && Holds(s.busy[2], last);
  }

  /** No run of these steps, if it is a careful one, ends with a row held twice. */
  ghost predicate KeepsRowsApart(b: Bounds, now: int, es: seq<Event>) {
    IsRun(b, Start(now), es) && AllCareful(b, Start(now), es) ==> Exclusive(Play(b, Start(now), es))
  }

  /** Lease exclusion: over all careful runs, whatever number of processes take part, crash or fail to write, no
      row is ever held by two of them, if and only if a batch of the slowest rows fits the lease. */
  lemma ExclusionIffBatchFits(b: Bounds)
    ensures Fits(b) <==> forall now, es :: KeepsRowsApart(b, now, es)
  {
    if Fits(b) {
      forall now, es ensures KeepsRowsApart(b, now, es) {
        if IsRun(b, Start(now), es) && AllCareful(b, Start(now), es) {
          StartHoldsInv(b, now);
          RunKeepsInv(b, Start(now), es);
        }
      }
    } else {
      var s := SlowBatchIsClaimedTwice(b);
      var es :| IsRun(b, Start(0), es) && AllCareful(b, Start(0), es) && Play(b, Start(0), es) == s;
      assert !KeepsRowsApart(b, 0, es);
    }
  }
}
