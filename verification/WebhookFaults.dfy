/** The two steps that are not always careful, a dashboard retry and a write whose reply is lost: when exactly they do
    harm. */
module WebhookFaults {
  import opened WebhookDelivery
  import opened WebhookOutcomes

  lemma {:induction false} FreeProcess(busy: set<int>) returns (q: int)
    ensures forall p: int | p in busy :: p < q
    decreases |busy|
  {
    if p: int :| p in busy {
      var r := FreeProcess(busy - {p});
      assert forall x: int | x in busy :: x == p || x in busy - {p};
      q := if p < r then r else p + 1;
    } else {
      q := 0;
    }
  }

  // ---------------------------------------------------------------- dashboard retries

  /** If the run is careful, no row ends up held twice. */
  ghost predicate KeepsApart(b: Bounds, s: State, es: seq<Event>) {
    IsRun(b, s, es) && AllCareful(b, s, es) ==> Exclusive(Play(b, s, es))
  }

  lemma ClaimAlsoHolds(b: Bounds, s: State, id: int, q: int)
    requires InFlight(s, id) && Claimable(s.rows, [id], s.now) && q !in s.busy
    ensures !KeepsApart(b, s, [Claim(q, [id])])
  {
    var p :| p in s.busy && Holds(s.busy[p], id);
    OneStep(b, s, Claim(q, [id]));
    var s' := Apply(b, s, Claim(q, [id]));
    assert Holds(s'.busy[p], id) && s'.busy[q].batch[0] == id && Holds(s'.busy[q], id);
  }

  /** A retry of a row in flight, unless the index refuses it, lets any other process claim the row at once. */
  lemma RetryInFlightBreaksExclusion(b: Bounds, s: State, id: int, q: int)
    requires id in s.rows && !HarmlessRetry(s, id) && q !in s.busy
    ensures !KeepsApart(b, Apply(b, s, Retry(id)), [Claim(q, [id])])
  {
    var s1 := Apply(b, s, Retry(id));
    var p :| p in s.busy && Holds(s.busy[p], id);
    assert p in s1.busy && Holds(s1.busy[p], id);
    ClaimAlsoHolds(b, s1, id, q);
  }

  /** A dashboard retry does no harm in any careful continuation if and only if nobody holds the row or the index
      refuses the retry. */
  lemma RetryIsHarmlessIff(b: Bounds, s: State, id: int)
    requires Fits(b) && Inv(b, s) && id in s.rows
    ensures HarmlessRetry(s, id) <==> forall es :: KeepsApart(b, Apply(b, s, Retry(id)), es)
  {
    var s1 := Apply(b, s, Retry(id));
    if HarmlessRetry(s, id) {
      StepKeepsInv(b, s, Retry(id));
      forall es ensures KeepsApart(b, s1, es) {
        if IsRun(b, s1, es) && AllCareful(b, s1, es) {
          RunKeepsInv(b, s1, es);
        }
      }
    } else {
      var q := FreeProcess(s.busy.Keys);
      RetryInFlightBreaksExclusion(b, s, id, q);
    }
  }

  // ---------------------------------------------------------------- lost replies

  /** If the run is careful, it ends with no row held twice, and leaves row id as it is if that is final and not
      retried. */
  ghost predicate KeepsFaith(b: Bounds, s: State, id: int, es: seq<Event>)
    requires id in s.rows
  {
    IsRun(b, s, es) && AllCareful(b, s, es) ==>
      && Exclusive(Play(b, s, es))
      && (s.rows[id].status != Pending && Retry(id) !in es ==>
            id in Play(b, s, es).rows && Play(b, s, es).rows[id] == s.rows[id])
  }

  /** A committed write whose reply is lost takes its row back to pending, and the row was final before that exactly if
      the write was a success or a fifth failure. */
  lemma LostReplyRevives(b: Bounds, s: State, p: int)
    requires Inv(b, s) && Enabled(b, s, LostReply(p))
    ensures var s1, id := Apply(b, s, LostReply(p)), Current(s, p);
            && (s1.rows[id].status != Pending <==> WritesFinal(s.busy[p]))
            && IsRun(b, s1, [Recover(p, true)]) && AllCareful(b, s1, [Recover(p, true)])
            && id in Play(b, s1, [Recover(p, true)]).rows && Play(b, s1, [Recover(p, true)]).rows[id].status == Pending
  {
    assert Leasing(b, s.rows[Current(s, p)], s.busy[p], s.busy[p].at);
    OneStep(b, Apply(b, s, LostReply(p)), Recover(p, true));
  }

  /** Every other process may crash. */
  lemma {:induction false} OthersCrash(b: Bounds, s: State, p: int) returns (es: seq<Event>)
    requires p in s.busy
    ensures IsRun(b, s, es) && AllCareful(b, s, es) && Play(b, s, es) == s.(busy := map[p := s.busy[p]])
    decreases |s.busy|
  {
    if q: int :| q in s.busy && q != p {
      var s1 := Apply(b, s, Crash(q));
      assert s1.busy.Keys == s.busy.Keys - {q} && |s1.busy.Keys| < |s.busy.Keys|;
      OneStep(b, s, Crash(q));
      var fs := OthersCrash(b, s1, p);
      RunThrough(b, s, [Crash(q)], fs);
      es := [Crash(q)] + fs;
    } else {
      es := [];
      forall q: int ensures q in s.busy <==> q == p {
      }
      assert s.busy == map[p := s.busy[p]];
    }
  }

  /** If the row falls due while the error path may still run, another process can claim it meanwhile. */
  lemma DueWhileRecovering(b: Bounds, s: State, p: int) returns (es: seq<Event>)
    requires Working(s, p) && s.busy[p].phase == Recovering && s.busy[p].since == s.now
    requires s.rows[Current(s, p)].status == Pending && s.rows[Current(s, p)].due <= s.now + b.recover
    ensures IsRun(b, s, es) && AllCareful(b, s, es) && !Exclusive(Play(b, s, es))
  {
    var id := Current(s, p);
    var until := if s.rows[id].due < s.now then s.now else s.rows[id].due;
    var crashes := OthersCrash(b, s, p);
    var s1 := Play(b, s, crashes);
    OneStep(b, s1, Wait(until));
    RunThrough(b, s, crashes, [Wait(until)]);
    var s2 := Apply(b, s1, Wait(until));
    assert Holds(s2.busy[p], id);
    ClaimAlsoHolds(b, s2, id, p + 1);
    OneStep(b, s2, Claim(p + 1, [id]));
    es := crashes + [Wait(until)];
    RunThrough(b, s, es, [Claim(p + 1, [id])]);
    es := es + [Claim(p + 1, [id])];
  }

  lemma HarmfulReplyBreaksFaith(b: Bounds, s: State, p: int) returns (es: seq<Event>)
    requires Inv(b, s) && Enabled(b, s, LostReply(p)) && !HarmlessReply(b, s.now, s.busy[p])
    ensures !KeepsFaith(b, Apply(b, s, LostReply(p)), Current(s, p), es)
  {
    var s1 := Apply(b, s, LostReply(p));
    LostReplyRevives(b, s, p);
    if WritesFinal(s.busy[p]) {
      es := [Recover(p, true)];
    } else {
      es := DueWhileRecovering(b, s1, p);
    }
  }

  /** A lost reply does no harm in any careful continuation if and only if the write was neither a success nor a fifth
      failure, and the row cannot fall due before the error path is over. */
  lemma LostReplyIsHarmlessIff(b: Bounds, s: State, p: int)
    requires Fits(b) && Inv(b, s) && Enabled(b, s, LostReply(p))
    ensures HarmlessReply(b, s.now, s.busy[p])
            <==> forall es :: KeepsFaith(b, Apply(b, s, LostReply(p)), Current(s, p), es)
  {
    var s1, id := Apply(b, s, LostReply(p)), Current(s, p);
    if HarmlessReply(b, s.now, s.busy[p]) {
      StepKeepsInv(b, s, LostReply(p));
      LostReplyRevives(b, s, p);
      forall es ensures KeepsFaith(b, s1, id, es) {
        if IsRun(b, s1, es) && AllCareful(b, s1, es) {
          RunKeepsInv(b, s1, es);
        }
      }
    } else {
      var es := HarmfulReplyBreaksFaith(b, s, p);
    }
  }
}
