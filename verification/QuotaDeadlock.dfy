/** A sweep takes its rows in no order, so a sweep and a reservation can wait for each other. */
module QuotaDeadlock {
  import opened QuotaLedger
  import opened QuotaSerial
  import opened QuotaInterleaving
  import opened QuotaLocks

  /** Transaction t after n statements run on committed ledger l, each with the locks it needs. */
  function Onward(l: Ledger, t: Txn, n: nat): Tx
    requires n <= |Steps(t)|
    ensures Onward(l, t, n).pc == n && Onward(l, t, n).steps == Steps(t) && Onward(l, t, n).live
            && Onward(l, t, n).txn == t
  {
    if n == 0 then Started(t) else
      var before := Onward(l, t, n - 1);
      After(l, before, Target(Steps(t)[n - 1], before.loc))
  }

  lemma TwoOfEach(a: RowId, b: RowId)
    ensures Steps(Sweep([b, a]))
            == [Claim(b), Claim(a), Mark(b, Released), Charge(b, Released), Mark(a, Released), Charge(a, Released)]
  {
    OneRowSteps(b, Released);
    OneMoreRow([b], a, Released);
    assert [b] + [a] == [b, a];
  }

  lemma LastSteps(a: RowId, b: RowId)
    ensures |Steps(Sweep([b, a]))| == 6
    ensures Steps(Sweep([b, a]))[4] == Mark(a, Released) && Steps(Sweep([b, a]))[5] == Charge(a, Released)
  {
    TwoOfEach(a, b);
  }

  /** A row marked was claimed, so its lock is held already. */
  lemma MarkStep(l: Ledger, t: Txn, n: nat)
    requires n < |Steps(t)| && Steps(t)[n].Mark? && Reservation(Steps(t)[n].id) in Onward(l, t, n).locks
    ensures Onward(l, t, n + 1).loc == Onward(l, t, n).loc && Onward(l, t, n + 1).locks == Onward(l, t, n).locks
  {
  }

  lemma ChargeStep(l: Ledger, t: Txn, n: nat)
    requires n < |Steps(t)| && Steps(t)[n].Charge? && Steps(t)[n].id in Onward(l, t, n).loc.claimed
    ensures var id := Steps(t)[n].id;
            && Onward(l, t, n + 1).loc == Onward(l, t, n).loc
            && Onward(l, t, n + 1).locks
                == Onward(l, t, n).locks + {Counter(KeyOf(id, Onward(l, t, n).loc.claimed[id]))}
  {
  }

  lemma ClaimStep(l: Ledger, t: Txn, n: nat)
    requires n < |Steps(t)| && Steps(t)[n].Claim? && Onward(l, t, n).over == EMPTY
    requires Steps(t)[n].id in l.rows && l.rows[Steps(t)[n].id].status == Reserved
    ensures var id, before := Steps(t)[n].id, Onward(l, t, n);
            && Onward(l, t, n + 1).over == EMPTY && Onward(l, t, n + 1).locks == before.locks + {Reservation(id)}
            && Onward(l, t, n + 1).loc == before.loc.(claimed := before.loc.claimed[id := l.rows[id]])
  {
    MergeNothing(l);
    MergeNothing(EMPTY);
  }

  /** Statement n of t can run on what the ones before it left. */
  ghost predicate Ready(l: Ledger, t: Txn, n: nat)
    requires n < |Steps(t)|
  {
    !Steps(t)[n].ReadUsage? && RowMatches(Steps(t)[n], Onward(l, t, n).loc, Merge(l, Onward(l, t, n).over))
  }

  /** The next statement of the first, or of the second, of the transactions at work. */
  lemma FirstAdvances(l: Ledger, t: Txn, n: nat, lim: Key -> int)
    requires n < |Steps(t)| && Ready(l, t, n)
    ensures var s := State(l, [Onward(l, t, n)], []);
            Enabled(s, Advance(0), lim) && Apply(s, Advance(0)) == State(l, [Onward(l, t, n + 1)], [])
  {
  }

  lemma SecondAdvances(l: Ledger, w: Tx, t: Txn, n: nat, lim: Key -> int)
    requires n < |Steps(t)| && Ready(l, t, n) && w.locks !! Target(Steps(t)[n], Onward(l, t, n).loc)
    ensures var s := State(l, [w, Onward(l, t, n)], []);
            Enabled(s, Advance(1), lim) && Apply(s, Advance(1)) == State(l, [w, Onward(l, t, n + 1)], [])
  {
  }

  /** Two reserved rows of different channels, the first of them with a unit left. */
  ghost predicate Contested(l: Ledger, a: RowId, b: RowId, lim: Key -> int) {
    && Good(l, lim) && a in l.rows && b in l.rows && Before(a.channel, b.channel)
    && l.rows[a].status == Reserved && l.rows[b].status == Reserved
    && var u := Counters(l, KeyOf(a, l.rows[a])); u.used + u.reserved + 1 <= lim(KeyOf(a, l.rows[a]))
  }

  predicate BothReserved(l: Ledger, a: RowId, b: RowId) {
    a != b && a in l.rows && b in l.rows && l.rows[a].status == Reserved && l.rows[b].status == Reserved
  }

  lemma SweepClaims(l: Ledger, a: RowId, b: RowId)
    requires BothReserved(l, a, b)
    ensures |Steps(Sweep([b, a]))| == 6
    ensures Onward(l, Sweep([b, a]), 0).over == EMPTY == Onward(l, Sweep([b, a]), 1).over
    ensures var t := Onward(l, Sweep([b, a]), 2);
            t.locks == {Reservation(b), Reservation(a)} && t.loc.claimed == map[b := l.rows[b], a := l.rows[a]]
  {
    TwoOfEach(a, b);
    ClaimStep(l, Sweep([b, a]), 0);
    ClaimStep(l, Sweep([b, a]), 1);
  }

  lemma SweepCharges(l: Ledger, a: RowId, b: RowId)
    requires BothReserved(l, a, b)
    ensures |Steps(Sweep([b, a]))| == 6
    ensures var t := Onward(l, Sweep([b, a]), 4);
            && t.locks == {Reservation(b), Reservation(a), Counter(KeyOf(b, l.rows[b]))}
            && t.loc.claimed == map[b := l.rows[b], a := l.rows[a]]
  {
    TwoOfEach(a, b);
    SweepClaims(l, a, b);
    MarkStep(l, Sweep([b, a]), 2);
    ChargeStep(l, Sweep([b, a]), 3);
  }

  /** The sweep once it has released b and marked a: it holds b's counter and needs a's. */
  lemma SweepHolds(l: Ledger, a: RowId, b: RowId)
    requires BothReserved(l, a, b)
    ensures |Steps(Sweep([b, a]))| == 6
    ensures var t := Onward(l, Sweep([b, a]), 5);
            && t.locks == {Reservation(b), Reservation(a), Counter(KeyOf(b, l.rows[b]))}
            && Target(Steps(Sweep([b, a]))[5], t.loc) == {Counter(KeyOf(a, l.rows[a]))}
  {
    LastSteps(a, b);
    SweepCharges(l, a, b);
    MarkStep(l, Sweep([b, a]), 4);
  }

  lemma SweepMatches(l: Ledger, a: RowId, b: RowId, n: nat)
    requires BothReserved(l, a, b) && n < 5
    ensures |Steps(Sweep([b, a]))| == 6
    ensures Ready(l, Sweep([b, a]), n)
  {
    TwoOfEach(a, b);
    if n < 2 {
      SweepClaims(l, a, b);
      MergeNothing(l);
    }
  }

  /** A request for one unit of each row's key. */
  function Request(l: Ledger, a: RowId, b: RowId, n: string, now: int, lim: Key -> int): Txn
    requires a in l.rows && b in l.rows
  {
    var j, k := KeyOf(a, l.rows[a]), KeyOf(b, l.rows[b]);
    ReserveMany([Item(j, 1, lim(j)), Item(k, 1, lim(k))], n, now)
  }

  lemma RequestSteps(l: Ledger, a: RowId, b: RowId, n: string, now: int, lim: Key -> int)
    requires a in l.rows && b in l.rows
    ensures var j, k := KeyOf(a, l.rows[a]), KeyOf(b, l.rows[b]);
            Steps(Request(l, a, b, n, now, lim))
            == [TryReserve(j, 1, lim(j)), AddRow(RowId(n, a.channel), NewRow(j, 1, now)),
                TryReserve(k, 1, lim(k)), AddRow(RowId(n, b.channel), NewRow(k, 1, now))]
  {
    var j, items := KeyOf(a, l.rows[a]), Request(l, a, b, n, now, lim).items;
    assert items[..1] == [items[0]] && [items[0]][..0] == [];
    assert ReserveSteps([items[0]], n, now)
           == [TryReserve(j, 1, lim(j)), AddRow(RowId(n, a.channel), NewRow(j, 1, now))];
  }

  lemma RoomForB(l: Ledger, a: RowId, b: RowId, lim: Key -> int)
    requires Contested(l, a, b, lim)
    ensures lim(KeyOf(b, l.rows[b])) >= 1
  {
    assert KeyOk(l, KeyOf(b, l.rows[b]), lim);
    ReservedRowIsCounted(l, b, lim);
  }

  /** A reservation within what is left is let through. */
  lemma TryStep(l: Ledger, t: Txn, n: nat)
    requires n < |Steps(t)| && Steps(t)[n].TryReserve? && Onward(l, t, n).over == EMPTY
    requires var st, u := Steps(t)[n], Counters(l, Steps(t)[n].key); 0 < st.units <= st.limit - u.used - u.reserved
    ensures var st, t' := Steps(t)[n], Onward(l, t, n + 1);
            t'.loc.ok && t'.over.rows == map[] && t'.locks == Onward(l, t, n).locks + {Counter(st.key)}
    ensures Target(Steps(t)[n], Onward(l, t, n).loc) == {Counter(Steps(t)[n].key)}
  {
    MergeNothing(l);
    MergeNothing(EMPTY);
  }

  lemma AddStep(l: Ledger, t: Txn, n: nat)
    requires n < |Steps(t)| && Steps(t)[n].AddRow? && Onward(l, t, n).loc.ok
    ensures Onward(l, t, n + 1).locks == Onward(l, t, n).locks + {Reservation(Steps(t)[n].id)}
    ensures Target(Steps(t)[n], Onward(l, t, n).loc) == {Reservation(Steps(t)[n].id)}
  {
  }

  /** The request up to its second statement: each can run, and locks a's counter and the new row. */
  lemma RequestAdds(l: Ledger, a: RowId, b: RowId, n: string, now: int, lim: Key -> int)
    requires Contested(l, a, b, lim) && RowId(n, a.channel) !in l.rows
    ensures var t, j, id := Request(l, a, b, n, now, lim), KeyOf(a, l.rows[a]), RowId(n, a.channel);
            && |Steps(t)| == 4 && Ready(l, t, 0) && Ready(l, t, 1)
            && Target(Steps(t)[0], Onward(l, t, 0).loc) == {Counter(j)}
            && Target(Steps(t)[1], Onward(l, t, 1).loc) == {Reservation(id)}
            && Onward(l, t, 2).locks == {Counter(j), Reservation(id)}
  {
    var t := Request(l, a, b, n, now, lim);
    RequestSteps(l, a, b, n, now, lim);
    TryStep(l, t, 0);
    AddStep(l, t, 1);
  }

  /** The request once it has reserved the first channel: it holds a's counter and needs b's. */
  lemma RequestHolds(l: Ledger, a: RowId, b: RowId, n: string, now: int, lim: Key -> int)
    requires Contested(l, a, b, lim) && RowId(n, a.channel) !in l.rows
    ensures var t := Request(l, a, b, n, now, lim);
            && |Steps(t)| == 4 && Counter(KeyOf(a, l.rows[a])) in Onward(l, t, 2).locks
            && Target(Steps(t)[2], Onward(l, t, 2).loc) == {Counter(KeyOf(b, l.rows[b]))}
  {
    RequestAdds(l, a, b, n, now, lim);
    RequestSteps(l, a, b, n, now, lim);
    RoomForB(l, a, b, lim);
  }

  function SweepRun(l: Ledger, a: RowId, b: RowId, n: string, now: int, lim: Key -> int): seq<Event>
    requires a in l.rows && b in l.rows
  {
    Alone(Sweep([b, a]), 5)
    + [Begin(Request(l, a, b, n, now, lim)), Advance(1), Advance(1)]
  }

  function Alone(t: Txn, n: nat): seq<Event> {
    if n == 0 then [Begin(t)] else Alone(t, n - 1) + [Advance(0)]
  }

  lemma OneMore(s: State, es: seq<Event>, s1: State, e: Event, s2: State, lim: Key -> int)
    requires IsRun(s, es, lim) && Play(s, es) == s1 && Enabled(s1, e, lim) && Apply(s1, e) == s2
    ensures IsRun(s, es + [e], lim) && Play(s, es + [e]) == s2
  {
    assert (es + [e])[..|es + [e]| - 1] == es;
  }

  lemma Starts(l: Ledger, t: Txn, lim: Key -> int)
    requires TxnOk(t, lim)
    ensures IsRun(Idle(l), [Begin(t)], lim) && Play(Idle(l), [Begin(t)]) == State(l, [Onward(l, t, 0)], [])
  {
    OneMore(Idle(l), [], Idle(l), Begin(t), State(l, [Onward(l, t, 0)], []), lim);
    assert [] + [Begin(t)] == [Begin(t)];
  }

  lemma AloneGoesOn(l: Ledger, t: Txn, n: nat, es: seq<Event>, lim: Key -> int)
    requires n < |Steps(t)| && Ready(l, t, n)
    requires IsRun(Idle(l), es, lim) && Play(Idle(l), es) == State(l, [Onward(l, t, n)], [])
    ensures IsRun(Idle(l), es + [Advance(0)], lim)
    ensures Play(Idle(l), es + [Advance(0)]) == State(l, [Onward(l, t, n + 1)], [])
  {
    FirstAdvances(l, t, n, lim);
    OneMore(Idle(l), es, State(l, [Onward(l, t, n)], []), Advance(0), State(l, [Onward(l, t, n + 1)], []), lim);
  }

  lemma SweepGoesOn(l: Ledger, a: RowId, b: RowId, n: nat, es: seq<Event>, lim: Key -> int)
    requires BothReserved(l, a, b) && n < 5 && |Steps(Sweep([b, a]))| == 6
    requires IsRun(Idle(l), es, lim) && Play(Idle(l), es) == State(l, [Onward(l, Sweep([b, a]), n)], [])
    ensures IsRun(Idle(l), es + [Advance(0)], lim)
    ensures Play(Idle(l), es + [Advance(0)]) == State(l, [Onward(l, Sweep([b, a]), n + 1)], [])
  {
    SweepMatches(l, a, b, n);
    AloneGoesOn(l, Sweep([b, a]), n, es, lim);
  }

  /** The sweep alone, up to n statements. */
  lemma {:induction false} SweepRuns(l: Ledger, a: RowId, b: RowId, n: nat, lim: Key -> int)
    requires BothReserved(l, a, b) && n <= 5 && |Steps(Sweep([b, a]))| == 6
    ensures IsRun(Idle(l), Alone(Sweep([b, a]), n), lim)
    ensures Play(Idle(l), Alone(Sweep([b, a]), n)) == State(l, [Onward(l, Sweep([b, a]), n)], [])
  {
    if n == 0 {
      Starts(l, Sweep([b, a]), lim);
    } else {
      SweepRuns(l, a, b, n - 1, lim);
      SweepGoesOn(l, a, b, n - 1, Alone(Sweep([b, a]), n - 1), lim);
    }
  }

  /** A second transaction beside one at rest, up to its second statement. */
  lemma RunsBeside(l: Ledger, w: Tx, t: Txn, lim: Key -> int)
    requires TxnOk(t, lim) && 2 < |Steps(t)| && w.locks !! Target(Steps(t)[0], Onward(l, t, 0).loc)
    requires w.locks !! Target(Steps(t)[1], Onward(l, t, 1).loc)
    requires Ready(l, t, 0) && Ready(l, t, 1)
    ensures var s, es := State(l, [w], []), [Begin(t), Advance(1), Advance(1)];
            IsRun(s, es, lim) && Play(s, es) == State(l, [w, Onward(l, t, 2)], [])
  {
    SecondAdvances(l, w, t, 0, lim);
    SecondAdvances(l, w, t, 1, lim);
    var s0, s1 := State(l, [w], []), State(l, [w, Onward(l, t, 0)], []);
    var s2, s3 := State(l, [w, Onward(l, t, 1)], []), State(l, [w, Onward(l, t, 2)], []);
    RunThrough([Begin(t), Advance(1), Advance(1)], s0, [s0, s1, s2, s3], lim);
  }

  lemma RequestRuns(l: Ledger, a: RowId, b: RowId, n: string, now: int, w: Tx, lim: Key -> int)
    requires Contested(l, a, b, lim) && RowId(n, a.channel) !in l.rows
    requires w.locks == {Reservation(b), Reservation(a), Counter(KeyOf(b, l.rows[b]))}
    ensures var s, t := State(l, [w], []), Request(l, a, b, n, now, lim);
            var es := [Begin(t), Advance(1), Advance(1)];
            |Steps(t)| == 4 && IsRun(s, es, lim) && Play(s, es) == State(l, [w, Onward(l, t, 2)], [])
  {
    RequestAdds(l, a, b, n, now, lim);
    RequestIsTxn(l, a, b, n, now, lim);
    RequestIsFree(l, a, b, n);
    RunsBeside(l, w, Request(l, a, b, n, now, lim), lim);
  }

  lemma RequestIsFree(l: Ledger, a: RowId, b: RowId, n: string)
    requires a in l.rows && b in l.rows && Before(a.channel, b.channel) && RowId(n, a.channel) !in l.rows
    ensures var held := {Reservation(b), Reservation(a), Counter(KeyOf(b, l.rows[b]))};
            held !! {Counter(KeyOf(a, l.rows[a]))} && held !! {Reservation(RowId(n, a.channel))}
  {
    BeforeIsIrreflexive(a.channel);
  }

  lemma RequestIsTxn(l: Ledger, a: RowId, b: RowId, n: string, now: int, lim: Key -> int)
    requires Contested(l, a, b, lim)
    ensures TxnOk(Request(l, a, b, n, now, lim), lim)
  {
  }

  lemma EachWaits(l: Ledger, a: RowId, b: RowId, w: Tx, r: Tx)
    requires a in l.rows && b in l.rows && w.live && r.live && w.pc < |w.steps| && r.pc < |r.steps|
    requires Target(w.steps[w.pc], w.loc) == {Counter(KeyOf(a, l.rows[a]))} && Counter(KeyOf(a, l.rows[a])) in r.locks
    requires Target(r.steps[r.pc], r.loc) == {Counter(KeyOf(b, l.rows[b]))} && Counter(KeyOf(b, l.rows[b])) in w.locks
    ensures WaitChain(State(l, [w, r], []), [0, 1, 0])
  {
    var s := State(l, [w, r], []);
    assert Counter(KeyOf(a, l.rows[a])) in Goal(s, 0) * r.locks && Counter(KeyOf(b, l.rows[b])) in Goal(s, 1) * w.locks;
    assert WaitsFor(s, 0, 1) && WaitsFor(s, 1, 0);
  }

  /** From every good ledger with two reserved rows of different channels and a unit left for the first: a run in which
      a sweep that holds the second counter and a request that holds the first wait for each other. */
  lemma SweepAndReserveCanDeadlock(l: Ledger, a: RowId, b: RowId, n: string, now: int, lim: Key -> int)
    requires Contested(l, a, b, lim) && RowId(n, a.channel) !in l.rows
    ensures var es := SweepRun(l, a, b, n, now, lim); IsRun(Idle(l), es, lim) && WaitChain(Play(Idle(l), es), [0, 1, 0])
  {
    BeforeIsIrreflexive(a.channel);
    SweepHolds(l, a, b);
    RequestHolds(l, a, b, n, now, lim);
    var w, t := Onward(l, Sweep([b, a]), 5), Request(l, a, b, n, now, lim);
    SweepRuns(l, a, b, 5, lim);
    RequestRuns(l, a, b, n, now, w, lim);
    PlayAppends(Idle(l), Alone(Sweep([b, a]), 5), [Begin(t), Advance(1), Advance(1)], lim);
    EachWaits(l, a, b, w, Onward(l, t, 2));
  }
}
