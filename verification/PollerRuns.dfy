/** Any number of pollers at work on the same schedules, with crashes, failed statements and clocks of their own: when
    no due occurrence is enqueued twice, and the runs that do enqueue one twice. */
module PollerRuns {
  import NextRun
  import opened SchedulePoller

  /** A transaction under way: the rows it has locked, and how far it has come. */
  datatype Tick = Tick(due: seq<int>, at: nat, work: Work)

  datatype State = State(now: int, rows: map<int, Row>, ticks: map<int, Tick>, enqueued: multiset<Job>)

  datatype Event =
    | Wait(until: int)
    | Begin(p: int, due: seq<int>)
    | Process(p: int, outcome: Outcome, clock: int)   // the next run is computed from the process's own clock
    | Commit(p: int, sent: multiset<Job>)   // `sent` is what reaches the queue afterwards
    | Crash(p: int)

  ghost predicate Locked(s: State, id: int) {
    exists p :: p in s.ticks && id in s.ticks[p].due
  }

  predicate Due(row: Row, now: int) {
    row.status == Active && row.next <= now
  }

  predicate Distinct(ids: seq<int>) {
    forall i, j | 0 <= i < j < |ids| :: ids[i] != ids[j]
  }

  predicate Working(s: State, p: int) {
    && p in s.ticks && s.ticks[p].at < |s.ticks[p].due| && s.ticks[p].due[s.ticks[p].at] in s.rows
    && IsRule(s.rows[s.ticks[p].due[s.ticks[p].at]].rule)
  }

  /** A tick selects all the rows that are due by the database's clock, skipping locked ones. */
  ghost predicate Enabled(s: State, e: Event) {
    match e
    case Wait(until) => s.now <= until
    case Begin(p, due) =>
      && p !in s.ticks && Distinct(due)
      && (forall k | 0 <= k < |due| :: due[k] in s.rows && Due(s.rows[due[k]], s.now) && !Locked(s, due[k]))
      && (forall id | id in s.rows && Due(s.rows[id], s.now) && !Locked(s, id) :: id in due)
    case Process(p, _, _) => Working(s, p)
    case Commit(p, sent) => p in s.ticks && s.ticks[p].at == |s.ticks[p].due| && sent <= multiset(s.ticks[p].work.jobs)
    case Crash(p) => p in s.ticks
  }

  ghost function Apply(s: State, e: Event): State
    requires Enabled(s, e)
  {
    match e
    case Wait(until) => s.(now := until)
    case Begin(p, due) => s.(ticks := s.ticks[p := Tick(due, 0, Work(map[], [], false))])
    case Process(p, outcome, clock) =>
      var t := s.ticks[p];
      s.(ticks := s.ticks[p := Tick(t.due, t.at + 1,
                                    ProcessOne(t.work, t.due[t.at], s.rows[t.due[t.at]], outcome, clock))])
    case Commit(p, sent) =>
      var w := s.ticks[p].work;
      State(s.now, if w.aborted then s.rows else s.rows + w.updates, s.ticks - {p}, s.enqueued + sent)
    case Crash(p) => s.(ticks := s.ticks - {p})
  }

  ghost predicate IsRun(s: State, es: seq<Event>)
    decreases |es|
  {
    es == [] || (Enabled(s, es[0]) && IsRun(Apply(s, es[0]), es[1..]))
  }

  ghost function Play(s: State, es: seq<Event>): State
    requires IsRun(s, es)
    decreases |es|
  {
    if es == [] then s else Play(Apply(s, es[0]), es[1..])
  }

  /** The clock the next run is computed from is not behind the occurrence. */
  predicate OnTime(row: Row, clock: int) {
    row.rule.Recurring? ==> row.next <= clock
  }

  predicate Timely(s: State, e: Event) {
    e.Process? && e.outcome.Ran? && Working(s, e.p) ==> OnTime(s.rows[s.ticks[e.p].due[s.ticks[e.p].at]], e.clock)
  }

  ghost predicate AllTimely(s: State, es: seq<Event>)
    requires IsRun(s, es)
    decreases |es|
  {
    es == [] || (Timely(s, es[0]) && AllTimely(Apply(s, es[0]), es[1..]))
  }

  /** A statement that fails does no harm as long as its tick has collected no job yet. */
  predicate Harmless(s: State, e: Event) {
    && Timely(s, e)
    && (e.Process? && e.outcome == Broke && e.p in s.ticks ==> s.ticks[e.p].work.jobs == [])
  }

  ghost predicate AllHarmless(s: State, es: seq<Event>)
    requires IsRun(s, es)
    decreases |es|
  {
    es == [] || (Harmless(s, es[0]) && AllHarmless(Apply(s, es[0]), es[1..]))
  }

  // ---------------------------------------------------------------- the invariant

  /** The occurrence lies behind the row: it is no longer due and never will be again. */
  predicate Behind(row: Row, occurrence: int) {
    row.status != Active || occurrence < row.next
  }

  /** A row only moves on: what lies behind it stays behind it. */
  predicate Onwards(row: Row, row': Row) {
    row'.next >= row.next && (row.status != Active ==> row'.status != Active) && row'.rule == row.rule
  }

  predicate WorkOk(rows: map<int, Row>, due: seq<int>, at: nat, w: Work)
    requires at <= |due|
  {
    && (w.aborted ==> w.jobs == [])
    && (forall id | id in w.updates :: id in due[..at] && id in rows && Onwards(rows[id], w.updates[id]))
    && (forall j | j in w.jobs ::
          j.id in w.updates && j.id in rows && j.occurrence == rows[j.id].next && Behind(w.updates[j.id], j.occurrence))
    && (forall j | j in w.jobs :: multiset(w.jobs)[j] == 1)
  }

  predicate TickOk(s: State, t: Tick) {
    && t.at <= |t.due| && Distinct(t.due) && WorkOk(s.rows, t.due, t.at, t.work)
    && (forall k | 0 <= k < |t.due| :: t.due[k] in s.rows && Due(s.rows[t.due[k]], s.now))
  }

  ghost predicate Inv(s: State) {
    && (forall id | id in s.rows :: IsRule(s.rows[id].rule))
    && (forall p | p in s.ticks :: TickOk(s, s.ticks[p]))
    && (forall p, q, id | p in s.ticks && q in s.ticks && id in s.ticks[p].due && id in s.ticks[q].due :: p == q)
    && (forall j | j in s.enqueued :: s.enqueued[j] == 1 && j.id in s.rows && Behind(s.rows[j.id], j.occurrence))
  }

  lemma AdvancedIsBehind(row: Row, clock: int)
    requires IsRule(row.rule) && OnTime(row, clock)
    ensures Onwards(row, Advanced(row, clock)) && Behind(Advanced(row, clock), row.next)
  {
    if row.rule.Recurring? {
      NextRun.NextRunIsAhead(row.rule.frequency, row.rule.time, row.rule.zone, clock);
    }
  }

  /** The occurrence is one of the schedule's, in a zone in which the next run is the next of them. */
  predicate IsOccurrence(row: Row) {
    row.rule.Recurring? ==>
      && NextRun.Matches(row.rule.frequency, row.rule.time, row.rule.zone, row.next)
      && (row.rule.frequency.Weekly? ==> -720 <= row.rule.zone < 720)
  }

  /** A successful run leaves its occurrence behind exactly when its process's clock is not behind the occurrence. */
  lemma BehindIffOnTime(row: Row, clock: int)
    requires IsRule(row.rule) && row.status == Active && IsOccurrence(row)
    ensures Behind(Advanced(row, clock), row.next) <==> OnTime(row, clock)
  {
    if row.rule.Recurring? {
      NextRun.NextRunIsNextIff(row.rule.frequency, row.rule.time, row.rule.zone, clock);
    }
  }

  lemma {:induction false} JobsAreOnce(id: int, occurrence: int, items: seq<bool>, n: nat)
    requires n <= |items|
    ensures var jobs := Jobs(id, occurrence, items, n);
            forall j | j in jobs :: j.id == id && j.occurrence == occurrence && j.item < n && multiset(jobs)[j] == 1
  {
    if n > 0 {
      JobsAreOnce(id, occurrence, items, n - 1);
    }
  }

  lemma JobsJoin(a: seq<Job>, b: seq<Job>)
    requires (forall j | j in a :: multiset(a)[j] == 1) && (forall j | j in b :: multiset(b)[j] == 1)
    requires forall j | j in a :: j !in b
    ensures forall j | j in a + b :: multiset(a + b)[j] == 1
  {
  }

  lemma TakesNext(due: seq<int>, at: nat)
    requires at < |due| && Distinct(due)
    ensures due[at] !in due[..at] && forall x | x in due[..at + 1] :: x in due[..at] || x == due[at]
    ensures forall x | x in due[..at] || x == due[at] :: x in due[..at + 1]
  {
  }

  lemma UpdateKeepsWork(rows: map<int, Row>, due: seq<int>, at: nat, w: Work, row: Row)
    requires at < |due| && Distinct(due) && due[at] in rows && Onwards(rows[due[at]], row) && WorkOk(rows, due, at, w)
    ensures WorkOk(rows, due, at + 1, w.(updates := w.updates[due[at] := row]))
  {
    TakesNext(due, at);
  }

  lemma RanKeepsWork(rows: map<int, Row>, due: seq<int>, at: nat, w: Work, row: Row, jobs: seq<Job>)
    requires at < |due| && Distinct(due) && due[at] in rows && Onwards(rows[due[at]], row) && WorkOk(rows, due, at, w)
    requires !w.aborted && Behind(row, rows[due[at]].next)
    requires forall j | j in jobs :: j.id == due[at] && j.occurrence == rows[due[at]].next && multiset(jobs)[j] == 1
    ensures WorkOk(rows, due, at + 1, w.(updates := w.updates[due[at] := row], jobs := w.jobs + jobs))
  {
    TakesNext(due, at);
    JobsJoin(w.jobs, jobs);
  }

  lemma ProcessKeepsWork(rows: map<int, Row>, due: seq<int>, at: nat, w: Work, outcome: Outcome, clock: int)
    requires at < |due| && Distinct(due) && due[at] in rows && IsRule(rows[due[at]].rule)
    requires outcome.Ran? ==> OnTime(rows[due[at]], clock)
    requires WorkOk(rows, due, at, w) && (outcome == Broke ==> w.jobs == [])
    ensures WorkOk(rows, due, at + 1, ProcessOne(w, due[at], rows[due[at]], outcome, clock))
  {
    var row := rows[due[at]];
    TakesNext(due, at);
    if w.aborted {
      return;
    }
    match outcome
    case Broke =>
    case FetchFailed => UpdateKeepsWork(rows, due, at, w, Retried(row));
    case Threw => UpdateKeepsWork(rows, due, at, w, row.(retries := row.retries + 1));
    case Ran(items) =>
      AdvancedIsBehind(row, clock);
      JobsAreOnce(due[at], row.next, items, |items|);
      RanKeepsWork(rows, due, at, w, Advanced(row, clock), Jobs(due[at], row.next, items, |items|));
  }

  lemma ProcessKeepsInv(s: State, p: int, outcome: Outcome, clock: int)
    requires Inv(s) && Enabled(s, Process(p, outcome, clock)) && Harmless(s, Process(p, outcome, clock))
    ensures Inv(Apply(s, Process(p, outcome, clock)))
  {
    var t := s.ticks[p];
    ProcessKeepsWork(s.rows, t.due, t.at, t.work, outcome, clock);
  }

  lemma BeginKeepsInv(s: State, p: int, due: seq<int>)
    requires Inv(s) && Enabled(s, Begin(p, due))
    ensures Inv(Apply(s, Begin(p, due)))
  {
  }

  /** Rows of other ticks are not touched by a commit. */
  lemma CommitKeepsTicks(s: State, p: int, q: int)
    requires Inv(s) && p in s.ticks && q in s.ticks && p != q
    ensures TickOk(s.(rows := s.rows + s.ticks[p].work.updates), s.ticks[q])
  {
    var updates, t := s.ticks[p].work.updates, s.ticks[q];
    forall id | id in t.due ensures id !in updates {
      assert TickOk(s, s.ticks[p]);
    }
    forall id | id in t.work.updates ensures id in t.due {
      assert t.due[..t.at] <= t.due;
    }
  }

  lemma CommitKeepsInv(s: State, p: int, sent: multiset<Job>)
    requires Inv(s) && Enabled(s, Commit(p, sent))
    ensures Inv(Apply(s, Commit(p, sent)))
  {
    var s', w := Apply(s, Commit(p, sent)), s.ticks[p].work;
    assert TickOk(s, s.ticks[p]);
    forall q | q in s'.ticks ensures TickOk(s', s'.ticks[q]) {
      CommitKeepsTicks(s, p, q);
    }
    forall id | id in s'.rows ensures IsRule(s'.rows[id].rule) {
      assert id in s.rows;
    }
    forall j | j in s'.enqueued ensures s'.enqueued[j] == 1 && j.id in s'.rows && Behind(s'.rows[j.id], j.occurrence) {
      if j in sent {
        assert j in multiset(w.jobs) && j in w.jobs;
        assert j !in s.enqueued by {
          assert Due(s.rows[j.id], s.now);
        }
      }
    }
  }

  lemma StepKeepsInv(s: State, e: Event)
    requires Inv(s) && Enabled(s, e) && Harmless(s, e)
    ensures Inv(Apply(s, e))
  {
    match e
    case Begin(p, due) => BeginKeepsInv(s, p, due);
    case Process(p, outcome, clock) => ProcessKeepsInv(s, p, outcome, clock);
    case Commit(p, sent) => CommitKeepsInv(s, p, sent);
    case _ =>
  }

  lemma {:induction false} RunKeepsInv(s: State, es: seq<Event>)
    requires Inv(s) && IsRun(s, es) && AllHarmless(s, es)
    ensures Inv(Play(s, es))
    decreases |es|
  {
    if es != [] {
      StepKeepsInv(s, es[0]);
      RunKeepsInv(Apply(s, es[0]), es[1..]);
    }
  }

  function Start(now: int, rows: map<int, Row>): State {
    State(now, rows, map[], multiset{})
  }

  predicate AreRules(rows: map<int, Row>) {
    forall id | id in rows :: IsRule(rows[id].rule)
  }

  /** At most once: with any number of pollers, crashing or not, no job of a due occurrence reaches the queue twice
      while no statement fails after its tick collected a job and no process's clock is behind the occurrence it
      handles; and an occurrence that reached the queue is not due any more. */
  lemma EnqueuedAtMostOnce(now: int, rows: map<int, Row>, es: seq<Event>, j: Job)
    requires AreRules(rows) && IsRun(Start(now, rows), es) && AllHarmless(Start(now, rows), es)
    ensures var s := Play(Start(now, rows), es);
            s.enqueued[j] <= 1 && (j in s.enqueued ==> j.id in s.rows && Behind(s.rows[j.id], j.occurrence))
  {
    RunKeepsInv(Start(now, rows), es);
  }

  // ---------------------------------------------------------------- a tick alone

  lemma OneStep(s: State, e: Event)
    requires Enabled(s, e)
    ensures IsRun(s, [e]) && Play(s, [e]) == Apply(s, e) && (AllTimely(s, [e]) <==> Timely(s, e))
  {
  }

  lemma {:induction false} RunThrough(s: State, es: seq<Event>, fs: seq<Event>)
    requires IsRun(s, es) && IsRun(Play(s, es), fs)
    ensures IsRun(s, es + fs) && Play(s, es + fs) == Play(Play(s, es), fs)
    ensures AllTimely(s, es) && AllTimely(Play(s, es), fs) ==> AllTimely(s, es + fs)
    decreases |es|
  {
    if es == [] {
      assert es + fs == fs;
    } else {
      assert (es + fs)[0] == es[0] && (es + fs)[1..] == es[1..] + fs;
      RunThrough(Apply(s, es[0]), es[1..], fs);
    }
  }

  lemma Extend(s: State, es: seq<Event>, e: Event) returns (fs: seq<Event>)
    requires IsRun(s, es) && Enabled(Play(s, es), e)
    ensures fs == es + [e] && IsRun(s, fs) && Play(s, fs) == Apply(Play(s, es), e)
    ensures AllTimely(s, es) && Timely(Play(s, es), e) ==> AllTimely(s, fs)
  {
    OneStep(Play(s, es), e);
    RunThrough(s, es, [e]);
    fs := es + [e];
  }

  predicate AllOnTime(rows: map<int, Row>, due: seq<int>, clock: int) {
    forall k | 0 <= k < |due| :: due[k] in rows && OnTime(rows[due[k]], clock)
  }

  lemma {:induction false} TickReaches(s: State, p: int, due: seq<int>, outcomes: seq<Outcome>, clock: int, n: nat)
      returns (es: seq<Event>)
    requires s.ticks == map[] && AreRules(s.rows) && Enabled(s, Begin(p, due)) && n <= |due| == |outcomes|
    ensures IsRun(s, es)
            && Play(s, es) == s.(ticks := map[p := Tick(due, n, ProcessAll(s.rows, due, outcomes, clock, n))])
            && (AllOnTime(s.rows, due, clock) ==> AllTimely(s, es))
  {
    if n == 0 {
      es := Extend(s, [], Begin(p, due));
    } else {
      es := TickReaches(s, p, due, outcomes, clock, n - 1);
      es := Extend(s, es, Process(p, outcomes[n - 1], clock));
    }
  }

  /** A tick of the poller class that has the schedules to itself is a run: same rows and same jobs. */
  lemma TickIsARun(s: State, p: int, due: seq<int>, outcomes: seq<Outcome>, clock: int) returns (es: seq<Event>)
    requires s.ticks == map[] && AreRules(s.rows) && Enabled(s, Begin(p, due)) && |due| == |outcomes|
    ensures var w := ProcessAll(s.rows, due, outcomes, clock, |due|);
            && IsRun(s, es)
            && Play(s, es) == State(s.now, if w.aborted then s.rows else s.rows + w.updates,
                                    map[], s.enqueued + multiset(w.jobs))
            && (AllOnTime(s.rows, due, clock) ==> AllTimely(s, es))
  {
    var w := ProcessAll(s.rows, due, outcomes, clock, |due|);
    es := TickReaches(s, p, due, outcomes, clock, |due|);
    es := Extend(s, es, Commit(p, multiset(w.jobs)));
  }

  // ---------------------------------------------------------------- a failed statement

  lemma {:induction false} Listed(ids: set<int>) returns (list: seq<int>)
    ensures Distinct(list) && forall id: int :: id in list <==> id in ids
  {
    if id: int :| id in ids {
      var rest := Listed(ids - {id});
      list := [id] + rest;
    } else {
      list := [];
    }
  }

  /** All the due rows, two given ones first. */
  lemma DueList(s: State, a: int, b: int) returns (due: seq<int>)
    requires s.ticks == map[] && a != b && a in s.rows && b in s.rows && Due(s.rows[a], s.now) && Due(s.rows[b], s.now)
    ensures |due| >= 2 && due[0] == a && due[1] == b && forall p :: Enabled(s, Begin(p, due))
  {
    var others := Listed((set id | id in s.rows && Due(s.rows[id], s.now)) - {a, b});
    due := [a, b] + others;
    assert forall k | 2 <= k < |due| :: due[k] == others[k - 2] && due[k] in others;
  }

  /** The first schedule makes one job, a statement of the second fails. */
  function FailSecond(n: nat): (outcomes: seq<Outcome>)
    requires n >= 2
    ensures |outcomes| == n && outcomes[0] == Ran([true]) && outcomes[1] == Broke
  {
    [Ran([true]), Broke] + seq(n - 2, _ => FetchFailed)
  }

  lemma {:induction false} OneJobIsLeft(rows: map<int, Row>, due: seq<int>, outcomes: seq<Outcome>, clock: int, n: nat)
    requires 2 <= n <= |due| == |outcomes| && outcomes[0] == Ran([true]) && outcomes[1] == Broke
    requires forall k | 0 <= k < |due| :: due[k] in rows && IsRule(rows[due[k]].rule)
    ensures var w := ProcessAll(rows, due, outcomes, clock, n);
            w.aborted && w.jobs == [Job(due[0], rows[due[0]].next, 0)]
  {
    if n == 2 {
      assert Jobs(due[0], rows[due[0]].next, [true], 1) == [Job(due[0], rows[due[0]].next, 0)];
      assert ProcessAll(rows, due, outcomes, clock, 0) == Work(map[], [], false);
    } else {
      OneJobIsLeft(rows, due, outcomes, clock, n - 1);
    }
  }

  /** A statement that fails in one schedule leaves the jobs of the schedules processed before it in the same tick
      enqueued and all rows as they were: they are still due, and a next tick enqueues the same occurrence again. */
  lemma FailedStatementRepeats(s: State, p: int, a: int, b: int) returns (es: seq<Event>)
    requires s.ticks == map[] && a != b && a in s.rows && b in s.rows && Due(s.rows[a], s.now) && Due(s.rows[b], s.now)
    requires AreRules(s.rows)
    ensures var job := Job(a, s.rows[a].next, 0);
            && IsRun(s, es) && AllTimely(s, es)
            && Play(s, es) == s.(enqueued := s.enqueued + multiset{job, job})
  {
    var job := Job(a, s.rows[a].next, 0);
    var due := DueList(s, a, b);
    assert Enabled(s, Begin(p, due));
    var outcomes := FailSecond(|due|);
    OneJobIsLeft(s.rows, due, outcomes, s.now, |due|);
    var first := TickIsARun(s, p, due, outcomes, s.now);
    var s1 := s.(enqueued := s.enqueued + multiset{job});
    assert Play(s, first) == s1;
    assert Enabled(s1, Begin(p, due));
    var again := TickIsARun(s1, p, due, outcomes, s.now);
    RunThrough(s, first, again);
    es := first + again;
  }

  // ---------------------------------------------------------------- the exact condition

  predicate OneActive(rows: map<int, Row>) {
    forall a, b | a in rows && b in rows && rows[a].status == Active && rows[b].status == Active :: a == b
  }

  /** No tick has more than one schedule, so nothing can fail after a job was collected. */
  ghost predicate Small(s: State) {
    OneActive(s.rows) && forall p | p in s.ticks ::
        |s.ticks[p].due| <= 1 && (s.ticks[p].at == 0 ==> s.ticks[p].work.jobs == [])
  }

  lemma TwoDueRepeat(rows: map<int, Row>, due: seq<int>, now: int)
    requires OneActive(rows) && forall k | 0 <= k < |due| :: due[k] in rows && Due(rows[due[k]], now)
    ensures |due| > 1 ==> !Distinct(due)
  {
    if |due| > 1 {
      assert due[0] == due[1];
    }
  }

  lemma BeginStaysSmall(s: State, p: int, due: seq<int>)
    requires Small(s) && Enabled(s, Begin(p, due))
    ensures |due| <= 1 && Small(Apply(s, Begin(p, due)))
  {
    TwoDueRepeat(s.rows, due, s.now);
  }

  lemma CommitStaysSmall(s: State, p: int, sent: multiset<Job>)
    requires Inv(s) && Small(s) && Enabled(s, Commit(p, sent))
    ensures Small(Apply(s, Commit(p, sent)))
  {
    assert TickOk(s, s.ticks[p]);
  }

  lemma SmallIsHarmless(s: State, e: Event)
    requires Inv(s) && Small(s) && Enabled(s, e) && Timely(s, e)
    ensures Harmless(s, e) && Small(Apply(s, e))
  {
    match e
    case Begin(p, due) => BeginStaysSmall(s, p, due);
    case Commit(p, sent) => CommitStaysSmall(s, p, sent);
    case _ =>
  }

  lemma {:induction false} SmallRunsAreHarmless(s: State, es: seq<Event>)
    requires Inv(s) && Small(s) && IsRun(s, es) && AllTimely(s, es)
    ensures AllHarmless(s, es)
    decreases |es|
  {
    if es != [] {
      SmallIsHarmless(s, es[0]);
      StepKeepsInv(s, es[0]);
      SmallRunsAreHarmless(Apply(s, es[0]), es[1..]);
    }
  }

  /** No job is enqueued twice, whatever fails, while clocks are on time. */
  ghost predicate OnceIn(now: int, rows: map<int, Row>, es: seq<Event>) {
    IsRun(Start(now, rows), es) && AllTimely(Start(now, rows), es) ==> forall j ::
        Play(Start(now, rows), es).enqueued[j] <= 1
  }

  lemma TwoActiveRepeat(now: int, rows: map<int, Row>, a: int, b: int) returns (es: seq<Event>)
    requires AreRules(rows) && a != b && a in rows && b in rows && rows[a].status == Active && rows[b].status == Active
    ensures !OnceIn(now, rows, es)
  {
    var later := if rows[a].next < rows[b].next then rows[b].next else rows[a].next;
    var until := if now < later then later else now;
    var s := Start(now, rows);
    OneStep(s, Wait(until));
    var s1 := Apply(s, Wait(until));
    var fs := FailedStatementRepeats(s1, 1, a, b);
    RunThrough(s, [Wait(until)], fs);
    es := [Wait(until)] + fs;
    assert Play(s, es).enqueued[Job(a, rows[a].next, 0)] == 2;
  }

  /** With clocks on time and statements free to fail, no job is ever enqueued twice if and only if at most one schedule
      is active. */
  lemma AtMostOnceIffOneActive(now: int, rows: map<int, Row>)
    requires AreRules(rows)
    ensures (forall es :: OnceIn(now, rows, es)) <==> OneActive(rows)
  {
    if OneActive(rows) {
      forall es ensures OnceIn(now, rows, es) {
        if IsRun(Start(now, rows), es) && AllTimely(Start(now, rows), es) {
          SmallRunsAreHarmless(Start(now, rows), es);
          RunKeepsInv(Start(now, rows), es);
        }
      }
    } else {
      var a, b :| a in rows && b in rows && rows[a].status == Active && rows[b].status == Active && a != b;
      var es := TwoActiveRepeat(now, rows, a, b);
    }
  }
}
