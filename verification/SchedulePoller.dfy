/** The poller of scheduled notifications (src/workers/scheduled-notification.worker.js): any number of processes,
    each tick one transaction whose jobs are enqueued after it. Times are in milliseconds. */
module SchedulePoller {
  import NextRun

  datatype Rule = OneTime | Recurring(frequency: NextRun.Schedule, time: NextRun.Time, zone: int)

  datatype Status = Active | Completed | Failed

  /** A row of scheduled_notifications. */
  datatype Row = Row(rule: Rule, status: Status, next: int, retries: nat, maxRetries: nat)

  /** A job for one item of one due occurrence of a schedule. */
  datatype Job = Job(id: int, occurrence: int, item: nat)

  /** How the processing of a schedule ends: its source could not be fetched, its items were processed (each a
      success or not), it threw, or a statement failed, which aborts the whole transaction. */
  datatype Outcome = FetchFailed | Ran(items: seq<bool>) | Threw | Broke

  /** What a tick has done so far: rows to be updated, jobs to be enqueued after the commit. */
  datatype Work = Work(updates: map<int, Row>, jobs: seq<Job>, aborted: bool)

  predicate IsRule(r: Rule) {
    r.Recurring? ==> NextRun.IsTime(r.time) && NextRun.IsZone(r.zone) && NextRun.IsSchedule(r.frequency)
  }

  /** After its items were processed a one-time schedule is done, a recurring one moves on. */
  function Advanced(row: Row, now: int): Row
    requires IsRule(row.rule)
  {
    match row.rule
    case OneTime => row.(status := Completed, retries := 0)
    case Recurring(frequency, time, zone) => row.(next := NextRun.ComputeNextRun(frequency, time, zone, now),
                                                  retries := 0)
  }

  function Retried(row: Row): Row {
    row.(retries := row.retries + 1, status := if row.retries + 1 >= row.maxRetries then Failed else row.status)
  }

  /** The jobs of the first n items. */
  function Jobs(id: int, occurrence: int, items: seq<bool>, n: nat): seq<Job>
    requires n <= |items|
  {
    if n == 0 then [] else
      Jobs(id, occurrence, items, n - 1) + if items[n - 1] then [Job(id, occurrence, n - 1)] else []
  }

  function ProcessOne(w: Work, id: int, row: Row, outcome: Outcome, now: int): Work
    requires IsRule(row.rule)
  {
    if w.aborted then w
    else match outcome
      case FetchFailed => w.(updates := w.updates[id := Retried(row)])
      case Ran(items) => w.(updates := w.updates[id := Advanced(row, now)],
                            jobs := w.jobs + Jobs(id, row.next, items, |items|))
      case Threw => w.(updates := w.updates[id := row.(retries := row.retries + 1)])
      case Broke => w.(aborted := true)
  }

  // ---------------------------------------------------------------- one schedule's items

  datatype LogStatus = AllSent | NoneSent | SomeSent

  /** The loop over the items: every one is counted as a success or a failure, and each success makes one job. */
  method ProcessItems(id: int, occurrence: int, items: seq<bool>)
    returns (jobs: seq<Job>, success: nat, fail: nat, status: LogStatus)
    ensures jobs == Jobs(id, occurrence, items, |items|)
    ensures success + fail == |items| && |jobs| == success
    ensures status == AllSent <==> forall i | 0 <= i < |items| :: items[i]
    ensures status == NoneSent <==> items != [] && forall i | 0 <= i < |items| :: !items[i]
  {
    jobs, success, fail := [], 0, 0;
    for i := 0 to |items|
      invariant jobs == Jobs(id, occurrence, items, i) && |jobs| == success && success + fail == i
      invariant fail == 0 <==> forall k | 0 <= k < i :: items[k]
      invariant success == 0 <==> forall k | 0 <= k < i :: !items[k]
    {
      if items[i] {
        jobs := jobs + [Job(id, occurrence, i)];
        success := success + 1;
      } else {
        fail := fail + 1;
      }
    }
    status := if fail == 0 then AllSent else if success == 0 then NoneSent else SomeSent;
  }

  /** A template with its condition, and a recipient's variables; keys and values are already normalized. */
  datatype Template = Template(name: string, key: string, value: string)

  type Variables = map<string, string>

  /** templateMatchesCondition: 2 for a condition met, 0 for none, -1 for one not met. */
  function Score(t: Template, variables: Variables): int {
    if t.key == "" && t.value == "" then 0
    else if t.key in variables && variables[t.key] != "" && variables[t.key] == t.value then 2
    else -1
  }

  /** pickBestTemplate: the first of those that score highest, none if nothing matches. */
  method PickBest(templates: seq<Template>, variables: Variables) returns (best: int)
    ensures best == -1 <==> forall k | 0 <= k < |templates| :: Score(templates[k], variables) < 0
    ensures best != -1 ==>
              && 0 <= best < |templates| && Score(templates[best], variables) >= 0
              && (forall k | 0 <= k < |templates| ::
                  Score(templates[k], variables) <= Score(templates[best], variables))
              && (forall k | 0 <= k < best :: Score(templates[k], variables) < Score(templates[best], variables))
  {
    best := -1;
    var bestScore, i := -1, 0;
    while i < |templates| && bestScore != 2
      invariant 0 <= i <= |templates| && -1 <= best < i && (bestScore == -1 <==> best == -1)
      invariant best != -1 ==> bestScore == Score(templates[best], variables)
      invariant forall k | 0 <= k < i :: Score(templates[k], variables) <= bestScore
      invariant forall k | 0 <= k < best :: Score(templates[k], variables) < bestScore
    {
      var score := Score(templates[i], variables);
      if score > bestScore {
        best, bestScore := i, score;
      }
      i := i + 1;
    }
  }

  // ---------------------------------------------------------------- one tick

  function ProcessAll(rows: map<int, Row>, due: seq<int>, outcomes: seq<Outcome>, now: int, n: nat): Work
    requires n <= |due| == |outcomes| && forall k | 0 <= k < |due| :: due[k] in rows && IsRule(rows[due[k]].rule)
  {
    if n == 0 then Work(map[], [], false)
    else ProcessOne(ProcessAll(rows, due, outcomes, now, n - 1), due[n - 1], rows[due[n - 1]], outcomes[n - 1], now)
  }

  class Poller {
    var rows: map<int, Row>
    var enqueued: multiset<Job>

    constructor (table: map<int, Row>)
      ensures rows == table && enqueued == multiset{}
    {
      rows, enqueued := table, multiset{};
    }

    /** pollTick, with every job enqueued: a COMMIT of an aborted transaction rolls it back without an error, and the
        jobs collected before the failure are enqueued all the same. */
    method Tick(due: seq<int>, outcomes: seq<Outcome>, now: int)
      requires |due| == |outcomes| && forall k | 0 <= k < |due| :: due[k] in rows && IsRule(rows[due[k]].rule)
      modifies this
      ensures var w := ProcessAll(old(rows), due, outcomes, now, |due|);
              && rows == (if w.aborted then old(rows) else old(rows) + w.updates)
              && enqueued == old(enqueued) + multiset(w.jobs)
    {
      var updates: map<int, Row>, jobs: seq<Job>, aborted := map[], [], false;
      for k := 0 to |due|
        invariant rows == old(rows) && enqueued == old(enqueued)
        invariant Work(updates, jobs, aborted) == ProcessAll(rows, due, outcomes, now, k)
      {
        var id, row := due[k], rows[due[k]];
        if !aborted {
          match outcomes[k]
          case FetchFailed => updates := updates[id := Retried(row)];
          case Threw => updates := updates[id := row.(retries := row.retries + 1)];
          case Broke => aborted := true;
          case Ran(items) =>
            var more, success, fail, status := ProcessItems(id, row.next, items);
            updates := updates[id := Advanced(row, now)];
            jobs := jobs + more;
        }
      }
      if !aborted {
        rows := rows + updates;
      }
      enqueued := enqueued + multiset(jobs);
    }
  }
}
