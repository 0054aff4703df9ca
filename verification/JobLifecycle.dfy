/** A channel job from its first attempt to its last (src/workers/base.worker.js), and what the terminal
    transactions of all of a notification's jobs make of its status. */
module JobLifecycle {
  import opened QuotaLedger
  import opened QuotaStore

  // ---------------------------------------------------------------- the status of a notification

  function Succeeded(s: NotificationStatus): NotificationStatus {
    match s
    case Pending => Delivered
    case Failed => Partial
    case _ => s
  }

  function Lost(s: NotificationStatus): NotificationStatus {
    if s != Delivered then Failed else s
  }

  /** The sweep's update of a notification whose reservation it released while it was still pending. */
  function Orphaned(s: NotificationStatus): NotificationStatus {
    if s == Pending then Failed else s
  }

  /** What reaches the status: a job's success, a job's terminal failure, a sweep. */
  datatype Terminal = Success | Failure | Orphan

  function Updated(s: NotificationStatus, t: Terminal): NotificationStatus {
    match t
    case Success => Succeeded(s)
    case Failure => Lost(s)
    case Orphan => Orphaned(s)
  }

  function StatusAfter(events: seq<Terminal>): NotificationStatus {
    if events == [] then Pending else Updated(StatusAfter(events[..|events| - 1]), events[|events| - 1])
  }

  /** The last event that was not a sweep's, or the first event if all were. */
  function LastReport(events: seq<Terminal>): Terminal
    requires events != []
  {
    var last := events[|events| - 1];
    if |events| == 1 || last != Orphan then last else LastReport(events[..|events| - 1])
  }

  /** The status over whole runs: pending before the first event, delivered for ever if that is a success, and
      otherwise decided by the last report. */
  lemma {:induction false} StatusOverRuns(events: seq<Terminal>)
    ensures StatusAfter(events) == Pending <==> events == []
    ensures StatusAfter(events) == Delivered <==> events != [] && events[0] == Success
    ensures StatusAfter(events) == Partial <==> events != [] && events[0] != Success && LastReport(events) == Success
    ensures StatusAfter(events) == Failed <==> events != [] && events[0] != Success && LastReport(events) != Success
  {
    if events != [] {
      StatusOverRuns(events[..|events| - 1]);
    }
  }

  /** A sweep reaches exactly the notifications of the orphans it releases. */
  lemma SweepIsOrphan(notifications: map<string, NotificationStatus>, orphans: seq<RowId>, n: string)
    requires n in notifications
    ensures n in FailOrphans(notifications, orphans)
    ensures FailOrphans(notifications, orphans)[n]
            == if exists k :: 0 <= k < |orphans| && orphans[k].notification == n then Updated(notifications[n], Orphan)
                else notifications[n]
  {
  }

  // ---------------------------------------------------------------- one job

  /** How an attempt goes: sent, refused for good, failed for now, or thrown out of (a provider or a transaction
      that rolled back). */
  datatype Outcome = Sent | Refused | Transient | Thrown

  predicate Final(o: Outcome) {
    o == Sent || o == Refused
  }

  datatype LogStatus = LogSent | LogFailed | LogPermanentlyFailed

  datatype Log = Log(notification: string, status: LogStatus, attempt: nat)

  function AttemptLogs(n: string, o: Outcome, attempt: nat): seq<Log> {
    match o
    case Sent => [Log(n, LogSent, attempt)]
    case Thrown => []
    case _ => [Log(n, LogFailed, attempt)]
  }

  function JobLogs(n: string, outcomes: seq<Outcome>, made: nat): seq<Log>
    requires made <= |outcomes|
  {
    if made == 0 then [] else JobLogs(n, outcomes, made - 1) + AttemptLogs(n, outcomes[made - 1], made)
  }

  function WithStatus(notifications: map<string, NotificationStatus>, n: string,
                      t: Terminal): map<string, NotificationStatus> {
    if n in notifications then notifications[n := Updated(notifications[n], t)] else notifications
  }

  class ChannelWorker {
    const channel: string
    const retries: nat
    const store: Store
    var logs: seq<Log>

    constructor (channel: string, retries: nat, store: Store)
      ensures this.channel == channel && this.retries == retries && this.store == store && logs == []
    {
      this.channel, this.retries, this.store, logs := channel, retries, store, [];
    }

    /** The transaction that ends a job: log, status and reservation together. */
    method Finish(n: string, log: Log, t: Terminal, outcome: Status)
      modifies this, store
      ensures logs == old(logs) + [log]
      ensures store.notifications == WithStatus(old(store.notifications), n, t)
      ensures store.Contents() == SettledOne(old(store.Contents()), RowId(n, channel), outcome)
    {
      logs := logs + [log];
      if n in store.notifications {
        store.notifications := store.notifications[n := Updated(store.notifications[n], t)];
      }
      SettleIs(store.Contents(), RowId(n, channel), outcome);
      store.SettleOnClient(RowId(n, channel), outcome);
    }

    /** The job handler: whether it throws, which makes the queue try again. */
    method Handle(n: string, made: nat, o: Outcome) returns (threw: bool)
      modifies this, store
      ensures threw <==> !Final(o)
      ensures logs == old(logs) + AttemptLogs(n, o, made + 1)
      ensures threw ==> store.notifications == old(store.notifications) && store.Contents() == old(store.Contents())
      ensures o == Sent ==>
                && store.notifications == WithStatus(old(store.notifications), n, Success)
                && store.Contents() == SettledOne(old(store.Contents()), RowId(n, channel), Consumed)
      ensures o == Refused ==>
                && store.notifications == WithStatus(old(store.notifications), n, Failure)
                && store.Contents() == SettledOne(old(store.Contents()), RowId(n, channel), Released)
    {
      match o
      case Sent =>
        Finish(n, Log(n, LogSent, made + 1), Success, Consumed);
        threw := false;
      case Refused =>
        Finish(n, Log(n, LogFailed, made + 1), Failure, Released);
        threw := false;
      case Transient =>
        logs := logs + [Log(n, LogFailed, made + 1)];
        threw := true;
      case Thrown =>
        threw := true;
    }

    /** The queue's attempts, until one does not throw or all are used up. */
    method Attempts(n: string, outcomes: seq<Outcome>) returns (made: nat, threw: bool, ghost seen: seq<Ledger>)
      requires |outcomes| > retries
      modifies this, store
      ensures 1 <= made <= retries + 1 && (threw <==> !Final(outcomes[made - 1])) && (threw ==> made == retries + 1)
      ensures forall k | 0 <= k < made - 1 :: !Final(outcomes[k])
      ensures |seen| == made && forall k | 0 <= k < made :: seen[k] == old(store.Contents())
      ensures threw ==> store.Contents() == old(store.Contents()) && store.notifications == old(store.notifications)
      ensures outcomes[made - 1] == Sent ==>
                && store.Contents() == SettledOne(old(store.Contents()), RowId(n, channel), Consumed)
                && store.notifications == WithStatus(old(store.notifications), n, Success)
      ensures outcomes[made - 1] == Refused ==>
                && store.Contents() == SettledOne(old(store.Contents()), RowId(n, channel), Released)
                && store.notifications == WithStatus(old(store.notifications), n, Failure)
      ensures logs == old(logs) + JobLogs(n, outcomes, made)
    {
      made, seen, threw := 0, [], true;
      while threw && made < retries + 1
        invariant made <= retries + 1 && |seen| == made
        invariant forall k | 0 <= k < made :: seen[k] == old(store.Contents())
        invariant forall k | 0 <= k < made - 1 :: !Final(outcomes[k])
        invariant made == 0 ==> threw
        invariant made > 0 ==> (threw <==> !Final(outcomes[made - 1]))
        invariant threw ==> store.Contents() == old(store.Contents()) && store.notifications == old(store.notifications)
        invariant !threw && outcomes[made - 1] == Sent ==>
                    && store.Contents() == SettledOne(old(store.Contents()), RowId(n, channel), Consumed)
                    && store.notifications == WithStatus(old(store.notifications), n, Success)
        invariant !threw && outcomes[made - 1] == Refused ==>
                    && store.Contents() == SettledOne(old(store.Contents()), RowId(n, channel), Released)
                    && store.notifications == WithStatus(old(store.notifications), n, Failure)
        invariant logs == old(logs) + JobLogs(n, outcomes, made)
        decreases retries + 1 - made
      {
        seen := seen + [store.Contents()];
        threw := Handle(n, made, outcomes[made]);
        made := made + 1;
      }
    }

    /** The queue's run of a job: attempts until one does not throw or all are used up, then the handler of the last
        failure, whose transaction commits if `settles`. `seen` is the ledger before each attempt. */
    method RunJob(n: string, outcomes: seq<Outcome>, settles: bool) returns (made: nat, ghost seen: seq<Ledger>)
      requires |outcomes| > retries
      modifies this, store
      ensures 1 <= made <= retries + 1 && (made <= retries ==> Final(outcomes[made - 1]))
      ensures forall k | 0 <= k < made - 1 :: !Final(outcomes[k])
      ensures |seen| == made && forall k | 0 <= k < made :: seen[k] == old(store.Contents())
      ensures outcomes[made - 1] == Sent ==>
                && store.Contents() == SettledOne(old(store.Contents()), RowId(n, channel), Consumed)
                && store.notifications == WithStatus(old(store.notifications), n, Success)
      ensures outcomes[made - 1] == Refused || (!Final(outcomes[made - 1]) && settles) ==>
                && store.Contents() == SettledOne(old(store.Contents()), RowId(n, channel), Released)
                && store.notifications == WithStatus(old(store.notifications), n, Failure)
      ensures !Final(outcomes[made - 1]) && !settles ==>
                store.Contents() == old(store.Contents()) && store.notifications == old(store.notifications)
      ensures logs == old(logs) + JobLogs(n, outcomes, made)
                      + if Final(outcomes[made - 1]) || !settles then [] else [Log(n, LogPermanentlyFailed, made)]
    {
      var threw;
      made, threw, seen := Attempts(n, outcomes);
      if threw && settles {
        Finish(n, Log(n, LogPermanentlyFailed, made), Failure, Released);
      }
    }

    /** The reservation of a job: reserved before every attempt, and once the job stops consumed exactly if the last
        attempt was sent, released otherwise. */
    method RunReservedJob(n: string, outcomes: seq<Outcome>) returns (made: nat, ghost seen: seq<Ledger>)
      requires |outcomes| > retries
      requires RowId(n, channel) in store.rows && store.rows[RowId(n, channel)].status == Reserved
      modifies this, store
      ensures 1 <= made <= retries + 1 && |seen| == made
      ensures forall k | 0 <= k < made ::
              RowId(n, channel) in seen[k].rows && seen[k].rows[RowId(n, channel)].status == Reserved
      ensures RowId(n, channel) in store.rows
      ensures store.rows[RowId(n, channel)].status == if outcomes[made - 1] == Sent then Consumed else Released
    {
      made, seen := RunJob(n, outcomes, true);
    }
  }
}
