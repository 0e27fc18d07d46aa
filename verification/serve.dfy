/** internal/agent/loop.go and the end of Runner.Run: how a run is judged and what, if anything, is
    reported for it. */
module Serve {
  import opened Protocol
  import opened Endpoint
  import opened SpoolDir
  import opened Client

  /** What cmd.Wait returned: nil, an *ExitError with its code, or another error. */
  datatype WaitResult = ExitedZero | ExitError(code: int) | WaitBroken

  /** An *ExitError stands for an unsuccessful exit, so its code is never 0. */
  predicate PossibleWait(w: WaitResult) {
    w.ExitError? ==> w.code != 0
  }

  /** The run's context: the first cause stays. */
  datatype RunCtx = Live | DeadlineExceeded | Canceled

  datatype Outcome = Outcome(exitCode: int, timedOut: bool, cancelled: bool, truncated: bool)

  /** How Runner.Run comes back: the running report was refused, the script never started, or it
      ran. */
  datatype RunResult = RunningRejected | SpawnFailed(error: string) | Ran(outcome: Outcome)

  /** The switch at the end of Runner.Run. `waited` is None when the grace ran out before cmd.Wait
      returned: waitErr is then still nil. */
  function JudgeRun(deadline: RunCtx, cancelled: bool, waited: Option<WaitResult>, truncated: bool): Outcome {
    if deadline.DeadlineExceeded? then Outcome(-1, true, false, truncated)
    else if cancelled then Outcome(-1, false, true, truncated)
    else match waited
      case Some(ExitError(code)) => Outcome(code, false, false, truncated)
      case Some(WaitBroken) => Outcome(-1, false, false, truncated)
      case _ => Outcome(0, false, false, truncated)
  }

  const KILLED_AFTER_TIMEOUT := "killed after job timeout"
  const CANCEL_OBSERVED := "cooperative cancel observed via heartbeat"

  function TerminalOf(o: Outcome): ResultPayload {
    if o.timedOut then ResultPayload(TimedOut, None, o.truncated, KILLED_AFTER_TIMEOUT)
    else if o.exitCode == 0 then ResultPayload(Succeeded, None, o.truncated, "")
    else ResultPayload(Status.Failed, Some(o.exitCode), o.truncated, "")
  }

  function FailedToStart(error: string): ResultPayload {
    ResultPayload(Status.Failed, None, false, error)
  }

  const CANCELLED := ResultPayload(Status.Cancelled, None, false, CANCEL_OBSERVED)

  /** What `process` reports; None leaves the job to the server. */
  function Decide(r: RunResult, serveDone: bool, jobDone: bool): Option<ResultPayload> {
    match r
    case RunningRejected => None
    case SpawnFailed(e) => Some(FailedToStart(e))
    case Ran(o) =>
      if serveDone then None
      else if jobDone then Some(CANCELLED)
      else Some(TerminalOf(o))
  }

  /** The payload that is due, spelled out. */
  predicate IsDue(p: ResultPayload, r: RunResult, jobDone: bool) {
    match r
    case RunningRejected => false
    case SpawnFailed(e) => p.status.Failed? && p.exitCode == None && !p.truncated && p.error == e
    case Ran(o) =>
      if jobDone then
        && p.status.Cancelled? && p.exitCode == None && !p.truncated
        && p.error == "cooperative cancel observed via heartbeat"
      else if o.timedOut then p.status.TimedOut? && p.exitCode == None && p.truncated == o.truncated
      else if o.exitCode == 0 then
        p.status.Succeeded? && p.exitCode == None && p.truncated == o.truncated && p.error == ""
      else
        p.status.Failed? && p.exitCode == Some(o.exitCode) && p.truncated == o.truncated && p.error == ""
  }

  lemma DecideIs(r: RunResult, serveDone: bool, jobDone: bool)
    ensures var d := Decide(r, serveDone, jobDone);
      && (d.Some? <==> r.SpawnFailed? || (r.Ran? && !serveDone))
      && (d.Some? ==> IsDue(d.value, r, jobDone))
  {
  }

  datatype Job = Job(id: string, token: string)

  class Serve {
    const client: Client
    var wake: bool               // the Wake channel, capacity 1
    var curCancel: Option<nat>   // the running job's cancel function

    constructor (client: Client)
      ensures this.client == client && !wake && curCancel == None
    {
      this.client, wake, curCancel := client, false, None;
    }

    /** The wake callback: a non-blocking send. */
    method HintArrived()
      modifies this`wake
      ensures wake
    {
      if !wake {
        wake := true;
      }
    }

    /** `process` after Runner.Run came back, with the two context readings it takes. */
    method Finish(job: Job, result: RunResult, serveDone: bool, jobDone: bool, now: nat, diskTakes: bool)
      returns (reported: bool)
      modifies client`files, client.wire
      ensures reported <==> result.SpawnFailed? || (result.Ran? && !serveDone)
      ensures !reported ==> client.View() == old(client.View())
      ensures reported ==>
        && |client.wire.attempted| > |old(client.wire.attempted)|
        && client.wire.attempted[|client.wire.attempted| - 1].path == "/api/device/jobs/" + job.id + "/result"
        && client.wire.attempted[|client.wire.attempted| - 1].body.ResultBody?
        && client.wire.attempted[|client.wire.attempted| - 1].body.token == job.token
        && IsDue(client.wire.attempted[|client.wire.attempted| - 1].body.result, result, jobDone)
    {
      match result {
        case RunningRejected => return false;
        case SpawnFailed(e) =>
          ReportTerminal(job, FailedToStart(e), now, diskTakes);
          return true;
        case Ran(outcome) =>
          if serveDone {
            return false;
          }
          if jobDone {
            ReportTerminal(job, CANCELLED, now, diskTakes);
            return true;
          }
          ReportTerminal(job, TerminalOf(outcome), now, diskTakes);
          return true;
      }
    }

    method ReportTerminal(job: Job, payload: ResultPayload, now: nat, diskTakes: bool)
      modifies client`files, client.wire
      ensures |client.wire.attempted| > |old(client.wire.attempted)|
      ensures client.wire.attempted[|client.wire.attempted| - 1] ==
              Request(ResultPath(job.id), ResultBody(job.token, payload))
    {
      ghost var w := client.View();
      ghost var drained := if client.hasSpoolDir then Drained(w, client.maxRetries).0 else w;
      var _ := client.ReportResult(job.id, job.token, payload, now, diskTakes);
      if client.hasSpoolDir {
        DrainOnlyAttempts(w, client.maxRetries);
      }
      OnlyTransientIsRetried(drained.replies, client.maxRetries, false, 0);
    }
  }

  lemma {:induction false} DrainFromOnlyAttempts(w: World, paths: seq<string>, i: nat, maxRetries: int)
    requires i <= |paths|
    ensures w.attempted <= DrainFrom(w, paths, i, maxRetries).0.attempted
    decreases |paths| - i
  {
    if i < |paths| {
      var (w', stop) := DrainOne(w, paths[i], maxRetries);
      assert w.attempted <= w'.attempted;
      if !stop {
        DrainFromOnlyAttempts(w', paths, i + 1, maxRetries);
      }
    }
  }

  lemma DrainOnlyAttempts(w: World, maxRetries: int)
    ensures w.attempted <= Drained(w, maxRetries).0.attempted
  {
    DrainFromOnlyAttempts(w, Listing(JsonNames(w.files)), 0, maxRetries);
  }
}
