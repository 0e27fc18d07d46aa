/** internal/agent/loop.go and Runner.Run under every interleaving of the claim loop with the
    heartbeat, the hint channel, the contexts, the child process and the output pumps. A step is
    what happens between two points where another goroutine's effect can be seen; in particular the
    three context readings that decide a job's fate are three steps. */
module ServeRace {
  import opened Protocol
  import opened Serve

  datatype Running = NotSent | Granted | Refused

  datatype Timer = Off | Armed | Fired

  /** What can be seen of a job from outside: the process starts, the running report goes out and is
      answered, a log batch is handed to PostLogs. */
  datatype Mark = Spawned | RunningReport(ok: bool) | LogBatch

  /** What the code has read for a job at its checks. */
  datatype Readings = Readings(
    waited: Option<WaitResult>,    // what Run got from cmd.Wait
    truncated: bool,               // what the budget said once the pipes were done
    sawRun: RunCtx,                // runCtx.Err() at Run's switch
    sawCancel: bool,               // ctx.Err() at Run's switch
    sawServe: bool,                // serveCtx.Err() after a spawned run returned
    sawJob: bool)                  // jobCtx.Err() after that

  /** One claimed job. */
  datatype JobState = JobState(
    ctxDone: bool,                 // jobCtx
    asked: bool,                   // the heartbeat has cancelled it
    run: RunCtx,                   // runCtx
    spawned: bool,
    child: Option<WaitResult>,     // how the process really ended
    runs: nat,                     // calls of Runner.Run
    running: Running,              // fate of the running report
    pumps: bool,                   // the readers and tickers have been started
    trace: seq<Mark>,
    reports: seq<ResultPayload>,   // calls of ReportResult
    saw: Readings)

  /** Where the claim loop is. From `Setup` on it is inside `process` for the newest job. */
  datatype Pc =
    | Select
    | LeftSelect
    | Claiming
    | Setup
    | Preparing
    | Notifying
    | StartingPumps
    | Waiting
    | Killing
    | Piping
    | CheckDeadline
    | CheckCancel
    | Finished(result: RunResult)
    | CheckJob(outcome: Outcome)
    | Reporting(payload: ResultPayload)
    | Clearing
    | Rearm
    | Stopped

  datatype State = State(
    serveDone: bool,
    wake: bool,
    timer: Timer,
    hints: seq<nat>,               // for each hint, how many claims had been started when it came
    claims: nat,                   // Claim calls started
    pc: Pc,
    current: Option<nat>,          // whose cancel function curCancel is
    heartbeat: Option<nat>,        // the cancel function the heartbeat has picked up
    jobs: seq<JobState>)           // one per claim response that carried a job

  /** What may happen to a job from outside the claim loop: a context is done, the child exits, a pump
      hands over a log batch. */
  datatype Change =
    | JobCtxDone | CancelledByServer | RunCtxDone | RunExpired | ChildExits(how: WaitResult) | PostsLogs

  /** The steps of `process` and the run inside it. */
  datatype Move =
    | StartRun | PrepareFails(error: string) | Spawn | Notified(ok: bool) | StartPumps
    | SeeExit | SeeRunDone | GraceOver | PipesOver(truncated: bool)
    | ReadDeadline | ReadCancel | AfterRun | ReadJob
    | Report | Clear

  datatype Action =
    | Hint | CancelServe | TimerFires
    | Outside(j: nat, c: Change)
    | HeartbeatReads | HeartbeatCancels
    | TakeWake | TakeTimer | SeeDone | StartClaim
    | NoJob(failed: bool) | GotJob
    | Process(m: Move) | Reset

  const FRESH := JobState(
    false, false, Live, false, None, 0, NotSent, false, [], [], Readings(None, false, Live, false, false, false))

  function Cur(s: State): JobState
    requires s.jobs != []
  {
    s.jobs[|s.jobs| - 1]
  }

  function SetCur(s: State, job: JobState): State
    requires s.jobs != []
  {
    s.(jobs := s.jobs[|s.jobs| - 1 := job])
  }

  predicate InProcess(pc: Pc) {
    !(pc.Select? || pc.LeftSelect? || pc.Claiming? || pc.Rearm? || pc.Stopped?)
  }

  predicate Possible(job: JobState, c: Change) {
    match c
    case JobCtxDone => true
    case CancelledByServer => true
    case RunCtxDone => job.ctxDone && job.run.Live?
    case RunExpired => job.run.Live?
    case ChildExits(how) => job.spawned && job.child.None? && PossibleWait(how)
    case PostsLogs => job.pumps
  }

  function Changed(job: JobState, c: Change): JobState {
    match c
    case JobCtxDone => job.(ctxDone := true)
    case CancelledByServer => job.(ctxDone := true, asked := true)
    case RunCtxDone => job.(run := Canceled)
    case RunExpired => job.(run := DeadlineExceeded)
    case ChildExits(how) => job.(child := Some(how))
    case PostsLogs => job.(trace := job.trace + [LogBatch])
  }

  predicate JobEnabled(job: JobState, pc: Pc, m: Move) {
    match m
    case StartRun => pc.Setup?
    case PrepareFails(_) => pc.Preparing?
    case Spawn => pc.Preparing?
    case Notified(_) => pc.Notifying?
    case StartPumps => pc.StartingPumps?
    case SeeExit => (pc.Waiting? || pc.Killing?) && job.child.Some?
    case SeeRunDone => pc.Waiting? && !job.run.Live?
    case GraceOver => pc.Killing?
    case PipesOver(_) => pc.Piping?
    case ReadDeadline => pc.CheckDeadline?
    case ReadCancel => pc.CheckCancel?
    case AfterRun => pc.Finished?
    case ReadJob => pc.CheckJob?
    case Report => pc.Reporting?
    case Clear => pc.Clearing?
  }

  predicate Enabled(s: State, a: Action) {
    match a
    case Hint => true
    case CancelServe => true
    case TimerFires => s.timer.Armed?
    case Outside(j, c) =>
      j < |s.jobs| && Possible(s.jobs[j], c) && (c.JobCtxDone? ==> s.serveDone) && !c.CancelledByServer?
    case HeartbeatReads => true
    case HeartbeatCancels => s.heartbeat.Some?
    case TakeWake => s.pc.Select? && s.wake
    case TakeTimer => s.pc.Select? && s.timer.Fired?
    case SeeDone => s.pc.Select? && s.serveDone
    case StartClaim => s.pc.LeftSelect?
    case NoJob(_) => s.pc.Claiming?
    case GotJob => s.pc.Claiming?
    case Reset => s.pc.Rearm?
    case Process(m) => s.jobs != [] && JobEnabled(Cur(s), s.pc, m)
  }

  function Do(s: State, a: Action): State
    requires Enabled(s, a)
  {
    match a
    // the surroundings
    case Hint => s.(wake := true, hints := s.hints + [s.claims])
    case CancelServe => s.(serveDone := true)
    case TimerFires => s.(timer := Fired)
    case Outside(j, c) => s.(jobs := s.jobs[j := Changed(s.jobs[j], c)])
    case HeartbeatReads => s.(heartbeat := s.current)
    case HeartbeatCancels =>
      var j := s.heartbeat.value;
      s.(heartbeat := None,
         jobs := if j < |s.jobs| then s.jobs[j := Changed(s.jobs[j], CancelledByServer)] else s.jobs)
    // the claim loop
    case TakeWake => s.(wake := false, pc := LeftSelect)
    case TakeTimer => s.(timer := Off, pc := LeftSelect)
    case SeeDone => s.(pc := Stopped)
    case StartClaim => if s.serveDone then s.(pc := Stopped) else s.(pc := Claiming, claims := s.claims + 1)
    case NoJob(failed) => if failed && s.serveDone then s.(pc := Stopped) else s.(pc := Select, timer := Armed)
    case GotJob => s.(pc := Setup, jobs := s.jobs + [FRESH])
    case Reset => s.(pc := Select, timer := Armed)
    // process, and the run inside it
    case Process(m) => DoJob(s, m)
  }

  /** The newest job and the loop's place after a step inside `process`. */
  function JobDo(job: JobState, pc: Pc, serveDone: bool, m: Move): (JobState, Pc)
    requires JobEnabled(job, pc, m)
  {
    match m
    case StartRun => (job.(runs := job.runs + 1), Preparing)
    case PrepareFails(error) => (job, Finished(SpawnFailed(error)))
    case Spawn => (job.(spawned := true, trace := job.trace + [Spawned]), Notifying)
    case Notified(ok) =>
      var told := job.(trace := job.trace + [RunningReport(ok)]);
      if ok then (told.(running := Granted), StartingPumps) else (told.(running := Refused), Finished(RunningRejected))
    case StartPumps => (job.(pumps := true), Waiting)
    case SeeExit => (job.(saw := job.saw.(waited := job.child)), Piping)
    case SeeRunDone => (job, Killing)
    case GraceOver => (job, Piping)
    case PipesOver(truncated) => (job.(saw := job.saw.(truncated := truncated)), CheckDeadline)
    case ReadDeadline => (job.(saw := job.saw.(sawRun := job.run)), CheckCancel)
    case ReadCancel =>
      var o := JudgeRun(job.saw.sawRun, job.ctxDone, job.saw.waited, job.saw.truncated);
      (job.(saw := job.saw.(sawCancel := job.ctxDone)), Finished(Ran(o)))
    case AfterRun =>
      (match pc.result
       case RunningRejected => (job, Clearing)
       case SpawnFailed(error) => (job, Reporting(FailedToStart(error)))
       case Ran(o) => (job.(saw := job.saw.(sawServe := serveDone)), if serveDone then Clearing else CheckJob(o)))
    case ReadJob =>
      (job.(saw := job.saw.(sawJob := job.ctxDone)),
       Reporting(if job.ctxDone then CANCELLED else TerminalOf(pc.outcome)))
    case Report => (job.(reports := job.reports + [pc.payload]), Clearing)
    case Clear => (job.(ctxDone := true), Rearm)
  }

  function DoJob(s: State, m: Move): State
    requires s.jobs != [] && JobEnabled(Cur(s), s.pc, m)
  {
    var (job, pc) := JobDo(Cur(s), s.pc, s.serveDone, m);
    SetCur(s, job).(pc := pc,
                    current := if m.StartRun? then Some(|s.jobs| - 1) else if m.Clear? then None else s.current)
  }

  predicate IsRun(s: State, acts: seq<Action>)
    decreases |acts|
  {
    acts == [] || (Enabled(s, acts[0]) && IsRun(Do(s, acts[0]), acts[1..]))
  }

  function Exec(s: State, acts: seq<Action>): State
    requires IsRun(s, acts)
    decreases |acts|
  {
    if acts == [] then s else Exec(Do(s, acts[0]), acts[1..])
  }

  /** The poll timer is armed, and there is no job yet. */
  const START := State(false, false, Armed, [], 0, Select, None, None, [])

  // ----- what is kept -----

  /** No hint is lost: a token waits, or the loop is on its way to a claim, or one was started since. */
  predicate HintsInv(s: State) {
    && (forall i | 0 <= i < |s.hints| :: s.hints[i] <= s.claims)
    && (s.pc.Stopped? || s.wake || s.pc.LeftSelect? || forall i | 0 <= i < |s.hints| :: s.hints[i] < s.claims)
    && (s.pc.Select? ==> !s.timer.Off?)
  }

  /** The report that the evidence calls for, spelled out. */
  predicate ReportOk(job: JobState, p: ResultPayload) {
    if !job.spawned then p.status.Failed? && p.exitCode == None && !p.truncated
    else if job.saw.sawJob then p.status.Cancelled? && p.exitCode == None && !p.truncated
    else
      && !job.saw.sawCancel && !job.saw.sawServe && p.truncated == job.saw.truncated
      && if job.saw.sawRun.DeadlineExceeded? then p.status.TimedOut? && p.exitCode == None
         else match job.saw.waited
           case Some(ExitedZero) => p.status.Succeeded? && p.exitCode == None
           case Some(ExitError(code)) => p.status.Failed? && p.exitCode == Some(code)
           case Some(WaitBroken) => p.status.Failed? && p.exitCode == Some(-1)
           case None => false
  }

  predicate TraceOk(job: JobState) {
    match job.running
    case NotSent => job.trace == if job.spawned then [Spawned] else []
    case Refused => job.trace == [Spawned, RunningReport(false)]
    case Granted =>
      && [Spawned, RunningReport(true)] <= job.trace
      && forall i | 2 <= i < |job.trace| :: job.trace[i].LogBatch?
  }

  predicate Facts(job: JobState) {
    && (job.pumps ==> job.running.Granted?)
    && (job.running != NotSent ==> job.spawned)
    && (job.child.Some? ==> job.spawned)
    && (job.saw.waited.Some? ==> job.saw.waited == job.child && PossibleWait(job.saw.waited.value))
    && (job.child.Some? ==> PossibleWait(job.child.value))
    && (job.run.Canceled? ==> job.ctxDone)
    && (job.saw.sawRun.Canceled? ==> job.ctxDone)
    && (job.saw.sawCancel ==> job.ctxDone)
  }

  predicate Reported(job: JobState) {
    forall p | p in job.reports :: ReportOk(job, p)
  }

  predicate JobInv(job: JobState) {
    Facts(job) && TraceOk(job) && Reported(job)
  }

  /** Nothing was reported exactly when the running report was refused, or the serve context was
      seen done after a spawned run had returned. */
  predicate Done(job: JobState) {
    && job.runs == 1
    && |job.reports| <= 1
    && (job.spawned ==> !job.running.NotSent?)
    && (job.reports == [] <==> job.running.Refused? || job.saw.sawServe)
    && (job.saw.sawServe ==> job.running.Granted?)
  }

  /** What holds of the newest job while it is in process. */
  predicate AtPc(job: JobState, pc: Pc) {
    match pc
    case Setup => job == FRESH.(ctxDone := job.ctxDone, asked := job.asked, run := job.run)
    case Preparing => Unreported(job) && job.running.NotSent? && !job.spawned
    case Notifying => Unreported(job) && job.running.NotSent? && job.spawned && job.saw.waited.None?
    case StartingPumps => Unreported(job) && job.running.Granted? && job.saw.waited.None?
    case Waiting => Unreported(job) && job.running.Granted? && job.saw.waited.None?
    case Killing => Unreported(job) && job.running.Granted? && !job.run.Live? && job.saw.waited.None?
    case Piping => Unreported(job) && job.running.Granted? && Decidable(job)
    case CheckDeadline => Unreported(job) && job.running.Granted? && Decidable(job)
    case CheckCancel => Unreported(job) && job.running.Granted? && (job.saw.waited.None? ==> !job.saw.sawRun.Live?)
    case Finished(r) =>
      Unreported(job)
      && (r.RunningRejected? ==> job.running.Refused?)
      && (r.SpawnFailed? ==> job.running.NotSent? && !job.spawned)
      && (r.Ran? ==> job.running.Granted? && Judged(job, r.outcome))
    case CheckJob(o) => Unreported(job) && job.running.Granted? && Judged(job, o)
    case Reporting(p) =>
      && job.runs == 1 && job.reports == [] && !job.running.Refused? && !job.saw.sawServe && ReportOk(job, p)
      && (job.spawned ==> !job.running.NotSent?)
    case Clearing => Done(job)
    case _ => true
  }

  predicate Unreported(job: JobState) {
    job.runs == 1 && job.reports == [] && !job.saw.sawServe
  }

  /** cmd.Wait answered, or the run context is done and stays done. */
  predicate Decidable(job: JobState) {
    job.saw.waited.Some? || !job.run.Live?
  }

  predicate Judged(job: JobState, o: Outcome) {
    && o == JudgeRun(job.saw.sawRun, job.saw.sawCancel, job.saw.waited, job.saw.truncated)
    && (job.saw.waited.None? ==> o.timedOut || o.cancelled)
  }

  predicate Inv(s: State) {
    && HintsInv(s)
    && (forall j | 0 <= j < |s.jobs| :: JobInv(s.jobs[j]))
    && (InProcess(s.pc) ==> s.jobs != [])
    && (forall j | 0 <= j < |s.jobs| - (if InProcess(s.pc) then 1 else 0) :: Done(s.jobs[j]))
    && (InProcess(s.pc) ==> AtPc(Cur(s), s.pc))
  }

  // ----- every step keeps it -----

  lemma ChangeKeepsDone(job: JobState, c: Change)
    requires Done(job) && Possible(job, c)
    ensures Done(Changed(job, c))
  {
  }

  lemma ChangeKeepsFacts(job: JobState, c: Change)
    requires Facts(job) && Possible(job, c)
    ensures Facts(Changed(job, c))
  {
  }

  lemma ChangeKeepsTrace(job: JobState, c: Change)
    requires TraceOk(job) && Possible(job, c) && (job.pumps ==> job.running.Granted?)
    requires c.ChildExits? ==> job.spawned
    ensures TraceOk(Changed(job, c))
  {
  }

  lemma ChangeKeepsJob(job: JobState, c: Change)
    requires JobInv(job) && Possible(job, c)
    ensures JobInv(Changed(job, c))
  {
    ChangeKeepsFacts(job, c);
    ChangeKeepsTrace(job, c);
    assert Changed(job, c).reports == job.reports;
    forall p | p in job.reports ensures ReportOk(Changed(job, c), p) {
      ChangeKeepsReport(job, c, p);
    }
  }

  lemma ChangeKeepsReport(job: JobState, c: Change, p: ResultPayload)
    requires Facts(job) && ReportOk(job, p) && Possible(job, c)
    ensures ReportOk(Changed(job, c), p)
  {
  }

  predicate BeforeWaiting(pc: Pc) {
    pc.Setup? || pc.Preparing? || pc.Notifying? || pc.StartingPumps? || pc.Waiting? || pc.Killing?
  }

  lemma ChangeKeepsEarlyPc(job: JobState, c: Change, pc: Pc)
    requires Facts(job) && Possible(job, c) && AtPc(job, pc) && BeforeWaiting(pc)
    ensures AtPc(Changed(job, c), pc)
  {
  }

  lemma ChangeKeepsLatePc(job: JobState, c: Change, pc: Pc)
    requires Facts(job) && Possible(job, c) && AtPc(job, pc) && !BeforeWaiting(pc)
    ensures AtPc(Changed(job, c), pc)
  {
  }

  lemma ChangeKeepsPc(job: JobState, c: Change, pc: Pc)
    requires Facts(job) && Possible(job, c) && AtPc(job, pc)
    ensures AtPc(Changed(job, c), pc)
  {
    if BeforeWaiting(pc) {
      ChangeKeepsEarlyPc(job, c, pc);
    } else {
      ChangeKeepsLatePc(job, c, pc);
    }
  }

  lemma ChangeStep(s: State, j: nat, c: Change)
    requires Inv(s) && j < |s.jobs| && Possible(s.jobs[j], c)
    ensures Inv(s.(jobs := s.jobs[j := Changed(s.jobs[j], c)]))
  {
    ChangeKeepsJob(s.jobs[j], c);
    if Done(s.jobs[j]) {
      ChangeKeepsDone(s.jobs[j], c);
    }
    if InProcess(s.pc) && j == |s.jobs| - 1 {
      ChangeKeepsPc(s.jobs[j], c, s.pc);
    }
  }

  lemma LoopStep(s: State, a: Action)
    requires Inv(s) && Enabled(s, a) && !a.Process? && !a.Outside? && !a.HeartbeatCancels?
    ensures Inv(Do(s, a))
  {
    if a.GotJob? {
      NewJob(s);
    } else if a.Hint? || a.CancelServe? || a.TimerFires? || a.HeartbeatReads? {
      OutsideStep(s, a);
    } else {
      SelectStep(s, a);
    }
  }

  lemma NewJob(s: State)
    requires Inv(s) && Enabled(s, GotJob)
    ensures Inv(Do(s, GotJob))
  {
  }

  lemma OutsideStep(s: State, a: Action)
    requires Inv(s) && Enabled(s, a) && (a.Hint? || a.CancelServe? || a.TimerFires? || a.HeartbeatReads?)
    ensures Inv(Do(s, a))
  {
  }

  lemma SelectStep(s: State, a: Action)
    requires Inv(s) && Enabled(s, a)
    requires a.TakeWake? || a.TakeTimer? || a.SeeDone? || a.StartClaim? || a.NoJob? || a.Reset?
    ensures Inv(Do(s, a))
  {
  }

  predicate Kept(job: JobState, pc: Pc) {
    JobInv(job) && (if InProcess(pc) then AtPc(job, pc) else pc.Rearm? && Done(job))
  }

  lemma RunningStep(job: JobState, pc: Pc, serveDone: bool, m: Move)
    requires JobInv(job) && AtPc(job, pc) && JobEnabled(job, pc, m)
    requires m.SeeExit? || m.SeeRunDone? || m.GraceOver? || m.PipesOver?
    ensures var (job', pc') := JobDo(job, pc, serveDone, m); Kept(job', pc')
  {
    assert job.reports == [];
  }

  lemma StartingStep(job: JobState, pc: Pc, serveDone: bool, m: Move)
    requires JobInv(job) && AtPc(job, pc) && JobEnabled(job, pc, m)
    requires m.StartRun? || m.PrepareFails? || m.StartPumps?
    ensures var (job', pc') := JobDo(job, pc, serveDone, m); Kept(job', pc')
  {
    assert job.reports == [];
  }

  lemma SpawningStep(job: JobState, pc: Pc, serveDone: bool, m: Move)
    requires JobInv(job) && AtPc(job, pc) && JobEnabled(job, pc, m)
    requires m.Spawn? || m.Notified?
    ensures var (job', pc') := JobDo(job, pc, serveDone, m); Kept(job', pc')
  {
    assert job.reports == [];
  }

  lemma ReadingStep(job: JobState, pc: Pc, serveDone: bool, m: Move)
    requires JobInv(job) && AtPc(job, pc) && JobEnabled(job, pc, m)
    requires m.ReadDeadline? || m.ReadCancel?
    ensures var (job', pc') := JobDo(job, pc, serveDone, m); Kept(job', pc')
  {
    assert job.reports == [];
  }

  lemma AfterRunStep(job: JobState, pc: Pc, serveDone: bool)
    requires JobInv(job) && AtPc(job, pc) && JobEnabled(job, pc, AfterRun)
    ensures var (job', pc') := JobDo(job, pc, serveDone, AfterRun); Kept(job', pc')
  {
    assert job.reports == [];
  }

  lemma ReadJobStep(job: JobState, pc: Pc, serveDone: bool)
    requires JobInv(job) && AtPc(job, pc) && JobEnabled(job, pc, ReadJob)
    ensures var (job', pc') := JobDo(job, pc, serveDone, ReadJob); Kept(job', pc')
  {
    assert job.reports == [];
  }

  lemma ReportingStep(job: JobState, pc: Pc, serveDone: bool, m: Move)
    requires JobInv(job) && AtPc(job, pc) && JobEnabled(job, pc, m)
    requires m.Report? || m.Clear?
    ensures var (job', pc') := JobDo(job, pc, serveDone, m); Kept(job', pc')
  {
    var (job', pc') := JobDo(job, pc, serveDone, m);
    forall p | p in job'.reports ensures ReportOk(job', p) {
      assert p in job.reports || (m.Report? && p == pc.payload);
    }
  }

  lemma ReplaceNewest(s: State, job: JobState, pc: Pc, current: Option<nat>)
    requires Inv(s) && InProcess(s.pc)
    requires Kept(job, pc)
    ensures Inv(SetCur(s, job).(pc := pc, current := current))
  {
  }

  lemma InsideProcess(job: JobState, pc: Pc, m: Move)
    requires JobEnabled(job, pc, m)
    ensures InProcess(pc)
  {
  }

  lemma CurStep(job: JobState, pc: Pc, serveDone: bool, m: Move)
    requires JobInv(job) && AtPc(job, pc) && JobEnabled(job, pc, m)
    ensures var (job', pc') := JobDo(job, pc, serveDone, m); Kept(job', pc')
  {
    if m.Report? || m.Clear? {
      ReportingStep(job, pc, serveDone, m);
    } else if m.AfterRun? {
      AfterRunStep(job, pc, serveDone);
    } else if m.ReadJob? {
      ReadJobStep(job, pc, serveDone);
    } else if m.ReadDeadline? || m.ReadCancel? {
      ReadingStep(job, pc, serveDone, m);
    } else if m.SeeExit? || m.SeeRunDone? || m.GraceOver? || m.PipesOver? {
      RunningStep(job, pc, serveDone, m);
    } else if m.Spawn? || m.Notified? {
      SpawningStep(job, pc, serveDone, m);
    } else {
      StartingStep(job, pc, serveDone, m);
    }
  }

  /** The step a job takes through `process` and Runner.Run. */
  lemma JobStep(s: State, m: Move)
    requires Inv(s) && s.jobs != [] && JobEnabled(Cur(s), s.pc, m)
    ensures Inv(DoJob(s, m))
  {
    InsideProcess(Cur(s), s.pc, m);
    assert JobInv(Cur(s)) && AtPc(Cur(s), s.pc);
    var (job, pc) := JobDo(Cur(s), s.pc, s.serveDone, m);
    CurStep(Cur(s), s.pc, s.serveDone, m);
    ReplaceNewest(s, job, pc, DoJob(s, m).current);
  }

  /** The heartbeat's cancel is one more way for a job's context to be done. */
  lemma CancelStep(s: State)
    requires Inv(s) && Enabled(s, HeartbeatCancels)
    ensures Inv(Do(s, HeartbeatCancels))
  {
    var j := s.heartbeat.value;
    if j < |s.jobs| {
      ChangeStep(s, j, CancelledByServer);
    }
  }

  lemma OutsideJobStep(s: State, a: Action)
    requires Inv(s) && Enabled(s, a) && a.Outside?
    ensures Inv(Do(s, a))
  {
    ChangeStep(s, a.j, a.c);
  }

  lemma ProcessStep(s: State, a: Action)
    requires Inv(s) && Enabled(s, a) && a.Process?
    ensures Inv(Do(s, a))
  {
    JobStep(s, a.m);
  }

  lemma Step(s: State, a: Action)
    requires Inv(s) && Enabled(s, a)
    ensures Inv(Do(s, a))
  {
    if a.Process? {
      ProcessStep(s, a);
    } else if a.Outside? {
      OutsideJobStep(s, a);
    } else if a.HeartbeatCancels? {
      CancelStep(s);
    } else {
      LoopStep(s, a);
    }
  }

  lemma {:induction false} Always(s: State, acts: seq<Action>)
    requires Inv(s) && IsRun(s, acts)
    ensures Inv(Exec(s, acts))
    decreases |acts|
  {
    if acts != [] {
      Step(s, acts[0]);
      Always(Do(s, acts[0]), acts[1..]);
    }
  }

  // ----- the theorems -----

  /** Each claimed job gets exactly one Runner.Run and at most one ReportResult; once `process` is
      through with it, it went unreported exactly when its running report was refused or the serve
      context was seen done after its spawned run had returned. */
  lemma EachJobOnce(acts: seq<Action>, j: nat)
    requires IsRun(START, acts) && j < |Exec(START, acts).jobs|
    ensures var e := Exec(START, acts); var job := e.jobs[j];
      var past := j < |e.jobs| - 1 || !InProcess(e.pc);
      && job.runs <= 1 && |job.reports| <= 1
      && (past ==> job.runs == 1)
      && (past ==> (job.reports == [] <==> job.running.Refused? || (job.spawned && job.saw.sawServe)))
  {
    Always(START, acts);
    var e := Exec(START, acts);
    assert JobInv(e.jobs[j]);
  }

  /** No log batch is posted before the running report was accepted, the running report goes out right
      after the spawn and never twice, and once `process` is through with a spawned job it went out. */
  lemma LogsFollowRunning(acts: seq<Action>, j: nat)
    requires IsRun(START, acts) && j < |Exec(START, acts).jobs|
    ensures var e := Exec(START, acts); var job := e.jobs[j];
      && (forall i | 0 <= i < |job.trace| && job.trace[i].LogBatch? :: RunningReport(true) in job.trace[..i])
      && (forall i | 0 <= i < |job.trace| && job.trace[i].RunningReport? ::
            i > 0 && job.trace[i - 1] == Spawned && forall k | 0 <= k < i :: !job.trace[k].RunningReport?)
      && ((j < |e.jobs| - 1 || !InProcess(e.pc)) && job.spawned ==>
            exists ok :: RunningReport(ok) in job.trace)
  {
    Always(START, acts);
    var e := Exec(START, acts);
    var job := e.jobs[j];
    assert JobInv(job);
    TraceTells(job);
    if job.running.Refused? {
      assert job.trace[1] == RunningReport(false);
    } else if job.running.Granted? {
      assert job.trace[1] == RunningReport(true);
    }
  }

  lemma TraceTells(job: JobState)
    requires TraceOk(job)
    ensures forall i | 0 <= i < |job.trace| && job.trace[i].LogBatch? :: RunningReport(true) in job.trace[..i]
    ensures forall i | 0 <= i < |job.trace| && job.trace[i].RunningReport? :: i == 1 && job.trace[0] == Spawned
  {
    forall i | 0 <= i < |job.trace| && job.trace[i].LogBatch? ensures RunningReport(true) in job.trace[..i] {
      assert job.trace[..i][1] == RunningReport(true);
    }
  }

  /** What a report says is exactly what was seen. For a job that was never spawned it is `failed`
      without a code. Otherwise it is `cancelled` exactly when the job's context was done at the last
      check; failing that, `timeout` exactly when the deadline had passed at Run's check; failing that,
      cmd.Wait has really returned, and it is `succeeded` without a code exactly when it returned nil,
      and `failed` with its exit code (-1 for an error that is no exit) in every other case. */
  lemma ReportIsExact(acts: seq<Action>, j: nat, p: ResultPayload)
    requires IsRun(START, acts) && j < |Exec(START, acts).jobs| && p in Exec(START, acts).jobs[j].reports
    ensures var job := Exec(START, acts).jobs[j];
      var clear := job.spawned && !job.saw.sawJob && !job.saw.sawRun.DeadlineExceeded?;
      && (!job.spawned ==> p.status.Failed? && p.exitCode == None)
      && (job.spawned ==> (p.status.Cancelled? <==> job.saw.sawJob))
      && (job.spawned && !job.saw.sawJob ==> (p.status.TimedOut? <==> job.saw.sawRun.DeadlineExceeded?))
      && (p.status.Succeeded? <==> clear && job.saw.waited == Some(ExitedZero))
      && (forall code :: p.status.Failed? && p.exitCode == Some(code) <==>
            clear && (job.saw.waited == Some(ExitError(code)) || (job.saw.waited == Some(WaitBroken) && code == -1)))
      && (p.exitCode.Some? ==> p.status.Failed?)
      && (clear ==> job.saw.waited.Some? && job.saw.waited == job.child)
      && p.truncated == (job.spawned && !job.saw.sawJob && job.saw.truncated)
  {
    Always(START, acts);
    var job := Exec(START, acts).jobs[j];
    assert JobInv(job);
    assert ReportOk(job, p);
  }

  /** In particular a report of success rests on the child really having exited with 0, with the deadline
      not passed and no context cancelled at any of the checks; so running out of grace with no answer
      from cmd.Wait never turns into exit code 0. An exit code is never 0. */
  lemma SuccessIsReal(acts: seq<Action>, j: nat, p: ResultPayload)
    requires IsRun(START, acts) && j < |Exec(START, acts).jobs| && p in Exec(START, acts).jobs[j].reports
    ensures var job := Exec(START, acts).jobs[j];
      && (p.status.Succeeded? ==>
            && job.child == Some(ExitedZero) && job.saw.waited == Some(ExitedZero)
            && !job.saw.sawRun.DeadlineExceeded? && !job.saw.sawCancel && !job.saw.sawServe && !job.saw.sawJob)
      && (p.exitCode.Some? ==> p.status.Failed? && p.exitCode.value != 0)
      && (job.saw.waited.None? ==> !p.status.Succeeded?)
  {
    Always(START, acts);
    var job := Exec(START, acts).jobs[j];
    assert JobInv(job);
    assert ReportOk(job, p);
  }

  /** A job's context is done, while it is in process, only because the heartbeat cancelled the job or
      the serve context is done; and a cancelled job's context is done. */
  predicate CancelInv(s: State) {
    && (forall j | 0 <= j < |s.jobs| :: s.jobs[j].asked ==> s.jobs[j].ctxDone)
    && (forall j | 0 <= j < |s.jobs| && s.jobs[j].saw.sawJob :: s.jobs[j].asked || s.serveDone)
    && (InProcess(s.pc) && s.jobs != [] && Cur(s).ctxDone ==> Cur(s).asked || s.serveDone)
  }

  /** What a step inside `process` does to a job's context. */
  predicate ContextKept(job: JobState, job': JobState, m: Move) {
    && job'.asked == job.asked
    && (job'.ctxDone <==> job.ctxDone || m.Clear?)
    && (job'.saw.sawJob ==> job.saw.sawJob || job.ctxDone)
  }

  lemma ContextAtStart(job: JobState, pc: Pc, serveDone: bool, m: Move)
    requires JobEnabled(job, pc, m)
    requires m.StartRun? || m.PrepareFails? || m.Spawn? || m.Notified? || m.StartPumps?
    ensures ContextKept(job, JobDo(job, pc, serveDone, m).0, m)
  {
  }

  lemma ContextAtExit(job: JobState, pc: Pc, serveDone: bool, m: Move)
    requires JobEnabled(job, pc, m)
    requires m.SeeExit? || m.SeeRunDone? || m.GraceOver? || m.PipesOver? || m.ReadDeadline? || m.ReadCancel?
    ensures ContextKept(job, JobDo(job, pc, serveDone, m).0, m)
  {
  }

  lemma ContextAtEnd(job: JobState, pc: Pc, serveDone: bool, m: Move)
    requires JobEnabled(job, pc, m) && (m.AfterRun? || m.ReadJob? || m.Report? || m.Clear?)
    ensures ContextKept(job, JobDo(job, pc, serveDone, m).0, m)
    ensures m.Clear? ==> !InProcess(JobDo(job, pc, serveDone, m).1)
  {
  }

  lemma ContextInProcess(job: JobState, pc: Pc, serveDone: bool, m: Move)
    requires JobEnabled(job, pc, m)
    ensures ContextKept(job, JobDo(job, pc, serveDone, m).0, m)
    ensures m.Clear? ==> !InProcess(JobDo(job, pc, serveDone, m).1)
  {
    if m.AfterRun? || m.ReadJob? || m.Report? || m.Clear? {
      ContextAtEnd(job, pc, serveDone, m);
    } else if m.StartRun? || m.PrepareFails? || m.Spawn? || m.Notified? || m.StartPumps? {
      ContextAtStart(job, pc, serveDone, m);
    } else {
      ContextAtExit(job, pc, serveDone, m);
    }
  }

  lemma CancelJobStep(s: State, m: Move)
    requires CancelInv(s) && s.jobs != [] && JobEnabled(Cur(s), s.pc, m)
    ensures CancelInv(DoJob(s, m))
  {
    InsideProcess(Cur(s), s.pc, m);
    ContextInProcess(Cur(s), s.pc, s.serveDone, m);
    var (job, pc) := JobDo(Cur(s), s.pc, s.serveDone, m);
    assert DoJob(s, m).jobs == s.jobs[|s.jobs| - 1 := job];
  }

  lemma CancelChangeStep(s: State, j: nat, c: Change)
    requires CancelInv(s) && j < |s.jobs| && (c.JobCtxDone? ==> s.serveDone)
    ensures CancelInv(s.(jobs := s.jobs[j := Changed(s.jobs[j], c)]))
  {
  }

  lemma CancelLoopStep(s: State, a: Action)
    requires CancelInv(s) && Enabled(s, a) && !a.Process? && !a.Outside? && !a.HeartbeatCancels?
    ensures CancelInv(Do(s, a))
  {
    assert a.GotJob? || Do(s, a).jobs == s.jobs;
  }

  lemma CancelInvStep(s: State, a: Action)
    requires CancelInv(s) && Enabled(s, a)
    ensures CancelInv(Do(s, a))
  {
    if a.Process? {
      CancelJobStep(s, a.m);
    } else if a.Outside? {
      CancelChangeStep(s, a.j, a.c);
    } else if a.HeartbeatCancels? {
      if s.heartbeat.value < |s.jobs| { CancelChangeStep(s, s.heartbeat.value, CancelledByServer); }
    } else {
      CancelLoopStep(s, a);
    }
  }

  lemma {:induction false} CancelAlways(s: State, acts: seq<Action>)
    requires CancelInv(s) && IsRun(s, acts)
    ensures CancelInv(Exec(s, acts))
    decreases |acts|
  {
    if acts != [] {
      CancelInvStep(s, acts[0]);
      CancelAlways(Do(s, acts[0]), acts[1..]);
    }
  }

  /** `cancelled` is reported only for a job that the heartbeat cancelled, unless the serve context was
      done by then as well; and a job that is cancelled before the last check is reported as nothing else. */
  lemma CancelIsObserved(acts: seq<Action>, j: nat, p: ResultPayload)
    requires IsRun(START, acts) && j < |Exec(START, acts).jobs|
    ensures var e := Exec(START, acts); var job := e.jobs[j];
      && (p in job.reports && p.status.Cancelled? ==> job.asked || e.serveDone)
      && (job.asked ==> job.ctxDone)
      && (job.asked && j == |e.jobs| - 1 && e.pc.CheckJob? ==>
            Do(e, Process(ReadJob)).pc ==
            Reporting(ResultPayload(Status.Cancelled, None, false, "cooperative cancel observed via heartbeat")))
  {
    Always(START, acts);
    CancelAlways(START, acts);
    if p in Exec(START, acts).jobs[j].reports && p.status.Cancelled? {
      CancelledWasSeen(Exec(START, acts), j, p);
    }
  }

  lemma CancelledWasSeen(s: State, j: nat, p: ResultPayload)
    requires Inv(s) && j < |s.jobs| && p in s.jobs[j].reports && p.status.Cancelled?
    ensures s.jobs[j].saw.sawJob
  {
    assert JobInv(s.jobs[j]);
    assert ReportOk(s.jobs[j], p);
  }

  /** Before shutdown no hint is lost: a wake token waits, or the loop has left its select and not
      started its claim, or a claim started after the hint. And the loop never sits in its select
      without an armed or fired poll timer. */
  lemma NoHintIsLost(acts: seq<Action>, i: nat)
    requires IsRun(START, acts) && !Exec(START, acts).pc.Stopped? && i < |Exec(START, acts).hints|
    ensures var e := Exec(START, acts);
      && (e.wake || e.pc.LeftSelect? || e.hints[i] < e.claims)
      && (e.pc.Select? ==> e.timer.Armed? || e.timer.Fired?)
  {
    Always(START, acts);
  }

  // ----- Serve.Finish is the uninterrupted case -----

  /** With nothing in between, the checks of `process` come to what Decide says. */
  lemma UninterruptedFinish(job: JobState, result: RunResult, serveDone: bool)
    ensures var (job1, pc1) := JobDo(job, Finished(result), serveDone, AfterRun);
      var pc := if pc1.CheckJob? then JobDo(job1, pc1, serveDone, ReadJob).1 else pc1;
      var decided := Decide(result, serveDone, job.ctxDone);
      pc == if decided.Some? then Reporting(decided.value) else Clearing
  {
  }
}
