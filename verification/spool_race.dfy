/** The spool of internal/agent/client.go under every interleaving: any number of goroutines post,
    spool, drain and drop at once (log batches of two streams, the drain inside ReportResult, the
    drain of the heartbeat), and nothing but single file operations is atomic. Payloads are
    numbered in the order they are handed to PostLogs or ReportResult. */
module SpoolRace {
  import opened Text
  import opened Protocol
  import opened Endpoint
  import opened SpoolDir
  import C = Client

  /** As in module Client, a file can be unreadable, or readable and of no use; otherwise it holds the
      payload of that number. */
  datatype Content = Junk | Misfit(job: string) | Holds(id: nat)

  datatype File = File(content: Content, mtime: int)

  /** A drain under way: its listing, the next entry, the payloads that had been spooled when it
      listed the directory, and the result ReportResult goes on to post afterwards. */
  datatype Drain = Drain(paths: seq<string>, i: nat, before: set<nat>, next: Option<nat>)

  /** What a goroutine does next. */
  datatype Phase =
    | Idle
    | PostLogs(id: nat)
    | PostResult(id: nat)
    | Spooling(id: nat)
    | ListDir(next: Option<nat>)
    | Reading(d: Drain)
    | Sending(d: Drain, id: nat)
    | Removing(d: Drain)
    | DropList(job: string)
    | DropReading(job: string, paths: seq<string>, i: nat)
    | DropRemoving(job: string, paths: seq<string>, i: nat)

  datatype State = State(
    now: int,
    items: seq<C.SpoolRecord>,    // every payload so far
    name: map<nat, string>,       // the file each spooled payload was written to
    files: map<string, File>,     // the directory
    used: set<string>,            // every name that was ever in the directory
    stamps: set<nat>,             // the clock readings behind those names
    acked: set<nat>,              // answered 2xx
    refused: set<nat>,            // answered with a permanent rejection
    fenced: set<string>,          // jobs whose directly posted result was fenced
    swept: set<nat>,              // removed by the retention sweep
    dropped: set<nat>,            // removed because their job's result was fenced
    spoolErrors: set<nat>,        // the spool write failed and the caller was told
    threads: seq<Phase>)

  datatype Action =
    | Tick(elapsed: nat)
    | SubmitLogs(t: nat, job: string, body: Payload)
    | SubmitResult(t: nat, job: string, body: Payload)
    | StartDrain(t: nat)
    | Answer(t: nat, result: PostResult)
    | WriteFile(t: nat, stamp: nat)
    | WriteFails(t: nat)
    | List(t: nat)
    | Read(t: nat)
    | Remove(t: nat)
    | Sweep(f: string)

  function JsonNames(s: State): set<string> {
    set f | f in s.files && IsJson(f)
  }

  function AfterDrain(next: Option<nat>): Phase {
    if next.Some? then PostResult(next.value) else Idle
  }

  ghost predicate Enabled(s: State, a: Action) {
    match a
    case Tick(_) => true
    case Sweep(f) => f in s.files && s.files[f].mtime < s.now - C.SPOOL_FILE_TTL
    case SubmitLogs(t, _, _) => t < |s.threads| && s.threads[t].Idle?
    case SubmitResult(t, _, _) => t < |s.threads| && s.threads[t].Idle?
    case StartDrain(t) => t < |s.threads| && s.threads[t].Idle?
    case Answer(t, _) =>
      t < |s.threads| && (s.threads[t].PostLogs? || s.threads[t].PostResult? || s.threads[t].Sending?)
    case WriteFile(t, stamp) =>
      // the clock does not repeat
      t < |s.threads| && s.threads[t].Spooling? && s.threads[t].id < |s.items| && stamp !in s.stamps
    case WriteFails(t) => t < |s.threads| && s.threads[t].Spooling?
    case List(t) => t < |s.threads| && (s.threads[t].ListDir? || s.threads[t].DropList?)
    case Read(t) => t < |s.threads| && (s.threads[t].Reading? || s.threads[t].DropReading?)
    case Remove(t) => t < |s.threads| && (s.threads[t].Removing? || s.threads[t].DropRemoving?)
  }

  function FileName(s: State, id: nat, stamp: nat): string
    requires id < |s.items|
  {
    SpoolName(s.items[id].kind, s.items[id].job, stamp)
  }

  function Go(s: State, t: nat, p: Phase): State
    requires t < |s.threads|
  {
    s.(threads := s.threads[t := p])
  }

  ghost function Do(s: State, a: Action): State
    requires Enabled(s, a)
  {
    match a
    case Tick(elapsed) => s.(now := s.now + elapsed)
    case Sweep(f) =>
      s.(files := s.files - {f}, swept := s.swept + HeldBy(s, f))
    case SubmitLogs(t, job, body) =>
      Go(s, t, PostLogs(|s.items|)).(items := s.items + [C.SpoolRecord(Logs, job, body)])
    case SubmitResult(t, job, body) =>
      // ReportResult drains first
      Go(s, t, ListDir(Some(|s.items|))).(items := s.items + [C.SpoolRecord(Result, job, body)])
    case StartDrain(t) => Go(s, t, ListDir(None))
    case Answer(t, result) => DoAnswer(s, t, result)
    case WriteFile(t, stamp) =>
      var id := s.threads[t].id;
      var f := FileName(s, id, stamp);
      Go(s, t, Idle).(name := s.name[id := f], used := s.used + {f}, stamps := s.stamps + {stamp},
                      files := s.files[f := File(Holds(id), s.now)])
    case WriteFails(t) => Go(s, t, Idle).(spoolErrors := s.spoolErrors + {s.threads[t].id})
    case List(t) =>
      if s.threads[t].ListDir? then
        Go(s, t, Reading(Drain(Listing(JsonNames(s)), 0, s.name.Keys, s.threads[t].next)))
      else Go(s, t, DropReading(s.threads[t].job, Listing(JsonNames(s)), 0))
    case Read(t) => if s.threads[t].Reading? then DoRead(s, t) else DoDropRead(s, t)
    case Remove(t) => DoRemove(s, t)
  }

  function DoAnswer(s: State, t: nat, result: PostResult): State
    requires t < |s.threads| && (s.threads[t].PostLogs? || s.threads[t].PostResult? || s.threads[t].Sending?)
  {
    var p := s.threads[t];
    match (if p.PostLogs? then LogsVerdict(result) else ResultVerdict(result))
    case Accepted => Go(s, t, if p.Sending? then Removing(p.d) else Idle).(acked := s.acked + {p.id})
    case Refused => Go(s, t, if p.Sending? then Removing(p.d) else Idle).(refused := s.refused + {p.id})
    case Fenced =>
      if p.Sending? then Go(s, t, Removing(p.d)).(refused := s.refused + {p.id})
      else if p.id < |s.items| then
        Go(s, t, DropList(s.items[p.id].job)).(refused := s.refused + {p.id}, fenced := s.fenced + {s.items[p.id].job})
      else s
    case Keep => Go(s, t, if p.Sending? then AfterDrain(p.d.next) else Spooling(p.id))
  }

  function DoRead(s: State, t: nat): State
    requires t < |s.threads| && s.threads[t].Reading?
  {
    var d := s.threads[t].d;
    if d.i >= |d.paths| then Go(s, t, AfterDrain(d.next))
    else if d.paths[d.i] !in s.files || !s.files[d.paths[d.i]].content.Holds? then Go(s, t, Removing(d))
    else Go(s, t, Sending(d, s.files[d.paths[d.i]].content.id))
  }

  predicate OfJob(s: State, content: Content, job: string) {
    match content
    case Junk => false
    case Misfit(j) => j == job
    case Holds(id) => id < |s.items| && s.items[id].job == job
  }

  function DoDropRead(s: State, t: nat): State
    requires t < |s.threads| && s.threads[t].DropReading?
  {
    var DropReading(job, paths, i) := s.threads[t];
    if i >= |paths| then Go(s, t, Idle)
    else if paths[i] in s.files && OfJob(s, s.files[paths[i]].content, job)
    then Go(s, t, DropRemoving(job, paths, i))
    else Go(s, t, DropReading(job, paths, i + 1))
  }

  function DoRemove(s: State, t: nat): State
    requires t < |s.threads| && (s.threads[t].Removing? || s.threads[t].DropRemoving?)
  {
    var p := s.threads[t];
    if p.Removing? then
      if p.d.i < |p.d.paths| then Go(s, t, Reading(p.d.(i := p.d.i + 1))).(files := s.files - {p.d.paths[p.d.i]})
      else s
    else
      if p.i < |p.paths| then
        Go(s, t, DropReading(p.job, p.paths, p.i + 1))
          .(files := s.files - {p.paths[p.i]}, dropped := s.dropped + HeldBy(s, p.paths[p.i]))
      else s
  }

  /** The payload a file holds, if any. */
  function HeldBy(s: State, f: string): set<nat> {
    if f in s.files && s.files[f].content.Holds? then {s.files[f].content.id} else {}
  }

  // ----- runs -----

  ghost predicate IsRun(s: State, run: seq<Action>)
    decreases |run|
  {
    run == [] || (Enabled(s, run[0]) && IsRun(Do(s, run[0]), run[1..]))
  }

  ghost function Exec(s: State, run: seq<Action>): State
    requires IsRun(s, run)
    decreases |run|
  {
    if run == [] then s else Exec(Do(s, run[0]), run[1..])
  }

  /** A process starts with whatever an earlier one left in the directory. */
  ghost predicate Init(s: State) {
    && (forall t | 0 <= t < |s.threads| :: s.threads[t].Idle?)
    && s.acked == s.refused == s.swept == s.dropped == s.spoolErrors == {} && s.fenced == {}
    && s.used == s.files.Keys
    && Directory(s) && Clock(s)
    && (forall id: nat | id < |s.items| :: id in s.name)
    && (forall id | id in s.name :: InSpool(s, id))
  }

  /** The record of what happened to a payload. */
  predicate Settled(s: State, id: nat) {
    id in s.acked || id in s.refused || id in s.swept || id in s.dropped
  }

  predicate InSpool(s: State, id: nat) {
    id in s.name && s.name[id] in s.files && s.files[s.name[id]].content == Holds(id)
  }

  ghost predicate Named(f: string, item: C.SpoolRecord) {
    exists stamp :: f == SpoolName(item.kind, item.job, stamp)
  }

  ghost predicate Directory(s: State) {
    Names(s) && Contents(s)
  }

  /** Each spooled payload has a name of its own. */
  ghost predicate Names(s: State) {
    && (forall id | id in s.name :: id < |s.items| && s.name[id] in s.used && Named(s.name[id], s.items[id]))
    && (forall id, id' | id in s.name && id' in s.name && s.name[id] == s.name[id'] :: id == id')
    && s.files.Keys <= s.used
  }

  /** A file holds the payload it is named after, and it is gone once that was swept or dropped. */
  ghost predicate Contents(s: State) {
    && (forall f | f in s.files && s.files[f].content.Holds? ::
          s.files[f].content.id in s.name && s.name[s.files[f].content.id] == f)
    && (forall id | id in s.name && s.name[id] in s.files :: s.files[s.name[id]].content == Holds(id))
    && (forall id | id in s.swept || id in s.dropped :: id in s.name && s.name[id] !in s.files)
  }

  /** Every clock reading in a name is on record. */
  ghost predicate Clock(s: State) {
    forall kind, job, stamp :: SpoolName(kind, job, stamp) in s.used ==> stamp in s.stamps
  }

  /** A spooled record is in the spool until its fate is on record. */
  predicate Known(s: State) {
    forall id | id in s.name :: Settled(s, id) || InSpool(s, id)
  }

  /** Only records of fenced jobs are dropped. */
  predicate Drops(s: State) {
    forall id | id in s.dropped :: id < |s.items| && s.items[id].job in s.fenced
  }

  ghost predicate DrainInv(s: State, d: Drain) {
    && d.i <= |d.paths|
    && Sorted(d.paths)
    && (forall f | f in d.paths :: f in s.used)
    && (forall id | id in d.before :: id in s.name && (Settled(s, id) || s.name[id] in d.paths[d.i..]))
    && (d.next.Some? ==> d.next.value < |s.items|)
  }

  ghost predicate PhaseInv(s: State, p: Phase) {
    match p
    case Idle => true
    case PostLogs(id) => id < |s.items|
    case PostResult(id) => id < |s.items|
    case Spooling(id) => id < |s.items|
    case ListDir(next) => next.Some? ==> next.value < |s.items|
    case Reading(d) => DrainInv(s, d)
    case Sending(d, id) => DrainInv(s, d) && d.i < |d.paths| && id in s.name && s.name[id] == d.paths[d.i]
    case Removing(d) => DrainInv(s, d) && d.i < |d.paths| && SafeToRemove(s, d.paths[d.i])
    case DropList(job) => job in s.fenced
    case DropReading(job, paths, i) => job in s.fenced && i <= |paths| && forall f | f in paths :: f in s.used
    case DropRemoving(job, paths, i) =>
      job in s.fenced && i < |paths| && (forall f | f in paths :: f in s.used) && BelongsTo(s, paths[i], job)
  }

  /** Whatever the file may still hold is of that job. */
  ghost predicate BelongsTo(s: State, f: string, job: string) {
    f in s.used && forall id | id in s.name && s.name[id] == f :: id < |s.items| && s.items[id].job == job
  }

  /** Whatever the file may still hold is settled. */
  ghost predicate SafeToRemove(s: State, f: string) {
    f in s.used && forall id | id in s.name && s.name[id] == f :: Settled(s, id)
  }

  /** The payload whose PostLogs or ReportResult call the goroutine is in, until its fate is decided. */
  function Carried(p: Phase): Option<nat> {
    match p
    case PostLogs(id) => Some(id)
    case PostResult(id) => Some(id)
    case Spooling(id) => Some(id)
    case ListDir(next) => next
    case Reading(d) => d.next
    case Sending(d, _) => d.next
    case Removing(d) => d.next
    case _ => None
  }

  ghost predicate InFlight(s: State, id: nat) {
    exists t :: 0 <= t < |s.threads| && Carried(s.threads[t]) == Some(id)
  }

  ghost predicate Accounted(s: State, id: nat) {
    id in s.name || id in s.acked || id in s.refused || id in s.spoolErrors || InFlight(s, id)
  }

  /** No payload is in two calls at once, and none is in a call after it was spooled. */
  ghost predicate Exclusive(s: State) {
    && (forall t, u | 0 <= t < u < |s.threads| && Carried(s.threads[t]).Some? ::
          Carried(s.threads[t]) != Carried(s.threads[u]))
    && (forall t | 0 <= t < |s.threads| && Carried(s.threads[t]).Some? ::
          Carried(s.threads[t]).value < |s.items| && Carried(s.threads[t]).value !in s.name)
  }

  ghost predicate Inv(s: State) {
    && Directory(s)
    && Clock(s)
    && Drops(s)
    && Exclusive(s)
    && Known(s)
    && (forall t | 0 <= t < |s.threads| :: PhaseInv(s, s.threads[t]))
    && (forall id: nat | id < |s.items| :: Accounted(s, id))
  }

  /** How a step may change the state others rely on. */
  ghost predicate Grows(s: State, s': State) {
    && s.items <= s'.items
    && s.used <= s'.used
    && s.acked <= s'.acked && s.refused <= s'.refused && s.swept <= s'.swept
    && s.dropped <= s'.dropped && s.fenced <= s'.fenced
    && s.spoolErrors <= s'.spoolErrors
    && (forall id | id in s.name :: id in s'.name && s'.name[id] == s.name[id])
    && (forall id | id in s'.name && id !in s.name :: s'.name[id] !in s.used)
  }

  lemma GrowsKeepsPhase(s: State, s': State, p: Phase)
    requires Grows(s, s') && PhaseInv(s, p)
    ensures PhaseInv(s', p)
  {
  }

  /** The step of thread `t` hands its payload on, lets go of it, or takes up a new one. */
  ghost predicate HandsOver(s: State, s': State, t: nat)
    requires t < |s.threads| == |s'.threads|
  {
    var was, after := Carried(s.threads[t]), Carried(s'.threads[t]);
    && (forall u | 0 <= u < |s.threads| && u != t :: s'.threads[u] == s.threads[u])
    && (after == None || after == was || (was == None && after == Some(|s.items|) && |s.items| < |s'.items|))
    && (forall id | id in s'.name :: id in s.name || (was == Some(id) && after == None))
    && (was.Some? && after == None ==>
          was.value in s'.name || was.value in s'.acked || was.value in s'.refused || was.value in s'.spoolErrors)
    && (forall id: nat | |s.items| <= id < |s'.items| :: after == Some(id))
  }

  /** Threads other than `t` are where they were, and what they rely on still holds. */
  lemma StepOf(s: State, s': State, t: nat)
    requires Inv(s) && Grows(s, s') && t < |s.threads| == |s'.threads|
    requires HandsOver(s, s', t)
    requires PhaseInv(s', s'.threads[t])
    requires Directory(s') && Clock(s') && Drops(s')
    requires Known(s')
    ensures Inv(s')
  {
    forall u | 0 <= u < |s'.threads| ensures PhaseInv(s', s'.threads[u]) {
      if u != t { GrowsKeepsPhase(s, s', s.threads[u]); }
    }
    forall id: nat | id < |s'.items| ensures Accounted(s', id) {
      if id < |s.items| {
        assert Accounted(s, id);
        if InFlight(s, id) {
          var u :| 0 <= u < |s.threads| && Carried(s.threads[u]) == Some(id);
          assert u != t ==> Carried(s'.threads[u]) == Some(id);
        }
      } else {
        assert Carried(s'.threads[t]) == Some(id);
      }
    }
  }

  // ----- every step keeps the invariant -----

  /** A step of `t` that leaves the directory alone. */
  lemma QuietStep(s: State, s': State, t: nat)
    requires Inv(s) && Grows(s, s') && t < |s.threads| == |s'.threads|
    requires s'.files == s.files && s'.name == s.name && s'.used == s.used && s'.stamps == s.stamps
    requires s'.swept == s.swept && s'.dropped == s.dropped
    requires HandsOver(s, s', t)
    requires PhaseInv(s', s'.threads[t])
    ensures Inv(s')
  {
    StepOf(s, s', t);
  }

  lemma StepSubmit(s: State, a: Action)
    requires Inv(s) && Enabled(s, a) && (a.SubmitLogs? || a.SubmitResult? || a.StartDrain?)
    ensures Inv(Do(s, a))
  {
    QuietStep(s, Do(s, a), a.t);
  }

  lemma StepAnswerToLogs(s: State, t: nat, result: PostResult)
    requires Inv(s) && t < |s.threads| && s.threads[t].PostLogs?
    ensures Inv(DoAnswer(s, t, result))
  {
    var id := s.threads[t].id;
    assert PhaseInv(s, s.threads[t]);
    match LogsVerdict(result)
    case Accepted => QuietStep(s, Go(s, t, Idle).(acked := s.acked + {id}), t);
    case Refused => QuietStep(s, Go(s, t, Idle).(refused := s.refused + {id}), t);
    case Keep => QuietStep(s, Go(s, t, Spooling(id)), t);
  }

  /** The server fenced the job: its result is refused, its spooled records may go. */
  lemma FencedResult(s: State, t: nat)
    requires Inv(s) && t < |s.threads| && s.threads[t].PostResult? && s.threads[t].id < |s.items|
    ensures var id, job := s.threads[t].id, s.items[s.threads[t].id].job;
      Inv(Go(s, t, DropList(job)).(refused := s.refused + {id}, fenced := s.fenced + {job}))
  {
    var id, job := s.threads[t].id, s.items[s.threads[t].id].job;
    QuietStep(s, Go(s, t, DropList(job)).(refused := s.refused + {id}, fenced := s.fenced + {job}), t);
  }

  lemma StepAnswerToResult(s: State, t: nat, result: PostResult)
    requires Inv(s) && t < |s.threads| && s.threads[t].PostResult?
    ensures Inv(DoAnswer(s, t, result))
  {
    var id := s.threads[t].id;
    assert PhaseInv(s, s.threads[t]);
    match ResultVerdict(result)
    case Accepted => QuietStep(s, Go(s, t, Idle).(acked := s.acked + {id}), t);
    case Refused => QuietStep(s, Go(s, t, Idle).(refused := s.refused + {id}), t);
    case Fenced => FencedResult(s, t);
    case Keep => QuietStep(s, Go(s, t, Spooling(id)), t);
  }

  /** The server has decided about the record, so its file may go. */
  lemma DrainSettles(s: State, s': State, t: nat)
    requires Inv(s) && t < |s.threads| && s.threads[t].Sending?
    requires s.acked <= s'.acked && s.refused <= s'.refused
    requires s.threads[t].id in s'.acked || s.threads[t].id in s'.refused
    requires s' == Go(s, t, Removing(s.threads[t].d)).(acked := s'.acked, refused := s'.refused)
    ensures Inv(s')
  {
    var p := s.threads[t];
    assert PhaseInv(s, p);
    GrowsKeepsPhase(s, s', Reading(p.d));
    assert SafeToRemove(s', p.d.paths[p.d.i]) by {
      assert p.d.paths[p.d.i] in p.d.paths;
      forall x | x in s'.name && s'.name[x] == p.d.paths[p.d.i] ensures Settled(s', x) {
        assert x == p.id;
      }
    }
    QuietStep(s, s', t);
  }

  lemma StepAnswerToDrain(s: State, t: nat, result: PostResult)
    requires Inv(s) && t < |s.threads| && s.threads[t].Sending?
    ensures Inv(DoAnswer(s, t, result))
  {
    if ResultVerdict(result).Keep? {
      assert PhaseInv(s, s.threads[t]);
      QuietStep(s, Go(s, t, AfterDrain(s.threads[t].d.next)), t);
    } else {
      DrainSettles(s, DoAnswer(s, t, result), t);
    }
  }

  lemma WrittenDirectory(s: State, s': State, id: nat, f: string)
    requires Directory(s) && Known(s)
    requires id < |s.items| && id !in s.name && f !in s.used && Named(f, s.items[id])
    requires s' == s.(name := s.name[id := f], used := s.used + {f}, stamps := s'.stamps,
                      files := s.files[f := File(Holds(id), s.now)], threads := s'.threads)
    ensures Directory(s') && Known(s')
  {
    WrittenNames(s, s', id, f);
    WrittenContents(s, s', id, f);
    StaysInSpool(s, s', id, f);
  }

  lemma WrittenNames(s: State, s': State, id: nat, f: string)
    requires Names(s)
    requires id < |s.items| && id !in s.name && f !in s.used && Named(f, s.items[id])
    requires s'.items == s.items && s'.name == s.name[id := f] && s'.used == s.used + {f}
    requires s'.files.Keys == s.files.Keys + {f}
    ensures Names(s')
  {
  }

  lemma WrittenContents(s: State, s': State, id: nat, f: string)
    requires Directory(s) && id !in s.name && f !in s.used
    requires s'.name == s.name[id := f] && s'.files == s.files[f := File(Holds(id), s.now)]
    requires s'.swept == s.swept && s'.dropped == s.dropped
    ensures Contents(s')
  {
  }

  /** Writing a new file leaves the others alone. */
  lemma StaysInSpool(s: State, s': State, id: nat, f: string)
    requires Directory(s) && id !in s.name && f !in s.used
    requires s'.name == s.name[id := f] && s'.files == s.files[f := File(Holds(id), s.now)]
    ensures forall x | InSpool(s, x) :: InSpool(s', x)
    ensures InSpool(s', id)
  {
  }

  /** A reading of the clock that was not taken before makes a name that was not there before. */
  lemma FreshName(s: State, id: nat, stamp: nat)
    requires Clock(s) && id < |s.items| && stamp !in s.stamps
    ensures FileName(s, id, stamp) !in s.used
    ensures Clock(s.(used := s.used + {FileName(s, id, stamp)}, stamps := s.stamps + {stamp}))
  {
    var f := FileName(s, id, stamp);
    forall kind, job, x | SpoolName(kind, job, x) in s.used + {f} ensures x in s.stamps + {stamp} {
      if SpoolName(kind, job, x) == f {
        SpoolNameInjective(kind, job, x, s.items[id].kind, s.items[id].job, stamp);
      }
    }
  }

  lemma StepWrite(s: State, t: nat, stamp: nat)
    requires Inv(s) && Enabled(s, WriteFile(t, stamp))
    ensures Inv(Do(s, WriteFile(t, stamp)))
  {
    var s' := Do(s, WriteFile(t, stamp));
    var id := s.threads[t].id;
    var f := FileName(s, id, stamp);
    assert PhaseInv(s, s.threads[t]) && Carried(s.threads[t]) == Some(id);
    assert Named(f, s.items[id]);
    FreshName(s, id, stamp);
    WrittenDirectory(s, s', id, f);
    StepOf(s, s', t);
  }

  lemma StepWriteFails(s: State, t: nat)
    requires Inv(s) && Enabled(s, WriteFails(t))
    ensures Inv(Do(s, WriteFails(t)))
  {
    QuietStep(s, Do(s, WriteFails(t)), t);
  }

  lemma NamedIsJson(f: string, item: C.SpoolRecord)
    requires Named(f, item)
    ensures IsJson(f) && f[0] == (if item.kind.Logs? then 'l' else 'r')
  {
    var stamp :| f == SpoolName(item.kind, item.job, stamp);
    SpoolNameIsJson(item.kind, item.job, stamp);
  }

  lemma StepList(s: State, a: Action)
    requires Inv(s) && Enabled(s, a) && a.List?
    ensures Inv(Do(s, a))
  {
    var p := s.threads[a.t];
    assert PhaseInv(s, p);
    var paths := Listing(JsonNames(s));
    assert paths[0..] == paths;
    forall id | id in s.name ensures Settled(s, id) || s.name[id] in paths {
      if InSpool(s, id) { NamedIsJson(s.name[id], s.items[id]); }
    }
    QuietStep(s, Do(s, a), a.t);
  }

  lemma StepRead(s: State, t: nat)
    requires Inv(s) && t < |s.threads| && s.threads[t].Reading?
    ensures Inv(DoRead(s, t))
  {
    assert PhaseInv(s, s.threads[t]);
    var d := s.threads[t].d;
    if d.i < |d.paths| && (d.paths[d.i] !in s.files || !s.files[d.paths[d.i]].content.Holds?) {
      assert d.paths[d.i] in d.paths;
      forall id | id in s.name && s.name[id] == d.paths[d.i] ensures Settled(s, id) {
        assert !InSpool(s, id);
      }
    }
    QuietStep(s, DoRead(s, t), t);
  }

  lemma StepDropRead(s: State, t: nat)
    requires Inv(s) && t < |s.threads| && s.threads[t].DropReading?
    ensures Inv(DoDropRead(s, t))
  {
    var p := s.threads[t];
    assert PhaseInv(s, p);
    if p.i < |p.paths| {
      assert p.paths[p.i] in p.paths;
      if p.paths[p.i] in s.files && OfJob(s, s.files[p.paths[p.i]].content, p.job) {
        assert BelongsTo(s, p.paths[p.i], p.job);
      }
    }
    QuietStep(s, DoDropRead(s, t), t);
  }

  /** What the drain has walked past is settled. */
  lemma Advance(s: State, d: Drain)
    requires DrainInv(s, d) && d.i < |d.paths| && SafeToRemove(s, d.paths[d.i])
    ensures DrainInv(s, d.(i := d.i + 1))
  {
    assert d.paths[d.i..] == [d.paths[d.i]] + d.paths[d.i + 1..];
  }

  /** A file taken out of the directory takes with it the payload it held, if any, and no other. */
  lemma FileGone(s: State, s': State, f: string)
    requires Directory(s)
    requires s'.items == s.items && s'.name == s.name && s'.used == s.used && s'.files == s.files - {f}
    requires s'.swept <= s.swept + HeldBy(s, f) && s'.dropped <= s.dropped + HeldBy(s, f)
    ensures Directory(s')
    ensures forall id | InSpool(s, id) :: InSpool(s', id) || (id in HeldBy(s, f) && s.name[id] == f)
  {
  }

  lemma RemovedFile(s: State, s': State, f: string)
    requires Directory(s) && Known(s) && SafeToRemove(s, f)
    requires s' == s.(files := s.files - {f}, threads := s'.threads)
    ensures Directory(s') && Known(s')
  {
    FileGone(s, s', f);
  }

  /** A file that a drop removes takes its payload with it, and a fence of that payload's job is behind
      that. */
  lemma DroppedFile(s: State, s': State, f: string, job: string)
    requires Directory(s) && Known(s) && Drops(s) && BelongsTo(s, f, job) && job in s.fenced
    requires s' == s.(files := s.files - {f}, dropped := s.dropped + HeldBy(s, f), threads := s'.threads)
    ensures Directory(s') && Known(s') && Drops(s')
  {
    FileGone(s, s', f);
  }

  lemma StepDrainRemove(s: State, t: nat)
    requires Inv(s) && t < |s.threads| && s.threads[t].Removing?
    ensures Inv(DoRemove(s, t))
  {
    var d := s.threads[t].d;
    assert PhaseInv(s, s.threads[t]);
    var s' := DoRemove(s, t);
    RemovedFile(s, s', d.paths[d.i]);
    Advance(s, d);
    GrowsKeepsPhase(s, s', Reading(d.(i := d.i + 1)));
    StepOf(s, s', t);
  }

  lemma StepDropRemove(s: State, t: nat)
    requires Inv(s) && t < |s.threads| && s.threads[t].DropRemoving?
    ensures Inv(DoRemove(s, t))
  {
    var p := s.threads[t];
    assert PhaseInv(s, p);
    DroppedFile(s, DoRemove(s, t), p.paths[p.i], p.job);
    StepOf(s, DoRemove(s, t), t);
  }

  lemma AllPhasesKeep(s: State, s': State)
    requires Inv(s) && Grows(s, s') && s'.threads == s.threads && s'.items == s.items
    ensures forall u | 0 <= u < |s'.threads| :: PhaseInv(s', s'.threads[u])
    ensures s'.name == s.name ==> forall id: nat | id < |s'.items| :: Accounted(s', id)
  {
    forall u | 0 <= u < |s'.threads| ensures PhaseInv(s', s'.threads[u]) {
      GrowsKeepsPhase(s, s', s.threads[u]);
    }
    if s'.name == s.name {
      forall id: nat | id < |s'.items| ensures Accounted(s', id) {
        assert Accounted(s, id);
        if InFlight(s, id) {
          var u :| 0 <= u < |s.threads| && Carried(s.threads[u]) == Some(id);
          assert Carried(s'.threads[u]) == Some(id);
        }
      }
    }
  }

  lemma SweptDirectory(s: State, s': State, f: string)
    requires Directory(s) && Known(s) && f in s.files
    requires s' == s.(files := s.files - {f}, swept := s.swept + HeldBy(s, f))
    ensures Directory(s') && Known(s')
  {
    FileGone(s, s', f);
  }

  lemma StepSweep(s: State, a: Action)
    requires Inv(s) && Enabled(s, a) && (a.Sweep? || a.Tick?)
    ensures Inv(Do(s, a))
  {
    var s' := Do(s, a);
    AllPhasesKeep(s, s');
    if a.Sweep? {
      SweptDirectory(s, s', a.f);
    }
  }

  lemma Step(s: State, a: Action)
    requires Inv(s) && Enabled(s, a)
    ensures Inv(Do(s, a))
  {
    match a
    case Tick(_) => StepSweep(s, a);
    case Sweep(_) => StepSweep(s, a);
    case SubmitLogs(_, _, _) => StepSubmit(s, a);
    case SubmitResult(_, _, _) => StepSubmit(s, a);
    case StartDrain(_) => StepSubmit(s, a);
    case Answer(t, result) =>
      if s.threads[t].Sending? {
        StepAnswerToDrain(s, t, result);
      } else if s.threads[t].PostLogs? {
        StepAnswerToLogs(s, t, result);
      } else {
        StepAnswerToResult(s, t, result);
      }
    case WriteFile(t, stamp) => StepWrite(s, t, stamp);
    case WriteFails(t) => StepWriteFails(s, t);
    case List(_) => StepList(s, a);
    case Read(t) => if s.threads[t].Reading? { StepRead(s, t); } else { StepDropRead(s, t); }
    case Remove(t) => if s.threads[t].Removing? { StepDrainRemove(s, t); } else { StepDropRemove(s, t); }
  }

  lemma {:induction false} Always(s: State, run: seq<Action>)
    requires Inv(s) && IsRun(s, run)
    ensures Inv(Exec(s, run))
    decreases |run|
  {
    if run != [] {
      Step(s, run[0]);
      Always(Do(s, run[0]), run[1..]);
    }
  }

  lemma Reachable(s: State, run: seq<Action>)
    requires Init(s) && IsRun(s, run)
    ensures Inv(Exec(s, run))
  {
    Always(s, run);
  }

  // ----- the theorems -----

  /** Whatever the interleaving, a drain goes by name: when it posts a record, every record that was
      spooled before the drain listed the directory, and whose file comes first, has already been
      acknowledged, permanently rejected, swept, or dropped for a fence of its own job. */
  lemma DrainGoesByName(s: State, run: seq<Action>, t: nat, id: nat)
    requires Init(s) && IsRun(s, run)
    requires var e := Exec(s, run);
      && t < |e.threads| && e.threads[t].Sending? && e.threads[t].id in e.name
      && id in e.threads[t].d.before && id in e.name
      && Less(e.name[id], e.name[e.threads[t].id])
    ensures Settled(Exec(s, run), id)
  {
    Reachable(s, run);
    var e := Exec(s, run);
    var d := e.threads[t].d;
    assert PhaseInv(e, e.threads[t]);
    NothingBefore(d.paths, d.i, e.name[id]);
  }

  /** From the i-th name on, a sorted listing holds no smaller name. */
  lemma NothingBefore(paths: seq<string>, i: nat, f: string)
    requires Sorted(paths) && i < |paths| && Less(f, paths[i])
    ensures f !in paths[i..]
  {
    LessTotal(f, f);
    forall k | 0 <= k < |paths[i..]| ensures paths[i..][k] != f {
      if k > 0 { assert !Less(paths[i + k], paths[i]); }
    }
  }

  /** So when a drain posts a spooled result, every log record spooled before the drain listed the
      directory, be it of this job or another, is settled. */
  lemma LogsSettleBeforeSpooledResult(s: State, run: seq<Action>, t: nat, id: nat)
    requires Init(s) && IsRun(s, run)
    requires var e := Exec(s, run);
      && t < |e.threads| && e.threads[t].Sending? && e.threads[t].id < |e.items|
      && e.items[e.threads[t].id].kind.Result?
      && id in e.threads[t].d.before && id < |e.items| && e.items[id].kind.Logs?
    ensures var e := Exec(s, run);
      id in e.acked || id in e.refused || id in e.swept || (id in e.dropped && e.items[id].job in e.fenced)
  {
    Reachable(s, run);
    var e := Exec(s, run);
    var result := e.threads[t].id;
    assert PhaseInv(e, e.threads[t]);
    var t1 :| e.name[id] == SpoolName(e.items[id].kind, e.items[id].job, t1);
    var t2 :| e.name[result] == SpoolName(e.items[result].kind, e.items[result].job, t2);
    LogsBeforeResults(e.items[id].job, t1, e.items[result].job, t2);
    DrainGoesByName(s, run, t, id);
  }

  /** And within one job and kind a drain goes in creation order: when it posts a record, those
      spooled under an earlier clock reading of the same width are settled. */
  lemma DrainGoesInCreationOrder(s: State, run: seq<Action>, t: nat, id: nat, t1: nat, t2: nat)
    requires Init(s) && IsRun(s, run)
    requires var e := Exec(s, run);
      && t < |e.threads| && e.threads[t].Sending? && id in e.threads[t].d.before
      && id in e.name && e.threads[t].id in e.name && id < |e.items| && e.threads[t].id < |e.items|
      && e.items[id].kind == e.items[e.threads[t].id].kind && e.items[id].job == e.items[e.threads[t].id].job
      && e.name[id] == FileName(e, id, t1) && e.name[e.threads[t].id] == FileName(e, e.threads[t].id, t2)
      && t1 < t2 && |Dec(t1)| == |Dec(t2)|
    ensures Settled(Exec(s, run), id)
  {
    var e := Exec(s, run);
    NameOrder(e.items[id].kind, e.items[id].job, t1, e.items[id].kind, e.items[id].job, t2);
    DrainGoesByName(s, run, t, id);
  }

  /** When the drain inside ReportResult gets to the end of its listing, which it does unless a
      transient failure stops it, everything that was spooled before it listed the directory is settled
      before the result is posted. */
  lemma OwnDrainSettlesSpool(s: State, run: seq<Action>, t: nat, id: nat)
    requires Init(s) && IsRun(s, run)
    requires var e := Exec(s, run);
      && t < |e.threads| && e.threads[t].Reading? && e.threads[t].d.i >= |e.threads[t].d.paths|
      && e.threads[t].d.next.Some? && id in e.threads[t].d.before
    ensures var e := Exec(s, run);
      Settled(e, id) && Do(e, Read(t)).threads[t] == PostResult(e.threads[t].d.next.value)
  {
    Reachable(s, run);
    assert PhaseInv(Exec(s, run), Exec(s, run).threads[t]);
  }

  /** No payload is lost: each one ever handed to PostLogs or ReportResult is still in its call, or
      its caller was told that spooling failed, or the server acknowledged or permanently rejected
      it, or it is in the spool, unless the sweep took it out, or a drop did after a fence of its job. */
  lemma NothingIsLost(s: State, run: seq<Action>, id: nat)
    requires Init(s) && IsRun(s, run) && id < |Exec(s, run).items|
    ensures var e := Exec(s, run);
      || InFlight(e, id) || id in e.spoolErrors || InSpool(e, id)
      || id in e.acked || id in e.refused || id in e.swept || (id in e.dropped && e.items[id].job in e.fenced)
  {
    Reachable(s, run);
    assert Accounted(Exec(s, run), id);
  }

  /** A spooled record that is no longer in the directory was acknowledged, permanently rejected,
      swept, or dropped for a fence of its own job. */
  lemma SpooledLeavesOnlySettled(s: State, run: seq<Action>, id: nat)
    requires Init(s) && IsRun(s, run) && id in Exec(s, run).name && !InSpool(Exec(s, run), id)
    ensures var e := Exec(s, run);
      || id in e.acked || id in e.refused || id in e.swept
      || (id in e.dropped && id < |e.items| && e.items[id].job in e.fenced)
  {
    Reachable(s, run);
  }

  /** The step that takes a record out of the directory is the sweep, past the retention window; or a
      drain's, and the server has acknowledged or permanently rejected the record; or a drop's, and the
      record is of the job whose result was fenced. */
  lemma RecordLeavesFor(s: State, run: seq<Action>, a: Action, id: nat)
    requires Init(s) && IsRun(s, run) && Enabled(Exec(s, run), a)
    requires InSpool(Exec(s, run), id) && !InSpool(Do(Exec(s, run), a), id)
    ensures var e := Exec(s, run);
      match a
      case Sweep(f) => f == e.name[id] && e.files[f].mtime < e.now - 604_800_000_000_000
      case Remove(t) =>
        if e.threads[t].Removing? then id in e.acked || id in e.refused
        else id < |e.items| && e.items[id].job == e.threads[t].job && e.items[id].job in e.fenced
      case _ => false
  {
    Reachable(s, run);
    var e := Exec(s, run);
    match a
    case Sweep(f) => FileGone(e, Do(e, a), f);
    case Remove(t) => if e.threads[t].Removing? { DrainTakes(e, t, id); } else { DropTakes(e, t, id); }
    case WriteFile(t, stamp) => WriteTakesNothing(e, t, stamp, id);
    case _ => FilesStay(e, a);
  }

  lemma DrainTakes(s: State, t: nat, id: nat)
    requires Inv(s) && t < |s.threads| && s.threads[t].Removing?
    requires InSpool(s, id) && !InSpool(DoRemove(s, t), id)
    ensures id in s.acked || id in s.refused
  {
    var d := s.threads[t].d;
    assert PhaseInv(s, s.threads[t]);
    FileGone(s, DoRemove(s, t), d.paths[d.i]);
    assert s.name[id] == d.paths[d.i];
  }

  lemma DropTakes(s: State, t: nat, id: nat)
    requires Inv(s) && t < |s.threads| && s.threads[t].DropRemoving?
    requires InSpool(s, id) && !InSpool(DoRemove(s, t), id)
    ensures id < |s.items| && s.items[id].job == s.threads[t].job && s.items[id].job in s.fenced
  {
    var p := s.threads[t];
    assert PhaseInv(s, p);
    FileGone(s, DoRemove(s, t), p.paths[p.i]);
    assert s.name[id] == p.paths[p.i];
  }

  lemma WriteTakesNothing(s: State, t: nat, stamp: nat, id: nat)
    requires Inv(s) && Enabled(s, WriteFile(t, stamp)) && InSpool(s, id)
    ensures InSpool(Do(s, WriteFile(t, stamp)), id)
  {
    var written := s.threads[t].id;
    assert Carried(s.threads[t]) == Some(written);
    FreshName(s, written, stamp);
    StaysInSpool(s, Do(s, WriteFile(t, stamp)), written, FileName(s, written, stamp));
  }

  lemma FilesStay(s: State, a: Action)
    requires Enabled(s, a) && !a.Sweep? && !a.Remove? && !a.WriteFile?
    ensures Do(s, a).files == s.files && Do(s, a).name == s.name
  {
  }

  // ----- Client.DrainSpool is the uninterrupted case -----

  predicate SameContent(s: State, content: Content, other: C.Content) {
    match content
    case Junk => other.Junk?
    case Misfit(job) => other == C.Misfit(job)
    case Holds(id) => id < |s.items| && other == C.Stored(s.items[id])
  }

  /** The two models agree on which files there are and what is in them. */
  ghost predicate SameFiles(s: State, w: C.World) {
    && s.files.Keys == w.files.Keys
    && forall f | f in s.files :: SameContent(s, s.files[f].content, w.files[f].content)
  }

  /** One turn of the drain loop with nobody in between; `result` is what the post comes to. */
  ghost function DrainTurn(s: State, t: nat, result: PostResult): State
    requires t < |s.threads| && s.threads[t].Reading?
  {
    var s1 := DoRead(s, t);
    var s2 := if s1.threads[t].Sending? then DoAnswer(s1, t, result) else s1;
    if s2.threads[t].Removing? then DoRemove(s2, t) else s2
  }

  /** Alone, a draining goroutine does what one turn of DrainSpool's loop does: the same files stay,
      the same record is posted, the verdict is put down for that record, and it stops when the loop
      stops. */
  lemma UninterruptedDrain(s: State, t: nat, w: C.World, maxRetries: int)
    requires t < |s.threads| && s.threads[t].Reading? && s.threads[t].d.i < |s.threads[t].d.paths|
    requires SameFiles(s, w)
    ensures var d := s.threads[t].d;
      var run := PostRun(w.replies, maxRetries, false);
      var s' := DrainTurn(s, t, run.result);
      var (w', stop) := C.DrainOne(w, d.paths[d.i], maxRetries);
      var verdict := ResultVerdict(run.result);
      var held := HeldBy(s, d.paths[d.i]);
      && SameFiles(s', w')
      && s'.threads[t] == (if stop then AfterDrain(d.next) else Reading(d.(i := d.i + 1)))
      && s'.acked == s.acked + (if verdict.Accepted? then held else {})
      && s'.refused == s.refused + (if verdict.Refused? || verdict.Fenced? then held else {})
      && (held == {} ==> w'.attempted == w.attempted)
      && (forall id | id in held && id < |s.items| ::
            w'.attempted == w.attempted + Copies(C.RequestFor(s.items[id]), run.attempts))
  {
    var d := s.threads[t].d;
    var f := d.paths[d.i];
    TurnIs(s, t, PostRun(w.replies, maxRetries, false).result);
    assert f in s.files ==> SameContent(s, s.files[f].content, w.files[f].content);
  }

  /** The steps of such a turn taken together. */
  lemma TurnIs(s: State, t: nat, result: PostResult)
    requires t < |s.threads| && s.threads[t].Reading? && s.threads[t].d.i < |s.threads[t].d.paths|
    ensures var d := s.threads[t].d;
      var held := HeldBy(s, d.paths[d.i]);
      var on := Go(s, t, Reading(d.(i := d.i + 1))).(files := s.files - {d.paths[d.i]});
      DrainTurn(s, t, result) ==
        if held == {} then on
        else match ResultVerdict(result)
          case Keep => Go(s, t, AfterDrain(d.next))
          case Accepted => on.(acked := s.acked + held)
          case _ => on.(refused := s.refused + held)
  {
  }

  /** One turn of the drop loop with nobody in between. */
  function DropTurn(s: State, t: nat): (s': State)
    requires t < |s.threads| && s.threads[t].DropReading?
    ensures |s'.threads| == |s.threads|
    ensures var DropReading(job, paths, i) := s.threads[t];
      i < |paths| ==> s'.threads[t] == DropReading(job, paths, i + 1)
  {
    var s1 := DoDropRead(s, t);
    if s1.threads[t].DropRemoving? then DoRemove(s1, t) else s1
  }

  /** Alone, a dropping goroutine takes a listed file out exactly if it is readable as a record of the
      job, puts down the payload it held, and goes on to the next one. */
  lemma UninterruptedDrop(s: State, t: nat, w: C.World)
    requires t < |s.threads| && s.threads[t].DropReading? && s.threads[t].i < |s.threads[t].paths|
    requires SameFiles(s, w)
    ensures var DropReading(job, paths, i) := s.threads[t];
      var f := paths[i];
      var goes := f in w.files && match w.files[f].content
                                  case Junk => false
                                  case Misfit(j) => j == job
                                  case Stored(rec) => rec.job == job;
      var s' := DropTurn(s, t);
      && s'.threads == s.threads[t := DropReading(job, paths, i + 1)]
      && SameFiles(s', w.(files := if goes then w.files - {f} else w.files))
      && s'.dropped == s.dropped + (if goes then HeldBy(s, f) else {})
      && (goes <==> f in w.files && C.OfJob(w.files[f].content, job))
  {
    var p := s.threads[t];
    var f := p.paths[p.i];
    assert f in s.files ==> SameContent(s, s.files[f].content, w.files[f].content);
  }

  /** The rest of a drop, and what it takes out of the directory. */
  function DropRest(s: State, t: nat): State
    requires t < |s.threads| && s.threads[t].DropReading? && s.threads[t].i <= |s.threads[t].paths|
    decreases |s.threads[t].paths| - s.threads[t].i
  {
    if s.threads[t].i == |s.threads[t].paths| then DoDropRead(s, t)
    else DropRest(DropTurn(s, t), t)
  }

  function Doomed(w: C.World, paths: seq<string>, job: string): set<string> {
    set f | f in paths && f in w.files && C.OfJob(w.files[f].content, job)
  }

  function OneDoomed(w: C.World, f: string, job: string): C.World {
    w.(files := if f in w.files && C.OfJob(w.files[f].content, job) then w.files - {f} else w.files)
  }

  lemma DoomedSplit(w: C.World, paths: seq<string>, i: nat, job: string)
    requires i < |paths|
    ensures var w' := OneDoomed(w, paths[i], job);
      w'.files - Doomed(w', paths[i + 1..], job) == w.files - Doomed(w, paths[i..], job)
  {
    assert paths[i..] == [paths[i]] + paths[i + 1..];
  }

  lemma {:induction false} DropRestTakes(s: State, t: nat, w: C.World)
    requires t < |s.threads| && s.threads[t].DropReading? && s.threads[t].i <= |s.threads[t].paths|
    requires SameFiles(s, w)
    ensures var DropReading(job, paths, i) := s.threads[t];
      && SameFiles(DropRest(s, t), w.(files := w.files - Doomed(w, paths[i..], job)))
      && |DropRest(s, t).threads| == |s.threads| && DropRest(s, t).threads[t] == Idle
    decreases |s.threads[t].paths| - s.threads[t].i
  {
    var DropReading(job, paths, i) := s.threads[t];
    if i == |paths| {
      assert paths[i..] == [] && Doomed(w, [], job) == {};
      assert w.files - {} == w.files;
    } else {
      UninterruptedDrop(s, t, w);
      DropRestTakes(DropTurn(s, t), t, OneDoomed(w, paths[i], job));
      DoomedSplit(w, paths, i, job);
    }
  }

  /** A whole drop, alone, leaves the files that DropSpooledForJob leaves. */
  lemma UninterruptedDropAll(s: State, t: nat, w: C.World)
    requires t < |s.threads| && s.threads[t].DropList? && SameFiles(s, w)
    ensures var listed := Do(s, List(t));
      SameFiles(DropRest(listed, t), w.(files := w.files - C.ForJob(w.files, s.threads[t].job)))
  {
    var job := s.threads[t].job;
    var paths := Listing(JsonNames(s));
    var listed := Do(s, List(t));
    assert listed.threads[t] == DropReading(job, paths, 0) && SameFiles(listed, w);
    DropRestTakes(listed, t, w);
    assert paths[0..] == paths;
    assert Doomed(w, paths, job) == C.ForJob(w.files, job);
  }
}
