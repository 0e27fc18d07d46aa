/** internal/agent/runner.go, the output side of one run under every interleaving of its two
    readers, its two tickers and the final flushes of Run. A step ends wherever another goroutine
    could get in: a pump's own mutex is held across several steps, but the budget, the counter and
    onLogs are shared with the other pump in between. */
module PumpRace {
  import opened Protocol
  import opened Pump

  const READ_BUFFER: nat := 8 * 1024

  datatype By = Reader | Ticker | Main

  /** The pump's mutex, and how far its holder has come. */
  datatype Lock =
    | Open
    | Took(allowed: string)                        // the reader, back from the budget
    | Flushing(text: string, who: By)              // pending cut off, no number yet
    | Numbered(text: string, number: nat, who: By) // numbered, not handed over yet

  /** `read` is everything the reader has got from the pipe so far. */
  datatype Stream = Stream(read: string, pending: string, lock: Lock, done: bool)

  /** Where Run itself is, from the moment both pumps work. */
  datatype Stage = Waiting | FlushOut | FlushErr | Stats | Returned(observed: nat, truncated: bool)

  /** `clean`: waitPipes saw both readers finish. */
  datatype Run = Run(
    limit: nat, budget: Budget, counter: nat,
    out: Stream, err: Stream,
    handed: seq<LogEntry>, stage: Stage, clean: bool)

  function Of(r: Run, side: Side): Stream {
    if side.Stdout? then r.out else r.err
  }

  function Other(side: Side): Side {
    if side.Stdout? then Stderr else Stdout
  }

  function With(r: Run, side: Side, st: Stream): Run {
    if side.Stdout? then r.(out := st) else r.(err := st)
  }

  datatype Action =
    | Read(side: Side, chunk: string)
    | Append(side: Side)
    | Tick(side: Side)
    | Number(side: Side)
    | HandOver(side: Side)
    | Eof(side: Side)
    | PipesDone
    | GiveUp
    | Flush(side: Side)
    | Return

  predicate HeldByReader(l: Lock) {
    l.Took? || ((l.Flushing? || l.Numbered?) && l.who.Reader?)
  }

  predicate Enabled(r: Run, a: Action) {
    match a
    case Read(side, chunk) => Of(r, side).lock.Open? && !Of(r, side).done && 0 < |chunk| <= READ_BUFFER
    case Append(side) => Of(r, side).lock.Took?
    case Tick(side) => Of(r, side).lock.Open?
    case Number(side) => Of(r, side).lock.Flushing?
    case HandOver(side) => Of(r, side).lock.Numbered?
    case Eof(side) => !Of(r, side).done && !HeldByReader(Of(r, side).lock)
    case PipesDone => r.stage.Waiting? && r.out.done && r.err.done
    case GiveUp => r.stage.Waiting?
    case Flush(side) => r.stage == (if side.Stdout? then FlushOut else FlushErr) && Of(r, side).lock.Open?
    case Return => r.stage.Stats?
  }

  function AfterFlush(side: Side): Stage {
    if side.Stdout? then FlushErr else Stats
  }

  /** `flushLocked` up to the point where the text is cut off. */
  function Cut(st: Stream, who: By): Stream {
    if st.pending == "" then st.(lock := Open) else st.(pending := "", lock := Flushing(st.pending, who))
  }

  function Do(r: Run, a: Action): Run
    requires Enabled(r, a)
  {
    match a
    case Read(side, chunk) =>
      var (budget, allowed) := Take(r.budget, chunk);
      With(r.(budget := budget), side,
           Of(r, side).(read := Of(r, side).read + chunk, lock := Took(allowed)))
    case Append(side) =>
      var st := Of(r, side).(pending := Of(r, side).pending + Of(r, side).lock.allowed, lock := Open);
      With(r, side, if |st.pending| >= r.limit then Cut(st, Reader) else st)
    case Tick(side) => With(r, side, Cut(Of(r, side), Ticker))
    case Number(side) =>
      var Flushing(text, who) := Of(r, side).lock;
      With(r.(counter := r.counter + 1), side, Of(r, side).(lock := Numbered(text, r.counter + 1, who)))
    case HandOver(side) =>
      var Numbered(text, number, who) := Of(r, side).lock;
      With(r.(handed := r.handed + [LogEntry(number, side, text)],
              stage := if who.Main? then AfterFlush(side) else r.stage),
           side, Of(r, side).(lock := Open))
    case Eof(side) => With(r, side, Of(r, side).(done := true))
    case PipesDone => r.(stage := FlushOut, clean := true)
    case GiveUp => r.(stage := FlushOut)
    case Flush(side) =>
      if Of(r, side).pending == "" then r.(stage := AfterFlush(side))
      else With(r, side, Cut(Of(r, side), Main))
    case Return => r.(stage := Returned(r.budget.observed, r.budget.truncated))
  }

  predicate IsRun(r: Run, acts: seq<Action>)
    decreases |acts|
  {
    acts == [] || (Enabled(r, acts[0]) && IsRun(Do(r, acts[0]), acts[1..]))
  }

  function Exec(r: Run, acts: seq<Action>): Run
    requires IsRun(r, acts)
    decreases |acts|
  {
    if acts == [] then r else Exec(Do(r, acts[0]), acts[1..])
  }

  function Start(max: nat, limit: nat): Run {
    var quiet := Stream("", "", Open, false);
    Run(limit, Budget(max, 0, false), 0, quiet, quiet, [], Waiting, false)
  }

  // ----- what is kept -----

  /** The text of one stream, as handed over so far. */
  function Sent(handed: seq<LogEntry>, side: Side): string {
    if handed == [] then ""
    else
      var last := handed[|handed| - 1];
      Sent(handed[..|handed| - 1], side) + (if last.side == side then last.text else "")
  }

  function Flight(l: Lock): string {
    match l
    case Flushing(text, _) => text
    case Numbered(text, _, _) => text
    case _ => ""
  }

  /** Everything the budget let through for a stream, in order. */
  function Accepted(handed: seq<LogEntry>, side: Side, st: Stream): string {
    Sent(handed, side) + Unsent(st)
  }

  function Unsent(st: Stream): string {
    Flight(st.lock) + st.pending + (if st.lock.Took? then st.lock.allowed else "")
  }

  function AcceptedOf(r: Run, side: Side): string {
    Accepted(r.handed, side, Of(r, side))
  }

  function Total(r: Run): nat {
    |r.out.read| + |r.err.read|
  }

  /** Of two streams, `a` and `b` were let through out of what was read, and the budget says so. */
  predicate Counted(budget: Budget, a: string, aRead: string, b: string, bRead: string) {
    && budget.observed == |a| + |b| <= budget.max
    && a <= aRead && b <= bRead
    && (budget.observed < budget.max ==> a == aRead && b == bRead)
    && (budget.truncated <==> |aRead| + |bRead| > budget.max)
  }

  predicate BytesInv(r: Run) {
    Counted(r.budget, AcceptedOf(r, Stdout), r.out.read, AcceptedOf(r, Stderr), r.err.read)
  }

  predicate SizeOk(limit: nat, text: string) {
    1 <= |text| <= limit - 1 + READ_BUFFER
  }

  predicate StreamSizes(limit: nat, st: Stream) {
    && |st.pending| < limit
    && (st.lock.Took? ==> |st.lock.allowed| <= READ_BUFFER)
    && (st.lock.Flushing? || st.lock.Numbered? ==> st.pending == "" && SizeOk(limit, st.lock.text))
    && (st.lock.Numbered? ==> st.lock.number != 0)
  }

  predicate SizeInv(r: Run) {
    && r.limit >= 1
    && (forall i | 0 <= i < |r.handed| :: SizeOk(r.limit, r.handed[i].text))
    && StreamSizes(r.limit, r.out)
    && StreamSizes(r.limit, r.err)
  }

  /** The number a pump has drawn and not handed over yet; 0 for none. */
  function Drawn(st: Stream): nat {
    if st.lock.Numbered? then st.lock.number else 0
  }

  /** Every number up to the counter is in exactly one place, and each stream hands its own over in
      increasing order. */
  predicate Assigned(handed: seq<LogEntry>, counter: nat, out: nat, err: nat) {
    && (forall n | 1 <= n <= counter :: n == out || n == err || IsHanded(handed, n))
    && (forall i | 0 <= i < |handed| :: 1 <= handed[i].number <= counter)
    && (forall i, j | 0 <= i < j < |handed| ::
          && handed[i].number != handed[j].number
          && (handed[i].side == handed[j].side ==> handed[i].number < handed[j].number))
    && NextOf(handed, counter, Stdout, out)
    && NextOf(handed, counter, Stderr, err)
    && (out != 0 ==> out != err)
  }

  predicate IsHanded(handed: seq<LogEntry>, n: nat) {
    exists i :: 0 <= i < |handed| && handed[i].number == n
  }

  predicate NextOf(handed: seq<LogEntry>, counter: nat, side: Side, drawn: nat) {
    drawn != 0 ==>
      && drawn <= counter
      && forall i | 0 <= i < |handed| ::
           && handed[i].number != drawn
           && (handed[i].side == side ==> handed[i].number < drawn)
  }

  predicate NumberInv(r: Run) {
    Assigned(r.handed, r.counter, Drawn(r.out), Drawn(r.err))
  }

  predicate Quiet(st: Stream) {
    st.done && st.lock.Open? && st.pending == ""
  }

  predicate ByMain(l: Lock) {
    (l.Flushing? || l.Numbered?) && l.who.Main?
  }

  predicate StageInv(r: Run) {
    && (r.out.done ==> !HeldByReader(r.out.lock))
    && (r.err.done ==> !HeldByReader(r.err.lock))
    && (ByMain(r.out.lock) ==> r.stage.FlushOut?)
    && (ByMain(r.err.lock) ==> r.stage.FlushErr?)
    && (r.clean ==>
          && r.out.done && r.err.done && !r.stage.Waiting?
          && (!r.stage.FlushOut? ==> Quiet(r.out))
          && (r.stage.Stats? || r.stage.Returned? ==> Quiet(r.err)))
    && (r.clean && r.stage.Returned? ==>
          r.stage.observed == r.budget.observed && r.stage.truncated == r.budget.truncated)
  }

  predicate Inv(r: Run) {
    BytesInv(r) && SizeInv(r) && NumberInv(r) && StageInv(r)
  }

  // ----- every step keeps it -----

  lemma SentPlus(handed: seq<LogEntry>, e: LogEntry, side: Side)
    ensures Sent(handed + [e], side) == Sent(handed, side) + (if e.side == side then e.text else "")
  {
    assert (handed + [e])[..|handed|] == handed;
  }

  lemma TakeCounts(budget: Budget, a: string, aRead: string, b: string, bRead: string, chunk: string)
    requires Counted(budget, a, aRead, b, bRead) && chunk != ""
    ensures var (budget', allowed) := Take(budget, chunk);
      Counted(budget', a + allowed, aRead + chunk, b, bRead)
  {
  }

  lemma ReadBytes(r: Run, side: Side, chunk: string)
    requires Inv(r) && Enabled(r, Read(side, chunk))
    ensures BytesInv(Do(r, Read(side, chunk)))
  {
    var r' := Do(r, Read(side, chunk));
    assert AcceptedOf(r', side) == AcceptedOf(r, side) + Take(r.budget, chunk).1;
    assert AcceptedOf(r', Other(side)) == AcceptedOf(r, Other(side));
    TakeCounts(r.budget, AcceptedOf(r, side), Of(r, side).read,
               AcceptedOf(r, Other(side)), Of(r, Other(side)).read, chunk);
  }

  lemma CutKeeps(st: Stream, who: By)
    requires st.lock.Open?
    ensures Unsent(Cut(st, who)) == Unsent(st)
  {
  }

  lemma AppendKeeps(limit: nat, st: Stream)
    requires st.lock.Took?
    ensures var st' := st.(pending := st.pending + st.lock.allowed, lock := Open);
      Unsent(st') == Unsent(st) && Unsent(Cut(st', Reader)) == Unsent(st)
  {
    var st' := st.(pending := st.pending + st.lock.allowed, lock := Open);
    CutKeeps(st', Reader);
  }

  lemma HandOverKeeps(r: Run, s: Side, side: Side)
    requires SizeInv(r) && Enabled(r, HandOver(s))
    ensures AcceptedOf(Do(r, HandOver(s)), side) == AcceptedOf(r, side)
  {
    var Numbered(text, number, who) := Of(r, s).lock;
    var r' := Do(r, HandOver(s));
    SentPlus(r.handed, LogEntry(number, s, text), side);
    if s == side {
      assert Unsent(Of(r, s)) == text && Unsent(Of(r', s)) == "";
    } else {
      assert Of(r', side) == Of(r, side);
    }
  }

  lemma UnsentKept(r: Run, a: Action, side: Side)
    requires Enabled(r, a) && !a.Read? && !a.HandOver?
    ensures Unsent(Of(Do(r, a), side)) == Unsent(Of(r, side))
  {
    match a
    case Append(s) => AppendKeeps(r.limit, Of(r, s));
    case Tick(s) => CutKeeps(Of(r, s), Ticker);
    case Flush(s) => CutKeeps(Of(r, s), Main);
    case _ =>
  }

  /** No other step lets bytes in, drops them, or reorders them. */
  lemma OthersKeepAccepted(r: Run, a: Action, side: Side)
    requires SizeInv(r) && Enabled(r, a) && !a.Read?
    ensures AcceptedOf(Do(r, a), side) == AcceptedOf(r, side)
    ensures Of(Do(r, a), side).read == Of(r, side).read
    ensures Do(r, a).budget == r.budget
  {
    if a.HandOver? {
      HandOverKeeps(r, a.side, side);
    } else {
      UnsentKept(r, a, side);
    }
  }

  lemma StepBytes(r: Run, a: Action)
    requires Inv(r) && Enabled(r, a)
    ensures BytesInv(Do(r, a))
  {
    if a.Read? {
      ReadBytes(r, a.side, a.chunk);
    } else {
      OthersKeepAccepted(r, a, Stdout);
      OthersKeepAccepted(r, a, Stderr);
    }
  }

  lemma CutSizes(r: Run, side: Side, a: Action)
    requires SizeInv(r) && Enabled(r, a) && (a == Append(side) || a == Tick(side) || a == Flush(side))
    ensures StreamSizes(r.limit, Of(Do(r, a), side))
    ensures Do(r, a).handed == r.handed && Of(Do(r, a), Other(side)) == Of(r, Other(side))
  {
  }

  lemma StepSizes(r: Run, a: Action)
    requires SizeInv(r) && Enabled(r, a)
    ensures SizeInv(Do(r, a))
  {
    match a
    case Append(side) => CutSizes(r, side, a);
    case Tick(side) => CutSizes(r, side, a);
    case Flush(side) => CutSizes(r, side, a);
    case _ =>
  }

  lemma Draw(handed: seq<LogEntry>, counter: nat, out: nat, err: nat)
    requires Assigned(handed, counter, out, err)
    ensures out == 0 ==> Assigned(handed, counter + 1, counter + 1, err)
    ensures err == 0 ==> Assigned(handed, counter + 1, out, counter + 1)
  {
  }

  lemma HandOverNumber(handed: seq<LogEntry>, counter: nat, out: nat, err: nat, e: LogEntry)
    requires Assigned(handed, counter, out, err)
    requires e.number != 0 && e.number == (if e.side.Stdout? then out else err)
    ensures e.side.Stdout? ==> Assigned(handed + [e], counter, 0, err)
    ensures e.side.Stderr? ==> Assigned(handed + [e], counter, out, 0)
  {
    var after := handed + [e];
    forall n | 1 <= n <= counter && (IsHanded(handed, n) || n == e.number) ensures IsHanded(after, n) {
      if n == e.number {
        assert after[|handed|].number == n;
      } else {
        var i :| 0 <= i < |handed| && handed[i].number == n;
        assert after[i].number == n;
      }
    }
  }

  /** What the other steps leave alone. */
  lemma NumbersUntouched(r: Run, a: Action)
    requires Enabled(r, a) && !a.Number? && !a.HandOver?
    ensures Do(r, a).handed == r.handed && Do(r, a).counter == r.counter
    ensures Drawn(Do(r, a).out) == Drawn(r.out) && Drawn(Do(r, a).err) == Drawn(r.err)
  {
  }

  lemma StepNumbers(r: Run, a: Action)
    requires NumberInv(r) && SizeInv(r) && Enabled(r, a)
    ensures NumberInv(Do(r, a))
  {
    if a.Number? {
      Draw(r.handed, r.counter, Drawn(r.out), Drawn(r.err));
    } else if a.HandOver? {
      var Numbered(text, number, who) := Of(r, a.side).lock;
      HandOverNumber(r.handed, r.counter, Drawn(r.out), Drawn(r.err), LogEntry(number, a.side, text));
    } else {
      NumbersUntouched(r, a);
    }
  }

  lemma StepStages(r: Run, a: Action)
    requires StageInv(r) && SizeInv(r) && Enabled(r, a)
    ensures StageInv(Do(r, a))
  {
  }

  lemma Step(r: Run, a: Action)
    requires Inv(r) && Enabled(r, a)
    ensures Inv(Do(r, a))
  {
    StepBytes(r, a);
    StepSizes(r, a);
    StepNumbers(r, a);
    StepStages(r, a);
  }

  lemma Fixed(r: Run, a: Action)
    requires Enabled(r, a)
    ensures Do(r, a).limit == r.limit && Do(r, a).budget.max == r.budget.max
  {
  }

  lemma {:induction false} Always(r: Run, acts: seq<Action>)
    requires Inv(r) && IsRun(r, acts)
    ensures Inv(Exec(r, acts))
    ensures Exec(r, acts).limit == r.limit && Exec(r, acts).budget.max == r.budget.max
    decreases |acts|
  {
    if acts != [] {
      Step(r, acts[0]);
      Fixed(r, acts[0]);
      Always(Do(r, acts[0]), acts[1..]);
    }
  }

  // ----- the theorems -----

  function Min(a: nat, b: nat): nat {
    if a < b then a else b
  }

  /** If both readers finish before waitPipes gives up, then when Run returns, onLogs has received,
      of each stream, a prefix of what its reader read; the two prefixes make up exactly
      min(MaxOutputBytes, bytes read); BytesObserved is that number, and Truncated says whether
      more was read. */
  lemma RunHandsOverTheBudget(max: nat, limit: nat, acts: seq<Action>)
    requires limit >= 1 && IsRun(Start(max, limit), acts)
    requires var e := Exec(Start(max, limit), acts); e.clean && e.stage.Returned?
    ensures var e := Exec(Start(max, limit), acts);
      && Sent(e.handed, Stdout) <= e.out.read
      && Sent(e.handed, Stderr) <= e.err.read
      && |Sent(e.handed, Stdout)| + |Sent(e.handed, Stderr)| == Min(max, Total(e)) == e.stage.observed
      && (e.stage.truncated <==> Total(e) > max)
  {
    Always(Start(max, limit), acts);
    QuietRun(Exec(Start(max, limit), acts));
  }

  /** With nothing left in the pumps, what was let through is what was handed over. */
  lemma QuietRun(r: Run)
    requires BytesInv(r) && StageInv(r) && r.clean && r.stage.Returned?
    ensures Sent(r.handed, Stdout) <= r.out.read && Sent(r.handed, Stderr) <= r.err.read
    ensures |Sent(r.handed, Stdout)| + |Sent(r.handed, Stderr)| == Min(r.budget.max, Total(r)) == r.stage.observed
    ensures r.stage.truncated <==> Total(r) > r.budget.max
  {
    assert Quiet(r.out) && Quiet(r.err);
    assert AcceptedOf(r, Stdout) == Sent(r.handed, Stdout);
    assert AcceptedOf(r, Stderr) == Sent(r.handed, Stderr);
  }

  /** At any moment, even with a reader abandoned: what went out is a prefix of what came in, and
      together never more than MaxOutputBytes. */
  lemma NeverOverBudget(max: nat, limit: nat, acts: seq<Action>)
    requires limit >= 1 && IsRun(Start(max, limit), acts)
    ensures var e := Exec(Start(max, limit), acts);
      && Sent(e.handed, Stdout) <= e.out.read
      && Sent(e.handed, Stderr) <= e.err.read
      && |Sent(e.handed, Stdout)| + |Sent(e.handed, Stderr)| <= Min(max, Total(e))
  {
    Always(Start(max, limit), acts);
    SentIsAccepted(Exec(Start(max, limit), acts));
  }

  lemma SentIsAccepted(r: Run)
    requires BytesInv(r)
    ensures Sent(r.handed, Stdout) <= r.out.read && Sent(r.handed, Stderr) <= r.err.read
    ensures |Sent(r.handed, Stdout)| + |Sent(r.handed, Stderr)| <= Min(r.budget.max, Total(r))
  {
  }

  /** The assigned numbers are 1..counter without gap or repeat: each is handed over, or drawn by
      exactly one pump. Within a stream they are handed over in increasing order, and every entry
      carries between 1 and BatchBytes - 1 + 8192 bytes. */
  lemma NumbersWithoutGap(max: nat, limit: nat, acts: seq<Action>)
    requires limit >= 1 && IsRun(Start(max, limit), acts)
    ensures var e := Exec(Start(max, limit), acts);
      && Assigned(e.handed, e.counter, Drawn(e.out), Drawn(e.err))
      && forall i | 0 <= i < |e.handed| :: 1 <= |e.handed[i].text| <= limit - 1 + 8192
  {
    Always(Start(max, limit), acts);
  }

  // ----- the pump objects are the uninterrupted case -----

  function ViewOf(r: Run, side: Side): PumpView {
    PumpView(side, r.limit, Of(r, side).pending, r.budget, true, r.counter, r.handed)
  }

  /** The steps from a cut-off text to the open mutex, without interruption. */
  function Finish(r: Run, side: Side): Run {
    if Of(r, side).lock.Flushing? then Do(Do(r, Number(side)), HandOver(side)) else r
  }

  /** StreamPump.Add is what a reader's steps come to when the other pump keeps still. */
  lemma UninterruptedAdd(r: Run, side: Side, chunk: string)
    requires r.limit >= 1 && Enabled(r, Read(side, chunk))
    ensures var took := Do(r, Read(side, chunk));
      ViewOf(Finish(Do(took, Append(side)), side), side) == Added(ViewOf(r, side), chunk)
  {
  }

  /** StreamPump.FlushLocked is what a tick comes to. */
  lemma UninterruptedTick(r: Run, side: Side)
    requires Enabled(r, Tick(side))
    ensures ViewOf(Finish(Do(r, Tick(side)), side), side) == Flushed(ViewOf(r, side))
  {
  }

  function Flat(chunks: seq<string>): string {
    if chunks == [] then "" else Flat(chunks[..|chunks| - 1]) + chunks[|chunks| - 1]
  }

  /** What one pump has made of its stream. */
  function TextOf(p: PumpView): string {
    Sent(p.handed, p.side) + p.pending
  }

  /** Of what was given, exactly what the budget had room for is handed over or still pending, in order,
      and the budget says whether that was all. */
  predicate Delivers(p: PumpView, q: PumpView, given: string)
    requires p.budget.observed <= p.budget.max
  {
    var n := Min(p.budget.max - p.budget.observed, |given|);
    && q.hasOnLogs == p.hasOnLogs && q.side == p.side && q.limit == p.limit && q.budget.max == p.budget.max
    && q.budget.observed == p.budget.observed + n
    && TextOf(q) == TextOf(p) + given[..n]
    && (q.budget.truncated <==> p.budget.truncated || |given| > n)
  }

  lemma AddedDelivers(p: PumpView, chunk: string)
    requires p.hasOnLogs && p.budget.observed <= p.budget.max && chunk != ""
    ensures Delivers(p, Added(p, chunk), chunk)
  {
    var (budget, allowed) := Take(p.budget, chunk);
    var r := p.(budget := budget, pending := p.pending + allowed);
    SentPlus(r.handed, LogEntry(r.counter + 1, r.side, r.pending), r.side);
  }

  lemma DeliversMore(p: PumpView, q: PumpView, r: PumpView, a: string, b: string)
    requires p.budget.observed <= p.budget.max && Delivers(p, q, a) && Delivers(q, r, b)
    ensures Delivers(p, r, a + b)
  {
    PrefixPlus(a, b, p.budget.max - p.budget.observed);
  }

  lemma PrefixPlus(a: string, b: string, room: nat)
    ensures (a + b)[..Min(room, |a| + |b|)] == a[..Min(room, |a|)] + b[..Min(room - Min(room, |a|), |b|)]
  {
  }

  /** A reader on its own. */
  lemma {:induction false} PumpedDelivers(p: PumpView, chunks: seq<string>)
    requires p.hasOnLogs && p.budget.observed <= p.budget.max
    ensures Delivers(p, Pumped(p, chunks), Flat(chunks))
  {
    if chunks != [] {
      var front, last := chunks[..|chunks| - 1], chunks[|chunks| - 1];
      PumpedDelivers(p, front);
      if last == "" {
        assert Flat(front) + last == Flat(front);
      } else {
        AddedDelivers(Pumped(p, front), last);
        DeliversMore(p, Pumped(p, front), Pumped(p, chunks), Flat(front), last);
      }
    }
  }

  // ----- the order of hand-over -----

  predicate InOrder(handed: seq<LogEntry>) {
    forall i, j | 0 <= i < j < |handed| :: handed[i].number < handed[j].number
  }

  /** The step hands an entry over while the other pump sits on an earlier number. */
  predicate Overtakes(r: Run, a: Action) {
    a.HandOver? && Of(r, a.side).lock.Numbered?
    && 0 < Drawn(Of(r, Other(a.side))) < Of(r, a.side).lock.number
  }

  predicate NeverOvertakes(r: Run, acts: seq<Action>)
    requires IsRun(r, acts)
    decreases |acts|
  {
    acts == [] || (!Overtakes(r, acts[0]) && NeverOvertakes(Do(r, acts[0]), acts[1..]))
  }

  /** In order so far, with nothing outstanding that should have come earlier. */
  predicate Tidy(handed: seq<LogEntry>, out: nat, err: nat) {
    InOrder(handed)
    && forall i | 0 <= i < |handed| ::
         (out != 0 ==> handed[i].number < out) && (err != 0 ==> handed[i].number < err)
  }

  predicate TidyRun(r: Run) {
    Tidy(r.handed, Drawn(r.out), Drawn(r.err))
  }

  lemma TidyHandOver(handed: seq<LogEntry>, counter: nat, out: nat, err: nat, e: LogEntry)
    requires Assigned(handed, counter, out, err)
    requires e.number != 0 && e.number == (if e.side.Stdout? then out else err)
    ensures var other := if e.side.Stdout? then err else out;
      var after := handed + [e];
      (if e.side.Stdout? then Tidy(after, 0, err) else Tidy(after, out, 0)) <==>
      Tidy(handed, out, err) && !(0 < other < e.number)
  {
    var after := handed + [e];
    var other := if e.side.Stdout? then err else out;
    assert after[|handed|] == e;
    assert forall i | 0 <= i < |handed| :: after[i] == handed[i];
    if Tidy(after, if e.side.Stdout? then 0 else out, if e.side.Stdout? then err else 0) {
      forall i, j | 0 <= i < j < |handed| ensures handed[i].number < handed[j].number {
        assert after[i].number < after[j].number;
      }
      forall i | 0 <= i < |handed| ensures handed[i].number < e.number {
        assert after[i].number < after[|handed|].number;
      }
    }
  }

  lemma TidyStep(r: Run, a: Action)
    requires Inv(r) && Enabled(r, a)
    ensures TidyRun(Do(r, a)) <==> TidyRun(r) && !Overtakes(r, a)
  {
    if a.HandOver? {
      var Numbered(text, number, who) := Of(r, a.side).lock;
      TidyHandOver(r.handed, r.counter, Drawn(r.out), Drawn(r.err), LogEntry(number, a.side, text));
    }
  }

  lemma {:induction false} TidyExec(r: Run, acts: seq<Action>)
    requires Inv(r) && IsRun(r, acts)
    ensures TidyRun(Exec(r, acts)) <==> TidyRun(r) && NeverOvertakes(r, acts)
    decreases |acts|
  {
    if acts != [] {
      TidyStep(r, acts[0]);
      Always(r, [acts[0]]);
      assert Exec(r, [acts[0]]) == Do(r, acts[0]);
      TidyExec(Do(r, acts[0]), acts[1..]);
    }
  }

  /** LogFunc is documented to receive entries in sequence order. Once nothing is outstanding, that
      holds exactly when no pump ever handed an entry over while the other sat on an earlier number. */
  lemma HandOverInOrderIff(max: nat, limit: nat, acts: seq<Action>)
    requires limit >= 1 && IsRun(Start(max, limit), acts)
    requires var e := Exec(Start(max, limit), acts); Drawn(e.out) == 0 && Drawn(e.err) == 0
    ensures InOrder(Exec(Start(max, limit), acts).handed) <==> NeverOvertakes(Start(max, limit), acts)
  {
    TidyExec(Start(max, limit), acts);
  }

  /** Of a stream nothing was read from, nothing is handed over. */
  lemma {:induction false} SilentStream(handed: seq<LogEntry>, side: Side)
    requires Sent(handed, side) == "" && forall i | 0 <= i < |handed| :: handed[i].text != ""
    ensures forall i | 0 <= i < |handed| :: handed[i].side != side
  {
    if handed != [] {
      var n := |handed| - 1;
      SilentStream(handed[..n], side);
      assert forall i | 0 <= i < n :: handed[i] == handed[..n][i];
    }
  }

  /** As long as only one stream has produced bytes, entries arrive in order. */
  lemma OneStreamInOrder(max: nat, limit: nat, acts: seq<Action>)
    requires limit >= 1 && IsRun(Start(max, limit), acts)
    requires var e := Exec(Start(max, limit), acts); e.out.read == "" || e.err.read == ""
    ensures InOrder(Exec(Start(max, limit), acts).handed)
  {
    var e := Exec(Start(max, limit), acts);
    Always(Start(max, limit), acts);
    SentIsAccepted(e);
    var side := if e.out.read == "" then Stdout else Stderr;
    assert Sent(e.handed, side) == "";
    TextsSent(e);
    SilentInOrder(e.handed, e.counter, Drawn(e.out), Drawn(e.err), side);
  }

  lemma TextsSent(r: Run)
    requires SizeInv(r)
    ensures forall i | 0 <= i < |r.handed| :: r.handed[i].text != ""
  {
    forall i | 0 <= i < |r.handed| ensures r.handed[i].text != "" {
      assert SizeOk(r.limit, r.handed[i].text);
    }
  }

  lemma SilentInOrder(handed: seq<LogEntry>, counter: nat, out: nat, err: nat, side: Side)
    requires Assigned(handed, counter, out, err)
    requires Sent(handed, side) == "" && forall i | 0 <= i < |handed| :: handed[i].text != ""
    ensures InOrder(handed)
  {
    SilentStream(handed, side);
    forall i, j | 0 <= i < j < |handed| ensures handed[i].number < handed[j].number {
      assert handed[i].side != side && handed[j].side != side;
    }
  }

  lemma Cons(r: Run, a: Action, rest: seq<Action>) returns (acts: seq<Action>)
    requires Enabled(r, a) && IsRun(Do(r, a), rest)
    ensures IsRun(r, acts) && Exec(r, acts) == Exec(Do(r, a), rest)
  {
    acts := [a] + rest;
    assert acts[1..] == rest;
  }

  /** A pump that flushes at every byte, after reading one and drawing a number for it. */
  function ByteDrawn(r: Run, side: Side, c: char): Run {
    With(r.(budget := r.budget.(observed := r.budget.observed + 1), counter := r.counter + 1), side,
         Of(r, side).(read := Of(r, side).read + [c], lock := Numbered([c], r.counter + 1, Reader)))
  }

  lemma DrawByte(r: Run, side: Side, c: char, rest: seq<Action>) returns (acts: seq<Action>)
    requires r.limit == 1 && r.budget.observed < r.budget.max
    requires Of(r, side).lock.Open? && !Of(r, side).done && Of(r, side).pending == ""
    requires IsRun(ByteDrawn(r, side, c), rest)
    ensures IsRun(r, acts) && Exec(r, acts) == Exec(ByteDrawn(r, side, c), rest)
  {
    var r1 := Do(r, Read(side, [c]));
    var r2 := Do(r1, Append(side));
    assert "" + [c] == [c];
    assert Do(r2, Number(side)) == ByteDrawn(r, side, c);
    acts := Cons(r2, Number(side), rest);
    acts := Cons(r1, Append(side), acts);
    acts := Cons(r, Read(side, [c]), acts);
  }

  /** Both pumps cut off a byte; stdout draws 1, stderr draws 2 and gets to onLogs first. */
  lemma OvertakingHappens() returns (acts: seq<Action>)
    ensures IsRun(Start(2, 1), acts)
    ensures var e := Exec(Start(2, 1), acts);
      && Drawn(e.out) == 0 && Drawn(e.err) == 0
      && e.handed == [LogEntry(2, Stderr, "b"), LogEntry(1, Stdout, "a")]
  {
    var r1 := ByteDrawn(Start(2, 1), Stdout, 'a');
    var r2 := ByteDrawn(r1, Stderr, 'b');
    acts := Cons(Do(r2, HandOver(Stderr)), HandOver(Stdout), []);
    acts := Cons(r2, HandOver(Stderr), acts);
    acts := DrawByte(r1, Stderr, 'b', acts);
    acts := DrawByte(Start(2, 1), Stdout, 'a', acts);
  }
}
