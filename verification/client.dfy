/** internal/agent/client.go, one caller at a time: the durable spool and the calls that fill and
    empty it. Module SpoolRace lets these calls interleave. */
module Client {
  import opened Text
  import opened Protocol
  import opened Endpoint
  import opened SpoolDir

  datatype SpoolRecord = SpoolRecord(kind: Kind, job: string, body: Payload)

  /** `Junk` cannot be read as a record; a `Misfit` can, but is of an unknown kind, or its payload is
      no object. A drain drops both without posting. */
  datatype Content = Junk | Misfit(job: string) | Stored(rec: SpoolRecord)

  datatype File = File(content: Content, mtime: int)

  type Directory = map<string, File>

  const SPOOL_FILE_TTL: int := 7 * 24 * 3600 * 1_000_000_000

  function RequestFor(rec: SpoolRecord): Request {
    Request(if rec.kind.Logs? then LogsPath(rec.job) else ResultPath(rec.job), rec.body)
  }

  function JsonNames(files: Directory): set<string> {
    set f | f in files && IsJson(f)
  }

  /** What the client can see change: its directory, the server's remaining replies, the wire. */
  datatype World = World(files: Directory, replies: seq<Reply>, attempted: seq<Request>)

  function PostWorld(w: World, request: Request, maxRetries: int): World {
    var run := PostRun(w.replies, maxRetries, false);
    World(w.files, Endpoint.Drop(w.replies, run.consumed), w.attempted + Copies(request, run.attempts))
  }

  function PostVerdict(w: World, maxRetries: int): Verdict {
    ResultVerdict(PostRun(w.replies, maxRetries, false).result)
  }

  /** What a drain does with one listed file: the world after it, and whether it stops there
      because the failure was transient. */
  function DrainOne(w: World, f: string, maxRetries: int): (r: (World, bool))
    ensures r.0.files == if r.1 then w.files else w.files - {f}
    ensures r.1 ==> f in w.files && w.files[f].content.Stored?
  {
    if f !in w.files || !w.files[f].content.Stored? then (w.(files := w.files - {f}), false)
    else
      var posted := PostWorld(w, RequestFor(w.files[f].content.rec), maxRetries);
      if PostVerdict(w, maxRetries) == Keep then (posted, true)
      else (posted.(files := w.files - {f}), false)
  }

  /** The rest of a drain, from the i-th listed file on: what it leaves, and what it counts. */
  function DrainFrom(w: World, paths: seq<string>, i: nat, maxRetries: int): (World, nat)
    requires i <= |paths|
    decreases |paths| - i
  {
    if i == |paths| then (w, 0)
    else
      var (w', stop) := DrainOne(w, paths[i], maxRetries);
      if stop then (w', |paths| - i) else DrainFrom(w', paths, i + 1, maxRetries)
  }

  ghost function Drained(w: World, maxRetries: int): (World, nat) {
    DrainFrom(w, Listing(JsonNames(w.files)), 0, maxRetries)
  }

  predicate OfJob(content: Content, job: string) {
    match content
    case Junk => false
    case Misfit(j) => j == job
    case Stored(rec) => rec.job == job
  }

  function ForJob(files: Directory, job: string): set<string> {
    set f | f in files && IsJson(f) && OfJob(files[f].content, job)
  }

  /** Of a drop, spelled out: the JSON files that are readable as records of the job are gone, whatever
      their kind and payload, and every other file is as it was. */
  ghost predicate KeepsOtherJobs(before: Directory, after: Directory, job: string) {
    && (forall f :: f in after <==>
          f in before && !(IsJson(f) && match before[f].content
                                        case Junk => false
                                        case Misfit(j) => j == job
                                        case Stored(rec) => rec.job == job))
    && (forall f | f in after :: after[f] == before[f])
  }

  lemma OthersKept(before: Directory, job: string)
    ensures KeepsOtherJobs(before, before - ForJob(before, job), job)
  {
  }

  /** How PostLogs and ReportResult return. */
  datatype Report = Delivered | FencedOut | RefusedError | Spooled | SpoolFailed(posted: PostResult)

  class Client {
    const hasSpoolDir: bool
    const maxRetries: int
    const wire: Wire<Request>
    var files: Directory

    constructor (hasSpoolDir: bool, maxRetries: int, wire: Wire<Request>, files: Directory)
      ensures this.hasSpoolDir == hasSpoolDir && this.maxRetries == maxRetries
      ensures this.wire == wire && this.files == files
    {
      this.hasSpoolDir, this.maxRetries := hasSpoolDir, maxRetries;
      this.wire, this.files := wire, files;
    }

    ghost function View(): World
      reads this, wire
    {
      World(files, wire.replies, wire.attempted)
    }

    method PostTo(request: Request) returns (result: PostResult)
      modifies wire
      ensures result == PostRun(old(wire.replies), maxRetries, false).result
      ensures View() == PostWorld(old(View()), request, maxRetries)
    {
      result := wire.Post(request, maxRetries, false);
    }

    /** O_EXCL: an existing name is an error, as is a disk that does not take the file. */
    method Spool(rec: SpoolRecord, now: nat, diskTakes: bool) returns (ok: bool)
      modifies this`files
      ensures var name := (if rec.kind.Logs? then "logs-" else "result-") + rec.job + "-" + Dec(now) + ".json";
        && ok == (!hasSpoolDir || (diskTakes && name !in old(files)))
        && files == if hasSpoolDir && ok then old(files)[name := File(Stored(rec), now)] else old(files)
    {
      SpoolNameIs(rec.kind, rec.job, now);
      if !hasSpoolDir {
        return true;
      }
      var name := SpoolName(rec.kind, rec.job, now);
      if !diskTakes || name in files {
        return false;
      }
      files := files[name := File(Stored(rec), now)];
      return true;
    }

    method ListDir() returns (paths: seq<string>)
      ensures paths == Listing(JsonNames(files))
    {
      paths := [];
      var names := JsonNames(files);
      while names != {}
        invariant names <= JsonNames(files)
        invariant Lists(JsonNames(files) - names, paths)
        decreases names
      {
        var f :| f in names;
        ListsInsert(JsonNames(files) - names, paths, f);
        paths := Insert(f, paths);
        assert JsonNames(files) - names + {f} == JsonNames(files) - (names - {f});
        names := names - {f};
      }
      assert JsonNames(files) - names == JsonNames(files);
      ListsUnique(JsonNames(files), paths, Listing(JsonNames(files)));
    }

    method DrainSpool() returns (pending: nat)
      modifies this`files, wire
      ensures hasSpoolDir ==> (View(), pending) == Drained(old(View()), maxRetries)
      ensures !hasSpoolDir ==> View() == old(View()) && pending == 0
    {
      if !hasSpoolDir {
        return 0;
      }
      var paths := ListDir();
      for i := 0 to |paths|
        invariant DrainFrom(View(), paths, i, maxRetries) == Drained(old(View()), maxRetries)
      {
        if paths[i] !in files || !files[paths[i]].content.Stored? {
          files := files - {paths[i]};
          continue;
        }
        var rec := files[paths[i]].content.rec;
        var result := PostTo(RequestFor(rec));
        if ResultVerdict(result) == Keep {
          return |paths| - i;
        }
        files := files - {paths[i]};
      }
      return 0;
    }

    method DropSpooledForJob(job: string)
      modifies this`files
      ensures files == if hasSpoolDir then old(files) - ForJob(old(files), job) else old(files)
      ensures hasSpoolDir ==> KeepsOtherJobs(old(files), files, job)
    {
      if !hasSpoolDir {
        return;
      }
      var paths := ListDir();
      ghost var gone: set<string> := {};
      for i := 0 to |paths|
        invariant gone == set f | f in paths[..i] && f in ForJob(old(files), job)
        invariant files == old(files) - gone
      {
        var f := paths[i];
        assert forall j | 0 <= j < i :: paths[j] != f;
        assert paths[..i + 1] == paths[..i] + [f];
        assert f in JsonNames(old(files));
        if OfJob(files[f].content, job) {
          files := files - {f};
          gone := gone + {f};
        }
      }
      assert paths[..|paths|] == paths;
      assert gone == ForJob(old(files), job);
      OthersKept(old(files), job);
    }

    method PostLogs(job: string, token: string, entries: seq<LogEntry>, now: nat, diskTakes: bool)
      returns (report: Report)
      modifies this`files, wire
      ensures var body := LogsBody(token, entries);
        var result := PostRun(old(wire.replies), maxRetries, false).result;
        var posted := PostWorld(old(View()), Request("/api/device/jobs/" + job + "/logs", body), maxRetries);
        var name := SpoolName(Logs, job, now);
        match LogsVerdict(result)
        case Accepted => report == Delivered && View() == posted
        case Refused => report == (if IsFenced(result) then FencedOut else RefusedError) && View() == posted
        case _ =>
          if !hasSpoolDir then report == Spooled && View() == posted
          else if diskTakes && name !in old(files) then
            report == Spooled
            && View() == posted.(files := old(files)[name := File(Stored(SpoolRecord(Logs, job, body)), now)])
          else report == SpoolFailed(result) && View() == posted
    {
      var body := LogsBody(token, entries);
      var result := PostTo(Request(LogsPath(job), body));
      if result.Acked? {
        return Delivered;
      }
      if IsPermanent(result) {
        return if IsFenced(result) then FencedOut else RefusedError;
      }
      SpoolNameIs(Logs, job, now);
      var ok := Spool(SpoolRecord(Logs, job, body), now, diskTakes);
      return if ok then Spooled else SpoolFailed(result);
    }

    method ReportResult(job: string, token: string, result: ResultPayload, now: nat, diskTakes: bool)
      returns (report: Report)
      modifies this`files, wire
      ensures var body := ResultBody(token, result);
        var drained := if hasSpoolDir then Drained(old(View()), maxRetries).0 else old(View());
        var answer := PostRun(drained.replies, maxRetries, false).result;
        var posted := PostWorld(drained, Request("/api/device/jobs/" + job + "/result", body), maxRetries);
        var name := SpoolName(Result, job, now);
        match ResultVerdict(answer)
        case Accepted => report == Delivered && View() == posted
        case Fenced =>
          report == FencedOut
          && View() == posted.(files := files)
          && if hasSpoolDir then KeepsOtherJobs(posted.files, files, job) else files == posted.files
        case Refused => report == RefusedError && View() == posted
        case Keep =>
          if !hasSpoolDir then report == Spooled && View() == posted
          else if diskTakes && name !in posted.files then
            report == Spooled
            && View() == posted.(files := posted.files[name := File(Stored(SpoolRecord(Result, job, body)), now)])
          else report == SpoolFailed(answer) && View() == posted
    {
      if hasSpoolDir {
        var _ := DrainSpool();
      }
      var body := ResultBody(token, result);
      var answer := PostTo(Request(ResultPath(job), body));
      if answer.Acked? {
        return Delivered;
      }
      if IsFenced(answer) {
        DropSpooledForJob(job);
        return FencedOut;
      }
      if IsPermanent(answer) {
        return RefusedError;
      }
      SpoolNameIs(Result, job, now);
      var ok := Spool(SpoolRecord(Result, job, body), now, diskTakes);
      return if ok then Spooled else SpoolFailed(answer);
    }

    /** Every file in the directory, whatever its name, older than the retention window. */
    method SweepSpool(now: int) returns (removed: nat)
      modifies this`files
      ensures hasSpoolDir ==> files == old(files) - Stale(old(files), now) && removed == |Stale(old(files), now)|
      ensures hasSpoolDir ==> forall f :: f in files <==>
        f in old(files) && old(files)[f].mtime >= now - 604_800_000_000_000
      ensures !hasSpoolDir ==> files == old(files) && removed == 0
    {
      removed := 0;
      if !hasSpoolDir {
        return;
      }
      var names := files.Keys;
      SweepEnds(files, now);
      while names != {}
        invariant names <= old(files).Keys
        invariant Swept(old(files), now, names, files, removed)
        decreases names
      {
        var f :| f in names;
        SweepOne(old(files), now, names, files, removed, f);
        if files[f].mtime < now - SPOOL_FILE_TTL {
          files := files - {f};
          removed := removed + 1;
        }
        names := names - {f};
      }
    }
  }

  /** What a sweep has made of the directory once only `todo` is left to look at. */
  ghost predicate Swept(all: Directory, now: int, todo: set<string>, files: Directory, removed: nat) {
    files == all - (Stale(all, now) - todo) && removed == |Stale(all, now) - todo|
  }

  lemma SweepEnds(all: Directory, now: int)
    ensures Swept(all, now, all.Keys, all, 0)
    ensures Stale(all, now) - {} == Stale(all, now)
  {
    assert Stale(all, now) - all.Keys == {};
  }

  lemma SweepOne(all: Directory, now: int, todo: set<string>, files: Directory, removed: nat, f: string)
    requires f in todo && f in all && Swept(all, now, todo, files, removed)
    ensures f in files && files[f] == all[f]
    ensures if all[f].mtime < now - SPOOL_FILE_TTL
            then Swept(all, now, todo - {f}, files - {f}, removed + 1)
            else Swept(all, now, todo - {f}, files, removed)
  {
    var stale := Stale(all, now);
    LeavesOut(stale, todo, f);
    if f in stale {
      assert all - (stale - todo + {f}) == all - (stale - todo) - {f};
    }
  }

  lemma LeavesOut<T>(all: set<T>, todo: set<T>, x: T)
    requires x in todo
    ensures all - (todo - {x}) == if x in all then all - todo + {x} else all - todo
  {
  }

  function Stale(files: Directory, now: int): set<string> {
    set f | f in files && files[f].mtime < now - SPOOL_FILE_TTL
  }

  // ----- what a drain does -----

  /** A drain removes a front part of the sorted listing, and nothing else. */
  ghost predicate RemovesPrefix(before: Directory, after: Directory, paths: seq<string>, k: nat) {
    k <= |paths| && after == before - (set f | f in paths[..k])
  }

  lemma RestStays(before: Directory, after: Directory, paths: seq<string>, i: nat)
    requires i < |paths| && forall a, b | 0 <= a < b < |paths| :: paths[a] != paths[b]
    requires after == before - {paths[i]} && forall f | f in paths[i..] :: f in before
    ensures forall f | f in paths[i + 1..] :: f in after
  {
    forall f | f in paths[i + 1..] ensures f in after {
      var j :| 0 <= j < |paths[i + 1..]| && paths[i + 1..][j] == f;
      assert f == paths[i + 1 + j] == paths[i..][j + 1];
      assert f in paths[i..] && f != paths[i];
    }
  }

  lemma OneLonger(paths: seq<string>, i: nat, k: nat)
    requires i < k <= |paths|
    ensures forall f :: f in paths[i..k] <==> f == paths[i] || f in paths[i + 1..k]
  {
    assert paths[i..k] == [paths[i]] + paths[i + 1..k];
  }

  lemma {:induction false} DrainFromPrefix(w: World, paths: seq<string>, i: nat, maxRetries: int) returns (k: nat)
    requires i <= |paths|
    requires forall a, b | 0 <= a < b < |paths| :: paths[a] != paths[b]
    requires forall f | f in paths[i..] :: f in w.files
    ensures var (w', pending) := DrainFrom(w, paths, i, maxRetries);
      && i <= k <= |paths| && pending == |paths| - k
      && w'.files == w.files - (set f | f in paths[i..k])
    decreases |paths| - i
  {
    k := i;
    if i < |paths| {
      var (w', stop) := DrainOne(w, paths[i], maxRetries);
      if !stop {
        RestStays(w.files, w'.files, paths, i);
        k := DrainFromPrefix(w', paths, i + 1, maxRetries);
        OneLonger(paths, i, k);
      }
    }
  }

  lemma SplitListing(paths: seq<string>, k: nat)
    requires k <= |paths|
    requires forall a, b | 0 <= a < b < |paths| :: paths[a] != paths[b]
    ensures forall f :: f in paths[k..] <==> f in paths && f !in paths[..k]
  {
    forall f | f in paths ensures f in paths[..k] || f in paths[k..] {
      var j :| 0 <= j < |paths| && paths[j] == f;
      if j < k {
        assert paths[..k][j] == f;
      } else {
        assert paths[k..][j - k] == f;
      }
    }
    assert forall a, b | 0 <= a < k && 0 <= b < |paths| - k :: paths[..k][a] != paths[k..][b];
  }

  /** DrainSpool removes a prefix of the sorted order, and the number it returns is exactly the
      number of spool files it leaves behind. */
  lemma DrainKeepsTheRest(w: World, maxRetries: int)
    ensures var (w', pending) := Drained(w, maxRetries);
      && (exists k :: RemovesPrefix(w.files, w'.files, Listing(JsonNames(w.files)), k)
                      && pending == |Listing(JsonNames(w.files))| - k)
      && pending == |JsonNames(w'.files)|
  {
    var paths := Listing(JsonNames(w.files));
    assert paths[0..] == paths;
    var k := DrainFromPrefix(w, paths, 0, maxRetries);
    var (w', pending) := Drained(w, maxRetries);
    assert paths[0..k] == paths[..k];
    assert RemovesPrefix(w.files, w'.files, paths, k);
    SplitListing(paths, k);
    DistinctSize(paths[k..]);
    assert JsonNames(w'.files) == set f | f in paths[k..];
  }

  /** What becomes of a listed file: unless it holds a record it goes, and nothing is posted. A record is
      posted to its job under the path of its kind; it stays, and stops the drain, exactly if the post
      failed other than by a fence or by an endpoint error that is final. */
  lemma DrainOneIs(w: World, f: string, maxRetries: int)
    ensures var (w', stop) := DrainOne(w, f, maxRetries);
      var run := PostRun(w.replies, maxRetries, false);
      if !(f in w.files && w.files[f].content.Stored?) then
        !stop && w' == World(w.files - {f}, w.replies, w.attempted)
      else
        var rec := w.files[f].content.rec;
        var path := "/api/device/jobs/" + rec.job + (if rec.kind.Logs? then "/logs" else "/result");
        && w'.attempted == w.attempted + Copies(Request(path, rec.body), run.attempts)
        && w'.replies == Endpoint.Drop(w.replies, run.consumed)
        && w'.files == (if stop then w.files else w.files - {f})
        && (stop <==> match run.result
                      case Acked => false
                      case Broken => true
                      case Failed(e) =>
                        && e.code != "fence_violation" && e.code != "job_terminal"
                        && (e.retryable || e.status >= 500))
  {
  }

  /** While the server answers everything with a 2xx, a drain leaves nothing behind and posts once for
      every record. */
  lemma {:induction false} DrainFromEmpties(w: World, paths: seq<string>, i: nat, maxRetries: int)
    requires i <= |paths| && AllAnswered(w.replies, |paths| - i)
    ensures DrainFrom(w, paths, i, maxRetries).1 == 0
    decreases |paths| - i
  {
    if i < |paths| {
      assert ReplyAt(w.replies, 0) == w.replies[0];
      FirstDecisiveReply(w.replies, maxRetries, false, 0);
      var (w', _) := DrainOne(w, paths[i], maxRetries);
      DrainOneIs(w, paths[i], maxRetries);
      assert AllAnswered(w'.replies, |paths| - i - 1);
      DrainFromEmpties(w', paths, i + 1, maxRetries);
    }
  }

  predicate AllAnswered(replies: seq<Reply>, n: nat) {
    |replies| >= n && forall k | 0 <= k < |replies| :: replies[k].Http? && 200 <= replies[k].status < 300
  }

  lemma DrainEmpties(w: World, maxRetries: int)
    requires AllAnswered(w.replies, |JsonNames(w.files)|)
    ensures var (w', pending) := Drained(w, maxRetries);
      pending == 0 && forall f | f in w'.files :: !IsJson(f)
  {
    var paths := Listing(JsonNames(w.files));
    DistinctSize(paths);
    assert JsonNames(w.files) == set f | f in paths;
    DrainFromEmpties(w, paths, 0, maxRetries);
    DrainKeepsTheRest(w, maxRetries);
    var w' := Drained(w, maxRetries).0;
    assert |JsonNames(w'.files)| == 0;
    assert forall f | f in w'.files :: IsJson(f) ==> f in JsonNames(w'.files);
  }
}
