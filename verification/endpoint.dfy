/** internal/agent/client.go, the request layer: one JSON post with retries, the decoding of
    error envelopes, and the classification its callers base their spooling on. */
module Endpoint {

  /** What the body of a response holds, as far as the client looks. */
  datatype Body = Empty | Decodable | Garbage | Envelope(code: string, retryable: bool)

  /** How one attempt ends. `CtxDone` stands for a context that was done when the attempt was
      due: the back-off in front of it returns the context's error. */
  datatype Reply =
    | NoReply                          // network error, or an error while reading the body
    | Oversize                         // more than maxResponseBytes
    | Http(status: int, body: Body)
    | CtxDone

  datatype EndpointError = EndpointError(status: int, code: string, retryable: bool)

  /** `Failed` carries an *EndpointError, `Broken` is every other error. */
  datatype PostResult = Acked | Failed(error: EndpointError) | Broken

  const DEFAULT_MAX_RETRIES: nat := 4

  function Retries(configured: int): nat {
    if configured <= 0 then DEFAULT_MAX_RETRIES else configured
  }

  function DecodeError(status: int, body: Body): EndpointError {
    if body.Envelope? && body.code != ""
    then EndpointError(status, body.code, body.retryable)
    else EndpointError(status, "http_error", false)
  }

  predicate IsFenced(r: PostResult) {
    r.Failed? && (r.error.code == "fence_violation" || r.error.code == "job_terminal")
  }

  predicate IsPermanent(r: PostResult) {
    r.Failed? && !r.error.retryable && r.error.status < 500
  }

  /** What a caller does with its payload after a post. */
  datatype Verdict = Accepted | Fenced | Refused | Keep

  /** ReportResult and DrainSpool look at the fence before the status. */
  function ResultVerdict(r: PostResult): Verdict {
    if r.Acked? then Accepted
    else if IsFenced(r) then Fenced
    else if IsPermanent(r) then Refused
    else Keep
  }

  /** PostLogs looks at the status alone. */
  function LogsVerdict(r: PostResult): Verdict {
    if r.Acked? then Accepted else if IsPermanent(r) then Refused else Keep
  }

  // ----- the retry loop -----

  /** Either the call is over, or it goes round again remembering the last error. */
  datatype Judgement = Stop(result: PostResult) | Again(last: PostResult)

  function Judge(reply: Reply, attempt: nat, wantBody: bool): Judgement {
    match reply
    case NoReply => Again(Broken)
    case Oversize => Stop(Broken)
    case CtxDone => if attempt == 0 then Again(Broken) else Stop(Broken)
    case Http(status, body) =>
      if 200 <= status < 300 then
        if wantBody && body == Garbage then Stop(Broken) else Stop(Acked)
      else if status == 408 || status >= 500 then Again(Failed(DecodeError(status, body)))
      else Stop(Failed(DecodeError(status, body)))
  }

  /** The reply to attempt `k`; a server with nothing more to say does not answer. */
  function ReplyAt(replies: seq<Reply>, k: nat): Reply {
    if k < |replies| then replies[k] else NoReply
  }

  function JudgeAt(replies: seq<Reply>, k: nat, wantBody: bool): Judgement {
    Judge(ReplyAt(replies, k), k, wantBody)
  }

  /** The wire to the control plane: replies still to come, and every request handed to the HTTP
      client, whether or not it got through. */
  class Wire<Request> {
    var replies: seq<Reply>
    var attempted: seq<Request>

    constructor (replies: seq<Reply>)
      ensures this.replies == replies && attempted == []
    {
      this.replies := replies;
      attempted := [];
    }

    method Next() returns (r: Reply)
      modifies this`replies
      ensures r == ReplyAt(old(replies), 0)
      ensures replies == Drop(old(replies), 1)
    {
      r := ReplyAt(replies, 0);
      replies := Drop(replies, 1);
    }

    /** One turn of the loop up to its reply, `script` being the replies the call began with. */
    method Attempt(request: Request, attempt: nat, ghost script: seq<Reply>, ghost before: seq<Request>)
      returns (r: Reply)
      requires replies == Drop(script, attempt) && attempted == before + Copies(request, attempt)
      modifies this
      ensures r == ReplyAt(script, attempt) && replies == Drop(script, attempt + 1)
      ensures attempted ==
              before + Copies(request, if r.CtxDone? && attempt > 0 then attempt else attempt + 1)
    {
      r := Next();
      if !(r.CtxDone? && attempt > 0) {
        attempted := attempted + [request];
        assert Copies(request, attempt + 1) == Copies(request, attempt) + [request];
      }
    }

    /** `Client.post`. Attempt 0 is always made, even if the context is done and nothing goes out; a
        context done before a later attempt ends the call without making it. */
    method Post(request: Request, maxRetries: int, wantBody: bool) returns (result: PostResult)
      modifies this
      ensures var run := PostRun(old(replies), maxRetries, wantBody);
              && result == run.result
              && replies == Drop(old(replies), run.consumed)
              && attempted == old(attempted) + Copies(request, run.attempts)
    {
      var retries := Retries(maxRetries);
      var last := Broken;
      var attempt := 0;
      ghost var script, before := replies, attempted;
      while attempt <= retries
        invariant 0 <= attempt <= retries + 1
        invariant replies == Drop(script, attempt) && attempted == before + Copies(request, attempt)
        invariant PostRun(script, maxRetries, wantBody) ==
                  if attempt <= retries then RunFrom(script, attempt, retries, wantBody)
                  else Run(last, attempt, attempt)
      {
        var reply := Attempt(request, attempt, script, before);
        match Judge(reply, attempt, wantBody) {
          case Stop(r) => return r;
          case Again(e) => last := e;
        }
        attempt := attempt + 1;
      }
      return last;
    }
  }

  function Copies<T>(x: T, n: nat): seq<T> {
    seq(n, _ => x)
  }

  function Drop(replies: seq<Reply>, n: nat): seq<Reply> {
    if n <= |replies| then replies[n..] else []
  }

  datatype Run = Run(result: PostResult, consumed: nat, attempts: nat)

  function PostRun(replies: seq<Reply>, maxRetries: int, wantBody: bool): Run {
    RunFrom(replies, 0, Retries(maxRetries), wantBody)
  }

  function RunFrom(replies: seq<Reply>, attempt: nat, retries: nat, wantBody: bool): Run
    requires attempt <= retries
    decreases retries - attempt
  {
    var attempts := if ReplyAt(replies, attempt).CtxDone? && attempt > 0 then attempt else attempt + 1;
    match JudgeAt(replies, attempt, wantBody)
    case Stop(r) => Run(r, attempt + 1, attempts)
    case Again(e) =>
      if attempt == retries then Run(e, attempt + 1, attempts)
      else RunFrom(replies, attempt + 1, retries, wantBody)
  }

  /** The first attempt that is not transient decides the call. */
  lemma {:induction false} StopsAt(replies: seq<Reply>, k: nat, retries: nat, wantBody: bool, from: nat := 0)
    requires from <= k <= retries
    requires forall j | from <= j < k :: JudgeAt(replies, j, wantBody).Again?
    requires JudgeAt(replies, k, wantBody).Stop?
    ensures RunFrom(replies, from, retries, wantBody) ==
            Run(JudgeAt(replies, k, wantBody).result, k + 1,
                if ReplyAt(replies, k).CtxDone? then k else k + 1)
    decreases k - from
  {
    if from < k {
      StopsAt(replies, k, retries, wantBody, from + 1);
    }
  }

  /** Without such an attempt the last error is surfaced after retries + 1 requests. */
  lemma {:induction false} NeverStops(replies: seq<Reply>, retries: nat, wantBody: bool, from: nat := 0)
    requires from <= retries
    requires forall j | from <= j <= retries :: JudgeAt(replies, j, wantBody).Again?
    ensures RunFrom(replies, from, retries, wantBody) ==
            Run(JudgeAt(replies, retries, wantBody).last, retries + 1, retries + 1)
    decreases retries - from
  {
    if from < retries {
      NeverStops(replies, retries, wantBody, from + 1);
    }
  }

  /** Some attempt stops the call, or none does. */
  lemma {:induction false} FirstStop(replies: seq<Reply>, retries: nat, wantBody: bool, from: nat) returns (k: nat)
    requires from <= retries + 1
    ensures from <= k <= retries + 1
    ensures forall j | from <= j < k :: JudgeAt(replies, j, wantBody).Again?
    ensures k <= retries ==> JudgeAt(replies, k, wantBody).Stop?
    decreases retries + 1 - from
  {
    if from == retries + 1 || JudgeAt(replies, from, wantBody).Stop? {
      k := from;
    } else {
      k := FirstStop(replies, retries, wantBody, from + 1);
    }
  }

  ghost predicate DecidedBy(replies: seq<Reply>, retries: nat, wantBody: bool, k: nat) {
    && k <= retries
    && (forall j | 0 <= j < k :: JudgeAt(replies, j, wantBody).Again?)
    && JudgeAt(replies, k, wantBody).Stop?
  }

  predicate Success(reply: Reply, wantBody: bool) {
    reply.Http? && 200 <= reply.status < 300 && !(wantBody && reply.body == Garbage)
  }

  lemma DecidedOnce(replies: seq<Reply>, retries: nat, wantBody: bool, k: nat, j: nat)
    requires DecidedBy(replies, retries, wantBody, k) && j != k
    ensures !DecidedBy(replies, retries, wantBody, j)
  {
    if j < k {
      assert JudgeAt(replies, j, wantBody).Again?;
    } else {
      assert JudgeAt(replies, k, wantBody).Stop?;
    }
  }

  /** A call that an attempt decides succeeds exactly when the reply to it is a usable 2xx. */
  lemma DecidedRun(replies: seq<Reply>, maxRetries: int, wantBody: bool, k: nat)
    requires DecidedBy(replies, Retries(maxRetries), wantBody, k)
    ensures var run := PostRun(replies, maxRetries, wantBody);
      && (run.result.Acked? <==> Success(ReplyAt(replies, k), wantBody))
      && 1 <= run.attempts <= k + 1
  {
    StopsAt(replies, k, Retries(maxRetries), wantBody);
  }

  /** The call succeeds exactly when a usable 2xx answers one of the first retries + 1 attempts and
      nothing before it was decisive. */
  lemma PostSucceedsIff(replies: seq<Reply>, maxRetries: int, wantBody: bool)
    ensures PostRun(replies, maxRetries, wantBody).result.Acked? <==>
            exists k :: DecidedBy(replies, Retries(maxRetries), wantBody, k) && Success(ReplyAt(replies, k), wantBody)
  {
    var retries := Retries(maxRetries);
    var k := FirstStop(replies, retries, wantBody, 0);
    if k <= retries {
      assert DecidedBy(replies, retries, wantBody, k);
      DecidedRun(replies, maxRetries, wantBody, k);
      forall j: nat | j != k ensures !DecidedBy(replies, retries, wantBody, j) {
        DecidedOnce(replies, retries, wantBody, k, j);
      }
    } else {
      NeverStops(replies, retries, wantBody);
      assert JudgeAt(replies, retries, wantBody).Again?;
      forall j: nat ensures !DecidedBy(replies, retries, wantBody, j) {
        if j <= retries { assert JudgeAt(replies, j, wantBody).Again?; }
      }
    }
  }

  /** Between one and retries + 1 attempts are made, and an answered one is followed by another only if
      the answer was a 408 or a 5xx. */
  lemma OnlyTransientIsRetried(replies: seq<Reply>, maxRetries: int, wantBody: bool, j: nat)
    ensures var run := PostRun(replies, maxRetries, wantBody);
      && 1 <= run.attempts <= Retries(maxRetries) + 1
      && (j + 1 < run.attempts && ReplyAt(replies, j).Http? ==>
            ReplyAt(replies, j).status == 408 || ReplyAt(replies, j).status >= 500)
  {
    var retries := Retries(maxRetries);
    var k := FirstStop(replies, retries, wantBody, 0);
    if k <= retries {
      DecidedRun(replies, maxRetries, wantBody, k);
    } else {
      NeverStops(replies, retries, wantBody);
    }
    if j < k {
      assert JudgeAt(replies, j, wantBody).Again?;
    }
  }

  predicate Transient(reply: Reply) {
    reply.NoReply? || (reply.Http? && (reply.status == 408 || reply.status >= 500))
  }

  /** The endpoint error of an answer: its status, and what the envelope says if it names a code. */
  predicate Surfaces(r: PostResult, status: int, body: Body) {
    && r.Failed? && r.error.status == status
    && match body
       case Envelope(code, retryable) =>
         if code == "" then r.error.code == "http_error" && !r.error.retryable
         else r.error.code == code && r.error.retryable == retryable
       case _ => r.error.code == "http_error" && !r.error.retryable
  }

  /** Up to the k-th reply the call goes on. */
  predicate GoesOnUpTo(replies: seq<Reply>, k: nat) {
    forall j | 0 <= j < k :: Transient(ReplyAt(replies, j)) || (j == 0 && ReplyAt(replies, j).CtxDone?)
  }

  lemma UpToIsAgain(replies: seq<Reply>, k: nat, wantBody: bool)
    requires GoesOnUpTo(replies, k)
    ensures forall j | 0 <= j < k :: JudgeAt(replies, j, wantBody).Again?
  {
    forall j | 0 <= j < k ensures JudgeAt(replies, j, wantBody).Again? {
      assert Transient(ReplyAt(replies, j)) || (j == 0 && ReplyAt(replies, j).CtxDone?);
    }
  }

  /** The first reply that is neither a failure to answer nor a 408 nor a 5xx decides the call: an
      oversized answer and a 2xx whose body does not decode are plain errors, any other 2xx is success,
      and any other answer is surfaced with its status, code and retryable flag. */
  lemma FirstDecisiveReply(replies: seq<Reply>, maxRetries: int, wantBody: bool, k: nat)
    requires k <= (if maxRetries <= 0 then 4 else maxRetries)
    requires GoesOnUpTo(replies, k)
    ensures var run := PostRun(replies, maxRetries, wantBody);
      match ReplyAt(replies, k)
      case NoReply => true
      case Oversize => run == Run(Broken, k + 1, k + 1)
      case CtxDone => k > 0 ==> run == Run(Broken, k + 1, k)
      case Http(status, body) =>
        if 200 <= status < 300 then
          run == Run(if wantBody && body == Garbage then Broken else Acked, k + 1, k + 1)
        else if status == 408 || status >= 500 then true
        else Surfaces(run.result, status, body) && run.consumed == run.attempts == k + 1
  {
    UpToIsAgain(replies, k, wantBody);
    if JudgeAt(replies, k, wantBody).Stop? {
      StopsAt(replies, k, Retries(maxRetries), wantBody);
    }
  }

  /** Without such a reply all attempts are made, five when no number is configured, and the last
      failure is surfaced. */
  lemma NoDecisiveReply(replies: seq<Reply>, maxRetries: int, wantBody: bool)
    requires GoesOnUpTo(replies, if maxRetries <= 0 then 5 else maxRetries + 1)
    ensures var run := PostRun(replies, maxRetries, wantBody);
      var n := if maxRetries <= 0 then 5 else maxRetries + 1;
      && run.consumed == run.attempts == n
      && match ReplyAt(replies, n - 1)
         case Http(status, body) => Surfaces(run.result, status, body)
         case _ => run.result == Broken
  {
    var retries := Retries(maxRetries);
    UpToIsAgain(replies, retries + 1, wantBody);
    NeverStops(replies, retries, wantBody);
    assert JudgeAt(replies, retries, wantBody).Again?;
  }

  /** What the callers make of it: a decisive refusal is a fence by its code alone; without one it is
      final unless it is retryable; an answer that cannot be used and a lost one keep the payload. */
  lemma AnswerDecidesVerdict(replies: seq<Reply>, maxRetries: int, k: nat, status: int, body: Body)
    requires k <= (if maxRetries <= 0 then 4 else maxRetries) && GoesOnUpTo(replies, k)
    requires ReplyAt(replies, k) == Http(status, body) && status != 408 && status < 500
    ensures var r := PostRun(replies, maxRetries, false).result;
      var named := body.Envelope? && body.code != "";
      if 200 <= status < 300 then ResultVerdict(r) == Accepted && LogsVerdict(r) == Accepted
      else
        && ResultVerdict(r) == (if named && (body.code == "fence_violation" || body.code == "job_terminal") then Fenced
                                else if named && body.retryable then Keep
                                else Refused)
        && LogsVerdict(r) == (if named && body.retryable then Keep else Refused)
  {
    FirstDecisiveReply(replies, maxRetries, false, k);
  }

  /** And a call that only met transient failures keeps the payload of a result when the last one was a
      5xx or no answer at all, short of a 5xx that carries a fence. */
  lemma SilenceKeeps(replies: seq<Reply>, maxRetries: int)
    requires GoesOnUpTo(replies, if maxRetries <= 0 then 5 else maxRetries + 1)
    ensures var r := PostRun(replies, maxRetries, false).result;
      match ReplyAt(replies, if maxRetries <= 0 then 4 else maxRetries)
      case Http(status, body) =>
        if body.Envelope? && (body.code == "fence_violation" || body.code == "job_terminal")
        then ResultVerdict(r) == Fenced
        else status >= 500 ==> ResultVerdict(r) == Keep
      case _ => ResultVerdict(r) == Keep
  {
    NoDecisiveReply(replies, maxRetries, false);
  }

  /** The comment on PostLogs promises that a transient failure is spooled. When every attempt
      meets one, the payload is kept exactly when the last of them was not a 408 without the
      retryable flag: that one is below 500 and counts as a permanent rejection. */
  lemma TransientFailureIsKeptIff(replies: seq<Reply>, maxRetries: int)
    requires forall k | 0 <= k <= Retries(maxRetries) :: Transient(ReplyAt(replies, k))
    ensures var last := ReplyAt(replies, Retries(maxRetries));
      LogsVerdict(PostRun(replies, maxRetries, false).result) == Keep <==>
      !(last.Http? && last.status == 408 &&
        !(last.body.Envelope? && last.body.code != "" && last.body.retryable))
  {
    var retries := Retries(maxRetries);
    forall j | 0 <= j <= retries ensures JudgeAt(replies, j, false).Again? {
      assert Transient(ReplyAt(replies, j));
    }
    NeverStops(replies, retries, false);
    assert Transient(ReplyAt(replies, retries));
  }

  /** A server that answers 408 five times, with no envelope: the log batch is dropped. */
  lemma RepeatedTimeoutIsDropped()
    ensures var script := Copies(Http(408, Empty), 5);
      && (forall k | 0 <= k <= 4 :: Transient(ReplyAt(script, k)))
      && LogsVerdict(PostRun(script, 4, false).result) == Refused
  {
    var script := Copies(Http(408, Empty), 5);
    NeverStops(script, 4, false);
  }
}
