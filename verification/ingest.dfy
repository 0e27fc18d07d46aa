/** internal/ingest/ingest.go: delivery of one envelope with the durable spool, and what that adds
    up to over many deliveries to one endpoint with one key (the scoped spool directory). The
    receiver may take a request and still not be seen to: its answer can get lost. */
module Ingest {
  import opened Text
  import opened Protocol
  import opened Baseline
  import opened Schema
  import opened Split
  import SD = SpoolDir

  /** What an entity sends: all its records, or the difference to the baseline. */
  datatype Content = Records(records: seq<Record>) | Diff(delta: EntityDelta)

  datatype Envelope = Envelope(scanID: string, baseScanID: Option<string>, entities: map<string, Content>)

  /** One request: the envelope cut down to a group, with its chunk descriptor. */
  datatype Body = Body(
    scanID: string, baseScanID: Option<string>, entities: map<string, Content>,
    index: nat, count: nat, keys: seq<string>)

  function BodyOf(env: Envelope, groups: Groups, i: nat): Body
    requires i < |groups|
  {
    Body(env.scanID, env.baseScanID, Restrict(env.entities, groups[i]), i, |groups|, groups[i])
  }

  function Bodies(env: Envelope, groups: Groups): seq<Body> {
    seq(|groups|, i requires 0 <= i < |groups| => BodyOf(env, groups, i))
  }

  /** Scan id and chunk index in one name. */
  function FileName(scanID: string, index: nat): string {
    scanID + ['-'] + Dec(index) + ".json"
  }

  lemma FileNameIs(scanID: string, index: nat)
    ensures FileName(scanID, index) == scanID + "-" + Dec(index) + ".json"
  {
  }

  lemma FileNameInjective(s1: string, i1: nat, s2: string, i2: nat)
    requires FileName(s1, i1) == FileName(s2, i2)
    ensures s1 == s2 && i1 == i2
  {
    var n1, n2 := FileName(s1, i1), FileName(s2, i2);
    assert n1[..|n1| - 5] == s1 + ['-'] + Dec(i1);
    assert n2[..|n2| - 5] == s2 + ['-'] + Dec(i2);
    SuffixUnique(s1, s2, '-', i1, i2);
  }

  type SpoolDir = map<string, Body>

  // ----- the receiver -----

  /** What becomes of one attempt: taken and acknowledged, taken with the answer lost, or not taken. */
  datatype Answer = Acknowledged | AnswerLost | NotTaken

  /** A receiver with nothing more to say takes nothing. */
  function AnswerAt(answers: seq<Answer>, k: nat): Answer {
    if k < |answers| then answers[k] else NotTaken
  }

  function Rest(answers: seq<Answer>, n: nat): seq<Answer> {
    if n <= |answers| then answers[n..] else []
  }

  lemma RestRest(answers: seq<Answer>, m: nat, n: nat)
    ensures Rest(Rest(answers, m), n) == Rest(answers, m + n)
    ensures AnswerAt(Rest(answers, m), n) == AnswerAt(answers, m + n)
  {
  }

  /** One of the first n attempts is acknowledged. */
  predicate Taken(answers: seq<Answer>, n: nat) {
    exists k :: 0 <= k < n && AnswerAt(answers, k).Acknowledged?
  }

  /** How many of up to n attempts are made. */
  function Tries(answers: seq<Answer>, n: nat): nat {
    if n <= 1 || AnswerAt(answers, 0).Acknowledged? then 1 else 1 + Tries(Rest(answers, 1), n - 1)
  }

  /** The attempts stop at the first one that is acknowledged, or else after n. */
  lemma {:induction false} TriesAre(answers: seq<Answer>, n: nat, m: nat)
    requires 1 <= m <= n && forall j | 0 <= j < m - 1 :: !AnswerAt(answers, j).Acknowledged?
    requires m == n || AnswerAt(answers, m - 1).Acknowledged?
    ensures Tries(answers, n) == m
    decreases n
  {
    if n > 1 && !AnswerAt(answers, 0).Acknowledged? {
      assert m > 1;
      RestRest(answers, 1, m - 2);
      forall j | 0 <= j < m - 2 ensures !AnswerAt(Rest(answers, 1), j).Acknowledged? {
        RestRest(answers, 1, j);
      }
      TriesAre(Rest(answers, 1), n - 1, m - 1);
    }
  }

  /** The answers left after c bodies with n attempts each. */
  function After(answers: seq<Answer>, n: nat, c: nat): seq<Answer> {
    if c == 0 then answers
    else
      var left := After(answers, n, c - 1);
      Rest(left, Tries(left, n))
  }

  /** Each of c bodies finds an acknowledgement among the answers that fall to its n attempts. */
  predicate EachTaken(answers: seq<Answer>, n: nat, c: nat) {
    c == 0 || (EachTaken(answers, n, c - 1) && Taken(After(answers, n, c - 1), n))
  }

  lemma {:induction false} AfterMore(answers: seq<Answer>, n: nat, c: nat, d: nat)
    ensures After(After(answers, n, c), n, d) == After(answers, n, c + d)
    ensures EachTaken(answers, n, c + d) <==> EachTaken(answers, n, c) && EachTaken(After(answers, n, c), n, d)
    decreases d
  {
    if d > 0 {
      AfterMore(answers, n, c, d - 1);
      assert c + d - 1 == c + (d - 1);
    }
  }

  /** So it is when there are enough answers and no n of them in a row go without an acknowledgement. */
  lemma {:induction false} NoGapsSuffice(answers: seq<Answer>, n: nat, c: nat)
    requires n >= 1 && |answers| >= n * c
    requires forall i: nat | i + n <= |answers| :: Taken(Rest(answers, i), n)
    ensures EachTaken(answers, n, c)
    ensures exists m: nat :: m <= n * c && After(answers, n, c) == Rest(answers, m)
    decreases c
  {
    if c == 0 {
      assert After(answers, n, 0) == Rest(answers, 0);
    } else {
      assert n * c == n * (c - 1) + n;
      NoGapsSuffice(answers, n, c - 1);
      var m: nat :| m <= n * (c - 1) && After(answers, n, c - 1) == Rest(answers, m);
      assert Taken(Rest(answers, m), n);
      TriesBound(Rest(answers, m), n);
      RestRest(answers, m, Tries(Rest(answers, m), n));
    }
  }

  lemma {:induction false} TriesBound(answers: seq<Answer>, n: nat)
    requires n >= 1
    ensures 1 <= Tries(answers, n) <= n
    decreases n
  {
    if n > 1 {
      TriesBound(Rest(answers, 1), n - 1);
    }
  }

  class Receiver {
    var answers: seq<Answer>
    var got: seq<Body>

    constructor (answers: seq<Answer>)
      ensures this.answers == answers && got == []
    {
      this.answers, got := answers, [];
    }

    method Request(body: Body) returns (ok: bool)
      modifies this
      ensures ok <==> AnswerAt(old(answers), 0).Acknowledged?
      ensures got == if AnswerAt(old(answers), 0).NotTaken? then old(got) else old(got) + [body]
      ensures answers == Rest(old(answers), 1)
    {
      var a := AnswerAt(answers, 0);
      answers := Rest(answers, 1);
      if !a.NotTaken? {
        got := got + [body];
      }
      ok := a.Acknowledged?;
    }
  }

  /** Nothing is un-received, and what is new is a copy of a body in `from`. */
  ghost predicate Received(before: seq<Body>, after: seq<Body>, from: set<Body>) {
    before <= after && forall i | |before| <= i < |after| :: after[i] in from
  }

  lemma ReceivedTrans(a: seq<Body>, b: seq<Body>, c: seq<Body>, s: set<Body>, t: set<Body>, u: set<Body>)
    requires Received(a, b, s) && Received(b, c, t) && s <= u && t <= u
    ensures Received(a, c, u)
  {
    forall i | |a| <= i < |c| ensures c[i] in u {
      if i < |b| { assert c[i] == b[i]; }
    }
  }

  /** Delivery to one endpoint with one key. */
  class Outbox {
    const hasSpoolDir: bool
    const maxRetries: int
    const receiver: Receiver
    var spool: SpoolDir

    constructor (hasSpoolDir: bool, maxRetries: int, receiver: Receiver, spool: SpoolDir)
      ensures this.hasSpoolDir == hasSpoolDir && this.receiver == receiver && this.spool == spool
    {
      this.hasSpoolDir, this.maxRetries := hasSpoolDir, maxRetries;
      this.receiver, this.spool := receiver, spool;
    }

    /** `Options.post`: true only for an acknowledged attempt. */
    method Post(body: Body) returns (ok: bool)
      modifies receiver
      ensures Received(old(receiver.got), receiver.got, {body})
      ensures ok ==> body in receiver.got
      ensures var n := if maxRetries < 1 then 1 else maxRetries;
        && (ok <==> exists k :: 0 <= k < n && AnswerAt(old(receiver.answers), k).Acknowledged?)
        && receiver.answers == Rest(old(receiver.answers), Tries(old(receiver.answers), n))
    {
      var attempts := if maxRetries < 1 then 1 else maxRetries;
      var a := 0;
      ghost var answers := receiver.answers;
      while a < attempts
        invariant 0 <= a <= attempts
        invariant Received(old(receiver.got), receiver.got, {body})
        invariant receiver.answers == Rest(answers, a)
        invariant forall k | 0 <= k < a :: !AnswerAt(answers, k).Acknowledged?
      {
        RestRest(answers, a, 0);
        RestRest(answers, a, 1);
        ok := receiver.Request(body);
        if ok {
          TriesAre(answers, attempts, a + 1);
          return;
        }
        a := a + 1;
      }
      TriesAre(answers, attempts, attempts);
      ok := false;
    }

    /** How often a body is attempted. */
    function Attempts(): nat {
      if maxRetries < 1 then 1 else maxRetries
    }

    /** How many files the spool has. */
    function Files(): nat
      reads this
    {
      if hasSpoolDir then |spool| else 0
    }

    /** One spooled file: it goes if it is taken. */
    method DrainFile(f: string) returns (taken: bool)
      requires f in spool
      modifies this`spool, receiver
      ensures taken <==> Taken(old(receiver.answers), Attempts())
      ensures receiver.answers == Rest(old(receiver.answers), Tries(old(receiver.answers), Attempts()))
      ensures Received(old(receiver.got), receiver.got, {old(spool)[f]})
      ensures taken ==> old(spool)[f] in receiver.got
      ensures spool == if taken then old(spool) - {f} else old(spool)
    {
      taken := Post(spool[f]);
      if taken {
        spool := spool - {f};
      }
    }

    /** `Options.drain`: files that were taken go, the others stay; true only if none stays. */
    method Drain() returns (ok: bool)
      modifies this`spool, receiver
      ensures DrainStep(old(View()), View())
      ensures hasSpoolDir ==> (ok <==> spool == map[])
      ensures !hasSpoolDir ==> ok && spool == old(spool) && receiver.got == old(receiver.got)
      ensures ok <==> EachTaken(old(receiver.answers), Attempts(), old(Files()))
      ensures receiver.answers == After(old(receiver.answers), Attempts(), old(Files()))
    {
      ok := true;
      if !hasSpoolDir {
        return;
      }
      var todo := spool.Keys;
      ghost var done: nat := 0;
      while todo != {}
        invariant todo <= spool.Keys
        invariant DrainStep(old(View()), View())
        invariant ok <==> spool.Keys == todo
        invariant done + |todo| == |old(spool)|
        invariant ok <==> EachTaken(old(receiver.answers), Attempts(), done)
        invariant receiver.answers == After(old(receiver.answers), Attempts(), done)
        decreases todo
      {
        var f :| f in todo;
        ghost var before := View();
        var taken := DrainFile(f);
        DrainOneMore(old(View()), before, f, receiver.got);
        todo := todo - {f};
        done := done + 1;
        if !taken {
          ok := false;
        }
      }
    }

    /** `Options.spool`; `diskTakes` is whether the write succeeds. */
    method SpoolBody(index: nat, body: Body, diskTakes: bool) returns (ok: bool)
      modifies this`spool
      ensures ok == (!hasSpoolDir || diskTakes)
      ensures spool == if hasSpoolDir && diskTakes then old(spool)[FileName(body.scanID, index) := body] else old(spool)
    {
      if !hasSpoolDir {
        return true;
      }
      if diskTakes {
        spool := spool[FileName(body.scanID, index) := body];
      }
      return diskTakes;
    }

    ghost function View(): Delivery
      reads this, receiver
    {
      Delivery(receiver.got, spool)
    }

    /** One chunk: posted, or else spooled. */
    method SendOne(index: nat, body: Body, diskTakes: bool) returns (taken: bool, ok: bool)
      requires FileName(body.scanID, index) !in spool
      modifies this`spool, receiver
      ensures taken <==> Taken(old(receiver.answers), Attempts())
      ensures receiver.answers == Rest(old(receiver.answers), Tries(old(receiver.answers), Attempts()))
      ensures OneMore(old(View()), body, FileName(body.scanID, index), View())
      ensures taken ==> ok && body in receiver.got && spool == old(spool)
      ensures !taken ==> ok == (!hasSpoolDir || diskTakes)
      ensures !taken && ok && hasSpoolDir ==> spool == old(spool)[FileName(body.scanID, index) := body]
      ensures !ok || !hasSpoolDir ==> spool == old(spool)
    {
      taken := Post(body);
      ok := true;
      if !taken {
        ok := SpoolBody(index, body, diskTakes);
      }
    }

    /** The send loop over the groups' bodies; `failed` comes from the drain before it, and `diskTakes`
        says of each index whether writing its file succeeds. */
    method SendBodies(scanID: string, bodies: seq<Body>, failed: bool, diskTakes: nat -> bool)
      returns (ok: bool, failed': bool)
      requires hasSpoolDir ==> (failed <==> spool != map[])
      requires forall i | 0 <= i < |bodies| :: bodies[i].scanID == scanID && FileName(scanID, i) !in spool
      modifies this`spool, receiver
      ensures Bounded(old(View()), bodies, scanID, View())
      ensures (forall i: nat :: diskTakes(i)) ==> ok
      ensures Grows(old(View()), View())
      ensures ok && (hasSpoolDir || !failed') ==> SendStep(old(View()), bodies, scanID, View())
      ensures ok && hasSpoolDir ==> (failed' <==> spool != map[])
      ensures failed ==> failed'
      ensures !hasSpoolDir ==> spool == old(spool)
      ensures ok ==> (failed' <==> failed || !EachTaken(old(receiver.answers), Attempts(), |bodies|))
      ensures ok ==> receiver.answers == After(old(receiver.answers), Attempts(), |bodies|)
    {
      failed' := failed;
      ghost var d := View();
      for i := 0 to |bodies|
        invariant Bounded(d, bodies[..i], scanID, View()) && Grows(d, View())
        invariant hasSpoolDir || !failed' ==> SendStep(d, bodies[..i], scanID, View())
        invariant hasSpoolDir ==> (failed' <==> spool != map[])
        invariant failed ==> failed'
        invariant !hasSpoolDir ==> spool == d.spool
        invariant failed' <==> failed || !EachTaken(old(receiver.answers), Attempts(), i)
        invariant receiver.answers == After(old(receiver.answers), Attempts(), i)
        invariant forall j | i <= j < |bodies| :: FileName(scanID, j) !in spool
      {
        ghost var before := View();
        var taken, wrote := SendOne(i, bodies[i], diskTakes(i));
        OthersFree(bodies, i, scanID, before, View());
        TurnBounded(d, bodies, i, scanID, before, View());
        if !wrote {
          return false, failed';
        }
        if !taken {
          failed' := true;
        }
        assert bodies[..i + 1] == bodies[..i] + [bodies[i]];
        if hasSpoolDir || !failed' {
          StepMore(d, bodies[..i], bodies[i], scanID, before, View());
        }
      }
      assert bodies[..|bodies|] == bodies;
      ok := true;
    }

    /** The drain and the send loop; None is an error return. */
    method DrainAndSend(scanID: string, bodies: seq<Body>, diskTakes: nat -> bool) returns (delivered: Option<bool>)
      requires forall i | 0 <= i < |bodies| :: bodies[i].scanID == scanID
      requires forall i: nat :: FileName(scanID, i) !in spool
      modifies this`spool, receiver
      ensures Bounded(old(View()), bodies, scanID, View()) && OldKept(old(View()), View())
      ensures (forall i: nat :: diskTakes(i)) ==> delivered.Some?
      ensures delivered.Some? && hasSpoolDir ==>
        SendStep(old(View()), bodies, scanID, View()) && (delivered.value <==> spool == map[])
      ensures delivered == Some(true) ==> forall b | b in bodies :: b in receiver.got
      ensures delivered.Some? ==>
        (delivered.value <==> EachTaken(old(receiver.answers), Attempts(), old(Files()) + |bodies|))
    {
      ghost var d := View();
      var drained := Drain();
      ghost var d1 := View();
      StillFree(d, d1, scanID);
      var ok, failed := SendBodies(scanID, bodies, !drained, diskTakes);
      DrainedAndSent(d, d1, bodies, scanID, View());
      AfterMore(old(receiver.answers), Attempts(), old(Files()), |bodies|);
      if !ok {
        return None;
      }
      if !failed {
        AllTaken(d1, bodies, scanID, View());
      }
      return Some(!failed);
    }

    /** `Send`, after the endpoint was checked and the spool directory scoped. None is an error
        return, after which the caller does not save its baseline; what was in the spool is then still
        safe. */
    method Send(env: Envelope, size: Size, chunkBytes: int, diskTakes: nat -> bool) returns (r: Option<Result>)
      requires forall i: nat :: FileName(env.scanID, i) !in spool
      modifies this`spool, receiver
      ensures Bounded(old(View()), BodiesOf(env, size, chunkBytes), env.scanID, View())
      ensures (forall i: nat :: diskTakes(i)) ==> r.Some?
      ensures OldKept(old(View()), View())
      ensures r.Some? && hasSpoolDir ==> SendStep(old(View()), BodiesOf(env, size, chunkBytes), env.scanID, View())
      ensures r.Some? && hasSpoolDir ==> (r.value.delivered <==> spool == map[]) && r.value.spooled == |spool|
      ensures r.Some? && r.value.delivered ==>
        forall b | b in BodiesOf(env, size, chunkBytes) :: b in receiver.got
      ensures r.Some? ==> r.value.chunks == |BodiesOf(env, size, chunkBytes)|
      ensures r.Some? ==>
        (r.value.delivered <==>
         EachTaken(old(receiver.answers), Attempts(), old(Files()) + |BodiesOf(env, size, chunkBytes)|))
    {
      var bodies := MakeBodies(env, size, chunkBytes);
      var delivered := DrainAndSend(env.scanID, bodies, diskTakes);
      if delivered.None? {
        return None;
      }
      return Some(Result(delivered.value, |bodies|, if hasSpoolDir then |spool| else 0));
    }
  }

  ghost predicate DrainStep(d: Delivery, d1: Delivery) {
    && Received(d.got, d1.got, d.spool.Values)
    && (forall f | f in d1.spool :: f in d.spool && d1.spool[f] == d.spool[f])
    && (forall f | f in d.spool && f !in d1.spool :: d.spool[f] in d1.got)
  }

  /** One more file was attempted; whether or not it goes, this is still a drain. */
  lemma DrainOneMore(d: Delivery, before: Delivery, f: string, got: seq<Body>)
    requires DrainStep(d, before) && f in before.spool
    requires Received(before.got, got, {before.spool[f]})
    ensures DrainStep(d, Delivery(got, before.spool))
    ensures before.spool[f] in got ==> DrainStep(d, Delivery(got, before.spool - {f}))
  {
    ReceivedTrans(d.got, before.got, got, d.spool.Values, {before.spool[f]}, d.spool.Values);
    forall x | x in d.spool && x !in before.spool ensures d.spool[x] in got {
      GotStays(before, Delivery(got, before.spool), d.spool[x]);
    }
  }

  lemma DrainedAndSent(d: Delivery, d1: Delivery, bodies: seq<Body>, scanID: string, d2: Delivery)
    requires DrainStep(d, d1) && Bounded(d1, bodies, scanID, d2) && Grows(d1, d2)
    ensures Bounded(d, bodies, scanID, d2) && OldKept(d, d2)
    ensures SendStep(d1, bodies, scanID, d2) ==> SendStep(d, bodies, scanID, d2)
  {
    BoundedAfterDrain(d, d1, bodies, scanID, d2);
    KeptAfterDrain(d, d1, d2);
  }

  lemma StillFree(d: Delivery, d1: Delivery, scanID: string)
    requires DrainStep(d, d1) && forall i: nat :: FileName(scanID, i) !in d.spool
    ensures forall i: nat :: FileName(scanID, i) !in d1.spool
  {
  }

  lemma GotStays(a: Delivery, b: Delivery, x: Body)
    requires a.got <= b.got && x in a.got
    ensures x in b.got
  {
    var i :| 0 <= i < |a.got| && a.got[i] == x;
    assert b.got[i] == x;
  }

  lemma BoundedAfterDrain(d: Delivery, d1: Delivery, bodies: seq<Body>, scanID: string, d2: Delivery)
    requires DrainStep(d, d1) && Bounded(d1, bodies, scanID, d2)
    ensures Bounded(d, bodies, scanID, d2)
  {
    assert d1.spool.Values <= d.spool.Values;
    ReceivedTrans(d.got, d1.got, d2.got, d.spool.Values, d1.spool.Values + Set(bodies),
                  d.spool.Values + Set(bodies));
    forall f | f in d2.spool ensures FromSpoolOrBodies(d, bodies, scanID, f, d2.spool[f]) {
      assert FromSpoolOrBodies(d1, bodies, scanID, f, d2.spool[f]);
    }
  }

  lemma KeptAfterDrain(d: Delivery, d1: Delivery, d2: Delivery)
    requires DrainStep(d, d1) && Grows(d1, d2)
    ensures OldKept(d, d2)
  {
    forall f | f in d.spool ensures Kept(d.spool[f], f, d2) {
      if f !in d1.spool {
        GotStays(d1, d2, d.spool[f]);
      }
    }
  }

  /** With nothing spooled, every body was taken. */
  lemma AllTaken(d1: Delivery, bodies: seq<Body>, scanID: string, d2: Delivery)
    requires SendStep(d1, bodies, scanID, d2)
    requires forall i | 0 <= i < |bodies| :: FileName(scanID, i) !in d2.spool
    ensures forall b | b in bodies :: b in d2.got
  {
    forall i | 0 <= i < |bodies| ensures bodies[i] in d2.got {
      assert Kept(bodies[i], FileName(scanID, i), d2);
    }
  }

  /** A body carries its group's entities as they are, its place among the chunks, and its group as key
      list. */
  lemma BodiesAre(env: Envelope, size: Size, chunkBytes: int, i: nat)
    requires i < |BodiesOf(env, size, chunkBytes)|
    ensures var groups := GroupsOf(size, chunkBytes, SD.Listing(env.entities.Keys));
      var bodies := BodiesOf(env, size, chunkBytes);
      && |bodies| == |groups| == bodies[i].count && bodies[i].index == i && bodies[i].keys == groups[i]
      && bodies[i].scanID == env.scanID && bodies[i].baseScanID == env.baseScanID
      && (forall n :: n in bodies[i].entities <==> n in groups[i])
      && (forall n | n in bodies[i].entities :: n in env.entities && bodies[i].entities[n] == env.entities[n])
  {
    var names := SD.Listing(env.entities.Keys);
    GroupsConcat(size, chunkBytes, names);
    GroupListed(env.entities, GroupsOf(size, chunkBytes, names), names, i);
  }

  method MakeBodies(env: Envelope, size: Size, chunkBytes: int) returns (bodies: seq<Body>)
    ensures bodies == BodiesOf(env, size, chunkBytes)
  {
    var names := SortedKeys(env.entities);
    var chunks := SplitEntities(env.entities, names, size, chunkBytes);
    ghost var groups := GroupsOf(size, chunkBytes, names);
    GroupsConcat(size, chunkBytes, names);
    bodies := [];
    for i := 0 to |chunks|
      invariant bodies == Bodies(env, groups)[..i]
    {
      GroupListed(env.entities, groups, names, i);
      var keys := SortedKeys(chunks[i]);
      SD.ListsUnique(chunks[i].Keys, keys, groups[i]);
      bodies := bodies + [Body(env.scanID, env.baseScanID, chunks[i], i, |chunks|, keys)];
    }
  }

  lemma GroupsConcat(size: Size, limit: int, names: seq<string>)
    ensures Concat(GroupsOf(size, limit, names)) == names
  {
    if limit <= 0 || Fits(size, limit, names) {
      assert Concat([names]) == names + Concat([]);
    } else {
      SplitIsSound(size, limit, names);
    }
  }

  lemma {:induction false} GroupAt(groups: Groups, i: nat) returns (k: nat)
    requires i < |groups|
    ensures k + |groups[i]| <= |Concat(groups)| && groups[i] == Concat(groups)[k..k + |groups[i]|]
    decreases i
  {
    if i == 0 {
      k := 0;
    } else {
      var k' := GroupAt(groups[1..], i - 1);
      k := |groups[0]| + k';
    }
  }

  /** A group is the sorted list of its chunk's entities. */
  lemma GroupListed(entities: map<string, Content>, groups: Groups, names: seq<string>, i: nat)
    requires Lists(entities.Keys, names) && Concat(groups) == names && i < |groups|
    ensures Lists(Restrict(entities, groups[i]).Keys, groups[i])
  {
    var k := GroupAt(groups, i);
    var g := groups[i];
    forall a, b | 0 <= a < b < |g| ensures !Less(g[b], g[a]) && g[a] != g[b] {
      assert g[a] == names[k + a] && g[b] == names[k + b];
    }
    forall n | n in g ensures n in entities {
      var a :| 0 <= a < |g| && g[a] == n;
      assert names[k + a] == n;
    }
  }

  datatype Result = Result(delivered: bool, chunks: nat, spooled: nat)

  ghost function BodiesOf(env: Envelope, size: Size, chunkBytes: int): seq<Body> {
    Bodies(env, GroupsOf(size, chunkBytes, SD.Listing(env.entities.Keys)))
  }

  method SortedKeys<T>(m: map<string, T>) returns (names: seq<string>)
    ensures names == SD.Listing(m.Keys)
  {
    names := [];
    var todo := m.Keys;
    while todo != {}
      invariant todo <= m.Keys && Lists(m.Keys - todo, names)
      decreases todo
    {
      var n :| n in todo;
      SD.ListsInsert(m.Keys - todo, names, n);
      names := Insert(n, names);
      assert m.Keys - todo + {n} == m.Keys - (todo - {n});
      todo := todo - {n};
    }
    assert m.Keys - todo == m.Keys;
    SD.ListsUnique(m.Keys, names, SD.Listing(m.Keys));
  }

  datatype Delivery = Delivery(got: seq<Body>, spool: SpoolDir)

  function Set(bodies: seq<Body>): set<Body> {
    set b | b in bodies
  }

  /** A body is safe when the receiver has it or its file is in the spool. */
  predicate Kept(b: Body, f: string, d: Delivery) {
    b in d.got || (f in d.spool && d.spool[f] == b)
  }

  /** Only the bodies at hand and those in the spool travel, and only they can be spooled. */
  ghost predicate Bounded(d: Delivery, bodies: seq<Body>, scanID: string, d': Delivery) {
    && Received(d.got, d'.got, d.spool.Values + Set(bodies))
    && (forall f | f in d'.spool :: FromSpoolOrBodies(d, bodies, scanID, f, d'.spool[f]))
  }

  ghost predicate FromSpoolOrBodies(d: Delivery, bodies: seq<Body>, scanID: string, f: string, b: Body) {
    || (f in d.spool && d.spool[f] == b)
    || exists i :: 0 <= i < |bodies| && f == FileName(scanID, i) && b == bodies[i]
  }

  /** Nothing is un-received or taken out of the spool. */
  ghost predicate Grows(d: Delivery, d': Delivery) {
    d.got <= d'.got && forall f | f in d.spool :: f in d'.spool && d'.spool[f] == d.spool[f]
  }

  /** What was in the spool is safe. */
  ghost predicate OldKept(d: Delivery, d': Delivery) {
    forall f | f in d.spool :: Kept(d.spool[f], f, d')
  }

  /** Nothing that was in the spool or was to be sent is lost. */
  ghost predicate SendStep(d: Delivery, bodies: seq<Body>, scanID: string, d': Delivery) {
    && OldKept(d, d')
    && (forall i | 0 <= i < |bodies| :: Kept(bodies[i], FileName(scanID, i), d'))
  }

  ghost predicate OneMore(before: Delivery, body: Body, f: string, after: Delivery) {
    && Received(before.got, after.got, {body})
    && f !in before.spool
    && (after.spool == before.spool || after.spool == before.spool[f := body])
  }

  lemma BoundedMore(d: Delivery, bodies: seq<Body>, body: Body, scanID: string, before: Delivery, after: Delivery)
    requires Bounded(d, bodies, scanID, before)
    requires OneMore(before, body, FileName(scanID, |bodies|), after)
    ensures Bounded(d, bodies + [body], scanID, after)
  {
    var more := bodies + [body];
    ReceivedTrans(d.got, before.got, after.got, d.spool.Values + Set(bodies), {body}, d.spool.Values + Set(more));
    forall f | f in after.spool ensures FromSpoolOrBodies(d, more, scanID, f, after.spool[f]) {
      if f in before.spool {
        assert FromSpoolOrBodies(d, bodies, scanID, f, before.spool[f]);
        if i :| 0 <= i < |bodies| && f == FileName(scanID, i) && before.spool[f] == bodies[i] {
          assert more[i] == bodies[i];
        }
      } else {
        assert more[|bodies|] == body;
      }
    }
  }

  lemma BoundedAll(d: Delivery, bodies: seq<Body>, others: seq<Body>, scanID: string, after: Delivery)
    requires Bounded(d, bodies, scanID, after)
    ensures Bounded(d, bodies + others, scanID, after)
  {
    var more := bodies + others;
    assert forall b | b in bodies :: b in more;
    forall f | f in after.spool ensures FromSpoolOrBodies(d, more, scanID, f, after.spool[f]) {
      assert FromSpoolOrBodies(d, bodies, scanID, f, after.spool[f]);
      if i :| 0 <= i < |bodies| && f == FileName(scanID, i) && after.spool[f] == bodies[i] {
        assert more[i] == bodies[i];
      }
    }
  }

  /** After one turn of the send loop, whether or not it is the last. */
  lemma TurnBounded(d: Delivery, bodies: seq<Body>, i: nat, scanID: string, before: Delivery, after: Delivery)
    requires i < |bodies| && Bounded(d, bodies[..i], scanID, before) && Grows(d, before)
    requires OneMore(before, bodies[i], FileName(scanID, i), after)
    ensures Bounded(d, bodies[..i + 1], scanID, after) && Grows(d, after)
    ensures Bounded(d, bodies, scanID, after)
  {
    assert bodies[..i + 1] == bodies[..i] + [bodies[i]];
    BoundedMore(d, bodies[..i], bodies[i], scanID, before, after);
    BoundedAll(d, bodies[..i + 1], bodies[i + 1..], scanID, after);
    assert bodies[..i + 1] + bodies[i + 1..] == bodies;
  }

  /** The names of the chunks to come stay free. */
  lemma OthersFree(bodies: seq<Body>, i: nat, scanID: string, before: Delivery, after: Delivery)
    requires i < |bodies| && OneMore(before, bodies[i], FileName(scanID, i), after)
    requires forall j | i <= j < |bodies| :: FileName(scanID, j) !in before.spool
    ensures forall j | i + 1 <= j < |bodies| :: FileName(scanID, j) !in after.spool
  {
    forall j | i + 1 <= j < |bodies| ensures FileName(scanID, j) !in after.spool {
      if FileName(scanID, j) == FileName(scanID, i) { FileNameInjective(scanID, j, scanID, i); }
    }
  }

  lemma StepMore(d: Delivery, bodies: seq<Body>, body: Body, scanID: string, before: Delivery, after: Delivery)
    requires SendStep(d, bodies, scanID, before)
    requires OneMore(before, body, FileName(scanID, |bodies|), after)
    requires Kept(body, FileName(scanID, |bodies|), after)
    ensures SendStep(d, bodies + [body], scanID, after)
  {
    forall b | b in before.got ensures b in after.got {
      var i :| 0 <= i < |before.got| && before.got[i] == b;
      assert after.got[i] == b;
    }
  }
}
