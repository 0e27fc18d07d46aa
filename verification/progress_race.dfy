/** internal/ui/server.go with its consumers: while Emit holds the mutex and works through the
    subscribers, each subscriber's handler goes on receiving, also between the selects of Emit.
    Registration, removal and Close need the mutex. */
module ProgressRace {
  import opened Protocol
  import opened Progress

  /** `received` went out to the browser, `queue` waits in the channel; `joined` is how many events
      had been recorded at registration. */
  datatype Sub = Sub(received: seq<Event>, queue: Queue, joined: nat)

  datatype Select = Try | Evict | Retry

  /** An Emit under way: who is still to be served, and who is being served, in which select. */
  datatype Emission = Emission(e: Event, todo: set<nat>, at: Option<nat>, select: Select)

  datatype State = State(
    emitted: seq<Event>, history: seq<Event>, subs: map<nat, Sub>, emission: Option<Emission>, closed: bool)

  datatype Action =
    | Emit(body: string) | Serve(id: nat) | TrySend | EvictOldest | RetrySend | EmitDone
    | Receive(id: nat)
    | Subscribe(id: nat) | Unsubscribe(id: nat) | Close

  predicate Serving(s: State, select: Select) {
    && s.emission.Some? && s.emission.value.at.Some?
    && s.emission.value.at.value in s.subs && s.emission.value.select == select
  }

  predicate Enabled(s: State, a: Action) {
    match a
    case Emit(_) => s.emission.None?
    case Serve(id) => s.emission.Some? && s.emission.value.at.None? && id in s.emission.value.todo && id in s.subs
    case TrySend => Serving(s, Try)
    case EvictOldest => Serving(s, Evict)
    case RetrySend => Serving(s, Retry)
    case EmitDone => s.emission.Some? && s.emission.value.at.None? && s.emission.value.todo == {}
    case Receive(id) => id in s.subs && s.subs[id].queue != []
    case Subscribe(id) => s.emission.None? && id !in s.subs
    case Unsubscribe(id) => s.emission.None? && id in s.subs
    case Close => s.emission.None?
  }

  function SetSub(s: State, id: nat, sub: Sub): State {
    s.(subs := s.subs[id := sub])
  }

  function Do(s: State, a: Action): State
    requires Enabled(s, a)
  {
    match a
    case Emit(body) =>
      if s.closed then s
      else
        var e := Event(|s.emitted|, body);
        s.(emitted := s.emitted + [e], history := Remember(s.history, e),
           emission := Some(Emission(e, s.subs.Keys, None, Try)))
    case Serve(id) =>
      s.(emission := Some(Emission(s.emission.value.e, s.emission.value.todo - {id}, Some(id), Try)))
    case TrySend =>
      var m := s.emission.value;
      var sub := s.subs[m.at.value];
      if |sub.queue| < EVENT_BUFFER
      then SetSub(s, m.at.value, sub.(queue := sub.queue + [m.e])).(emission := Some(m.(at := None)))
      else s.(emission := Some(m.(select := Evict)))
    case EvictOldest =>
      var m := s.emission.value;
      var sub := s.subs[m.at.value];
      SetSub(s, m.at.value, sub.(queue := if sub.queue == [] then [] else sub.queue[1..]))
        .(emission := Some(m.(select := Retry)))
    case RetrySend =>
      var m := s.emission.value;
      var sub := s.subs[m.at.value];
      (if |sub.queue| < EVENT_BUFFER then SetSub(s, m.at.value, sub.(queue := sub.queue + [m.e])) else s)
        .(emission := Some(m.(at := None)))
    case EmitDone => s.(emission := None)
    case Receive(id) =>
      var sub := s.subs[id];
      SetSub(s, id, sub.(received := sub.received + [sub.queue[0]], queue := sub.queue[1..]))
    case Subscribe(id) => SetSub(s, id, Sub([], Replay(s.history), |s.emitted|))
    case Unsubscribe(id) => s.(subs := s.subs - {id})
    case Close => s.(closed := true)
  }

  predicate IsRun(s: State, acts: seq<Action>)
    decreases |acts|
  {
    acts == [] || (Enabled(s, acts[0]) && IsRun(Do(s, acts[0]), acts[1..]))
  }

  function Exec(s: State, acts: seq<Action>): State
    requires IsRun(s, acts)
    decreases |acts|
  {
    if acts == [] then s else Exec(Do(s, acts[0]), acts[1..])
  }

  const START := State([], [], map[], None, false)

  // ----- what is kept -----

  function Seen(sub: Sub): seq<Event> {
    sub.received + sub.queue
  }

  /** In the order of emission, each at most once, and nothing else, out of the first n events. */
  predicate Subsequence(seen: seq<Event>, emitted: seq<Event>, n: nat) {
    && (forall i | 0 <= i < |seen| :: seen[i].serial < n <= |emitted| && emitted[seen[i].serial] == seen[i])
    && (forall i, j | 0 <= i < j < |seen| :: seen[i].serial < seen[j].serial)
  }

  /** A subscriber that has been served the first n events. */
  predicate SubOk(sub: Sub, emitted: seq<Event>, n: nat) {
    && n <= |emitted|
    && |sub.queue| <= EVENT_BUFFER
    && Subsequence(Seen(sub), emitted, n)
    && sub.joined <= n
    && (sub.joined < n ==> Seen(sub) != [] && Seen(sub)[|Seen(sub)| - 1] == emitted[n - 1])
    && (n <= EVENT_BUFFER ==> Seen(sub) == emitted[..n])
  }

  /** A subscriber whose queue has just lost its oldest event to make room. */
  predicate SubMakingRoom(sub: Sub, emitted: seq<Event>, n: nat) {
    && EVENT_BUFFER <= n <= |emitted|
    && |sub.queue| < EVENT_BUFFER
    && Subsequence(Seen(sub), emitted, n)
    && sub.joined <= n
  }

  predicate Pending(s: State, id: nat) {
    s.emission.Some? && (id in s.emission.value.todo || s.emission.value.at == Some(id))
  }

  /** How many events a subscriber has been served. */
  function Served(s: State, id: nat): nat {
    if Pending(s, id) && |s.emitted| > 0 then |s.emitted| - 1 else |s.emitted|
  }

  /** The select that serves the subscriber right now; Try when none does. */
  function SelectFor(s: State, id: nat): Select {
    if s.emission.Some? && s.emission.value.at == Some(id) then s.emission.value.select else Try
  }

  predicate SubAt(sub: Sub, emitted: seq<Event>, n: nat, select: Select) {
    match select
    case Try => SubOk(sub, emitted, n)
    case Evict => SubOk(sub, emitted, n) && n >= EVENT_BUFFER
    case Retry => SubMakingRoom(sub, emitted, n)
  }

  predicate SubInv(s: State, id: nat)
    requires id in s.subs
  {
    SubAt(s.subs[id], s.emitted, Served(s, id), SelectFor(s, id))
  }

  predicate HistoryInv(emitted: seq<Event>, history: seq<Event>) {
    && (forall i | 0 <= i < |emitted| :: emitted[i].serial == i)
    && |history| <= HISTORY_MAX && |history| <= |emitted|
    && history == emitted[|emitted| - |history|..]
    && (|emitted| <= HISTORY_MAX ==> history == emitted)
  }

  predicate EmissionInv(s: State) {
    s.emission.Some? ==>
      var m := s.emission.value;
      && m.todo <= s.subs.Keys
      && |s.emitted| > 0 && m.e == s.emitted[|s.emitted| - 1]
      && (m.at.Some? ==> m.at.value in s.subs && m.at.value !in m.todo)
  }

  predicate Inv(s: State) {
    HistoryInv(s.emitted, s.history) && EmissionInv(s) && forall id | id in s.subs :: SubInv(s, id)
  }

  // ----- every step keeps it -----

  lemma Enqueued(sub: Sub, emitted: seq<Event>, n: nat)
    requires n < |emitted| && emitted[n].serial == n && |sub.queue| < EVENT_BUFFER
    requires SubOk(sub, emitted, n) || SubMakingRoom(sub, emitted, n)
    ensures SubOk(sub.(queue := sub.queue + [emitted[n]]), emitted, n + 1)
  {
    var sub' := sub.(queue := sub.queue + [emitted[n]]);
    assert Seen(sub') == Seen(sub) + [emitted[n]];
  }

  lemma Evicted(sub: Sub, emitted: seq<Event>, n: nat)
    requires SubOk(sub, emitted, n) && n >= EVENT_BUFFER
    ensures SubMakingRoom(sub.(queue := if sub.queue == [] then [] else sub.queue[1..]), emitted, n)
  {
    if sub.queue != [] {
      var k := |sub.received|;
      var sub' := sub.(queue := sub.queue[1..]);
      forall i | 0 <= i < |Seen(sub')| ensures Seen(sub')[i] == Seen(sub)[if i < k then i else i + 1] {
      }
    }
  }

  lemma MoreEmitted(sub: Sub, emitted: seq<Event>, n: nat, e: Event)
    requires SubOk(sub, emitted, n)
    ensures SubOk(sub, emitted + [e], n)
  {
    assert n <= EVENT_BUFFER ==> (emitted + [e])[..n] == emitted[..n];
  }

  /** A step that leaves a subscriber and its turn alone. */
  lemma Untouched(s: State, s': State, id: nat)
    requires id in s.subs && id in s'.subs && SubInv(s, id)
    requires s'.subs[id] == s.subs[id] && s'.emitted == s.emitted
    requires Served(s', id) == Served(s, id) && SelectFor(s', id) == SelectFor(s, id)
    ensures SubInv(s', id)
  {
  }

  lemma Remembered(emitted: seq<Event>, history: seq<Event>, e: Event)
    requires HistoryInv(emitted, history) && e.serial == |emitted|
    ensures HistoryInv(emitted + [e], Remember(history, e))
  {
  }

  lemma EmitStep(s: State, body: string)
    requires Inv(s) && Enabled(s, Emit(body))
    ensures Inv(Do(s, Emit(body)))
  {
    if !s.closed {
      var e := Event(|s.emitted|, body);
      var s' := Do(s, Emit(body));
      Remembered(s.emitted, s.history, e);
      forall id | id in s'.subs ensures SubInv(s', id) {
        assert SubInv(s, id) && Served(s, id) == |s.emitted| == Served(s', id);
        MoreEmitted(s.subs[id], s.emitted, |s.emitted|, e);
      }
    }
  }

  /** A step that changes no subscriber and nobody's turn. */
  lemma TurnsKept(s: State, s': State)
    requires Inv(s) && s'.emitted == s.emitted && s'.history == s.history
    requires s'.subs.Keys <= s.subs.Keys && forall id | id in s'.subs :: s'.subs[id] == s.subs[id]
    requires forall id | id in s'.subs :: Served(s', id) == Served(s, id) && SelectFor(s', id) == SelectFor(s, id)
    requires EmissionInv(s')
    ensures Inv(s')
  {
    forall id | id in s'.subs ensures SubInv(s', id) {
      Untouched(s, s', id);
    }
  }

  lemma ServeStep(s: State, id: nat)
    requires Inv(s) && Enabled(s, Serve(id))
    ensures Inv(Do(s, Serve(id)))
  {
    TurnsKept(s, Do(s, Serve(id)));
  }

  lemma EmitDoneStep(s: State)
    requires Inv(s) && Enabled(s, EmitDone)
    ensures Inv(Do(s, EmitDone))
  {
    TurnsKept(s, Do(s, EmitDone));
  }

  lemma LeaveStep(s: State, a: Action)
    requires Inv(s) && Enabled(s, a) && (a.Close? || a.Unsubscribe?)
    ensures Inv(Do(s, a))
  {
    TurnsKept(s, Do(s, a));
  }

  /** Serving one subscriber leaves the others alone. */
  lemma ServedOne(s: State, s': State, at: nat, sub: Sub, m: Emission)
    requires Inv(s) && s.emission.Some? && s.emission.value.at == Some(at)
    requires s' == s.(subs := s.subs[at := sub], emission := Some(m))
    requires m.e == s.emission.value.e && m.todo == s.emission.value.todo && m.at in {None, Some(at)}
    requires if m.at == None then SubOk(sub, s.emitted, |s.emitted|)
             else |s.emitted| > 0 && SubAt(sub, s.emitted, |s.emitted| - 1, m.select)
    ensures Inv(s')
  {
    forall id | id in s'.subs ensures SubInv(s', id) {
      if id == at {
        assert Served(s', at) == (if m.at == None then |s.emitted| else |s.emitted| - 1);
      } else {
        Untouched(s, s', id);
      }
    }
  }

  /** A full queue means that at least as many events were served. */
  lemma FullQueue(sub: Sub, emitted: seq<Event>, n: nat)
    requires SubOk(sub, emitted, n) && |sub.queue| >= EVENT_BUFFER
    ensures n >= EVENT_BUFFER
  {
    assert |Seen(sub)| >= EVENT_BUFFER;
  }

  /** What TrySend finds, and what it makes of the subscriber when there is room. */
  lemma TryFinds(s: State)
    requires Inv(s) && Enabled(s, TrySend)
    ensures var m, n := s.emission.value, |s.emitted| - 1;
      var sub := s.subs[m.at.value];
      && n >= 0 && SubOk(sub, s.emitted, n)
      && (|sub.queue| < EVENT_BUFFER ==> SubOk(sub.(queue := sub.queue + [m.e]), s.emitted, n + 1))
      && (|sub.queue| >= EVENT_BUFFER ==> n >= EVENT_BUFFER)
  {
    var m, n := s.emission.value, |s.emitted| - 1;
    var sub := s.subs[m.at.value];
    assert SubInv(s, m.at.value) && Served(s, m.at.value) == n;
    if |sub.queue| < EVENT_BUFFER {
      Enqueued(sub, s.emitted, n);
    } else {
      FullQueue(sub, s.emitted, n);
    }
  }

  lemma TryStep(s: State)
    requires Inv(s) && Enabled(s, TrySend)
    ensures Inv(Do(s, TrySend))
  {
    var m := s.emission.value;
    var at := m.at.value;
    var sub := s.subs[at];
    TryFinds(s);
    if |sub.queue| < EVENT_BUFFER {
      ServedOne(s, Do(s, TrySend), at, sub.(queue := sub.queue + [m.e]), m.(at := None));
    } else {
      assert s.subs[at := sub] == s.subs;
      ServedOne(s, Do(s, TrySend), at, sub, m.(select := Evict));
    }
  }

  lemma EvictStep(s: State)
    requires Inv(s) && Enabled(s, EvictOldest)
    ensures Inv(Do(s, EvictOldest))
  {
    var m, n := s.emission.value, |s.emitted| - 1;
    var at := m.at.value;
    var sub := s.subs[at];
    assert SubInv(s, at) && Served(s, at) == n;
    Evicted(sub, s.emitted, n);
    ServedOne(s, Do(s, EvictOldest), at, sub.(queue := if sub.queue == [] then [] else sub.queue[1..]),
              m.(select := Retry));
  }

  /** After the eviction there is room. */
  lemma RetryFinds(s: State)
    requires Inv(s) && Enabled(s, RetrySend)
    ensures var m := s.emission.value;
      var sub := s.subs[m.at.value];
      |sub.queue| < EVENT_BUFFER && SubOk(sub.(queue := sub.queue + [m.e]), s.emitted, |s.emitted|)
  {
    var m, n := s.emission.value, |s.emitted| - 1;
    assert SubInv(s, m.at.value) && Served(s, m.at.value) == n;
    Enqueued(s.subs[m.at.value], s.emitted, n);
  }

  lemma RetryStep(s: State)
    requires Inv(s) && Enabled(s, RetrySend)
    ensures Inv(Do(s, RetrySend))
  {
    var m := s.emission.value;
    var sub := s.subs[m.at.value];
    RetryFinds(s);
    ServedOne(s, Do(s, RetrySend), m.at.value, sub.(queue := sub.queue + [m.e]), m.(at := None));
  }

  function AfterReceive(sub: Sub): Sub
    requires sub.queue != []
  {
    sub.(received := sub.received + [sub.queue[0]], queue := sub.queue[1..])
  }

  /** Receiving moves an event over; what has been seen stays the same. */
  lemma ReceiveKeeps(sub: Sub, emitted: seq<Event>, n: nat, select: Select)
    requires sub.queue != [] && SubAt(sub, emitted, n, select)
    ensures SubAt(AfterReceive(sub), emitted, n, select)
  {
    assert sub.queue == [sub.queue[0]] + sub.queue[1..];
    assert Seen(AfterReceive(sub)) == Seen(sub);
  }

  lemma ReceiverOk(s: State, s': State, id: nat)
    requires id in s.subs && SubInv(s, id) && s.subs[id].queue != []
    requires s' == SetSub(s, id, AfterReceive(s.subs[id]))
    ensures SubInv(s', id)
  {
    ReceiveKeeps(s.subs[id], s.emitted, Served(s, id), SelectFor(s, id));
    assert Served(s', id) == Served(s, id) && SelectFor(s', id) == SelectFor(s, id);
  }

  lemma OneSubChanged(s: State, s': State, id: nat, sub: Sub)
    requires Inv(s) && s' == SetSub(s, id, sub) && SubInv(s', id)
    ensures Inv(s')
  {
    forall x | x in s'.subs ensures SubInv(s', x) {
      if x != id { Untouched(s, s', x); }
    }
  }

  lemma ReceiveStep(s: State, id: nat)
    requires Inv(s) && Enabled(s, Receive(id))
    ensures Inv(Do(s, Receive(id)))
  {
    var s' := Do(s, Receive(id));
    assert SubInv(s, id);
    assert s' == SetSub(s, id, AfterReceive(s.subs[id]));
    ReceiverOk(s, s', id);
    OneSubChanged(s, s', id, AfterReceive(s.subs[id]));
  }

  lemma ReplaySubsequence(emitted: seq<Event>, history: seq<Event>)
    requires HistoryInv(emitted, history)
    ensures Subsequence(Replay(history), emitted, |emitted|)
  {
    var seen := Replay(history);
    forall i | 0 <= i < |seen| ensures seen[i] == emitted[|emitted| - |history| + i] {
    }
  }

  lemma ReplayOk(emitted: seq<Event>, history: seq<Event>)
    requires HistoryInv(emitted, history)
    ensures SubOk(Sub([], Replay(history), |emitted|), emitted, |emitted|)
  {
    ReplaySubsequence(emitted, history);
    assert Seen(Sub([], Replay(history), |emitted|)) == Replay(history);
    assert emitted[..|emitted|] == emitted;
  }

  lemma SubscribeStep(s: State, id: nat)
    requires Inv(s) && Enabled(s, Subscribe(id))
    ensures Inv(Do(s, Subscribe(id)))
  {
    ReplayOk(s.emitted, s.history);
    OneSubChanged(s, Do(s, Subscribe(id)), id, Sub([], Replay(s.history), |s.emitted|));
  }

  lemma Step(s: State, a: Action)
    requires Inv(s) && Enabled(s, a)
    ensures Inv(Do(s, a))
  {
    match a
    case Emit(body) => EmitStep(s, body);
    case Receive(id) => ReceiveStep(s, id);
    case Subscribe(id) => SubscribeStep(s, id);
    case TrySend => TryStep(s);
    case EvictOldest => EvictStep(s);
    case RetrySend => RetryStep(s);
    case Close => LeaveStep(s, a);
    case Unsubscribe(_) => LeaveStep(s, a);
    case Serve(id) => ServeStep(s, id);
    case EmitDone => EmitDoneStep(s);
  }

  lemma {:induction false} Always(s: State, acts: seq<Action>)
    requires Inv(s) && IsRun(s, acts)
    ensures Inv(Exec(s, acts))
    decreases |acts|
  {
    if acts != [] {
      Step(s, acts[0]);
      Always(Do(s, acts[0]), acts[1..]);
    }
  }

  // ----- the theorems -----

  /** What a subscriber has received, followed by what waits in its queue, is at every moment a
      subsequence of the emitted events, in order and without repeats, and the queue is bounded. */
  lemma InOrderWithoutRepeats(acts: seq<Action>, id: nat)
    requires IsRun(START, acts) && id in Exec(START, acts).subs
    ensures var e := Exec(START, acts); var sub := e.subs[id];
      Subsequence(sub.received + sub.queue, e.emitted, |e.emitted|) && |sub.queue| <= 1024
  {
    Always(START, acts);
    assert SubInv(Exec(START, acts), id);
  }

  /** The second send of Emit never fails: whatever receivers do meanwhile, the new event ends up
      last for every subscriber that was registered when it was emitted. */
  lemma NewestIsAlwaysQueued(acts: seq<Action>, id: nat)
    requires IsRun(START, acts) && id in Exec(START, acts).subs
    requires var e := Exec(START, acts); !Pending(e, id) && e.subs[id].joined < |e.emitted|
    ensures var e := Exec(START, acts); var seen := e.subs[id].received + e.subs[id].queue;
      seen != [] && seen[|seen| - 1] == e.emitted[|e.emitted| - 1]
  {
    Always(START, acts);
    assert SubInv(Exec(START, acts), id);
  }

  /** As long as no more than 1024 events are ever emitted, nothing is missing, whenever the
      subscriber connected; only an event being handed out right now may still be to come. */
  lemma NothingIsMissing(acts: seq<Action>, id: nat)
    requires IsRun(START, acts) && id in Exec(START, acts).subs
    requires |Exec(START, acts).emitted| <= 1024
    ensures var e := Exec(START, acts);
      e.subs[id].received + e.subs[id].queue == e.emitted[..Served(e, id)]
    ensures !Pending(Exec(START, acts), id) ==> Served(Exec(START, acts), id) == |Exec(START, acts).emitted|
  {
    Always(START, acts);
    assert SubInv(Exec(START, acts), id);
  }

  /** Server.Emit's treatment of one queue is the uninterrupted case of the three selects. */
  lemma UninterruptedPush(s: State, id: nat)
    requires Serving(s, Try) && s.emission.value.at == Some(id) && |s.subs[id].queue| <= EVENT_BUFFER
    ensures var tried := Do(s, TrySend);
      var s' := if tried.emission.value.at.None? then tried else Do(Do(tried, EvictOldest), RetrySend);
      s'.subs[id].queue == Push(s.subs[id].queue, s.emission.value.e)
  {
  }
}
