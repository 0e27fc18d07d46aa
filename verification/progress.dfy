/** internal/ui/server.go: the progress fan-out. Events go, under the mutex, into a bounded history
    and a bounded queue per subscriber; a full queue loses its oldest event. */
module Progress {

  const EVENT_BUFFER: nat := 1024
  const HISTORY_MAX: nat := 20000

  /** `serial` counts the events that Emit recorded. */
  datatype Event = Event(serial: nat, body: string)

  type Queue = seq<Event>

  /** The three selects of Emit for one subscriber, when nobody receives in between. */
  function Push(q: Queue, e: Event): Queue {
    if |q| < EVENT_BUFFER then q + [e] else q[1..] + [e]
  }

  function Remember(history: seq<Event>, e: Event): seq<Event> {
    var h := history + [e];
    if |h| > HISTORY_MAX then h[|h| - HISTORY_MAX..] else h
  }

  /** What a late subscriber starts with: the oldest events of the history, as many as fit. */
  function Replay(history: seq<Event>): Queue {
    if |history| <= EVENT_BUFFER then history else history[..EVENT_BUFFER]
  }

  /** The queues when only the subscribers in `todo` are still to be served. */
  function Fanned(subs: map<nat, Queue>, todo: set<nat>, e: Event): map<nat, Queue> {
    map id | id in subs :: if id in todo then subs[id] else Push(subs[id], e)
  }

  lemma FanOne(subs: map<nat, Queue>, todo: set<nat>, e: Event, id: nat)
    requires id in subs && id in todo
    ensures Fanned(subs, todo, e)[id] == subs[id]
    ensures Fanned(subs, todo, e)[id := Push(subs[id], e)] == Fanned(subs, todo - {id}, e)
  {
  }

  lemma FanEnds(subs: map<nat, Queue>, e: Event)
    ensures Fanned(subs, subs.Keys, e) == subs
    ensures Fanned(subs, {}, e) == map id | id in subs :: Push(subs[id], e)
  {
  }

  /** The three selects. */
  method Offer(q: Queue, e: Event) returns (r: Queue)
    requires |q| <= EVENT_BUFFER
    ensures r == if |q| < 1024 then q + [e] else q[1..] + [e]
  {
    r := q;
    if |r| < EVENT_BUFFER {
      r := r + [e];
    } else {
      if |r| > 0 {
        r := r[1..];
      }
      if |r| < EVENT_BUFFER {
        r := r + [e];
      }
    }
  }

  class Server {
    var history: seq<Event>
    var subs: map<nat, Queue>
    var closed: bool

    constructor ()
      ensures history == [] && subs == map[] && !closed
    {
      history, subs, closed := [], map[], false;
    }

    method Emit(e: Event)
      requires forall id | id in subs :: |subs[id]| <= 1024
      modifies this`history, this`subs
      ensures closed ==> history == old(history) && subs == old(subs)
      ensures !closed ==>
        && history == (if |old(history)| < 20000 then old(history) + [e]
                       else (old(history) + [e])[|old(history)| + 1 - 20000..])
        && subs.Keys == old(subs).Keys
        && forall id | id in subs ::
             subs[id] == if |old(subs)[id]| < 1024 then old(subs)[id] + [e] else old(subs)[id][1..] + [e]
    {
      if closed {
        return;
      }
      history := history + [e];
      if |history| > HISTORY_MAX {
        history := history[|history| - HISTORY_MAX..];
      }
      var todo := subs.Keys;
      FanEnds(subs, e);
      while todo != {}
        invariant todo <= old(subs).Keys
        invariant history == Remember(old(history), e) && subs == Fanned(old(subs), todo, e)
        decreases todo
      {
        var id :| id in todo;
        FanOne(old(subs), todo, e, id);
        var q := Offer(subs[id], e);
        subs := subs[id := q];
        todo := todo - {id};
      }
    }

    /** The replay and registration part of handleEvents. */
    method Subscribe(id: nat)
      requires id !in subs
      modifies this`subs
      ensures subs == old(subs)[id := if |history| <= 1024 then history else history[..1024]]
    {
      var q: Queue := [];
      for i := 0 to |history|
        invariant q == Replay(history[..i])
      {
        assert history[..i + 1] == history[..i] + [history[i]];
        if |q| < EVENT_BUFFER {
          q := q + [history[i]];
        }
      }
      assert history[..|history|] == history;
      subs := subs[id := q];
    }

    method Receive(id: nat) returns (e: Event)
      requires id in subs && subs[id] != []
      modifies this`subs
      ensures e == old(subs)[id][0] && subs == old(subs)[id := old(subs)[id][1..]]
    {
      e := subs[id][0];
      subs := subs[id := subs[id][1..]];
    }

    method Close()
      modifies this`closed
      ensures closed
    {
      closed := true;
    }
  }
}
