/** internal/agent/runner.go, the output side of one run: a byte budget and a sequence counter
    shared by two stream pumps. Here the objects themselves, one call at a time; module PumpRace
    lets their critical sections interleave. */
module Pump {
  import opened Protocol

  datatype Budget = Budget(max: nat, observed: nat, truncated: bool)

  /** `outputBudget.take`: the budget afterwards, and the part of the chunk let through. */
  function Take(b: Budget, chunk: string): (r: (Budget, string))
    ensures r.1 <= chunk
    ensures b.observed <= b.max ==>
      r.0.observed == b.observed + |r.1| <= b.max && (r.1 == chunk || r.0.observed == b.max)
  {
    if b.observed >= b.max then (b.(truncated := true), "")
    else
      var room := b.max - b.observed;
      if |chunk| > room then (b.(observed := b.max, truncated := true), chunk[..room])
      else (b.(observed := b.observed + |chunk|), chunk)
  }

  class OutputBudget {
    const max: nat
    var observed: nat
    var truncated: bool

    constructor (max: nat)
      ensures View() == Budget(max, 0, false)
    {
      this.max, observed, truncated := max, 0, false;
    }

    ghost function View(): Budget
      reads this
    {
      Budget(max, observed, truncated)
    }

    method TakeChunk(chunk: string) returns (allowed: string)
      modifies this
      ensures (View(), allowed) == Take(old(View()), chunk)
    {
      if observed >= max {
        truncated := true;
        return "";
      }
      var room := max - observed;
      if |chunk| > room {
        observed := max;
        truncated := true;
        return chunk[..room];
      }
      observed := observed + |chunk|;
      return chunk;
    }
  }

  /** `runState`; `handed` is what onLogs received, in the order it received it. Without an onLogs the
      output is thrown away, and draws no numbers. */
  class RunState {
    const hasOnLogs: bool
    var counter: nat
    var handed: seq<LogEntry>
    const budget: OutputBudget

    constructor (budget: OutputBudget, hasOnLogs: bool)
      ensures counter == 0 && handed == [] && this.budget == budget && this.hasOnLogs == hasOnLogs
    {
      counter, handed, this.budget, this.hasOnLogs := 0, [], budget, hasOnLogs;
    }

    method Emit(side: Side, text: string)
      modifies this
      ensures text == "" || !hasOnLogs ==> counter == old(counter) && handed == old(handed)
      ensures text != "" && hasOnLogs ==>
        counter == old(counter) + 1 && handed == old(handed) + [LogEntry(counter, side, text)]
    {
      if text == "" {
        return;
      }
      if !hasOnLogs {
        return;
      }
      counter := counter + 1;
      handed := handed + [LogEntry(counter, side, text)];
    }
  }

  /** One pump with what it shares. */
  datatype PumpView = PumpView(
    side: Side, limit: nat, pending: string, budget: Budget,
    hasOnLogs: bool, counter: nat, handed: seq<LogEntry>)

  function Flushed(p: PumpView): PumpView {
    if p.pending == "" then p
    else if !p.hasOnLogs then p.(pending := "")
    else p.(pending := "", counter := p.counter + 1,
            handed := p.handed + [LogEntry(p.counter + 1, p.side, p.pending)])
  }

  function Added(p: PumpView, chunk: string): PumpView {
    var (budget, allowed) := Take(p.budget, chunk);
    var q := p.(budget := budget, pending := p.pending + allowed);
    if |q.pending| >= q.limit then Flushed(q) else q
  }

  function Pumped(p: PumpView, chunks: seq<string>): PumpView {
    if chunks == [] then p
    else
      var q, last := Pumped(p, chunks[..|chunks| - 1]), chunks[|chunks| - 1];
      if last == "" then q else Added(q, last)
  }

  class StreamPump {
    const side: Side
    const maxBuf: nat
    const state: RunState
    var pending: string

    constructor (side: Side, maxBuf: nat, state: RunState)
      ensures this.side == side && this.maxBuf == maxBuf && this.state == state && pending == ""
    {
      this.side, this.maxBuf, this.state, pending := side, maxBuf, state, "";
    }

    ghost function View(): PumpView
      reads this, state, state.budget
    {
      PumpView(side, maxBuf, pending, state.budget.View(), state.hasOnLogs, state.counter, state.handed)
    }

    method FlushLocked()
      modifies this, state
      ensures View() == Flushed(old(View())) && pending == ""
      ensures old(pending) != "" && state.hasOnLogs ==>
        state.handed == old(state.handed) + [LogEntry(old(state.counter) + 1, side, old(pending))]
    {
      if |pending| == 0 {
        return;
      }
      var text := pending;
      pending := "";
      state.Emit(side, text);
    }

    method Add(chunk: string)
      modifies this, state, state.budget
      ensures View() == Added(old(View()), chunk)
    {
      var allowed := state.budget.TakeChunk(chunk);
      assert |allowed| == 0 ==> pending + allowed == pending;
      if |allowed| > 0 {
        pending := pending + allowed;
      }
      if |pending| >= maxBuf {
        FlushLocked();
      }
    }
  }

  /** `pumpReader`: the chunks are what Read returned before the error that ended the loop. */
  method PumpReader(p: StreamPump, chunks: seq<string>)
    modifies p, p.state, p.state.budget
    ensures p.View() == Pumped(old(p.View()), chunks)
  {
    for i := 0 to |chunks|
      invariant p.View() == Pumped(old(p.View()), chunks[..i])
    {
      if |chunks[i]| > 0 {
        p.Add(chunks[i]);
      }
      assert chunks[..i + 1][..i] == chunks[..i];
    }
    assert chunks[..|chunks|] == chunks;
  }
}
