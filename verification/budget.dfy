/** internal/app/run.go, enforceBudget: the largest collections are halved in place until the
    compact JSON fits. The length of the JSON is an arbitrary function of the collections; it is
    None when they do not marshal. */
module PayloadBudget {
  import opened Protocol
  import opened Schema

  datatype CollectionView = CollectionView(
    count: nat, fingerprint: string, records: seq<Record>, summarized: bool, omitted: nat)

  /** "<name>.records summarized (-<removed>)" */
  datatype Note = Note(name: string, removed: nat)

  type Sizer = map<string, CollectionView> -> Option<nat>

  const GUARD: nat := 40

  function View(c: EntityCollection): CollectionView
    reads c
  {
    CollectionView(c.count, c.fingerprint, c.records, c.summarized, c.omitted)
  }

  function Views(entities: map<string, EntityCollection>): map<string, CollectionView>
    reads entities.Values
  {
    map name | name in entities :: View(entities[name])
  }

  /** How many records the notes say were taken from a collection. */
  function Noted(notes: seq<Note>, name: string): nat {
    if notes == [] then 0
    else
      var last := notes[|notes| - 1];
      Noted(notes[..|notes| - 1], name) + (if last.name == name then last.removed else 0)
  }

  /** A collection as BuildEntity made it. */
  predicate Untouched(c: CollectionView) {
    c.count == |c.records| && !c.summarized && c.omitted == 0
  }

  /** What trimming may have made of a collection: a front part of its records is left, at least one
      of them; what was cut off is counted, and marked, and noted. */
  predicate Trimmed(was: CollectionView, c: CollectionView, noted: nat) {
    && c.records <= was.records
    && (was.records != [] ==> c.records != [])
    && c.count == was.count == |c.records| + c.omitted
    && c.fingerprint == was.fingerprint
    && (c.summarized <==> c.omitted > 0)
    && c.omitted == noted
  }

  ghost predicate AllTrimmed(was: map<string, CollectionView>, now: map<string, CollectionView>, notes: seq<Note>) {
    was.Keys == now.Keys && forall name | name in now :: Trimmed(was[name], now[name], Noted(notes, name))
  }

  predicate Unaliased(entities: map<string, EntityCollection>) {
    forall m, n | m in entities && n in entities && m != n :: entities[m] != entities[n]
  }

  /** Map iteration decides between collections of equal size. */
  method Largest(entities: map<string, EntityCollection>) returns (name: string, best: nat)
    ensures forall n | n in entities :: |entities[n].records| <= best
    ensures best > 0 ==> name in entities && |entities[name].records| == best
    ensures best == 0 ==> name == ""
  {
    name, best := "", 0;
    var todo := entities.Keys;
    while todo != {}
      invariant todo <= entities.Keys
      invariant forall n | n in entities && n !in todo :: |entities[n].records| <= best
      invariant best > 0 ==> name in entities && |entities[name].records| == best
      invariant best == 0 ==> name == ""
      decreases todo
    {
      var n :| n in todo;
      todo := todo - {n};
      if |entities[n].records| > best {
        name, best := n, |entities[n].records|;
      }
    }
  }

  function Halved(c: CollectionView): CollectionView {
    var keep := if |c.records| / 2 < 1 then 1 else |c.records| / 2;
    if |c.records| <= 1 then c
    else c.(records := c.records[..keep], summarized := true, omitted := c.omitted + |c.records| - keep)
  }

  lemma NotedPlus(notes: seq<Note>, n: Note, name: string)
    ensures Noted(notes + [n], name) == Noted(notes, name) + (if n.name == name then n.removed else 0)
  {
    assert (notes + [n])[..|notes|] == notes;
  }

  lemma TrimOne(was: map<string, CollectionView>, now: map<string, CollectionView>, notes: seq<Note>, name: string)
    requires AllTrimmed(was, now, notes) && name in now && |now[name].records| > 1
    ensures var c := now[name];
      AllTrimmed(was, now[name := Halved(c)], notes + [Note(name, |c.records| - |Halved(c).records|)])
  {
    var n := Note(name, |now[name].records| - |Halved(now[name]).records|);
    forall x | x in now
      ensures Trimmed(was[x], now[name := Halved(now[name])][x], Noted(notes + [n], x))
    {
      NotedPlus(notes, n, x);
    }
  }

  /** One trim: a largest collection, of more than one record, loses its second half because the payload
      did not fit. */
  ghost predicate TrimStep(prev: map<string, CollectionView>, now: map<string, CollectionView>, note: Note,
                           max: int, size: Sizer) {
    && size(prev).Some? && size(prev).value > max
    && note.name in prev
    && (forall x | x in prev :: |prev[x].records| <= |prev[note.name].records|)
    && var c := prev[note.name];
       && |c.records| > 1
       && note.removed == |c.records| - |c.records| / 2
       && now == prev[note.name :=
            CollectionView(c.count, c.fingerprint, c.records[..|c.records| / 2], true, c.omitted + note.removed)]
  }

  /** The notes tell, one trim each, how the collections came to be what they are. */
  ghost predicate TrimmedBy(was: map<string, CollectionView>, now: map<string, CollectionView>, notes: seq<Note>,
                            max: int, size: Sizer)
    decreases |notes|
  {
    if notes == [] then now == was
    else
      var n := |notes| - 1;
      exists prev :: TrimStep(prev, now, notes[n], max, size) && TrimmedBy(was, prev, notes[..n], max, size)
  }

  lemma TrimmedMore(was: map<string, CollectionView>, prev: map<string, CollectionView>,
                    now: map<string, CollectionView>, notes: seq<Note>, note: Note, max: int, size: Sizer)
    requires TrimmedBy(was, prev, notes, max, size) && TrimStep(prev, now, note, max, size)
    ensures TrimmedBy(was, now, notes + [note], max, size)
  {
    assert (notes + [note])[..|notes|] == notes;
  }

  lemma StepAddsUp(was: map<string, CollectionView>, prev: map<string, CollectionView>,
                   now: map<string, CollectionView>, notes: seq<Note>, note: Note, max: int, size: Sizer)
    requires AllTrimmed(was, prev, notes) && TrimStep(prev, now, note, max, size)
    ensures AllTrimmed(was, now, notes + [note])
  {
    var c := prev[note.name];
    TrimOne(was, prev, notes, note.name);
    assert Halved(c) == CollectionView(c.count, c.fingerprint, c.records[..|c.records| / 2], true,
                                       c.omitted + note.removed);
    assert note == Note(note.name, |c.records| - |Halved(c).records|);
  }

  lemma NothingTrimmed(was: map<string, CollectionView>)
    requires forall name | name in was :: Untouched(was[name])
    ensures AllTrimmed(was, was, [])
  {
    forall name | name in was ensures Trimmed(was[name], was[name], Noted([], name)) {
      assert Untouched(was[name]);
    }
  }

  /** However many trims there were, every collection is left with a front part of its records, at least
      one if it had any, and says how many it lost; the notes account for all of them. */
  lemma {:induction false} TrimsAddUp(was: map<string, CollectionView>, now: map<string, CollectionView>,
                                      notes: seq<Note>, max: int, size: Sizer)
    requires TrimmedBy(was, now, notes, max, size) && forall name | name in was :: Untouched(was[name])
    ensures AllTrimmed(was, now, notes)
    decreases |notes|
  {
    if notes != [] {
      var n := |notes| - 1;
      var prev :| TrimStep(prev, now, notes[n], max, size) && TrimmedBy(was, prev, notes[..n], max, size);
      TrimsAddUp(was, prev, notes[..n], max, size);
      StepAddsUp(was, prev, now, notes[..n], notes[n], max, size);
      assert notes == notes[..n] + [notes[n]];
    } else {
      NothingTrimmed(was);
    }
  }

  method Halve(c: EntityCollection) returns (removed: nat)
    requires |c.records| > 1
    modifies c
    ensures c.records == old(c.records)[..|old(c.records)| / 2] && removed == |old(c.records)| - |c.records|
    ensures c.summarized && c.omitted == old(c.omitted) + removed
    ensures c.count == old(c.count) && c.fingerprint == old(c.fingerprint)
  {
    var best := |c.records|;
    var keep := best / 2;
    if keep < 1 {
      keep := 1;
    }
    c.records := c.records[..keep];
    c.summarized := true;
    c.omitted := c.omitted + best - keep;
    removed := best - keep;
  }

  method Trim(entities: map<string, EntityCollection>, name: string, ghost max: int, ghost size: Sizer)
    returns (note: Note)
    requires Unaliased(entities) && name in entities && |entities[name].records| > 1
    requires forall n | n in entities :: |entities[n].records| <= |entities[name].records|
    requires size(Views(entities)).Some? && size(Views(entities)).value > max
    modifies entities[name]
    ensures TrimStep(old(Views(entities)), Views(entities), note, max, size)
  {
    ghost var before := Views(entities);
    var removed := Halve(entities[name]);
    note := Note(name, removed);
    assert Views(entities) == before[name := View(entities[name])];
  }

  predicate Fits(size: Option<nat>, max: int) {
    size.Some? && size.value <= max
  }

  /** Why the trimming stopped. */
  ghost predicate Ended(views: map<string, CollectionView>, max: int, size: Sizer, trims: nat) {
    || Fits(size(views), max) || size(views).None?
    || (forall name | name in views :: |views[name].records| <= 1)
    || ("" in views && forall name | name in views :: |views[name].records| <= |views[""].records|)
    || trims == 40
  }

  /** Ends with a payload that fits (or does not marshal), or with every collection down to one
      record, or with a nameless collection the largest, or after 40 trims. Whatever happened, each
      collection kept a front part of its records and says exactly how many it lost, and the notes
      account for all of them. `truncated` is what is appended to the caller's (empty) list. */
  method EnforceBudget(entities: map<string, EntityCollection>, max: int, size: Sizer)
    returns (summarized: bool, truncated: seq<Note>)
    requires Unaliased(entities)
    requires forall name | name in entities :: Untouched(View(entities[name]))
    modifies entities.Values
    ensures summarized <==> truncated != []
    ensures AllTrimmed(old(Views(entities)), Views(entities), truncated)
    ensures |truncated| <= 40
    ensures TrimmedBy(old(Views(entities)), Views(entities), truncated, max, size)
    ensures max <= 0 ==> truncated == [] && Views(entities) == old(Views(entities))
    ensures max > 0 ==> Ended(Views(entities), max, size, |truncated|)
  {
    truncated, summarized := [], false;
    ghost var was := Views(entities);
    if max > 0 {
      summarized, truncated := TrimAll(entities, max, size);
    }
    TrimsAddUp(was, Views(entities), truncated, max, size);
  }

  /** The loop. */
  method TrimAll(entities: map<string, EntityCollection>, max: int, size: Sizer)
    returns (summarized: bool, truncated: seq<Note>)
    requires Unaliased(entities)
    modifies entities.Values
    ensures summarized <==> truncated != []
    ensures TrimmedBy(old(Views(entities)), Views(entities), truncated, max, size)
    ensures |truncated| <= 40 && Ended(Views(entities), max, size, |truncated|)
  {
    ghost var was := Views(entities);
    truncated, summarized := [], false;
    for guard := 0 to GUARD
      invariant |truncated| == guard
      invariant summarized <==> truncated != []
      invariant TrimmedBy(was, Views(entities), truncated, max, size)
    {
      var bytes := size(Views(entities));
      if bytes.None? || bytes.value <= max {
        return;
      }
      var name, best := Largest(entities);
      if name == "" || best <= 1 {
        return;
      }
      ghost var before := Views(entities);
      var note := Trim(entities, name, max, size);
      TrimmedMore(was, before, Views(entities), truncated, note, max, size);
      truncated := truncated + [note];
      summarized := true;
    }
  }
}
