/** internal/ingest/ingest.go, the entity-boundary split: sorted names go greedily into groups whose
    envelope fits ChunkBytes. The wire size is an arbitrary function of the set of entities, so the
    same split serves plain and gzipped payloads. */
module Split {

  type Groups = seq<seq<string>>

  type Size = set<string> -> nat

  function Names(group: seq<string>): set<string> {
    set n | n in group
  }

  predicate Fits(size: Size, limit: int, group: seq<string>) {
    size(Names(group)) <= limit
  }

  /** The groups still to come, with `cur` open. */
  function Greedy(size: Size, limit: int, cur: seq<string>, names: seq<string>): Groups
    decreases |names|
  {
    if names == [] then if cur == [] then [] else [cur]
    else if cur != [] && !Fits(size, limit, cur + [names[0]]) then
      [cur] + Greedy(size, limit, [names[0]], names[1..])
    else Greedy(size, limit, cur + [names[0]], names[1..])
  }

  /** The groups of one envelope: a single one when everything fits, or when chunking is off. */
  function GroupsOf(size: Size, limit: int, names: seq<string>): Groups {
    if limit <= 0 || Fits(size, limit, names) then [names] else Greedy(size, limit, [], names)
  }

  function Concat(groups: Groups): seq<string> {
    if groups == [] then [] else groups[0] + Concat(groups[1..])
  }

  /** A group of two or more names fits; a single entity is never cut. */
  predicate Legal(size: Size, limit: int, group: seq<string>) {
    |group| >= 2 ==> Fits(size, limit, group)
  }

  ghost predicate Partition(size: Size, limit: int, groups: Groups, names: seq<string>) {
    Concat(groups) == names && forall g | g in groups :: Legal(size, limit, g)
  }

  /** No group could have taken the name that opens the next one. */
  ghost predicate Full(size: Size, limit: int, groups: Groups) {
    forall i | 0 <= i < |groups| - 1 :: FullAt(size, limit, groups, i)
  }

  predicate FullAt(size: Size, limit: int, groups: Groups, i: nat)
    requires i < |groups| - 1
  {
    groups[i + 1] != [] && !Fits(size, limit, groups[i] + [groups[i + 1][0]])
  }

  lemma {:induction false} GreedyIsPartition(size: Size, limit: int, cur: seq<string>, names: seq<string>)
    requires Legal(size, limit, cur)
    ensures var gs := Greedy(size, limit, cur, names);
      && Partition(size, limit, gs, cur + names)
      && (forall g | g in gs :: g != [])
      && Full(size, limit, gs)
      && (cur != [] ==> gs != [] && cur <= gs[0])
      && (names != [] ==> gs != [])
    decreases |names|
  {
    var gs := Greedy(size, limit, cur, names);
    if names == [] {
      assert Concat([cur]) == cur + Concat([]);
      assert cur + names == cur;
    } else {
      var n, rest := names[0], names[1..];
      assert names == [n] + rest;
      assert cur + names == cur + [n] + rest;
      if cur != [] && !Fits(size, limit, cur + [n]) {
        GreedyIsPartition(size, limit, [n], rest);
        var tail := Greedy(size, limit, [n], rest);
        assert gs[1..] == tail;
        forall i | 0 <= i < |gs| - 1 ensures FullAt(size, limit, gs, i) {
          assert gs[i + 1] == tail[i] && tail[i] in tail;
          if i > 0 { assert FullAt(size, limit, tail, i - 1); } else { assert tail[0][0] == n; }
        }
      } else {
        GreedyIsPartition(size, limit, cur + [n], rest);
      }
    }
  }

  /** With chunking off, or everything within ChunkBytes, there is one chunk with everything in it. */
  lemma NoSplit(size: Size, limit: int, names: seq<string>)
    requires limit <= 0 || size(Names(names)) <= limit
    ensures GroupsOf(size, limit, names) == [names]
  {
  }

  /** In split mode the groups are the sorted names cut up in order, none empty, every group of two
      or more within ChunkBytes, and no group could have taken the next name as well. */
  lemma SplitIsSound(size: Size, limit: int, names: seq<string>)
    requires limit > 0 && size(Names(names)) > limit
    ensures var gs := GroupsOf(size, limit, names);
      && Concat(gs) == names
      && (forall g | g in gs :: g != [] && (|g| >= 2 ==> size(Names(g)) <= limit))
      && forall i, j | 0 <= i < j == i + 1 < |gs| :: gs[j] != [] && size(Names(gs[i] + [gs[j][0]])) > limit
  {
    var gs := GroupsOf(size, limit, names);
    GreedyIsPartition(size, limit, [], names);
    assert [] + names == names;
    forall i, j | 0 <= i < j == i + 1 < |gs| ensures gs[j] != [] && size(Names(gs[i] + [gs[j][0]])) > limit {
      assert FullAt(size, limit, gs, i);
    }
  }

  // ----- no division into contiguous groups does with fewer -----

  ghost predicate Monotone(size: Size) {
    forall a, b | a <= b :: size(a) <= size(b)
  }

  /** While everything fits, the open group swallows it. */
  lemma {:induction false} Swallows(size: Size, limit: int, cur: seq<string>, names: seq<string>, m: nat)
    requires m <= |names|
    requires forall j | 1 <= j <= m && cur + names[..j - 1] != [] :: Fits(size, limit, cur + names[..j])
    ensures Greedy(size, limit, cur, names) == Greedy(size, limit, cur + names[..m], names[m..])
    decreases m
  {
    if m == 0 {
      assert cur + names[..0] == cur && names[0..] == names;
    } else {
      var n, rest := names[0], names[1..];
      assert names[..1] == [n];
      if cur != [] { assert cur + names[..0] == cur; assert Fits(size, limit, cur + names[..1]); }
      forall j | 1 <= j <= m - 1 && cur + [n] + rest[..j - 1] != []
        ensures Fits(size, limit, cur + [n] + rest[..j])
      {
        assert cur + [n] + rest[..j] == cur + names[..j + 1];
        assert cur + names[..j + 1 - 1] != [];
      }
      Swallows(size, limit, cur + [n], rest, m - 1);
      assert cur + [n] + rest[..m - 1] == cur + names[..m] && rest[m - 1..] == names[m..];
    }
  }

  /** The open group closes somewhere, and the split starts afresh behind it. */
  lemma {:induction false} FirstGroup(size: Size, limit: int, cur: seq<string>, names: seq<string>) returns (g: nat)
    requires cur != []
    ensures g <= |names|
    ensures Greedy(size, limit, cur, names) == [cur + names[..g]] + Greedy(size, limit, [], names[g..])
    decreases |names|
  {
    if names == [] {
      g := 0;
      assert cur + names[..0] == cur;
    } else if !Fits(size, limit, cur + [names[0]]) {
      g := 0;
      assert cur + names[..0] == cur && names[0..] == names;
      assert [] + [names[0]] == [names[0]];
    } else {
      var h := FirstGroup(size, limit, cur + [names[0]], names[1..]);
      g := h + 1;
      assert cur + [names[0]] + names[1..][..h] == cur + names[..g] && names[1..][h..] == names[g..];
    }
  }

  /** Any legal division of a longer list is no shorter than the greedy split of its suffix. */
  lemma {:induction false} SuffixNoWorse(size: Size, limit: int, groups: Groups, names: seq<string>, i: nat)
    requires Monotone(size) && Partition(size, limit, groups, names) && i <= |names|
    ensures |Greedy(size, limit, [], names[i..])| <= |groups|
    decreases |groups|
  {
    if i < |names| {
      assert groups != [];
      var p, others := groups[0], groups[1..];
      var rest := Concat(others);
      assert names == p + rest;
      assert Partition(size, limit, others, rest);
      if |p| <= i {
        SuffixNoWorse(size, limit, others, rest, i - |p|);
        assert names[i..] == rest[i - |p|..];
      } else {
        var t, m := names[i..], |p| - i;
        assert p in groups;
        forall j | 1 <= j <= m && [] + t[..j - 1] != [] ensures Fits(size, limit, [] + t[..j]) {
          assert Names(t[..j]) <= Names(p) by {
            assert forall x | x in t[..j] :: x in p;
          }
          assert [] + t[..j] == t[..j];
        }
        Swallows(size, limit, [], t, m);
        assert [] + t[..m] == t[..m];
        var g := FirstGroup(size, limit, t[..m], t[m..]);
        SuffixNoWorse(size, limit, others, rest, g);
        assert t[m..] == rest;
      }
    }
  }

  /** When the wire size only grows with added entities, as without compression, no division of the
      sorted names into contiguous groups, each of two or more within ChunkBytes, has fewer groups;
      except that an envelope without any entity is still one chunk. */
  lemma SplitIsMinimal(size: Size, limit: int, names: seq<string>, groups: Groups)
    requires Monotone(size) && Partition(size, limit, groups, names)
    ensures if names == [] then |GroupsOf(size, limit, names)| <= 1
            else |GroupsOf(size, limit, names)| <= |groups|
  {
    SuffixNoWorse(size, limit, groups, names, 0);
    assert names[0..] == names;
  }

  // ----- the loop itself -----

  function Restrict<T>(entities: map<string, T>, group: seq<string>): map<string, T> {
    map n | n in group && n in entities :: entities[n]
  }

  function RestrictAll<T>(entities: map<string, T>, groups: Groups): seq<map<string, T>> {
    seq(|groups|, i requires 0 <= i < |groups| => Restrict(entities, groups[i]))
  }

  lemma OneMoreGroup<T>(entities: map<string, T>, groups: Groups, g: seq<string>)
    ensures RestrictAll(entities, groups + [g]) == RestrictAll(entities, groups) + [Restrict(entities, g)]
  {
  }

  lemma OneMoreName<T>(entities: map<string, T>, open: seq<string>, n: string)
    requires n in entities
    ensures Restrict(entities, open + [n]) == Restrict(entities, open)[n := entities[n]]
  {
  }

  /** The open group as a map: as empty as the group, and with its names for keys. */
  lemma OpenGroup<T>(entities: map<string, T>, open: seq<string>)
    requires forall n | n in open :: n in entities
    ensures Restrict(entities, open).Keys == Names(open)
    ensures |Restrict(entities, open)| > 0 <==> open != []
  {
    if open != [] { assert open[0] in Restrict(entities, open); }
  }

  /** Before the i-th name: the groups closed so far and the open one, as lists of names and as maps. */
  ghost predicate Splitting<T>(entities: map<string, T>, names: seq<string>, size: Size, limit: int, i: nat,
                               closed: Groups, open: seq<string>,
                               groups: seq<map<string, T>>, cur: map<string, T>) {
    && i <= |names|
    && groups == RestrictAll(entities, closed) && cur == Restrict(entities, open)
    && (forall n | n in open :: n in entities)
    && closed + Greedy(size, limit, open, names[i..]) == Greedy(size, limit, [], names)
  }

  lemma GreedyTurn(size: Size, limit: int, open: seq<string>, names: seq<string>, i: nat)
    requires i < |names|
    ensures Greedy(size, limit, open, names[i..]) ==
      if open != [] && !Fits(size, limit, open + [names[i]])
      then [open] + Greedy(size, limit, [names[i]], names[i + 1..])
      else Greedy(size, limit, open + [names[i]], names[i + 1..])
  {
    assert names[i..][0] == names[i] && names[i..][1..] == names[i + 1..];
  }

  lemma NextName<T>(entities: map<string, T>, names: seq<string>, size: Size, limit: int, i: nat,
                    closed: Groups, open: seq<string>, groups: seq<map<string, T>>, cur: map<string, T>)
    requires Splitting(entities, names, size, limit, i, closed, open, groups, cur)
    requires i < |names| && names[i] in entities
    ensures var n := names[i];
      var trial := cur[n := entities[n]];
      if size(trial.Keys) > limit && |cur| > 0
      then Splitting(entities, names, size, limit, i + 1, closed + [open], [n],
                     groups + [cur], map[n := entities[n]])
      else Splitting(entities, names, size, limit, i + 1, closed, open + [n], groups, trial)
  {
    var n := names[i];
    OpenGroup(entities, open);
    OneMoreName(entities, open, n);
    OpenGroup(entities, open + [n]);
    GreedyTurn(size, limit, open, names, i);
    OneMoreGroup(entities, closed, open);
    OneMoreName(entities, [], n);
    var rest := Greedy(size, limit, [n], names[i + 1..]);
    assert closed + ([open] + rest) == closed + [open] + rest;
    assert [] + [n] == [n];
  }

  lemma LastGroup<T>(entities: map<string, T>, names: seq<string>, size: Size, limit: int,
                     closed: Groups, open: seq<string>, groups: seq<map<string, T>>, cur: map<string, T>)
    requires Splitting(entities, names, size, limit, |names|, closed, open, groups, cur)
    ensures RestrictAll(entities, Greedy(size, limit, [], names)) == if |cur| > 0 then groups + [cur] else groups
  {
    assert names[|names|..] == [];
    OpenGroup(entities, open);
    if |cur| > 0 {
      OneMoreGroup(entities, closed, open);
    } else {
      assert closed + [] == closed;
    }
  }

  method SplitEntities<T>(entities: map<string, T>, names: seq<string>, size: Size, limit: int)
    returns (groups: seq<map<string, T>>)
    requires forall n :: n in names <==> n in entities
    ensures groups == RestrictAll(entities, GroupsOf(size, limit, names))
  {
    if limit <= 0 || size(Names(names)) <= limit {
      assert Restrict(entities, names) == entities;
      return [entities];
    }
    groups := [];
    var cur: map<string, T> := map[];
    ghost var closed: Groups := [];
    ghost var open: seq<string> := [];
    assert names[0..] == names && closed + Greedy(size, limit, [], names) == Greedy(size, limit, [], names);
    for i := 0 to |names|
      invariant Splitting(entities, names, size, limit, i, closed, open, groups, cur)
    {
      var n := names[i];
      NextName(entities, names, size, limit, i, closed, open, groups, cur);
      var trial := cur[n := entities[n]];
      if size(trial.Keys) > limit && |cur| > 0 {
        groups := groups + [cur];
        closed := closed + [open];
        cur := map[n := entities[n]];
        open := [n];
        continue;
      }
      cur := trial;
      open := open + [n];
    }
    LastGroup(entities, names, size, limit, closed, open, groups, cur);
    if |cur| > 0 {
      groups := groups + [cur];
    }
  }

  /** Putting the chunks back together. */
  function Merge<T>(chunks: seq<map<string, T>>): map<string, T> {
    if chunks == [] then map[] else chunks[0] + Merge(chunks[1..])
  }

  lemma {:induction false} MergeRestrict<T>(entities: map<string, T>, groups: Groups)
    ensures Merge(RestrictAll(entities, groups)) == Restrict(entities, Concat(groups))
  {
    if groups != [] {
      MergeRestrict(entities, groups[1..]);
      assert RestrictAll(entities, groups)[1..] == RestrictAll(entities, groups[1..]);
      forall n ensures n in Concat(groups) <==> n in groups[0] || n in Concat(groups[1..]) {
      }
    }
  }

  /** The chunks of an envelope merge back into its entities, split or not. */
  lemma ChunksRestore<T>(entities: map<string, T>, names: seq<string>, size: Size, limit: int)
    requires forall n :: n in names <==> n in entities
    ensures Merge(RestrictAll(entities, GroupsOf(size, limit, names))) == entities
  {
    MergeRestrict(entities, GroupsOf(size, limit, names));
    if limit <= 0 || Fits(size, limit, names) {
      assert Concat([names]) == names + Concat([]);
    } else {
      SplitIsSound(size, limit, names);
    }
  }
}
