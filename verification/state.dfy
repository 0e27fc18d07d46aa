/** internal/state: the saved fingerprint baseline and the delta against it. Map iteration order is
    arbitrary, so a delta is specified by what it contains, in any order. */
module Baseline {
  import opened Protocol
  import opened Schema

  type FpMap = map<string, string>

  datatype RemovedStub = RemovedStub(key: string, previous: string)

  datatype EntityDelta = EntityDelta(
    count: nat, added: seq<Record>, changed: seq<Record>, removed: seq<RemovedStub>, same: nat)

  datatype State = State(scanID: string, algo: string, entities: map<string, FpMap>)

  /** The last record with each key. */
  function ByKey(records: seq<Record>): map<string, Record> {
    if records == [] then map[]
    else
      var last := records[|records| - 1];
      ByKey(records[..|records| - 1])[KeyOf(last) := last]
  }

  /** key -> fingerprint. */
  function KeyMap(records: seq<Record>): FpMap {
    map k | k in ByKey(records) :: FingerprintOf(ByKey(records)[k])
  }

  lemma {:induction false} ByKeyFacts(records: seq<Record>)
    ensures forall k | k in ByKey(records) :: KeyOf(ByKey(records)[k]) == k && ByKey(records)[k] in records
    ensures forall r | r in records :: KeyOf(r) in ByKey(records)
  {
    if records != [] {
      ByKeyFacts(records[..|records| - 1]);
      assert records == records[..|records| - 1] + [records[|records| - 1]];
    }
  }

  lemma IndexSnoc(records: seq<Record>, r: Record)
    ensures ByKey(records + [r]) == ByKey(records)[KeyOf(r) := r]
    ensures KeyMap(records + [r]) == KeyMap(records)[KeyOf(r) := FingerprintOf(r)]
  {
    assert (records + [r])[..|records|] == records;
  }

  function Old(prev: map<string, FpMap>, name: string): FpMap {
    if name in prev then prev[name] else map[]
  }

  // ----- what a delta is -----

  /** Exactly the records of the given keys, once each, in some order. */
  predicate Carries(recs: seq<Record>, keys: set<string>, byKey: map<string, Record>) {
    if recs == [] then keys == {}
    else
      var last := recs[|recs| - 1];
      && KeyOf(last) in keys && KeyOf(last) in byKey && last == byKey[KeyOf(last)]
      && Carries(recs[..|recs| - 1], keys - {KeyOf(last)}, byKey)
  }

  predicate CarriesStubs(stubs: seq<RemovedStub>, keys: set<string>, base: FpMap) {
    if stubs == [] then keys == {}
    else
      var last := stubs[|stubs| - 1];
      && last.key in keys && last.key in base && last.previous == base[last.key]
      && CarriesStubs(stubs[..|stubs| - 1], keys - {last.key}, base)
  }

  function StubKeys(stubs: seq<RemovedStub>): set<string> {
    if stubs == [] then {} else StubKeys(stubs[..|stubs| - 1]) + {stubs[|stubs| - 1].key}
  }

  function NewKeys<K, V>(cur: map<K, V>, base: map<K, V>): set<K> { cur.Keys - base.Keys }

  function ChangedKeys<K, V(==)>(cur: map<K, V>, base: map<K, V>): set<K> {
    set k | k in cur && k in base && base[k] != cur[k]
  }

  function SameKeys<K, V(==)>(cur: map<K, V>, base: map<K, V>): set<K> {
    set k | k in cur && k in base && base[k] == cur[k]
  }

  ghost predicate IsDelta(d: EntityDelta, records: seq<Record>, base: FpMap) {
    var cur := KeyMap(records);
    && d.count == |cur|
    && Carries(d.added, NewKeys(cur, base), ByKey(records))
    && Carries(d.changed, ChangedKeys(cur, base), ByKey(records))
    && CarriesStubs(d.removed, base.Keys - cur.Keys, base)
    && d.same == |SameKeys(cur, base)|
  }

  // ----- BuildDelta -----

  lemma CarriesMore(recs: seq<Record>, keys: set<string>, byKey: map<string, Record>, k: string)
    requires Carries(recs, keys, byKey) && k !in keys && k in byKey && KeyOf(byKey[k]) == k
    ensures Carries(recs + [byKey[k]], keys + {k}, byKey)
  {
    assert (recs + [byKey[k]])[..|recs|] == recs;
    assert keys + {k} - {k} == keys;
  }

  lemma CarriesMoreStubs(stubs: seq<RemovedStub>, keys: set<string>, base: FpMap, k: string)
    requires CarriesStubs(stubs, keys, base) && k !in keys && k in base
    ensures CarriesStubs(stubs + [RemovedStub(k, base[k])], keys + {k}, base)
  {
    assert (stubs + [RemovedStub(k, base[k])])[..|stubs|] == stubs;
    assert keys + {k} - {k} == keys;
  }

  method IndexRecords(records: seq<Record>) returns (cur: FpMap, byKey: map<string, Record>)
    ensures cur == KeyMap(records) && byKey == ByKey(records)
  {
    cur, byKey := map[], map[];
    for i := 0 to |records|
      invariant byKey == ByKey(records[..i]) && cur == KeyMap(records[..i])
    {
      IndexSnoc(records[..i], records[i]);
      assert records[..i + 1] == records[..i] + [records[i]];
      var key := KeyOf(records[i]);
      cur := cur[key := FingerprintOf(records[i])];
      byKey := byKey[key := records[i]];
    }
    assert records[..|records|] == records;
  }

  /** What Compare has sorted out once only `todo` is left. */
  ghost predicate Compared(cur: FpMap, byKey: map<string, Record>, base: FpMap, todo: set<string>,
                           added: seq<Record>, changed: seq<Record>, same: nat) {
    && Carries(added, NewKeys(cur, base) - todo, byKey)
    && Carries(changed, ChangedKeys(cur, base) - todo, byKey)
    && same == |SameKeys(cur, base) - todo|
  }

  lemma CompareOne(cur: FpMap, byKey: map<string, Record>, base: FpMap, todo: set<string>,
                   added: seq<Record>, changed: seq<Record>, same: nat, k: string)
    requires Compared(cur, byKey, base, todo, added, changed, same)
    requires k in todo && k in cur && k in byKey && KeyOf(byKey[k]) == k
    ensures k !in base ==> Compared(cur, byKey, base, todo - {k}, added + [byKey[k]], changed, same)
    ensures k in base && base[k] != cur[k] ==> Compared(cur, byKey, base, todo - {k}, added, changed + [byKey[k]], same)
    ensures k in base && base[k] == cur[k] ==> Compared(cur, byKey, base, todo - {k}, added, changed, same + 1)
  {
    Took(NewKeys(cur, base), todo, k);
    Took(ChangedKeys(cur, base), todo, k);
    Took(SameKeys(cur, base), todo, k);
    if k !in base {
      CarriesMore(added, NewKeys(cur, base) - todo, byKey, k);
    } else if base[k] != cur[k] {
      CarriesMore(changed, ChangedKeys(cur, base) - todo, byKey, k);
    }
  }

  method Compare(cur: FpMap, byKey: map<string, Record>, base: FpMap)
    returns (added: seq<Record>, changed: seq<Record>, same: nat)
    requires cur.Keys == byKey.Keys && forall k | k in byKey :: KeyOf(byKey[k]) == k
    ensures Carries(added, NewKeys(cur, base), byKey)
    ensures Carries(changed, ChangedKeys(cur, base), byKey)
    ensures same == |SameKeys(cur, base)|
  {
    added, changed, same := [], [], 0;
    var todo := cur.Keys;
    ComparedBounds(cur, base);
    while todo != {}
      invariant todo <= cur.Keys
      invariant Compared(cur, byKey, base, todo, added, changed, same)
      decreases todo
    {
      var k :| k in todo;
      CompareOne(cur, byKey, base, todo, added, changed, same, k);
      if k !in base {
        added := added + [byKey[k]];
      } else if base[k] != cur[k] {
        changed := changed + [byKey[k]];
      } else {
        same := same + 1;
      }
      todo := todo - {k};
    }
  }

  lemma ComparedBounds<K, V>(cur: map<K, V>, base: map<K, V>)
    ensures NewKeys(cur, base) - cur.Keys == ChangedKeys(cur, base) - cur.Keys == SameKeys(cur, base) - cur.Keys == {}
    ensures NewKeys(cur, base) - {} == NewKeys(cur, base)
    ensures ChangedKeys(cur, base) - {} == ChangedKeys(cur, base)
    ensures SameKeys(cur, base) - {} == SameKeys(cur, base)
  {
  }

  lemma Took<K>(s: set<K>, todo: set<K>, k: K)
    requires k in todo
    ensures s - (todo - {k}) == if k in s then s - todo + {k} else s - todo
  {
  }

  method Missing(cur: FpMap, base: FpMap) returns (removed: seq<RemovedStub>)
    ensures CarriesStubs(removed, base.Keys - cur.Keys, base)
  {
    removed := [];
    var todo := base.Keys;
    while todo != {}
      invariant todo <= base.Keys
      invariant CarriesStubs(removed, base.Keys - cur.Keys - todo, base)
      decreases todo
    {
      var k :| k in todo;
      Took(base.Keys - cur.Keys, todo, k);
      if k !in cur {
        CarriesMoreStubs(removed, base.Keys - cur.Keys - todo, base, k);
        removed := removed + [RemovedStub(k, base[k])];
      }
      todo := todo - {k};
    }
    assert base.Keys - cur.Keys - todo == base.Keys - cur.Keys;
  }

  method DiffEntity(records: seq<Record>, base: FpMap) returns (d: EntityDelta)
    ensures IsDelta(d, records, base)
  {
    var cur, byKey := IndexRecords(records);
    ByKeyFacts(records);
    var added, changed, same := Compare(cur, byKey, base);
    var removed := Missing(cur, base);
    d := EntityDelta(|cur|, added, changed, removed, same);
  }

  /** The collections of a scan, by entity name, with their records. */
  type Inventory = map<string, seq<Record>>

  ghost function RecordsOf(entities: map<string, EntityCollection>): Inventory
    reads entities.Values
  {
    map name | name in entities :: entities[name].records
  }

  ghost predicate IsDeltaOf(out: map<string, EntityDelta>, entities: Inventory, prev: map<string, FpMap>) {
    out.Keys == entities.Keys && forall name | name in out :: IsDelta(out[name], entities[name], Old(prev, name))
  }

  /** The deltas of all entities but those still to be looked at. */
  ghost predicate DeltasBut(out: map<string, EntityDelta>, entities: Inventory, prev: map<string, FpMap>,
                            todo: set<string>) {
    out.Keys == entities.Keys - todo && forall name | name in out :: IsDelta(out[name], entities[name], Old(prev, name))
  }

  lemma OneMoreDelta(out: map<string, EntityDelta>, entities: Inventory, prev: map<string, FpMap>, todo: set<string>,
                     name: string, d: EntityDelta)
    requires DeltasBut(out, entities, prev, todo) && name in todo && name in entities
    requires IsDelta(d, entities[name], Old(prev, name))
    ensures DeltasBut(out[name := d], entities, prev, todo - {name})
  {
    var more := out[name := d];
    forall x | x in more ensures IsDelta(more[x], entities[x], Old(prev, x)) {
      if x != name {
        assert more[x] == out[x];
        assert IsDelta(out[x], entities[x], Old(prev, x));
      }
    }
  }

  method BuildDelta(entities: map<string, EntityCollection>, prev: map<string, FpMap>)
    returns (out: map<string, EntityDelta>)
    ensures IsDeltaOf(out, RecordsOf(entities), prev)
  {
    out := map[];
    var todo := entities.Keys;
    while todo != {}
      invariant todo <= entities.Keys
      invariant DeltasBut(out, RecordsOf(entities), prev, todo)
      decreases todo
    {
      var name :| name in todo;
      var d := DiffEntity(entities[name].records, Old(prev, name));
      OneMoreDelta(out, RecordsOf(entities), prev, todo, name, d);
      out := out[name := d];
      todo := todo - {name};
    }
  }

  function KeyMaps(entities: Inventory): map<string, FpMap> {
    map name | name in entities :: KeyMap(entities[name])
  }

  method Snapshot(scanID: string, algo: string, entities: map<string, EntityCollection>) returns (s: State)
    ensures s == State(scanID, algo, KeyMaps(RecordsOf(entities)))
  {
    var maps: map<string, FpMap> := map[];
    var todo := entities.Keys;
    while todo != {}
      invariant todo <= entities.Keys && maps.Keys == entities.Keys - todo
      invariant forall name | name in maps :: maps[name] == KeyMap(entities[name].records)
      decreases todo
    {
      var name :| name in todo;
      var m, _ := IndexRecords(entities[name].records);
      maps := maps[name := m];
      todo := todo - {name};
    }
    s := State(scanID, algo, maps);
  }

  /** `AsMaps`, nil state included. */
  function AsMaps(s: Option<State>): map<string, FpMap> {
    if s.None? then map[] else s.value.entities
  }

  // ----- a delta replays -----

  function PutAll(m: FpMap, records: seq<Record>): FpMap {
    if records == [] then m
    else
      var last := records[|records| - 1];
      PutAll(m, records[..|records| - 1])[KeyOf(last) := FingerprintOf(last)]
  }

  /** What a receiver does with a delta: take the base, drop the removed keys, store the rest. */
  function Rebuild(base: FpMap, d: EntityDelta): FpMap {
    PutAll(PutAll(base - StubKeys(d.removed), d.added), d.changed)
  }

  lemma {:induction false} CarriesSize(recs: seq<Record>, keys: set<string>, byKey: map<string, Record>)
    requires Carries(recs, keys, byKey)
    ensures |recs| == |keys|
  {
    if recs != [] {
      var n := |recs| - 1;
      CarriesSize(recs[..n], keys - {KeyOf(recs[n])}, byKey);
    }
  }

  lemma {:induction false} StubsSize(stubs: seq<RemovedStub>, keys: set<string>, base: FpMap)
    requires CarriesStubs(stubs, keys, base)
    ensures |stubs| == |keys| && StubKeys(stubs) == keys
  {
    if stubs != [] {
      var n := |stubs| - 1;
      StubsSize(stubs[..n], keys - {stubs[n].key}, base);
    }
  }

  lemma {:induction false} PutAllAt(m: FpMap, recs: seq<Record>, keys: set<string>, byKey: map<string, Record>)
    requires Carries(recs, keys, byKey)
    ensures keys <= byKey.Keys
    ensures PutAll(m, recs) == m + map k | k in keys :: FingerprintOf(byKey[k])
  {
    if recs != [] {
      var n := |recs| - 1;
      var last := KeyOf(recs[n]);
      PutAllAt(m, recs[..n], keys - {last}, byKey);
      PutLast(m, keys, byKey, last);
    }
  }

  lemma PutLast(m: FpMap, keys: set<string>, byKey: map<string, Record>, k: string)
    requires k in keys && keys <= byKey.Keys
    ensures (m + map x | x in keys - {k} :: FingerprintOf(byKey[x]))[k := FingerprintOf(byKey[k])]
            == m + map x | x in keys :: FingerprintOf(byKey[x])
  {
  }

  /** Replaying a delta on its baseline gives exactly the new key -> fingerprint map. */
  lemma DeltaReplays(d: EntityDelta, records: seq<Record>, base: FpMap)
    requires IsDelta(d, records, base)
    ensures Rebuild(base, d) == KeyMap(records)
  {
    var cur, byKey := KeyMap(records), ByKey(records);
    var kept := base - StubKeys(d.removed);
    PutAllAt(kept, d.added, NewKeys(cur, base), byKey);
    PutAllAt(PutAll(kept, d.added), d.changed, ChangedKeys(cur, base), byKey);
    StubsSize(d.removed, base.Keys - cur.Keys, base);
    ReplayMaps(cur, byKey, base);
  }

  lemma ReplayMaps(cur: FpMap, byKey: map<string, Record>, base: FpMap)
    requires cur == map k | k in byKey :: FingerprintOf(byKey[k])
    ensures (base - (base.Keys - cur.Keys))
            + (map k | k in NewKeys(cur, base) :: FingerprintOf(byKey[k]))
            + (map k | k in ChangedKeys(cur, base) :: FingerprintOf(byKey[k])) == cur
  {
  }

  lemma ThreeParts<K>(all: set<K>, a: set<K>, b: set<K>, c: set<K>)
    requires forall k :: k in all <==> k in a || k in b || k in c
    requires forall k :: !(k in a && k in b) && !(k in a && k in c) && !(k in b && k in c)
    ensures |all| == |a| + |b| + |c|
  {
    assert all == a + (b + c);
    assert a !! (b + c) && b !! c;
  }

  lemma PartitionSizes<K, V>(cur: map<K, V>, base: map<K, V>)
    ensures |cur| == |NewKeys(cur, base)| + |ChangedKeys(cur, base)| + |SameKeys(cur, base)|
    ensures |base| == |base.Keys - cur.Keys| + |ChangedKeys(cur, base)| + |SameKeys(cur, base)|
  {
    ThreeParts(cur.Keys, NewKeys(cur, base), ChangedKeys(cur, base), SameKeys(cur, base));
    ThreeParts(base.Keys, base.Keys - cur.Keys, ChangedKeys(cur, base), SameKeys(cur, base));
  }

  lemma DeltaSizes(d: EntityDelta, records: seq<Record>, base: FpMap)
    requires IsDelta(d, records, base)
    ensures var cur := KeyMap(records);
      && |d.added| == |NewKeys(cur, base)|
      && |d.changed| == |ChangedKeys(cur, base)|
      && |d.removed| == |base.Keys - cur.Keys|
  {
    var cur := KeyMap(records);
    CarriesSize(d.added, NewKeys(cur, base), ByKey(records));
    CarriesSize(d.changed, ChangedKeys(cur, base), ByKey(records));
    StubsSize(d.removed, base.Keys - cur.Keys, base);
  }

  /** Every record of the new scan is added, changed or unchanged; every record of the baseline is
      removed, changed or unchanged. */
  lemma DeltaCounts(d: EntityDelta, records: seq<Record>, base: FpMap)
    requires IsDelta(d, records, base)
    ensures d.count == |d.added| + |d.changed| + d.same
    ensures |base| == |d.removed| + |d.changed| + d.same
  {
    DeltaSizes(d, records, base);
    PartitionSizes(KeyMap(records), base);
  }

  predicate HasKey(records: seq<Record>, k: string) {
    exists i :: 0 <= i < |records| && KeyOf(records[i]) == k
  }

  predicate HasStub(stubs: seq<RemovedStub>, k: string) {
    exists i :: 0 <= i < |stubs| && stubs[i].key == k
  }

  /** When a key repeats, the last record is the one that counts. */
  lemma {:induction false} LastCounts(records: seq<Record>, i: nat)
    requires i < |records| && forall j | i < j < |records| :: KeyOf(records[j]) != KeyOf(records[i])
    ensures var k := KeyOf(records[i]);
      && k in ByKey(records) && ByKey(records)[k] == records[i]
      && k in KeyMap(records) && KeyMap(records)[k] == FingerprintOf(records[i])
  {
    var n := |records| - 1;
    if i < n {
      var front := records[..n];
      assert forall j | 0 <= j < n :: front[j] == records[j];
      LastCounts(front, i);
      assert KeyOf(records[n]) != KeyOf(records[i]);
    }
  }

  lemma KeyMapHas(records: seq<Record>, k: string)
    ensures k in KeyMap(records) <==> HasKey(records, k)
  {
    ByKeyFacts(records);
    if k in ByKey(records) {
      var i :| 0 <= i < |records| && records[i] == ByKey(records)[k];
      assert KeyOf(records[i]) == k;
    }
    if HasKey(records, k) {
      var i :| 0 <= i < |records| && KeyOf(records[i]) == k;
      assert records[i] in records;
    }
  }

  lemma {:induction false} CarriesKeys(recs: seq<Record>, keys: set<string>, byKey: map<string, Record>, k: string)
    requires Carries(recs, keys, byKey)
    ensures HasKey(recs, k) <==> k in keys
  {
    if recs != [] {
      var n := |recs| - 1;
      CarriesKeys(recs[..n], keys - {KeyOf(recs[n])}, byKey, k);
      HasKeySnoc(recs[..n], recs[n], k);
      assert recs == recs[..n] + [recs[n]];
    }
  }

  lemma HasKeySnoc(front: seq<Record>, r: Record, k: string)
    ensures HasKey(front + [r], k) <==> HasKey(front, k) || KeyOf(r) == k
  {
    var all := front + [r];
    if HasKey(front, k) {
      var i :| 0 <= i < |front| && KeyOf(front[i]) == k;
      assert KeyOf(all[i]) == k;
    }
    assert all[|front|] == r;
  }

  lemma {:induction false} CarriesRecords(recs: seq<Record>, keys: set<string>, byKey: map<string, Record>, i: nat)
    requires Carries(recs, keys, byKey) && i < |recs|
    ensures KeyOf(recs[i]) in byKey && recs[i] == byKey[KeyOf(recs[i])]
  {
    var n := |recs| - 1;
    if i < n {
      CarriesRecords(recs[..n], keys - {KeyOf(recs[n])}, byKey, i);
    }
  }

  lemma {:induction false} StubsCarry(stubs: seq<RemovedStub>, keys: set<string>, base: FpMap, i: nat)
    requires CarriesStubs(stubs, keys, base) && i < |stubs|
    ensures stubs[i].key in base && stubs[i].previous == base[stubs[i].key]
  {
    var n := |stubs| - 1;
    if i < n {
      StubsCarry(stubs[..n], keys - {stubs[n].key}, base, i);
    }
  }

  lemma {:induction false} StubKeysHave(stubs: seq<RemovedStub>, k: string)
    ensures k in StubKeys(stubs) <==> HasStub(stubs, k)
  {
    if stubs != [] {
      var n := |stubs| - 1;
      StubKeysHave(stubs[..n], k);
      if HasStub(stubs[..n], k) {
        var i :| 0 <= i < n && stubs[..n][i].key == k;
        assert stubs[i].key == k;
      }
      if HasStub(stubs, k) && stubs[n].key != k {
        var i :| 0 <= i < |stubs| && stubs[i].key == k;
        assert stubs[..n][i].key == k;
      }
    }
  }

  /** Key by key: added are those the scan has and the baseline has not, changed are those both have with
      different fingerprints, removed are those the baseline has and the scan has not. */
  lemma DeltaKeys(d: EntityDelta, records: seq<Record>, base: FpMap, k: string)
    requires IsDelta(d, records, base)
    ensures HasKey(d.added, k) <==> HasKey(records, k) && k !in base
    ensures HasKey(d.changed, k) <==>
      HasKey(records, k) && k in base && k in KeyMap(records) && base[k] != KeyMap(records)[k]
    ensures HasStub(d.removed, k) <==> k in base && !HasKey(records, k)
  {
    var cur := KeyMap(records);
    KeyMapHas(records, k);
    CarriesKeys(d.added, NewKeys(cur, base), ByKey(records), k);
    CarriesKeys(d.changed, ChangedKeys(cur, base), ByKey(records), k);
    StubsSize(d.removed, base.Keys - cur.Keys, base);
    StubKeysHave(d.removed, k);
  }

  /** What a delta carries: of an added or changed key the last record of the scan, of a removed one the
      fingerprint it had. */
  lemma DeltaCarries(d: EntityDelta, records: seq<Record>, base: FpMap, i: nat)
    requires IsDelta(d, records, base)
    ensures i < |d.added| ==>
      && d.added[i] in records && KeyOf(d.added[i]) in ByKey(records)
      && d.added[i] == ByKey(records)[KeyOf(d.added[i])]
    ensures i < |d.changed| ==>
      && d.changed[i] in records && KeyOf(d.changed[i]) in ByKey(records)
      && d.changed[i] == ByKey(records)[KeyOf(d.changed[i])]
    ensures i < |d.removed| ==> d.removed[i].key in base && d.removed[i].previous == base[d.removed[i].key]
  {
    var cur := KeyMap(records);
    ByKeyFacts(records);
    if i < |d.added| { CarriesRecords(d.added, NewKeys(cur, base), ByKey(records), i); }
    if i < |d.changed| { CarriesRecords(d.changed, ChangedKeys(cur, base), ByKey(records), i); }
    if i < |d.removed| { StubsCarry(d.removed, base.Keys - cur.Keys, base, i); }
  }

  /** A delta with nothing in it means nothing changed, and the other way round. */
  lemma DeltaEmptyIff(d: EntityDelta, records: seq<Record>, base: FpMap)
    requires IsDelta(d, records, base)
    ensures d.added == [] && d.changed == [] && d.removed == [] <==> KeyMap(records) == base
  {
    var cur := KeyMap(records);
    DeltaSizes(d, records, base);
    if cur == base {
      assert NewKeys(cur, base) == {} && ChangedKeys(cur, base) == {} && base.Keys - cur.Keys == {};
    } else {
      assert NewKeys(cur, base) != {} || ChangedKeys(cur, base) != {} || base.Keys - cur.Keys != {} by {
        if cur.Keys == base.Keys {
          var k :| k in cur && cur[k] != base[k];
          assert k in ChangedKeys(cur, base);
        }
      }
    }
  }
}
