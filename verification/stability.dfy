/** internal/schema and internal/state together: telemetry and collection order do not make an
    inventory look changed. */
module Stability {
  import opened Text
  import opened Protocol
  import opened Schema
  import opened Baseline

  /** The records without telemetry, nil ones left out. */
  function Stables(records: seq<Option<Record>>): seq<Record> {
    if records == [] then []
    else
      var n := |records| - 1;
      Stables(records[..n]) + (if records[n].Some? then [Stable(records[n].value)] else [])
  }

  /** Collectors gave every record its own non-empty key. */
  ghost predicate Keyed(records: seq<Option<Record>>) {
    && (forall r | r in records && r.Some? :: KeyOf(r.value) != "")
    && Distinct(RawKeys(records))
  }

  function Apply(f: Record -> string, s: seq<Record>): seq<string> {
    seq(|s|, i requires 0 <= i < |s| => f(s[i]))
  }

  lemma KeyIsStable(rec: Record)
    ensures KeyOf(Stable(rec)) == KeyOf(rec)
  {
    assert |"key"| == 3;
    assert forall k | k in VOLATILE_KEYS :: |k| > 3;
  }

  lemma CompletedAsIs(h: Hashing, rec: Record, observedAt: string)
    requires KeyOf(rec) != ""
    ensures var r := Completed(h, rec, KeyOf(rec), observedAt);
      FingerprintOf(r) == h.record(Stable(rec)) && KeyOf(r) == KeyOf(rec)
  {
    assert rec["key" := Str(KeyOf(rec))] == rec;
    assert "key" != "fingerprint" && "key" != "observed_at" && "fingerprint" != "observed_at" by {
      assert |"key"| == 3 && |"fingerprint"| == 11 && "fingerprint"[0] == 'f' && "observed_at"[0] == 'o';
    }
  }

  lemma OneMore(built: seq<Record>, last: Record, stables: seq<Record>, st: Record, h: Hashing)
    requires Fingerprints(built) == Apply(h.record, stables) && Keys(built) == Apply(KeyOf, stables)
    requires FingerprintOf(last) == h.record(st) && KeyOf(last) == KeyOf(st)
    ensures Fingerprints(built + [last]) == Apply(h.record, stables + [st])
    ensures Keys(built + [last]) == Apply(KeyOf, stables + [st])
    ensures Apply(KeyOf, stables + [st]) == Apply(KeyOf, stables) + [KeyOf(last)]
  {
    assert Fingerprints(built + [last]) == Fingerprints(built) + [FingerprintOf(last)];
    assert Keys(built + [last]) == Keys(built) + [KeyOf(last)];
    assert Apply(h.record, stables + [st]) == Apply(h.record, stables) + [h.record(st)];
  }

  lemma KeyedFront(before: seq<Option<Record>>, x: Option<Record>)
    requires Keyed(before + [x])
    ensures Keyed(before)
    ensures x.Some? ==> KeyOf(x.value) != "" && multiset(RawKeys(before))[KeyOf(x.value)] == 0
  {
    RawSnoc(before, x);
    var raw, all := RawKeys(before), RawKeys(before + [x]);
    assert forall i | 0 <= i < |raw| :: raw[i] == all[i];
    assert forall r | r in before :: r in before + [x];
    if x.Some? {
      assert x in before + [x];
      assert all[|raw|] == KeyOf(x.value);
      forall i | 0 <= i < |raw| ensures raw[i] != KeyOf(x.value) {
        assert all[i] != all[|raw|];
      }
    }
  }

  /** With distinct keys nothing is renumbered, so each fingerprint is the hash of the stable part. */
  lemma {:induction false} BuiltFromStables(h: Hashing, records: seq<Option<Record>>, observedAt: string)
    requires Keyed(records)
    ensures var built := Built(h, records, observedAt);
      && Fingerprints(built) == Apply(h.record, Stables(records))
      && Keys(built) == Apply(KeyOf, Stables(records)) == RawKeys(records)
  {
    if records != [] {
      var n := |records| - 1;
      var before, x := records[..n], records[n];
      assert records == before + [x];
      KeyedFront(before, x);
      Snoc(h, before, x, observedAt);
      BuiltFromStables(h, before, observedAt);
      if x.Some? {
        CompletedAsIs(h, x.value, observedAt);
        KeyIsStable(x.value);
        OneMore(Built(h, before, observedAt), Completed(h, x.value, KeyOf(x.value), observedAt),
                Stables(before), Stable(x.value), h);
      }
    }
  }

  lemma BagWithout<T>(s: seq<T>, t: seq<T>, i: nat)
    requires multiset(s) == multiset(t) && s != [] && i < |t| && t[i] == s[0]
    ensures multiset(s[1..]) == multiset(t[..i] + t[i + 1..])
  {
    assert s == [s[0]] + s[1..] && t == t[..i] + [s[0]] + t[i + 1..];
    assert multiset(s) == multiset{s[0]} + multiset(s[1..]);
    assert multiset(t) == multiset(t[..i]) + multiset{s[0]} + multiset(t[i + 1..]);
    assert multiset(t[..i] + t[i + 1..]) == multiset(t) - multiset{s[0]};
    assert multiset(s[1..]) == multiset(s) - multiset{s[0]};
  }

  lemma ApplySplit(f: Record -> string, a: seq<Record>, b: seq<Record>)
    ensures Apply(f, a + b) == Apply(f, a) + Apply(f, b)
  {
  }

  lemma {:induction false} ApplyBag(f: Record -> string, s: seq<Record>, t: seq<Record>)
    requires multiset(s) == multiset(t)
    ensures multiset(Apply(f, s)) == multiset(Apply(f, t))
  {
    if s == [] {
      assert |multiset(t)| == |t|;
    } else {
      assert s[0] in multiset(t);
      var i :| 0 <= i < |t| && t[i] == s[0];
      BagWithout(s, t, i);
      ApplyBag(f, s[1..], t[..i] + t[i + 1..]);
      assert s == [s[0]] + s[1..] && t == t[..i] + ([s[0]] + t[i + 1..]);
      ApplySplit(f, [s[0]], s[1..]);
      ApplySplit(f, t[..i], t[i + 1..]);
      ApplySplit(f, [s[0]], t[i + 1..]);
      ApplySplit(f, t[..i], [s[0]] + t[i + 1..]);
    }
  }

  /** With distinct keys, the key -> fingerprint map is a matter of which pairs occur. */
  lemma KeyMapIff(records: seq<Record>, k: string, fp: string)
    requires Distinct(Keys(records))
    ensures k in KeyMap(records) && KeyMap(records)[k] == fp <==>
            exists i :: 0 <= i < |records| && KeyOf(records[i]) == k && FingerprintOf(records[i]) == fp
  {
    ByKeyFacts(records);
    if k in KeyMap(records) {
      var r := ByKey(records)[k];
      var j :| 0 <= j < |records| && records[j] == r;
      forall i | 0 <= i < |records| && KeyOf(records[i]) == k ensures i == j {
        assert Keys(records)[i] == Keys(records)[j];
      }
    }
  }

  lemma PairsFromStables(h: Hashing, a: seq<Option<Record>>, observedAt: string, k: string, fp: string)
    requires Keyed(a)
    ensures k in KeyMap(Built(h, a, observedAt)) && KeyMap(Built(h, a, observedAt))[k] == fp <==>
            exists s :: s in multiset(Stables(a)) && KeyOf(s) == k && h.record(s) == fp
  {
    var built := Built(h, a, observedAt);
    BuiltFromStables(h, a, observedAt);
    KeyMapIff(built, k, fp);
    var st := Stables(a);
    forall i | 0 <= i < |built| ensures KeyOf(built[i]) == KeyOf(st[i]) && FingerprintOf(built[i]) == h.record(st[i]) {
      assert Keys(built)[i] == Apply(KeyOf, st)[i] && Fingerprints(built)[i] == Apply(h.record, st)[i];
    }
    if s :| s in multiset(st) && KeyOf(s) == k && h.record(s) == fp {
      var i :| 0 <= i < |st| && st[i] == s;
      assert KeyOf(built[i]) == k && FingerprintOf(built[i]) == fp;
    }
  }

  /** Two scans with the same distinct keys that differ only in volatile fields and in the order of
      their records give every key the same fingerprint and the collection the same rollup. */
  lemma VolatileFieldsDoNotShow(h: Hashing, a: seq<Option<Record>>, b: seq<Option<Record>>, atA: string, atB: string)
    requires Keyed(a) && Keyed(b) && multiset(Stables(a)) == multiset(Stables(b))
    ensures KeyMap(Built(h, a, atA)) == KeyMap(Built(h, b, atB))
    ensures Rollup(h, Built(h, a, atA)) == Rollup(h, Built(h, b, atB))
  {
    var ba, bb := Built(h, a, atA), Built(h, b, atB);
    var ma, mb := KeyMap(ba), KeyMap(bb);
    forall k ensures (k in ma <==> k in mb) && (k in ma ==> ma[k] == mb[k]) {
      if k in ma {
        PairsFromStables(h, a, atA, k, ma[k]);
        PairsFromStables(h, b, atB, k, ma[k]);
      }
      if k in mb {
        PairsFromStables(h, a, atA, k, mb[k]);
        PairsFromStables(h, b, atB, k, mb[k]);
      }
    }
    assert ma == mb;
    BuiltFromStables(h, a, atA);
    BuiltFromStables(h, b, atB);
    ApplyBag(h.record, Stables(a), Stables(b));
    SortedUnique(Sort(Fingerprints(ba)), Sort(Fingerprints(bb)));
    assert |multiset(Stables(a))| == |Stables(a)| && |multiset(Stables(b))| == |Stables(b)|;
    assert |Fingerprints(ba)| == |ba| && |Fingerprints(bb)| == |bb|;
  }

  /** Any delta between two such scans adds, changes and removes nothing. */
  lemma TelemetryMakesNoDelta(h: Hashing, a: seq<Option<Record>>, b: seq<Option<Record>>, atA: string, atB: string)
    requires Keyed(a) && Keyed(b) && multiset(Stables(a)) == multiset(Stables(b))
    ensures forall d | IsDelta(d, Built(h, b, atB), KeyMap(Built(h, a, atA))) ::
      d.added == [] && d.changed == [] && d.removed == [] && d.same == d.count
  {
    VolatileFieldsDoNotShow(h, a, b, atA, atB);
    var bb, ma := Built(h, b, atB), KeyMap(Built(h, a, atA));
    forall d | IsDelta(d, bb, ma)
      ensures d.added == [] && d.changed == [] && d.removed == [] && d.same == d.count
    {
      DeltaEmptyIff(d, bb, ma);
      DeltaCounts(d, bb, ma);
    }
  }

  function Members(s: seq<string>): set<string> {
    set x | x in s
  }

  lemma OneMoreMember(s: seq<string>, x: string)
    ensures Members(s + [x]) == Members(s) + {x}
    ensures Distinct(s + [x]) <==> Distinct(s) && x !in Members(s)
  {
    var t := s + [x];
    assert forall i | 0 <= i < |s| :: t[i] == s[i];
    assert t[|s|] == x;
    if x in s {
      var i :| 0 <= i < |s| && s[i] == x;
      assert t[i] == t[|s|];
    }
    if Distinct(t) {
      forall i, j | 0 <= i < j < |s| ensures s[i] != s[j] {
        assert t[i] != t[j];
      }
    }
  }

  lemma {:induction false} DistinctIffSize(s: seq<string>)
    ensures |Members(s)| <= |s|
    ensures |Members(s)| == |s| <==> Distinct(s)
  {
    if s != [] {
      var front, x := s[..|s| - 1], s[|s| - 1];
      DistinctIffSize(front);
      OneMoreMember(front, x);
      assert s == front + [x];
      if x in Members(front) {
        assert Members(front) + {x} == Members(front);
      }
    }
  }

  lemma KeyMapKeys(records: seq<Record>)
    ensures KeyMap(records).Keys == Members(Keys(records))
  {
    ByKeyFacts(records);
    forall k ensures k in KeyMap(records) <==> k in Keys(records) {
      if k in KeyMap(records) {
        var i :| 0 <= i < |records| && records[i] == ByKey(records)[k];
        assert Keys(records)[i] == k;
      }
      if k in Keys(records) {
        var i :| 0 <= i < |Keys(records)| && Keys(records)[i] == k;
        assert records[i] in records;
      }
    }
  }

  /** The collection's count, its number of records and the count of any delta built from it agree
      exactly when no raw key imitates a numbered one. */
  lemma CountsAgreeIff(h: Hashing, records: seq<Option<Record>>, observedAt: string)
    ensures var built := Built(h, records, observedAt);
      forall d, base | IsDelta(d, built, base) :: d.count == |built| <==> !Clash(RawKeys(records))
  {
    var built := Built(h, records, observedAt);
    KeysUniqueIff(h, records, observedAt);
    DistinctIffSize(Keys(built));
    KeyMapKeys(built);
    assert |KeyMap(built)| == |KeyMap(built).Keys|;
  }

  // ----- and changes do -----

  lemma {:induction false} StablesHave(records: seq<Option<Record>>, rec: Record)
    requires Some(rec) in records
    ensures Stable(rec) in multiset(Stables(records))
  {
    var n := |records| - 1;
    if records[n] != Some(rec) {
      assert records == records[..n] + [records[n]];
      StablesHave(records[..n], rec);
    }
  }

  /** In a scan with distinct keys, a record is filed under its own key with its own fingerprint. */
  lemma FiledUnderKey(h: Hashing, records: seq<Option<Record>>, observedAt: string, rec: Record)
    requires Keyed(records) && Some(rec) in records
    ensures var m := KeyMap(Built(h, records, observedAt));
      KeyOf(rec) in m && m[KeyOf(rec)] == h.record(Stable(rec))
  {
    StablesHave(records, rec);
    KeyIsStable(rec);
    PairsFromStables(h, records, observedAt, KeyOf(rec), h.record(Stable(rec)));
  }

  /** Short of a collision, a record that is in both scans is reported as changed exactly when it differs
      in a field that is no telemetry. */
  lemma ChangedFieldShows(h: Hashing, a: seq<Option<Record>>, b: seq<Option<Record>>, atA: string, atB: string,
                          x: Record, y: Record)
    requires Keyed(a) && Keyed(b) && Some(x) in a && Some(y) in b && KeyOf(x) == KeyOf(y)
    ensures Injective(h.record) ==>
      forall d | IsDelta(d, Built(h, b, atB), KeyMap(Built(h, a, atA))) ::
        HasKey(d.changed, KeyOf(x)) <==> !SameButTelemetry(x, y)
  {
    FiledUnderKey(h, a, atA, x);
    FiledUnderKey(h, b, atB, y);
    FingerprintShows(h, x, y);
    KeyMapHas(Built(h, b, atB), KeyOf(x));
    var bb, ma := Built(h, b, atB), KeyMap(Built(h, a, atA));
    if Injective(h.record) {
      forall d | IsDelta(d, bb, ma) ensures HasKey(d.changed, KeyOf(x)) <==> !SameButTelemetry(x, y) {
        DeltaKeys(d, bb, ma, KeyOf(x));
      }
    }
  }
}
