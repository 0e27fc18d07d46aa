/** internal/schema: inventory records, their fingerprints, and BuildEntity. SHA-256 over canonical
    JSON is an uninterpreted function of the filtered record. */
module Schema {
  import opened Text
  import opened Protocol

  /** A JSON value: a string, or anything else by its text. */
  datatype Value = Str(text: string) | Other(json: string)

  type Record = map<string, Value>

  datatype Hashing = Hashing(record: Record -> string, rollup: (nat, seq<string>) -> string)

  const VOLATILE_KEYS: set<string> := {
    "free_bytes", "used_percent", "percent_remaining", "run_time_minutes", "uptime_seconds",
    "ram_free_bytes", "ram_usage_percent", "estimated_charge_remaining", "signal_percent",
    "signal_dbm", "neighbor_state", "days_remaining"
  }

  /** The record without its telemetry. */
  function Stable(rec: Record): Record {
    map k | k in rec && k !in VOLATILE_KEYS :: rec[k]
  }

  method Fingerprint(h: Hashing, rec: Record) returns (fp: string)
    ensures fp == h.record(Stable(rec))
  {
    var filtered: Record := map[];
    var keys := rec.Keys;
    while keys != {}
      invariant keys <= rec.Keys
      invariant filtered == map k | k in rec.Keys - keys && k !in VOLATILE_KEYS :: rec[k]
      decreases keys
    {
      var k :| k in keys;
      keys := keys - {k};
      if k in VOLATILE_KEYS {
        continue;
      }
      filtered := filtered[k := rec[k]];
    }
    assert filtered == Stable(rec);
    return h.record(filtered);
  }

  /** Fields that tell two records apart. */
  ghost predicate SameButTelemetry(a: Record, b: Record) {
    forall k | k !in {
      "free_bytes", "used_percent", "percent_remaining", "run_time_minutes", "uptime_seconds",
      "ram_free_bytes", "ram_usage_percent", "estimated_charge_remaining", "signal_percent",
      "signal_dbm", "neighbor_state", "days_remaining"} ::
      (k in a <==> k in b) && (k in a ==> a[k] == b[k])
  }

  ghost predicate Injective<T(!new)>(f: T -> string) {
    forall x, y | f(x) == f(y) :: x == y
  }

  lemma SameIffStable(a: Record, b: Record)
    ensures Stable(a) == Stable(b) <==> SameButTelemetry(a, b)
  {
    if Stable(a) == Stable(b) {
      forall k | k !in VOLATILE_KEYS ensures (k in a <==> k in b) && (k in a ==> a[k] == b[k]) {
        assert k in a <==> k in Stable(a);
        assert k in b <==> k in Stable(b);
      }
    }
  }

  /** Short of a collision, two records have the same fingerprint exactly when they agree on every field
      but the twelve telemetry fields. */
  lemma FingerprintShows(h: Hashing, a: Record, b: Record)
    ensures SameButTelemetry(a, b) ==> h.record(Stable(a)) == h.record(Stable(b))
    ensures Injective(h.record) ==> (h.record(Stable(a)) == h.record(Stable(b)) <==> SameButTelemetry(a, b))
  {
    SameIffStable(a, b);
  }

  function StringOf(rec: Record, field: string): string {
    if field in rec && rec[field].Str? then rec[field].text else ""
  }

  function KeyOf(rec: Record): string { StringOf(rec, "key") }

  function FingerprintOf(rec: Record): string { StringOf(rec, "fingerprint") }

  class EntityCollection {
    var count: nat
    var fingerprint: string
    var records: seq<Record>
    var summarized: bool
    var omitted: nat

    constructor (count: nat, fingerprint: string, records: seq<Record>)
      ensures this.count == count && this.fingerprint == fingerprint && this.records == records
      ensures !summarized && omitted == 0
    {
      this.count, this.fingerprint, this.records := count, fingerprint, records;
      summarized, omitted := false, 0;
    }
  }

  // ----- keys -----

  /** The key a raw record asks for; `i` is its position among all raw records, nil ones included. */
  function RawKey(rec: Record, i: nat): string {
    if KeyOf(rec) == "" then "item:" + Dec(i) else KeyOf(rec)
  }

  function RawKeys(records: seq<Option<Record>>): seq<string> {
    if records == [] then []
    else
      var n := |records| - 1;
      RawKeys(records[..n]) + (if records[n].Some? then [RawKey(records[n].value, n)] else [])
  }

  /** The n-th record to ask for a key, counting from 1. */
  function NumberedKey(raw: string, n: nat): string {
    if n == 1 then raw else raw + ['#'] + Dec(n)
  }

  function OutKey(raw: seq<string>, j: nat): string
    requires j < |raw|
  {
    NumberedKey(raw[j], multiset(raw[..j])[raw[j]] + 1)
  }

  function OutKeys(raw: seq<string>): seq<string> {
    seq(|raw|, j requires 0 <= j < |raw| => OutKey(raw, j))
  }

  function Completed(h: Hashing, rec: Record, key: string, observedAt: string): Record {
    var keyed := rec["key" := Str(key)];
    keyed["fingerprint" := Str(h.record(Stable(keyed)))]["observed_at" := Str(observedAt)]
  }

  function Built(h: Hashing, records: seq<Option<Record>>, observedAt: string): seq<Record> {
    if records == [] then []
    else
      var n := |records| - 1;
      var before := records[..n];
      Built(h, before, observedAt) +
      (if records[n].None? then []
       else
         var raw := RawKey(records[n].value, n);
         [Completed(h, records[n].value, NumberedKey(raw, multiset(RawKeys(before))[raw] + 1), observedAt)])
  }

  function Fingerprints(records: seq<Record>): seq<string> {
    seq(|records|, i requires 0 <= i < |records| => FingerprintOf(records[i]))
  }

  function Rollup(h: Hashing, records: seq<Record>): string {
    h.rollup(|records|, Sort(Fingerprints(records)))
  }

  lemma {:induction false} SortSame(a: seq<string>, b: seq<string>)
    ensures Sort(a) == Sort(b) <==> multiset(a) == multiset(b)
  {
    if multiset(a) == multiset(b) {
      SortedUnique(Sort(a), Sort(b));
    } else {
      assert multiset(Sort(a)) == multiset(a) && multiset(Sort(b)) == multiset(b);
    }
  }

  ghost predicate InjectiveRollup(f: (nat, seq<string>) -> string) {
    forall m, x, n, y | f(m, x) == f(n, y) :: m == n && x == y
  }

  /** Short of a collision, the fingerprint of a collection changes exactly when the bag of its records'
      fingerprints does. */
  lemma RollupShows(h: Hashing, a: seq<Record>, b: seq<Record>)
    ensures multiset(Fingerprints(a)) == multiset(Fingerprints(b)) ==> Rollup(h, a) == Rollup(h, b)
    ensures InjectiveRollup(h.rollup) ==>
      (Rollup(h, a) == Rollup(h, b) <==> multiset(Fingerprints(a)) == multiset(Fingerprints(b)))
  {
    SortSame(Fingerprints(a), Fingerprints(b));
    assert |Fingerprints(a)| == |a| && |Fingerprints(b)| == |b|;
    assert |multiset(Fingerprints(a))| == |a| && |multiset(Fingerprints(b))| == |b|;
  }

  /** A completed record: its key, a fingerprint of what it was with that key, the time it was observed,
      and every other field as the collector left it. */
  lemma CompletedIs(h: Hashing, rec: Record, key: string, observedAt: string)
    ensures var r := Completed(h, rec, key, observedAt);
      && KeyOf(r) == key
      && FingerprintOf(r) == h.record(Stable(rec["key" := Str(key)]))
      && StringOf(r, "observed_at") == observedAt
      && forall k | k != "key" && k != "fingerprint" && k != "observed_at" ::
           (k in r <==> k in rec) && (k in rec ==> r[k] == rec[k])
  {
    assert "key" != "fingerprint" && "key" != "observed_at" && "fingerprint" != "observed_at" by {
      assert |"key"| == 3 && |"fingerprint"| == 11 && "fingerprint"[0] == 'f' && "observed_at"[0] == 'o';
    }
  }

  /** How many of the raw records are not nil. */
  function Somes(records: seq<Option<Record>>): nat {
    if records == [] then 0
    else Somes(records[..|records| - 1]) + (if records[|records| - 1].Some? then 1 else 0)
  }

  lemma RawSnoc(before: seq<Option<Record>>, x: Option<Record>)
    ensures RawKeys(before + [x]) == RawKeys(before) + (if x.None? then [] else [RawKey(x.value, |before|)])
  {
    assert (before + [x])[..|before|] == before;
  }

  /** One more raw record. */
  lemma Snoc(h: Hashing, before: seq<Option<Record>>, x: Option<Record>, observedAt: string)
    ensures var raw := RawKeys(before); var built := Built(h, before, observedAt);
      if x.None? then RawKeys(before + [x]) == raw && Built(h, before + [x], observedAt) == built
      else
        var key := RawKey(x.value, |before|);
        RawKeys(before + [x]) == raw + [key]
        && Built(h, before + [x], observedAt) ==
           built + [Completed(h, x.value, NumberedKey(key, multiset(raw)[key] + 1), observedAt)]
  {
    assert (before + [x])[..|before|] == before;
    RawSnoc(before, x);
    assert Built(h, before, observedAt) + [] == Built(h, before, observedAt);
  }

  lemma {:induction false} BuiltSize(h: Hashing, records: seq<Option<Record>>, observedAt: string)
    ensures |Built(h, records, observedAt)| == |RawKeys(records)| == Somes(records)
  {
    if records != [] {
      BuiltSize(h, records[..|records| - 1], observedAt);
    }
  }

  lemma SomesSnoc(before: seq<Option<Record>>, x: Option<Record>)
    ensures Somes(before + [x]) == Somes(before) + (if x.Some? then 1 else 0)
  {
    assert (before + [x])[..|before|] == before;
  }

  lemma {:induction false} BuiltGrows(h: Hashing, before: seq<Option<Record>>, after: seq<Option<Record>>,
                                      observedAt: string)
    ensures Built(h, before, observedAt) <= Built(h, before + after, observedAt)
    decreases |after|
  {
    if after == [] {
      assert before + after == before;
    } else {
      var front, x := after[..|after| - 1], after[|after| - 1];
      assert before + front + [x] == before + after;
      BuiltGrows(h, before, front, observedAt);
      Snoc(h, before + front, x, observedAt);
    }
  }

  lemma BuiltAt(h: Hashing, before: seq<Option<Record>>, rec: Record, after: seq<Option<Record>>, observedAt: string)
    ensures var raw := RawKey(rec, |before|);
      var built := Built(h, before + [Some(rec)] + after, observedAt);
      && Somes(before) < |built|
      && built[Somes(before)] ==
           Completed(h, rec, NumberedKey(raw, multiset(RawKeys(before))[raw] + 1), observedAt)
  {
    BuiltLast(h, before, rec, observedAt);
    BuiltGrows(h, before + [Some(rec)], after, observedAt);
  }

  lemma BuiltLast(h: Hashing, before: seq<Option<Record>>, rec: Record, observedAt: string)
    ensures var raw := RawKey(rec, |before|);
      var built := Built(h, before + [Some(rec)], observedAt);
      && |built| == Somes(before) + 1
      && built[Somes(before)] ==
           Completed(h, rec, NumberedKey(raw, multiset(RawKeys(before))[raw] + 1), observedAt)
  {
    Snoc(h, before, Some(rec), observedAt);
    BuiltSize(h, before, observedAt);
  }

  lemma KeyIs(rec: Record, i: nat, asked: nat)
    ensures var raw := if StringOf(rec, "key") != "" then StringOf(rec, "key") else "item:" + Dec(i);
      && RawKey(rec, i) == raw
      && NumberedKey(raw, asked + 1) == if asked == 0 then raw else raw + "#" + Dec(asked + 1)
  {
  }

  /** What becomes of a raw record. Nil records are left out. Its key is the one it brings, or `item:i`
      with its position, with the number of its occurrence; it carries a fingerprint of its content and
      the time of the scan; and its other fields are as the collector left them. */
  lemma BuiltRecord(h: Hashing, before: seq<Option<Record>>, rec: Record, after: seq<Option<Record>>,
                    observedAt: string)
    ensures var p, built := Somes(before), Built(h, before + [Some(rec)] + after, observedAt);
      var raw := if StringOf(rec, "key") != "" then StringOf(rec, "key") else "item:" + Dec(|before|);
      var asked := multiset(RawKeys(before))[raw];
      var key := if asked == 0 then raw else raw + "#" + Dec(asked + 1);
      && p < |built|
      && KeyOf(built[p]) == key
      && FingerprintOf(built[p]) == h.record(Stable(rec["key" := Str(key)]))
      && StringOf(built[p], "observed_at") == observedAt
      && forall k | k != "key" && k != "fingerprint" && k != "observed_at" ::
           (k in built[p] <==> k in rec) && (k in rec ==> built[p][k] == rec[k])
  {
    var raw := RawKey(rec, |before|);
    var asked := multiset(RawKeys(before))[raw];
    KeyIs(rec, |before|, asked);
    BuiltAt(h, before, rec, after, observedAt);
    CompletedIs(h, rec, NumberedKey(raw, asked + 1), observedAt);
  }

  method Complete(h: Hashing, rec: Record, key: string, observedAt: string) returns (r: Record)
    ensures r == Completed(h, rec, key, observedAt)
  {
    r := rec["key" := Str(key)];
    var fp := Fingerprint(h, r);
    r := r["fingerprint" := Str(fp)];
    r := r["observed_at" := Str(observedAt)];
  }

  method UniqueKey(seen: map<string, nat>, raw: string, ghost earlier: seq<string>)
    returns (key: string, seen': map<string, nat>)
    requires Counts(seen, earlier)
    ensures key == NumberedKey(raw, multiset(earlier)[raw] + 1)
    ensures Counts(seen', earlier + [raw])
  {
    CountOne(seen, earlier, raw);
    if raw in seen {
      seen' := seen[raw := seen[raw] + 1];
      key := raw + ['#'] + Dec(seen'[raw]);
    } else {
      seen' := seen[raw := 1];
      key := raw;
    }
  }

  method RollupFingerprint(h: Hashing, records: seq<Record>) returns (fp: string)
    ensures fp == Rollup(h, records)
  {
    var fps := [];
    for i := 0 to |records|
      invariant fps == Fingerprints(records)[..i]
    {
      fps := fps + [FingerprintOf(records[i])];
    }
    assert fps == Fingerprints(records);
    return h.rollup(|records|, Sort(fps));
  }

  /** One turn of BuildEntity's loop. */
  method AddRecord(h: Hashing, ghost before: seq<Option<Record>>, x: Option<Record>, i: nat, observedAt: string,
                   out: seq<Record>, seen: map<string, nat>)
    returns (out': seq<Record>, seen': map<string, nat>)
    requires i == |before| && out == Built(h, before, observedAt) && Counts(seen, RawKeys(before))
    ensures out' == Built(h, before + [x], observedAt) && Counts(seen', RawKeys(before + [x]))
  {
    Snoc(h, before, x, observedAt);
    if x.None? {
      return out, seen;
    }
    var key;
    key, seen' := UniqueKey(seen, RawKey(x.value, i), RawKeys(before));
    var r := Complete(h, x.value, key, observedAt);
    out' := out + [r];
  }

  lemma OneFurther<T>(s: seq<T>, i: nat)
    requires i < |s|
    ensures s[..i + 1] == s[..i] + [s[i]]
  {
  }

  /** What BuildEntity's loop has done before the i-th record. */
  ghost predicate Building(h: Hashing, records: seq<Option<Record>>, i: nat, observedAt: string,
                           out: seq<Record>, seen: map<string, nat>) {
    i <= |records| && out == Built(h, records[..i], observedAt) && Counts(seen, RawKeys(records[..i]))
  }

  lemma BuildingEnds(h: Hashing, records: seq<Option<Record>>, observedAt: string)
    ensures Building(h, records, 0, observedAt, [], map[])
    ensures forall out, seen | Building(h, records, |records|, observedAt, out, seen) ::
      out == Built(h, records, observedAt)
  {
    assert records[..|records|] == records;
  }

  method AddNext(h: Hashing, records: seq<Option<Record>>, i: nat, observedAt: string,
                 out: seq<Record>, seen: map<string, nat>)
    returns (out': seq<Record>, seen': map<string, nat>)
    requires i < |records| && Building(h, records, i, observedAt, out, seen)
    ensures Building(h, records, i + 1, observedAt, out', seen')
  {
    out', seen' := AddRecord(h, records[..i], records[i], i, observedAt, out, seen);
    OneFurther(records, i);
  }

  method BuildRecords(h: Hashing, records: seq<Option<Record>>, observedAt: string) returns (out: seq<Record>)
    ensures out == Built(h, records, observedAt)
  {
    BuildingEnds(h, records, observedAt);
    out := [];
    var seen: map<string, nat> := map[];
    for i := 0 to |records|
      invariant Building(h, records, i, observedAt, out, seen)
    {
      out, seen := AddNext(h, records, i, observedAt, out, seen);
    }
  }

  method BuildEntity(h: Hashing, records: seq<Option<Record>>, observedAt: string) returns (c: EntityCollection)
    ensures fresh(c)
    ensures c.records == Built(h, records, observedAt)
    ensures c.count == |c.records| && c.fingerprint == Rollup(h, c.records)
    ensures !c.summarized && c.omitted == 0
  {
    var out := BuildRecords(h, records, observedAt);
    var fp := RollupFingerprint(h, out);
    c := new EntityCollection(|out|, fp, out);
  }

  /** The `seen` map counts the raw keys so far. */
  ghost predicate Counts(seen: map<string, nat>, raw: seq<string>) {
    && (forall k :: k in seen <==> k in multiset(raw))
    && (forall k | k in seen :: seen[k] == multiset(raw)[k])
  }

  lemma CountOne(seen: map<string, nat>, raw: seq<string>, key: string)
    requires Counts(seen, raw)
    ensures Counts(seen[key := if key in seen then seen[key] + 1 else 1], raw + [key])
  {
    assert multiset(raw + [key]) == multiset(raw) + multiset{key};
  }

  // ----- are the keys unique? -----

  ghost predicate Distinct(s: seq<string>) {
    forall i, j | 0 <= i < j < |s| :: s[i] != s[j]
  }

  function Keys(records: seq<Record>): seq<string> {
    seq(|records|, i requires 0 <= i < |records| => KeyOf(records[i]))
  }

  lemma OutKeysSnoc(raw: seq<string>, key: string)
    ensures OutKeys(raw + [key]) == OutKeys(raw) + [NumberedKey(key, multiset(raw)[key] + 1)]
  {
    forall j | 0 <= j < |raw| ensures OutKey(raw + [key], j) == OutKey(raw, j) {
      assert (raw + [key])[..j] == raw[..j];
    }
    assert (raw + [key])[..|raw|] == raw;
  }

  lemma CompletedKey(h: Hashing, rec: Record, key: string, observedAt: string)
    ensures KeyOf(Completed(h, rec, key, observedAt)) == key
  {
    assert "fingerprint" != "key" && "observed_at" != "key" by {
      assert |"key"| == 3 && |"fingerprint"| == 11 && |"observed_at"| == 11;
    }
  }

  lemma KeysSnoc(built: seq<Record>, last: Record)
    ensures Keys(built + [last]) == Keys(built) + [KeyOf(last)]
  {
  }

  lemma BuiltKeysSnoc(h: Hashing, before: seq<Option<Record>>, x: Option<Record>, observedAt: string)
    requires Keys(Built(h, before, observedAt)) == OutKeys(RawKeys(before))
    ensures Keys(Built(h, before + [x], observedAt)) == OutKeys(RawKeys(before + [x]))
  {
    Snoc(h, before, x, observedAt);
    if x.Some? {
      var raw := RawKeys(before);
      var asked := RawKey(x.value, |before|);
      var key := NumberedKey(asked, multiset(raw)[asked] + 1);
      OutKeysSnoc(raw, asked);
      CompletedKey(h, x.value, key, observedAt);
      KeysSnoc(Built(h, before, observedAt), Completed(h, x.value, key, observedAt));
    }
  }

  lemma {:induction false} BuiltKeys(h: Hashing, records: seq<Option<Record>>, observedAt: string)
    ensures Keys(Built(h, records, observedAt)) == OutKeys(RawKeys(records))
  {
    if records != [] {
      var before, x := records[..|records| - 1], records[|records| - 1];
      assert records == before + [x];
      BuiltKeys(h, before, observedAt);
      BuiltKeysSnoc(h, before, x, observedAt);
    }
  }

  /** Some raw key is another raw key with a `#n` that the numbering will also give out. */
  ghost predicate Clash(raw: seq<string>) {
    exists i, j, n: nat :: ClashAt(raw, i, j, n)
  }

  ghost predicate ClashAt(raw: seq<string>, i: int, j: int, n: nat) {
    && 0 <= i < |raw| && 0 <= j < |raw|
    && 2 <= n <= multiset(raw)[raw[i]]
    && raw[j] == raw[i] + ['#'] + Dec(n)
  }

  lemma CountBefore(raw: seq<string>, j: nat)
    requires j < |raw|
    ensures multiset(raw[..j])[raw[j]] + 1 <= multiset(raw)[raw[j]]
    ensures forall i | 0 <= i < j && raw[i] == raw[j] ::
      multiset(raw[..i])[raw[j]] + 1 <= multiset(raw[..j])[raw[j]]
  {
    assert raw == raw[..j] + [raw[j]] + raw[j + 1..];
    forall i | 0 <= i < j && raw[i] == raw[j]
      ensures multiset(raw[..i])[raw[j]] + 1 <= multiset(raw[..j])[raw[j]]
    {
      assert raw[..j] == raw[..i] + [raw[i]] + raw[i + 1..j];
    }
  }

  lemma {:induction false} NthOccurrence(raw: seq<string>, key: string, n: nat) returns (j: nat)
    requires 1 <= n <= multiset(raw)[key]
    ensures j < |raw| && raw[j] == key && multiset(raw[..j])[key] == n - 1
  {
    var last := |raw| - 1;
    assert raw == raw[..last] + [raw[last]];
    if raw[last] == key && multiset(raw[..last])[key] == n - 1 {
      j := last;
    } else {
      j := NthOccurrence(raw[..last], key, n);
      assert raw[..last][..j] == raw[..j];
    }
  }

  /** Numbered keys say what they were made of, except that an unnumbered key may look numbered. */
  lemma NumberedKeysMeet(a: string, m: nat, b: string, n: nat)
    requires m >= 1 && n >= 1 && NumberedKey(a, m) == NumberedKey(b, n)
    ensures
      || (a == b && m == n)
      || (m == 1 && n > 1 && a == b + ['#'] + Dec(n))
      || (n == 1 && m > 1 && b == a + ['#'] + Dec(m))
  {
    if m > 1 && n > 1 {
      SuffixUnique(a, b, '#', m, n);
    }
  }

  lemma OutKeysDiffer(raw: seq<string>, i: nat, j: nat)
    requires !Clash(raw) && i < j < |raw|
    ensures OutKey(raw, i) != OutKey(raw, j)
  {
    CountBefore(raw, i);
    CountBefore(raw, j);
    var ni, nj := multiset(raw[..i])[raw[i]] + 1, multiset(raw[..j])[raw[j]] + 1;
    assert !ClashAt(raw, j, i, nj) && !ClashAt(raw, i, j, ni);
    if OutKey(raw, i) == OutKey(raw, j) {
      NumberedKeysMeet(raw[i], ni, raw[j], nj);
    }
  }

  /** Both ends of a clash are given the same key. */
  lemma ClashMeets(raw: seq<string>, i: nat, j: nat, n: nat)
    requires ClashAt(raw, i, j, n)
    ensures !Distinct(OutKeys(raw))
  {
    var a := NthOccurrence(raw, raw[i], n);
    assert multiset(raw)[raw[j]] >= 1 by { assert raw[j] in multiset(raw); }
    var b := NthOccurrence(raw, raw[j], 1);
    assert |raw[a]| < |raw[b]|;
    assert OutKeys(raw)[a] == OutKey(raw, a) == OutKey(raw, b) == OutKeys(raw)[b];
  }

  lemma NoClashDistinct(raw: seq<string>)
    requires !Clash(raw)
    ensures Distinct(OutKeys(raw))
  {
    forall i, j | 0 <= i < j < |raw| ensures OutKeys(raw)[i] != OutKeys(raw)[j] {
      OutKeysDiffer(raw, i, j);
    }
  }

  /** BuildEntity is documented to ensure unique keys. It does exactly when no raw key (after the
      `item:i` default) is another raw key followed by `#n` with n between 2 and that key's number
      of occurrences. */
  lemma KeysUniqueIff(h: Hashing, records: seq<Option<Record>>, observedAt: string)
    ensures Distinct(Keys(Built(h, records, observedAt))) <==> !Clash(RawKeys(records))
  {
    BuiltKeys(h, records, observedAt);
    var raw := RawKeys(records);
    if Clash(raw) {
      var i, j, n :| ClashAt(raw, i, j, n);
      ClashMeets(raw, i, j, n);
    } else {
      NoClashDistinct(raw);
    }
  }

  const ASKS_A: Option<Record> := Some(map["key" := Str("a")])

  const ASKS_A2: Option<Record> := Some(map["key" := Str("a#2")])

  lemma TheyAsk()
    ensures RawKey(ASKS_A.value, 0) == RawKey(ASKS_A.value, 1) == "a" && RawKey(ASKS_A2.value, 2) == "a#2"
  {
  }

  lemma TwoAsk()
    ensures RawKeys([ASKS_A, ASKS_A]) == ["a", "a"]
  {
    TheyAsk();
    assert [] + [ASKS_A] == [ASKS_A] && [ASKS_A] + [ASKS_A] == [ASKS_A, ASKS_A];
    RawSnoc([], ASKS_A);
    RawSnoc([ASKS_A], ASKS_A);
  }

  lemma ThreeAsk()
    ensures RawKeys([ASKS_A, ASKS_A, ASKS_A2]) == ["a", "a", "a#2"]
  {
    TheyAsk();
    TwoAsk();
    assert [ASKS_A, ASKS_A] + [ASKS_A2] == [ASKS_A, ASKS_A, ASKS_A2];
    RawSnoc([ASKS_A, ASKS_A], ASKS_A2);
  }

  /** Three records asking for "a", "a" and "a#2" end up with two of them called "a#2". */
  lemma KeysCanClash(h: Hashing, observedAt: string)
    ensures !Distinct(Keys(Built(h, [ASKS_A, ASKS_A, ASKS_A2], observedAt)))
  {
    var raw := ["a", "a", "a#2"];
    ThreeAsk();
    assert multiset(raw)["a"] == 2 && Dec(2) == "2" && "a" + ['#'] + "2" == "a#2";
    assert ClashAt(raw, 0, 2, 2);
    KeysUniqueIff(h, [ASKS_A, ASKS_A, ASKS_A2], observedAt);
  }
}
