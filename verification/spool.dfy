/** internal/agent/client.go, the spool directory: what is kept in it, how its files are named,
    and in which order a drain walks them. */
module SpoolDir {
  import opened Text

  datatype Kind = Logs | Result

  function KindText(k: Kind): string {
    match k case Logs => "logs" case Result => "result"
  }

  /** Kind, job and clock reading in one name. */
  function SpoolName(kind: Kind, job: string, stamp: nat): string {
    KindText(kind) + ['-'] + job + ['-'] + Dec(stamp) + ".json"
  }

  /** What a drain looks at. */
  predicate IsJson(name: string) {
    |name| >= 5 && name[|name| - 5..] == ".json"
  }

  lemma SpoolNameIsJson(kind: Kind, job: string, stamp: nat)
    ensures IsJson(SpoolName(kind, job, stamp))
    ensures SpoolName(kind, job, stamp)[0] == (if kind.Logs? then 'l' else 'r')
  {
    var front := KindText(kind) + ['-'] + job + ['-'] + Dec(stamp);
    assert (front + ".json")[|front|..] == ".json";
  }

  lemma SpoolNameIs(kind: Kind, job: string, stamp: nat)
    ensures SpoolName(kind, job, stamp) ==
            (if kind.Logs? then "logs-" else "result-") + job + "-" + Dec(stamp) + ".json"
  {
    assert KindText(kind) + ['-'] == if kind.Logs? then "logs-" else "result-";
  }

  /** JSON files are those with that extension. */
  lemma IsJsonIff(name: string)
    ensures IsJson(name) <==> exists stem :: name == stem + ".json"
  {
    if IsJson(name) {
      assert name == name[..|name| - 5] + ".json";
    }
  }

  /** Different records get different files as long as the clock does not repeat. */
  lemma SpoolNameInjective(k1: Kind, j1: string, t1: nat, k2: Kind, j2: string, t2: nat)
    requires SpoolName(k1, j1, t1) == SpoolName(k2, j2, t2)
    ensures k1 == k2 && j1 == j2 && t1 == t2
  {
    SpoolNameIsJson(k1, j1, t1);
    SpoolNameIsJson(k2, j2, t2);
    var n1, n2 := SpoolName(k1, j1, t1), SpoolName(k2, j2, t2);
    var a, b := KindText(k1) + ['-'] + j1, KindText(k2) + ['-'] + j2;
    assert n1[..|n1| - 5] == a + ['-'] + Dec(t1);
    assert n2[..|n2| - 5] == b + ['-'] + Dec(t2);
    SuffixUnique(a, b, '-', t1, t2);
    assert j1 == a[|KindText(k1)| + 1..] && j2 == b[|KindText(k2)| + 1..];
  }

  /** All log files sort before all result files, whatever the jobs and the times. */
  lemma LogsBeforeResults(j1: string, t1: nat, j2: string, t2: nat)
    ensures Less(SpoolName(Logs, j1, t1), SpoolName(Result, j2, t2))
  {
    SpoolNameIsJson(Logs, j1, t1);
    SpoolNameIsJson(Result, j2, t2);
  }

  predicate RecordOrder(k1: Kind, j1: string, t1: nat, k2: Kind, j2: string, t2: nat) {
    if k1 != k2 then k1.Logs?
    else if j1 != j2 then Less(j1, j2)
    else t1 < t2
  }

  /** For job ids of one length and clock readings of one width, the string order of the names is
      the order by kind, then job, then time: within one job and kind, a drain goes in creation
      order. */
  lemma NameOrder(k1: Kind, j1: string, t1: nat, k2: Kind, j2: string, t2: nat)
    requires |j1| == |j2| && |Dec(t1)| == |Dec(t2)|
    ensures Less(SpoolName(k1, j1, t1), SpoolName(k2, j2, t2)) <==> RecordOrder(k1, j1, t1, k2, j2, t2)
  {
    if k1 == k2 {
      SameKindOrder(k1, j1, t1, j2, t2);
    } else if k1.Logs? {
      LogsBeforeResults(j1, t1, j2, t2);
    } else {
      LogsBeforeResults(j2, t2, j1, t1);
      LessTotal(SpoolName(k1, j1, t1), SpoolName(k2, j2, t2));
    }
  }

  lemma SameKindOrder(kind: Kind, j1: string, t1: nat, j2: string, t2: nat)
    requires |j1| == |j2| && |Dec(t1)| == |Dec(t2)|
    ensures Less(SpoolName(kind, j1, t1), SpoolName(kind, j2, t2)) <==> if j1 != j2 then Less(j1, j2) else t1 < t2
  {
    var front := KindText(kind) + ['-'];
    var rest1, rest2 := j1 + (['-'] + Dec(t1) + ".json"), j2 + (['-'] + Dec(t2) + ".json");
    NameParts(kind, j1, t1);
    NameParts(kind, j2, t2);
    LessPrefix(front, rest1, rest2);
    JobOrder(j1, t1, j2, t2);
  }

  lemma NameParts(kind: Kind, job: string, stamp: nat)
    ensures SpoolName(kind, job, stamp) == KindText(kind) + ['-'] + (job + (['-'] + Dec(stamp) + ".json"))
  {
  }

  lemma JobOrder(j1: string, t1: nat, j2: string, t2: nat)
    requires |j1| == |j2| && |Dec(t1)| == |Dec(t2)|
    ensures Less(j1 + (['-'] + Dec(t1) + ".json"), j2 + (['-'] + Dec(t2) + ".json"))
            <==> if j1 != j2 then Less(j1, j2) else t1 < t2
  {
    var r1, r2 := ['-'] + Dec(t1) + ".json", ['-'] + Dec(t2) + ".json";
    if j1 != j2 {
      LessFront(j1, j2, r1, r2);
    } else {
      LessPrefix(j1, r1, r2);
      StampOrder(t1, t2);
    }
  }

  lemma StampOrder(t1: nat, t2: nat)
    requires |Dec(t1)| == |Dec(t2)|
    ensures Less(['-'] + Dec(t1) + ".json", ['-'] + Dec(t2) + ".json") <==> t1 < t2
  {
    var d1, d2 := Dec(t1) + ".json", Dec(t2) + ".json";
    assert ['-'] + Dec(t1) + ".json" == ['-'] + d1 && ['-'] + Dec(t2) + ".json" == ['-'] + d2;
    LessPrefix(['-'], d1, d2);
    if t1 == t2 {
      LessTotal(d1, d2);
    } else {
      if Dec(t1) == Dec(t2) { DecInjective(t1, t2); }
      LessFront(Dec(t1), Dec(t2), ".json", ".json");
      DecOrder(t1, t2);
    }
  }

  // ----- listings -----

  lemma {:induction false} ListingExists(names: set<string>)
    ensures exists listing :: Lists(names, listing)
  {
    if names == {} {
      assert Lists(names, []);
    } else {
      var f :| f in names;
      ListingExists(names - {f});
      var rest :| Lists(names - {f}, rest);
      ListsInsert(names - {f}, rest, f);
      assert names - {f} + {f} == names;
    }
  }

  /** Adding a name and sorting again lists the larger set. */
  lemma ListsInsert(names: set<string>, listing: seq<string>, f: string)
    requires Lists(names, listing) && f !in names
    ensures Lists(names + {f}, Insert(f, listing))
  {
    var r := Insert(f, listing);
    assert multiset(r) == multiset(listing) + multiset{f};
    forall x ensures x in names + {f} <==> x in r {
      assert x in r <==> x in multiset(r);
      assert x in listing <==> x in multiset(listing);
    }
    DistinctMultiset(listing);
    MultisetDistinct(r);
  }

  lemma {:induction false} DistinctMultiset(s: seq<string>)
    requires forall i, j | 0 <= i < j < |s| :: s[i] != s[j]
    ensures forall x :: multiset(s)[x] <= 1
  {
    if s != [] {
      DistinctMultiset(s[1..]);
      assert s == [s[0]] + s[1..];
      assert s[0] !in s[1..];
    }
  }

  lemma MultisetDistinct(s: seq<string>)
    requires forall x :: multiset(s)[x] <= 1
    ensures forall i, j | 0 <= i < j < |s| :: s[i] != s[j]
  {
    forall i, j | 0 <= i < j < |s| ensures s[i] != s[j] {
      assert s == s[..j] + s[j..];
      assert s[..j][i] == s[i] && s[j..][0] == s[j];
      assert multiset(s)[s[i]] == multiset(s[..j])[s[i]] + multiset(s[j..])[s[i]];
      assert s[i] in s[..j] && s[j] in s[j..];
    }
  }

  /** There is one sorted listing of a set of names. */
  lemma ListsUnique(names: set<string>, a: seq<string>, b: seq<string>)
    requires Lists(names, a) && Lists(names, b)
    ensures a == b
  {
    DistinctMultiset(a);
    DistinctMultiset(b);
    forall x ensures multiset(a)[x] == multiset(b)[x] {
      assert x in multiset(a) <==> x in a;
      assert x in multiset(b) <==> x in b;
    }
    SortedUnique(a, b);
  }

  ghost function Listing(names: set<string>): (listing: seq<string>)
    ensures Lists(names, listing)
  {
    ListingExists(names);
    var listing :| Lists(names, listing);
    listing
  }

  lemma {:induction false} DistinctSize(s: seq<string>)
    requires forall i, j | 0 <= i < j < |s| :: s[i] != s[j]
    ensures |set f | f in s| == |s|
  {
    if s != [] {
      DistinctSize(s[1..]);
      var rest := set f | f in s[1..];
      assert (set f | f in s) == rest + {s[0]} by { assert s == [s[0]] + s[1..]; }
      assert s[0] !in rest;
    }
  }
}
