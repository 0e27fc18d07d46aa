/** Strings as Go compares and prints them: byte-wise order, sorting, and decimal
    numbers. */
module Text {

  /** Strict lexicographic order. */
  predicate Less(a: string, b: string) {
    b != [] && (a == [] || a[0] < b[0] || (a[0] == b[0] && Less(a[1..], b[1..])))
  }

  lemma {:induction false} LessTransitive(a: string, b: string, c: string)
    requires Less(a, b) && Less(b, c)
    ensures Less(a, c)
  {
    if a != [] && a[0] == b[0] && b[0] == c[0] {
      LessTransitive(a[1..], b[1..], c[1..]);
    }
  }

  lemma {:induction false} LessTotal(a: string, b: string)
    ensures a == b || Less(a, b) || Less(b, a)
    ensures !(Less(a, b) && Less(b, a))
    ensures Less(a, b) ==> a != b
  {
    if a != [] && b != [] && a[0] == b[0] {
      LessTotal(a[1..], b[1..]);
      assert a == [a[0]] + a[1..] && b == [b[0]] + b[1..];
    }
  }

  /** A common front does not matter. */
  lemma {:induction false} LessPrefix(p: string, a: string, b: string)
    ensures Less(p + a, p + b) <==> Less(a, b)
  {
    if p == [] {
      assert p + a == a && p + b == b;
    } else {
      assert (p + a)[1..] == p[1..] + a && (p + b)[1..] == p[1..] + b;
      LessPrefix(p[1..], a, b);
    }
  }

  /** Between different fronts of one length, the tails do not matter. */
  lemma {:induction false} LessFront(a: string, b: string, x: string, y: string)
    requires |a| == |b| && a != b
    ensures Less(a + x, b + y) <==> Less(a, b)
  {
    assert (a + x)[1..] == a[1..] + x && (b + y)[1..] == b[1..] + y;
    assert a == [a[0]] + a[1..] && b == [b[0]] + b[1..];
    if a[0] == b[0] {
      LessFront(a[1..], b[1..], x, y);
    }
  }

  // ----- decimal numbers -----

  function Digit(d: nat): char
    requires d < 10
  {
    '0' + d as char
  }

  /** A non-negative number in decimal. */
  function Dec(n: nat): string {
    if n < 10 then [Digit(n)] else Dec(n / 10) + [Digit(n % 10)]
  }

  lemma {:induction false} DecDigits(n: nat)
    ensures Dec(n) != []
    ensures forall c | c in Dec(n) :: '0' <= c <= '9'
  {
    if n >= 10 {
      DecDigits(n / 10);
    }
  }

  lemma {:induction false} DecInjective(m: nat, n: nat)
    requires Dec(m) == Dec(n)
    ensures m == n
  {
    if m >= 10 && n >= 10 {
      assert Dec(m)[..|Dec(m)| - 1] == Dec(m / 10) && Dec(n)[..|Dec(n)| - 1] == Dec(n / 10);
      assert Dec(m)[|Dec(m)| - 1] == Digit(m % 10) && Dec(n)[|Dec(n)| - 1] == Digit(n % 10);
      DecInjective(m / 10, n / 10);
    } else if m >= 10 {
      DecDigits(m / 10);
      assert false;
    } else if n >= 10 {
      DecDigits(n / 10);
      assert false;
    }
  }

  /** What a numeral stands for. */
  function Value(digits: string): int {
    if digits == [] then 0
    else 10 * Value(digits[..|digits| - 1]) + (digits[|digits| - 1] as int - '0' as int)
  }

  lemma {:induction false} DecValue(n: nat)
    ensures forall c | c in Dec(n) :: '0' <= c <= '9'
    ensures Value(Dec(n)) == n && (n > 0 ==> Dec(n)[0] != '0')
  {
    DecDigits(n);
    if n >= 10 {
      DecValue(n / 10);
      assert Dec(n)[..|Dec(n)| - 1] == Dec(n / 10);
    }
  }

  /** Numbers of one width sort as strings the way they sort as numbers. */
  lemma {:induction false} DecOrder(m: nat, n: nat)
    requires |Dec(m)| == |Dec(n)|
    ensures Less(Dec(m), Dec(n)) <==> m < n
  {
    if m < 10 || n < 10 {
      if m >= 10 { DecDigits(m / 10); }
      if n >= 10 { DecDigits(n / 10); }
    } else {
      DecOrder(m / 10, n / 10);
      if m / 10 == n / 10 {
        LessPrefix(Dec(m / 10), [Digit(m % 10)], [Digit(n % 10)]);
      } else {
        if Dec(m / 10) == Dec(n / 10) { DecInjective(m / 10, n / 10); }
        LessFront(Dec(m / 10), Dec(n / 10), [Digit(m % 10)], [Digit(n % 10)]);
      }
    }
  }

  /** Behind the last separator there are only digits. */
  lemma DigitsBehind(a: string, sep: char, m: nat)
    ensures var s := a + [sep] + Dec(m);
      s[|a|] == sep && forall k | |a| < k < |s| :: '0' <= s[k] <= '9'
  {
    DecDigits(m);
    var s := a + [sep] + Dec(m);
    forall k | |a| < k < |s| ensures '0' <= s[k] <= '9' {
      assert s[k] == Dec(m)[k - |a| - 1] && s[k] in Dec(m);
    }
  }

  /** A number after the last `sep` can be read back, whatever stands before it. */
  lemma SuffixUnique(a: string, b: string, sep: char, m: nat, n: nat)
    requires !('0' <= sep <= '9')
    requires a + [sep] + Dec(m) == b + [sep] + Dec(n)
    ensures a == b && m == n
  {
    DigitsBehind(a, sep, m);
    DigitsBehind(b, sep, n);
    var s := a + [sep] + Dec(m);
    assert |a| == |b|;
    assert a == s[..|a|] && b == s[..|b|];
    assert Dec(m) == s[|a| + 1..] && Dec(n) == s[|b| + 1..];
    DecInjective(m, n);
  }

  // ----- sorting -----

  ghost predicate Sorted(s: seq<string>) {
    forall i, j | 0 <= i < j < |s| :: !Less(s[j], s[i])
  }

  function Insert(x: string, s: seq<string>): (r: seq<string>)
    ensures multiset(r) == multiset(s) + multiset{x}
    ensures Sorted(s) ==> Sorted(r)
  {
    if s == [] then [x]
    else if !Less(s[0], x) then
      InsertFront(x, s);
      [x] + s
    else
      var t := Insert(x, s[1..]);
      InsertLater(x, s, t);
      [s[0]] + t
  }

  lemma InsertFront(x: string, s: seq<string>)
    requires s != [] && !Less(s[0], x)
    ensures multiset([x] + s) == multiset(s) + multiset{x}
    ensures Sorted(s) ==> Sorted([x] + s)
  {
    if Sorted(s) {
      forall j | 0 <= j < |s| ensures !Less(s[j], x) {
        if Less(s[j], x) {
          LessTotal(s[0], s[j]);
          LessTotal(s[0], x);
          if Less(s[0], s[j]) { LessTransitive(s[0], s[j], x); }
        }
      }
    }
  }

  lemma InsertLater(x: string, s: seq<string>, t: seq<string>)
    requires s != [] && Less(s[0], x)
    requires multiset(t) == multiset(s[1..]) + multiset{x}
    requires Sorted(s[1..]) ==> Sorted(t)
    ensures multiset([s[0]] + t) == multiset(s) + multiset{x}
    ensures Sorted(s) ==> Sorted([s[0]] + t)
  {
    assert s == [s[0]] + s[1..];
    if Sorted(s) {
      forall j | 0 <= j < |t| ensures !Less(t[j], s[0]) {
        assert t[j] in multiset(t);
        if t[j] == x {
          LessTotal(x, s[0]);
        } else {
          assert t[j] in multiset(s[1..]);
        }
      }
    }
  }

  /** The strings in order, repetitions included. */
  function Sort(s: seq<string>): (r: seq<string>)
    ensures multiset(r) == multiset(s)
    ensures Sorted(r)
  {
    if s == [] then [] else
      assert s == [s[0]] + s[1..];
      Insert(s[0], Sort(s[1..]))
  }

  lemma FirstIsLeast(a: seq<string>, x: string)
    requires Sorted(a) && x in multiset(a)
    ensures a != [] && (a[0] == x || Less(a[0], x))
  {
    var i :| 0 <= i < |a| && a[i] == x;
    LessTotal(a[0], x);
  }

  /** A bag of strings has one sorted listing, so the result does not depend on the input order. */
  lemma {:induction false} SortedUnique(a: seq<string>, b: seq<string>)
    requires Sorted(a) && Sorted(b) && multiset(a) == multiset(b)
    ensures a == b
  {
    if a == [] {
      assert |multiset(b)| == |b|;
    } else {
      assert a[0] in multiset(b);
      FirstIsLeast(b, a[0]);
      assert b[0] in multiset(a);
      FirstIsLeast(a, b[0]);
      LessTotal(a[0], b[0]);
      SortedTails(a, b);
      SortedUnique(a[1..], b[1..]);
      assert a == [a[0]] + a[1..] && b == [b[0]] + b[1..];
    }
  }

  lemma SortedTails(a: seq<string>, b: seq<string>)
    requires Sorted(a) && Sorted(b) && multiset(a) == multiset(b) && a != [] && b != [] && a[0] == b[0]
    ensures Sorted(a[1..]) && Sorted(b[1..]) && multiset(a[1..]) == multiset(b[1..])
  {
    assert a == [a[0]] + a[1..] && b == [b[0]] + b[1..];
    assert multiset(a[1..]) == multiset(a) - multiset{a[0]};
    assert multiset(b[1..]) == multiset(b) - multiset{b[0]};
  }

  /** Every member of a set exactly once, sorted: a directory listing. */
  ghost predicate Lists(names: set<string>, listing: seq<string>) {
    && Sorted(listing)
    && (forall f :: f in names <==> f in listing)
    && (forall i, j | 0 <= i < j < |listing| :: listing[i] != listing[j])
  }
}
