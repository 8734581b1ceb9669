/** The few operations of Go's `strings` and `strconv` packages that the
    converter relies on, for separators that are not empty. */
module GoStrings {
  import opened Base

  /** `sep` occurs in `s` starting at index `i`. */
  predicate OccursAt(s: string, sep: string, i: nat) {
    i + |sep| <= |s| && s[i..i + |sep|] == sep
  }

  /** `strings.Contains`. */
  predicate Contains(s: string, sep: string) {
    exists i: nat :: i <= |s| && OccursAt(s, sep, i)
  }

  lemma OccursAtTail(s: string, sep: string, j: nat)
    requires |s| > 0
    ensures OccursAt(s[1..], sep, j) <==> OccursAt(s, sep, j + 1)
  {
    if j + |sep| <= |s[1..]| {
      assert s[1..][j..j + |sep|] == s[j + 1..j + 1 + |sep|];
    }
  }

  lemma OccursAtPrefix(s: string, sep: string, k: nat, j: nat)
    requires k <= |s|
    ensures OccursAt(s[..k], sep, j) ==> OccursAt(s, sep, j)
  {
    if OccursAt(s[..k], sep, j) {
      assert s[..k][j..j + |sep|] == s[j..j + |sep|];
    }
  }

  lemma OccursAtSuffix(s: string, sep: string, k: nat, j: nat)
    requires k <= |s|
    ensures OccursAt(s[k..], sep, j) <==> OccursAt(s, sep, k + j)
  {
    if j + |sep| <= |s[k..]| {
      assert s[k..][j..j + |sep|] == s[k + j..k + j + |sep|];
    }
  }

  /** The index of the first occurrence of `sep` in `s` (`strings.Index`). */
  function Find(s: string, sep: string): (r: Option<nat>)
    requires |sep| > 0
    ensures r.Some? ==> r.value + |sep| <= |s|
    decreases |s|
  {
    if |s| < |sep| then None
    else if s[..|sep|] == sep then Some(0)
    else
      match Find(s[1..], sep)
      case None => None
      case Some(i) => Some(i + 1)
  }

  /** `Find` returns the first occurrence, and none exactly when there is
      none. */
  lemma {:induction false} FindSpec(s: string, sep: string)
    requires |sep| > 0
    ensures Find(s, sep).Some? ==> OccursAt(s, sep, Find(s, sep).value)
    ensures Find(s, sep).Some? ==> forall j: nat :: j < Find(s, sep).value ==> !OccursAt(s, sep, j)
    ensures Find(s, sep).None? <==> !Contains(s, sep)
    decreases |s|
  {
    if |s| < |sep| {
      assert forall j: nat :: !OccursAt(s, sep, j);
    } else if s[..|sep|] == sep {
      assert OccursAt(s, sep, 0);
    } else {
      FindSpec(s[1..], sep);
      forall j: nat
        ensures OccursAt(s[1..], sep, j) <==> OccursAt(s, sep, j + 1)
      {
        OccursAtTail(s, sep, j);
      }
      assert !OccursAt(s, sep, 0);
      assert forall j: nat :: OccursAt(s, sep, j) ==> j > 0 && OccursAt(s[1..], sep, j - 1);
    }
  }

  /** `strings.Split`: the maximal pieces of `s` between the successive
      leftmost non-overlapping occurrences of `sep`. */
  function Split(s: string, sep: string): (parts: seq<string>)
    requires |sep| > 0
    ensures |parts| >= 1
    decreases |s|
  {
    match Find(s, sep)
    case None => [s]
    case Some(i) => [s[..i]] + Split(s[i + |sep|..], sep)
  }

  /** `strings.SplitN` for a positive count: at most `n` pieces, the last
      one holding the unsplit remainder. */
  function SplitN(s: string, sep: string, n: nat): (parts: seq<string>)
    requires |sep| > 0 && n >= 1
    ensures 1 <= |parts| <= n
    decreases n
  {
    if n == 1 then [s]
    else
      match Find(s, sep)
      case None => [s]
      case Some(i) => [s[..i]] + SplitN(s[i + |sep|..], sep, n - 1)
  }

  /** `strings.Join`. */
  function Join(parts: seq<string>, sep: string): string {
    if |parts| == 0 then ""
    else if |parts| == 1 then parts[0]
    else parts[0] + sep + Join(parts[1..], sep)
  }

  /** `strings.ReplaceAll` for a non-empty pattern. */
  function ReplaceAll(s: string, pat: string, rep: string): string
    requires |pat| > 0
    decreases |s|
  {
    match Find(s, pat)
    case None => s
    case Some(i) => s[..i] + rep + ReplaceAll(s[i + |pat|..], pat, rep)
  }

  /** Splitting and joining back with the same separator gives the input. */
  lemma {:induction false} JoinSplit(s: string, sep: string)
    requires |sep| > 0
    ensures Join(Split(s, sep), sep) == s
    decreases |s|
  {
    FindSpec(s, sep);
    match Find(s, sep)
    case None =>
    case Some(i) =>
      var rest := s[i + |sep|..];
      var parts := Split(rest, sep);
      JoinSplit(rest, sep);
      assert Split(s, sep) == [s[..i]] + parts;
      assert Join([s[..i]] + parts, sep) == s[..i] + sep + Join(parts, sep);
      assert s == s[..i] + sep + rest;
  }

  /** No piece that `Split` returns contains the separator. */
  lemma {:induction false} SplitPiecesFree(s: string, sep: string)
    requires |sep| > 0
    ensures forall k :: 0 <= k < |Split(s, sep)| ==> !Contains(Split(s, sep)[k], sep)
    decreases |s|
  {
    FindSpec(s, sep);
    match Find(s, sep)
    case None =>
    case Some(i) =>
      SplitPiecesFree(s[i + |sep|..], sep);
      forall j: nat ensures !OccursAt(s[..i], sep, j) {
        OccursAtPrefix(s, sep, i, j);
      }
  }

  /** `ReplaceAll` replaces every occurrence the left-to-right scan finds:
      it is the split of `s` on `pat` joined with `rep`. Together with
      `JoinSplit` and `SplitPiecesFree` this says that the text between the
      replacements is `s` with the occurrences of `pat` cut out. */
  lemma {:induction false} ReplaceAllIsSplitJoin(s: string, pat: string, rep: string)
    requires |pat| > 0
    ensures ReplaceAll(s, pat, rep) == Join(Split(s, pat), rep)
    decreases |s|
  {
    match Find(s, pat)
    case None =>
    case Some(i) =>
      ReplaceAllIsSplitJoin(s[i + |pat|..], pat, rep);
  }

  /** The piece after the last occurrence of `sep`
      (`parts[len(parts)-1]` of a `strings.Split`). */
  function LastPiece(s: string, sep: string): string
    requires |sep| > 0
  {
    var parts := Split(s, sep);
    parts[|parts| - 1]
  }

  /** For a one-character separator, the last piece of `a + sep + b` is `b`
      whenever `b` does not contain the separator. */
  lemma {:induction false} LastPieceAfter(a: string, sep: string, b: string)
    requires |sep| == 1 && !Contains(b, sep)
    ensures LastPiece(a + sep + b, sep) == b
    decreases |a|
  {
    var s := a + sep + b;
    assert OccursAt(s, sep, |a|) by { assert s[|a|..|a| + 1] == sep; }
    FindSpec(s, sep);
    var i := Find(s, sep).value;
    var rest := s[i + 1..];
    assert Split(s, sep) == [s[..i]] + Split(rest, sep);
    if i == |a| {
      assert rest == b;
      FindSpec(b, sep);
    } else {
      assert i < |a|;
      assert s == a[..i + 1] + (a[i + 1..] + sep + b);
      assert rest == a[i + 1..] + sep + b;
      LastPieceAfter(a[i + 1..], sep, b);
    }
  }

  /** The last piece is a suffix of the input without the separator in it. */
  lemma {:induction false} LastPieceIsFreeSuffix(s: string, sep: string)
    requires |sep| > 0
    ensures exists k: nat :: k <= |s| && s[k..] == LastPiece(s, sep)
    ensures !Contains(LastPiece(s, sep), sep)
    decreases |s|
  {
    SplitPiecesFree(s, sep);
    match Find(s, sep)
    case None =>
      assert s[0..] == LastPiece(s, sep);
    case Some(i) =>
      var rest := s[i + |sep|..];
      LastPieceIsFreeSuffix(rest, sep);
      var parts := Split(rest, sep);
      assert Split(s, sep) == [s[..i]] + parts;
      assert LastPiece(s, sep) == parts[|parts| - 1] == LastPiece(rest, sep);
      var k: nat :| k <= |rest| && rest[k..] == LastPiece(rest, sep);
      assert s[i + |sep| + k..] == rest[k..];
  }

  /** In `a + sep + b` with no `sep` inside `a`, the first `sep` is the one
      right after `a`. */
  lemma FirstOccurrenceAfter(a: string, sep: string, b: string)
    requires |sep| == 1 && !Contains(a, sep)
    ensures Find(a + sep + b, sep) == Some(|a|)
  {
    var s := a + sep + b;
    assert OccursAt(s, sep, |a|) by { assert s[|a|..|a| + 1] == sep; }
    FindSpec(s, sep);
    var i := Find(s, sep).value;
    if i < |a| {
      assert s[i..i + 1] == a[i..i + 1];
      assert OccursAt(a, sep, i);
    }
  }

  /** `SplitN` with room for more than one piece cuts `a + sep + b` right
      after `a` when `a` holds no `sep`. */
  lemma SplitNAfter(a: string, sep: string, b: string, n: nat)
    requires |sep| == 1 && !Contains(a, sep) && n >= 2
    ensures SplitN(a + sep + b, sep, n) == [a] + SplitN(b, sep, n - 1)
  {
    var s := a + sep + b;
    FirstOccurrenceAfter(a, sep, b);
    assert s[..|a|] == a;
    assert s[|a| + 1..] == b;
  }

  /** `Split` cuts `a + sep + b` right after `a` when `a` holds no `sep`. */
  lemma SplitAfter(a: string, sep: string, b: string)
    requires |sep| == 1 && !Contains(a, sep)
    ensures Split(a + sep + b, sep) == [a] + Split(b, sep)
  {
    var s := a + sep + b;
    FirstOccurrenceAfter(a, sep, b);
    assert s[..|a|] == a;
    assert s[|a| + 1..] == b;
  }

  /** A decimal digit for `0 <= d < 10`. */
  function Digit(d: nat): char
    requires d < 10
  {
    "0123456789"[d]
  }

  function DigitValue(c: char): nat {
    if '0' <= c <= '9' then (c - '0') as nat else 0
  }

  /** `%d` of a natural number. */
  function NatToString(n: nat): (r: string)
    ensures |r| > 0
    ensures forall k :: 0 <= k < |r| ==> '0' <= r[k] <= '9'
  {
    if n < 10 then [Digit(n)] else NatToString(n / 10) + [Digit(n % 10)]
  }

  /** `%d` of an integer. */
  function IntToString(i: int): string {
    if i < 0 then "-" + NatToString(-i) else NatToString(i)
  }

  /** The number a string of decimal digits denotes. */
  function DecimalValue(s: string): nat {
    if |s| == 0 then 0 else DecimalValue(s[..|s| - 1]) * 10 + DigitValue(s[|s| - 1])
  }

  /** Reading the rendered digits back gives the number: `%d` loses nothing. */
  lemma {:induction false} DecimalRoundTrip(n: nat)
    ensures DecimalValue(NatToString(n)) == n
  {
    if n >= 10 {
      DecimalRoundTrip(n / 10);
      var r := NatToString(n);
      assert r[..|r| - 1] == NatToString(n / 10);
    }
  }
}

/** `sort.Strings`: ascending byte-wise lexicographic order. Characters
    compare by code point, which orders UTF-8 encodings the same way. */
module GoSort {

  /** `a <= b` in lexicographic order. */
  predicate Below(a: string, b: string) {
    |a| == 0 || (|b| > 0 && (a[0] < b[0] || (a[0] == b[0] && Below(a[1..], b[1..]))))
  }

  lemma {:induction false} BelowReflexive(a: string)
    ensures Below(a, a)
  {
    if |a| > 0 {
      BelowReflexive(a[1..]);
    }
  }

  lemma {:induction false} BelowTotal(a: string, b: string)
    ensures Below(a, b) || Below(b, a)
  {
    if |a| > 0 && |b| > 0 && a[0] == b[0] {
      BelowTotal(a[1..], b[1..]);
    }
  }

  lemma {:induction false} BelowAntisymmetric(a: string, b: string)
    requires Below(a, b) && Below(b, a)
    ensures a == b
  {
    if |a| > 0 && |b| > 0 {
      BelowAntisymmetric(a[1..], b[1..]);
      assert a == [a[0]] + a[1..];
      assert b == [b[0]] + b[1..];
    }
  }

  lemma {:induction false} BelowTransitive(a: string, b: string, c: string)
    requires Below(a, b) && Below(b, c)
    ensures Below(a, c)
  {
    if |a| > 0 && |b| > 0 && |c| > 0 && a[0] == b[0] == c[0] {
      BelowTransitive(a[1..], b[1..], c[1..]);
    }
  }

  predicate Sorted(s: seq<string>) {
    forall i, j :: 0 <= i < j < |s| ==> Below(s[i], s[j])
  }

  function Insert(x: string, s: seq<string>): (r: seq<string>)
    requires Sorted(s)
    ensures Sorted(r)
    ensures multiset(r) == multiset(s) + multiset{x}
    ensures r[0] == x || (|s| > 0 && r[0] == s[0])
  {
    if |s| == 0 then [x]
    else if Below(x, s[0]) then
      assert forall j :: 0 < j < |s| ==> Below(x, s[j]) by {
        forall j | 0 < j < |s| ensures Below(x, s[j]) { BelowTransitive(x, s[0], s[j]); }
      }
      [x] + s
    else
      BelowTotal(x, s[0]);
      var rest := Insert(x, s[1..]);
      assert s == [s[0]] + s[1..];
      assert Below(s[0], rest[0]);
      assert forall j :: 0 < j < |rest| ==> Below(s[0], rest[j]) by {
        forall j | 0 < j < |rest| ensures Below(s[0], rest[j]) {
          BelowTransitive(s[0], rest[0], rest[j]);
        }
      }
      [s[0]] + rest
  }

  /** The sorted arrangement of `s` (what `sort.Strings` leaves in the slice). */
  function SortStrings(s: seq<string>): (r: seq<string>)
    ensures Sorted(r)
    ensures multiset(r) == multiset(s)
  {
    if |s| == 0 then []
    else
      assert s == [s[0]] + s[1..];
      Insert(s[0], SortStrings(s[1..]))
  }

  /** Two sorted arrangements of the same strings are the same sequence. */
  lemma {:induction false} SortedUnique(a: seq<string>, b: seq<string>)
    requires Sorted(a) && Sorted(b) && multiset(a) == multiset(b)
    ensures a == b
    decreases |a|
  {
    if |a| > 0 {
      assert a[0] in multiset(a);
      HeadIsLeast(b, a[0]);
      HeadIsLeast(a, b[0]);
      BelowAntisymmetric(a[0], b[0]);
      TailsAgree(a, b);
      SortedUnique(a[1..], b[1..]);
      assert a == [a[0]] + a[1..];
      assert b == [b[0]] + b[1..];
    }
  }

  /** Removing one equal head from two sorted arrangements of the same
      strings leaves sorted arrangements of the same strings. */
  lemma TailsAgree(a: seq<string>, b: seq<string>)
    requires Sorted(a) && Sorted(b) && multiset(a) == multiset(b)
    requires |a| > 0 && |b| > 0 && a[0] == b[0]
    ensures Sorted(a[1..]) && Sorted(b[1..]) && multiset(a[1..]) == multiset(b[1..])
  {
    assert a == [a[0]] + a[1..];
    assert b == [b[0]] + b[1..];
    assert multiset(a[1..]) == multiset(a) - multiset{a[0]};
    assert multiset(b[1..]) == multiset(b) - multiset{b[0]};
  }

  /** The first element of a sorted sequence is below all of its elements. */
  lemma HeadIsLeast(s: seq<string>, y: string)
    requires Sorted(s) && y in multiset(s)
    ensures |s| > 0 && Below(s[0], y)
  {
    var i :| 0 <= i < |s| && s[i] == y;
    if i == 0 {
      BelowReflexive(y);
    }
  }

  /** The order `sort.Strings` produces depends only on which strings are
      sorted, not on the order in which they were handed over. */
  lemma SortIgnoresInputOrder(a: seq<string>, b: seq<string>)
    requires multiset(a) == multiset(b)
    ensures SortStrings(a) == SortStrings(b)
  {
    SortedUnique(SortStrings(a), SortStrings(b));
  }
}
