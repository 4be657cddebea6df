/**
 * String helpers with Python's meaning: `sep.join(parts)`, `str.lower()`
 * restricted to ASCII letters, `str.strip()`, and the decimal rendering
 * an f-string gives an integer.
 */
module Text {

  /** `sep.join(parts)`. */
  function Join(sep: string, parts: seq<string>): string
    decreases |parts|
  {
    if |parts| == 0 then ""
    else if |parts| == 1 then parts[0]
    else parts[0] + sep + Join(sep, parts[1..])
  }

  /** The index at which `parts[i]` starts inside `Join(sep, parts)`. */
  function Offset(sep: string, parts: seq<string>, i: nat): nat
    requires i < |parts|
    decreases i
  {
    if i == 0 then 0 else |parts[0]| + |sep| + Offset(sep, parts[1..], i - 1)
  }

  /** The joined string ends right after the last part. */
  lemma {:induction false} JoinLength(sep: string, parts: seq<string>)
    requires |parts| > 0
    ensures |Join(sep, parts)| == Offset(sep, parts, |parts| - 1) + |parts[|parts| - 1]|
    decreases |parts|
  {
    if |parts| > 1 {
      JoinLength(sep, parts[1..]);
    }
  }

  /** Every part occurs, unchanged, at its offset: the join keeps the parts in order. */
  lemma {:induction false} JoinPart(sep: string, parts: seq<string>, i: nat)
    requires i < |parts|
    ensures Offset(sep, parts, i) + |parts[i]| <= |Join(sep, parts)|
    ensures Join(sep, parts)[Offset(sep, parts, i)..Offset(sep, parts, i) + |parts[i]|] == parts[i]
    decreases i
  {
    if i == 0 {
      JoinFirst(sep, parts);
    } else {
      var front := parts[0] + sep;
      var rest := Join(sep, parts[1..]);
      assert Join(sep, parts) == front + rest;
      JoinPart(sep, parts[1..], i - 1);
      var o := Offset(sep, parts[1..], i - 1);
      assert parts[1..][i - 1] == parts[i];
      SliceRight(front, rest, o, o + |parts[i]|);
    }
  }

  lemma JoinFirst(sep: string, parts: seq<string>)
    requires |parts| > 0
    ensures Join(sep, parts)[..|parts[0]|] == parts[0]
  {
    if |parts| > 1 {
      assert Join(sep, parts) == parts[0] + (sep + Join(sep, parts[1..]));
    }
  }

  /** A separator sits right before every part but the first. */
  lemma {:induction false} JoinSeparator(sep: string, parts: seq<string>, i: nat)
    requires 0 < i < |parts|
    ensures |sep| <= Offset(sep, parts, i) <= |Join(sep, parts)|
    ensures Join(sep, parts)[Offset(sep, parts, i) - |sep|..Offset(sep, parts, i)] == sep
    decreases i
  {
    var front := parts[0] + sep;
    var rest := Join(sep, parts[1..]);
    assert Join(sep, parts) == front + rest;
    if i == 1 {
      assert Offset(sep, parts, i) == |front|;
      assert (front + rest)[|parts[0]|..|front|] == front[|parts[0]|..];
    } else {
      JoinSeparator(sep, parts[1..], i - 1);
      var o := Offset(sep, parts[1..], i - 1);
      assert Offset(sep, parts, i) == |front| + o;
      SliceRight(front, rest, o - |sep|, o);
    }
  }

  /**
   * The layout of a join: part `i` sits at its offset, a separator comes
   * right before every part but the first, and the last part ends the text.
   */
  lemma JoinLayout(sep: string, parts: seq<string>, i: nat)
    requires i < |parts|
    ensures var o := Offset(sep, parts, i);
      o + |parts[i]| <= |Join(sep, parts)|
      && Join(sep, parts)[o..o + |parts[i]|] == parts[i]
      && (i > 0 ==> |sep| <= o && Join(sep, parts)[o - |sep|..o] == sep)
      && (i == |parts| - 1 ==> |Join(sep, parts)| == o + |parts[i]|)
  {
    JoinPart(sep, parts, i);
    JoinLength(sep, parts);
    if i > 0 {
      JoinSeparator(sep, parts, i);
    }
  }

  /** Slicing past the left operand of a concatenation slices the right one. */
  lemma SliceRight(a: string, b: string, x: nat, y: nat)
    requires x <= y <= |b|
    ensures (a + b)[|a| + x..|a| + y] == b[x..y]
  {
    assert forall k :: 0 <= k < y - x ==> (a + b)[|a| + x..|a| + y][k] == b[x..y][k];
  }

  lemma ConcatAssociative<T>(x: seq<T>, y: seq<T>, z: seq<T>)
    ensures (x + y) + z == x + (y + z)
  {
  }

  /** The middle operand of a concatenation is found right after the left one. */
  lemma SliceMiddle(x: string, y: string, z: string)
    ensures (x + y + z)[|x|..|x| + |y|] == y
  {
    assert x + y + z == x + (y + z);
    SliceRight(x, y + z, 0, |y|);
  }

  /**
   * With a non-empty separator the join is empty exactly when there is no
   * part, or a single empty one.
   */
  lemma {:induction false} JoinEmpty(sep: string, parts: seq<string>)
    requires sep != ""
    ensures Join(sep, parts) == "" <==> |parts| == 0 || (|parts| == 1 && parts[0] == "")
  {
    if |parts| > 1 {
      assert |Join(sep, parts)| >= |sep|;
    }
  }

  predicate IsUpper(c: char) {
    'A' <= c <= 'Z'
  }

  function LowerChar(c: char): char {
    if IsUpper(c) then (c as int - 'A' as int + 'a' as int) as char else c
  }

  /** `s.lower()` on ASCII letters: only `A`..`Z` change, each to its own lower-case letter. */
  function Lower(s: string): (r: string)
    ensures |r| == |s|
    ensures forall i :: 0 <= i < |r| ==> !IsUpper(r[i])
    ensures forall i :: 0 <= i < |r| ==> !IsUpper(s[i]) ==> r[i] == s[i]
    ensures forall i :: 0 <= i < |r| ==> IsUpper(s[i]) ==> r[i] == (s[i] as int - 'A' as int + 'a' as int) as char
  {
    seq(|s|, i requires 0 <= i < |s| => LowerChar(s[i]))
  }

  /** A string without upper-case letters is its own lower-case form. */
  lemma LowerUnchanged(s: string)
    requires forall i :: 0 <= i < |s| ==> !IsUpper(s[i])
    ensures Lower(s) == s
  {
  }

  /** The characters Python's `str.isspace()` accepts, hence those `str.strip()` removes. */
  predicate IsSpace(c: char) {
    var n := c as int;
    (9 <= n <= 13) || (28 <= n <= 32) || n == 0x85 || n == 0xA0 || n == 0x1680
    || (0x2000 <= n <= 0x200A) || n == 0x2028 || n == 0x2029 || n == 0x202F
    || n == 0x205F || n == 0x3000
  }

  /** `s.lstrip()`: the suffix left after dropping the leading white space. */
  function TrimStart(s: string): (r: string)
    ensures |r| <= |s| && r == s[|s| - |r|..]
    decreases |s|
  {
    if s != [] && IsSpace(s[0]) then TrimStart(s[1..]) else s
  }

  /** What `lstrip()` drops is white space, and what it keeps does not start with any. */
  lemma {:induction false} TrimStartDropsSpace(s: string)
    ensures forall i :: 0 <= i < |s| - |TrimStart(s)| ==> IsSpace(s[i])
    ensures TrimStart(s) != [] ==> !IsSpace(TrimStart(s)[0])
    decreases |s|
  {
    if s != [] && IsSpace(s[0]) {
      assert TrimStart(s) == TrimStart(s[1..]);
      TrimStartDropsSpace(s[1..]);
      forall i | 1 <= i < |s| - |TrimStart(s)| ensures IsSpace(s[i]) {
        assert s[i] == s[1..][i - 1];
      }
    }
  }

  /** `s.rstrip()`: the prefix left after dropping the trailing white space. */
  function TrimEnd(s: string): (r: string)
    ensures |r| <= |s| && r == s[..|r|]
    decreases |s|
  {
    if s != [] && IsSpace(s[|s| - 1]) then TrimEnd(s[..|s| - 1]) else s
  }

  /** What `rstrip()` drops is white space, and what it keeps does not end with any. */
  lemma {:induction false} TrimEndDropsSpace(s: string)
    ensures forall i :: |TrimEnd(s)| <= i < |s| ==> IsSpace(s[i])
    ensures TrimEnd(s) != [] ==> !IsSpace(TrimEnd(s)[|TrimEnd(s)| - 1])
    decreases |s|
  {
    if s != [] && IsSpace(s[|s| - 1]) {
      assert TrimEnd(s) == TrimEnd(s[..|s| - 1]);
      TrimEndDropsSpace(s[..|s| - 1]);
      forall i | |TrimEnd(s)| <= i < |s| - 1 ensures IsSpace(s[i]) {
        assert s[i] == s[..|s| - 1][i];
      }
    }
  }

  /** `s.strip()`. */
  function Strip(s: string): string {
    TrimEnd(TrimStart(s))
  }

  /** `Strip(s)` is the slice `s[a..b]` that remains once the white space at both ends is gone. */
  lemma StripIsCore(s: string)
    ensures |s| - |TrimStart(s)| + |Strip(s)| <= |s|
    ensures Strip(s) == s[|s| - |TrimStart(s)|..|s| - |TrimStart(s)| + |Strip(s)|]
  {
    PrefixOfSuffix(s, TrimStart(s), Strip(s));
  }

  /** `Strip(s)` neither starts nor ends with white space. */
  lemma StripEnds(s: string)
    ensures Strip(s) != [] ==> !IsSpace(Strip(s)[0]) && !IsSpace(Strip(s)[|Strip(s)| - 1])
  {
    PrefixOfSuffix(s, TrimStart(s), Strip(s));
    TrimStartDropsSpace(s);
    TrimEndDropsSpace(TrimStart(s));
  }

  /** A prefix `r` of a suffix `t` of `s` is a slice of `s` and starts where `t` does. */
  lemma PrefixOfSuffix<T>(s: seq<T>, t: seq<T>, r: seq<T>)
    requires |t| <= |s| && t == s[|s| - |t|..]
    requires |r| <= |t| && r == t[..|r|]
    ensures |s| - |t| + |r| <= |s| && r == s[|s| - |t|..|s| - |t| + |r|]
    ensures r != [] ==> r[0] == t[0]
  {
  }

  /** What `Strip(s)` drops, before and after that slice, is white space. */
  lemma StripDropsSpace(s: string)
    ensures |s| - |TrimStart(s)| + |Strip(s)| <= |s|
    ensures forall i :: 0 <= i < |s| - |TrimStart(s)| ==> IsSpace(s[i])
    ensures forall i :: |s| - |TrimStart(s)| + |Strip(s)| <= i < |s| ==> IsSpace(s[i])
  {
    var t := TrimStart(s);
    assert t == s[|s| - |t|..];
    TrimStartDropsSpace(s);
    TrailingSpace(s, |s| - |t|, |Strip(s)|);
  }

  /** The white space `TrimEnd` drops from the suffix `s[a..]` is white space of `s` after `a + n`. */
  lemma TrailingSpace(s: string, a: nat, n: nat)
    requires a <= |s| && n == |TrimEnd(s[a..])|
    ensures forall i :: a + n <= i < |s| ==> IsSpace(s[i])
  {
    var t := s[a..];
    TrimEndDropsSpace(t);
    forall i | a + n <= i < |s| ensures IsSpace(s[i]) {
      assert s[i] == t[i - a];
    }
  }

  /** Every character of `w` is white space. */
  predicate AllSpace(w: string) {
    forall k :: 0 <= k < |w| ==> IsSpace(w[k])
  }

  /** Leading white space in front of `x` is all `lstrip()` removes of it. */
  lemma {:induction false} TrimStartSpaces(w: string, x: string)
    requires AllSpace(w)
    ensures TrimStart(w + x) == TrimStart(x)
    decreases |w|
  {
    if w == [] {
      assert w + x == x;
    } else {
      assert (w + x)[0] == w[0];
      assert (w + x)[1..] == w[1..] + x;
      TrimStartSpaces(w[1..], x);
    }
  }

  /** Trailing white space after `x` is all `rstrip()` removes of it. */
  lemma {:induction false} TrimEndSpaces(x: string, w: string)
    requires AllSpace(w)
    ensures TrimEnd(x + w) == TrimEnd(x)
    decreases |w|
  {
    if w == [] {
      assert x + w == x;
    } else {
      var n := |w| - 1;
      assert (x + w)[|x + w| - 1] == w[n];
      assert (x + w)[..|x + w| - 1] == x + w[..n];
      TrimEndSpaces(x, w[..n]);
    }
  }

  /** `lstrip()` of a concatenation: the first part's suffix and all of the second, unless the first is all white space. */
  lemma {:induction false} TrimStartConcat(x: string, w: string)
    ensures TrimStart(x + w) == if TrimStart(x) == [] then TrimStart(w) else TrimStart(x) + w
    decreases |x|
  {
    if x == [] {
      assert x + w == w;
    } else if IsSpace(x[0]) {
      assert (x + w)[0] == x[0];
      assert (x + w)[1..] == x[1..] + w;
      TrimStartConcat(x[1..], w);
    } else {
      assert (x + w)[0] == x[0];
    }
  }

  /** `strip()` ignores white space added on either side. */
  lemma StripSurrounded(w1: string, x: string, w2: string)
    requires AllSpace(w1) && AllSpace(w2)
    ensures Strip(w1 + x + w2) == Strip(x)
  {
    assert w1 + x + w2 == w1 + (x + w2);
    TrimStartSpaces(w1, x + w2);
    TrimStartConcat(x, w2);
    if TrimStart(x) == [] {
      TrimStartSpaces(w2, []);
      assert w2 + [] == w2;
    } else {
      TrimEndSpaces(TrimStart(x), w2);
    }
  }

  /** `lower()` works character by character, so it distributes over concatenation. */
  lemma LowerConcat(a: string, b: string)
    ensures Lower(a + b) == Lower(a) + Lower(b)
  {
    assert forall i :: 0 <= i < |a + b| ==> Lower(a + b)[i] == (Lower(a) + Lower(b))[i];
  }

  /** White space has no upper-case letter, so `lower()` leaves it alone. */
  lemma LowerSpaces(w: string)
    requires AllSpace(w)
    ensures Lower(w) == w
  {
    LowerUnchanged(w);
  }

  /** Lower-casing then stripping ignores white space added on either side. */
  lemma StripLowerSurrounded(w1: string, u: string, w2: string)
    requires AllSpace(w1) && AllSpace(w2)
    ensures Strip(Lower(w1 + u + w2)) == Strip(Lower(u))
  {
    LowerConcat(w1 + u, w2);
    LowerConcat(w1, u);
    LowerSpaces(w1);
    LowerSpaces(w2);
    StripSurrounded(w1, Lower(u), w2);
  }

  /** Lower-casing and stripping a second time changes nothing. */
  lemma StripLowerFixed(s: string)
    ensures Strip(Lower(Strip(Lower(s)))) == Strip(Lower(s))
  {
    var l := Lower(s);
    var c := Strip(l);
    StripIsCore(l);
    StripEnds(l);
    var a := |l| - |TrimStart(l)|;
    forall i | 0 <= i < |c| ensures !IsUpper(c[i]) {
      assert c[i] == l[a + i];
    }
    LowerUnchanged(c);
    StripTrimmed(c);
  }

  /** Strings without surrounding white space are left alone. */
  lemma StripTrimmed(s: string)
    requires s == [] || (!IsSpace(s[0]) && !IsSpace(s[|s| - 1]))
    ensures Strip(s) == s
  {
  }

  function Digit(d: nat): char
    requires d < 10
  {
    "0123456789"[d]
  }

  function DigitValue(c: char): int {
    c as int - '0' as int
  }

  /** The decimal digits of `n`, most significant first, without leading zeros. */
  function NatToString(n: nat): (r: string)
    ensures |r| > 0
    ensures forall i :: 0 <= i < |r| ==> '0' <= r[i] <= '9'
    ensures r[0] == '0' <==> n == 0
    ensures |r| > 1 ==> r[0] != '0'
    decreases n
  {
    if n < 10 then [Digit(n)] else NatToString(n / 10) + [Digit(n % 10)]
  }

  /** The value of a string of decimal digits. */
  function DecimalValue(s: string): int
    decreases |s|
  {
    if s == [] then 0 else 10 * DecimalValue(s[..|s| - 1]) + DigitValue(s[|s| - 1])
  }

  /** Reading the digits back gives the number: the rendering loses nothing. */
  lemma {:induction false} DecimalRoundTrip(n: nat)
    ensures DecimalValue(NatToString(n)) == n
    decreases n
  {
    var r := NatToString(n);
    if n < 10 {
      assert r[..0] == [];
    } else {
      DecimalRoundTrip(n / 10);
      assert r[..|r| - 1] == NatToString(n / 10);
      assert DigitValue(r[|r| - 1]) == n % 10 by {
        assert r[|r| - 1] == Digit(n % 10);
      }
    }
  }

  /** `str(i)` for a Python int. */
  function IntToString(i: int): (r: string)
    ensures i >= 0 ==> DecimalValue(r) == i
    ensures i >= 0 ==> |r| > 0 && (forall k :: 0 <= k < |r| ==> '0' <= r[k] <= '9') && (|r| > 1 ==> r[0] != '0')
    ensures i < 0 ==> |r| > 1 && r[0] == '-' && DecimalValue(r[1..]) == -i
    ensures i < 0 ==> (forall k :: 1 <= k < |r| ==> '0' <= r[k] <= '9') && r[1] != '0'
  {
    DecimalRoundTrip(if i < 0 then -i else i);
    if i < 0 then
      var d := NatToString(-i);
      assert ("-" + d)[1..] == d;
      "-" + d
    else NatToString(i)
  }
}
