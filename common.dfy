/**
 * Shared vocabulary for the FogLAMP model: optional values and results,
 * and the handful of C/C++ and Python string primitives the core relies
 * on, each written out with the semantics of its own language
 * (std::string::find and substr with size_t arithmetic, atoi, strtoul,
 * std::to_string, Python slicing, str.replace and `in`).
 */
module Common {

  datatype Option<T> = None | Some(value: T)

  datatype Result<T, E> = Ok(value: T) | Err(error: E)

  /** 2^64, the modulus of size_t and unsigned long arithmetic. */
  const SizeModulus: int := 0x1_0000_0000_0000_0000

  /** std::string::npos, i.e. SIZE_MAX. */
  const Npos: int := SizeModulus - 1

  /** The value of a size_t expression, wrapped modulo 2^64. */
  function SizeT(x: int): (r: nat)
    ensures r < SizeModulus
    ensures 0 <= x < SizeModulus ==> r == x
    ensures -SizeModulus <= x < 0 ==> r == x + SizeModulus
  {
    x % SizeModulus
  }

  // ---------------------------------------------------------------------
  // Searching

  predicate MatchesAt(s: string, pat: string, i: int)
  {
    0 <= i && i + |pat| <= |s| && s[i..i + |pat|] == pat
  }

  /** std::string::find(pat, from): the first occurrence at or after from. */
  function Find(s: string, pat: string, from: nat): (r: Option<nat>)
    decreases |s| - from
    ensures r.Some? ==> from <= r.value && MatchesAt(s, pat, r.value)
    ensures r.Some? ==> forall k :: from <= k < r.value ==> !MatchesAt(s, pat, k)
    ensures r.None? ==> forall k :: from <= k ==> !MatchesAt(s, pat, k)
  {
    if from + |pat| > |s| then None
    else if s[from..from + |pat|] == pat then Some(from)
    else Find(s, pat, from + 1)
  }

  /** A find result as the size_t the C++ code holds: npos when absent. */
  function PosOrNpos(r: Option<nat>): (p: nat)
    ensures r.None? ==> p == Npos
  {
    if r.Some? then r.value else Npos
  }

  /** find of a single character: the first index holding it. */
  lemma FindChar(s: string, c: char, k: nat)
    requires k < |s| && s[k] == c && forall j :: 0 <= j < k ==> s[j] != c
    ensures Find(s, [c], 0) == Some(k)
  {
    assert s[k..k + 1] == [c];
    assert MatchesAt(s, [c], k);
  }

  /** find of a character the string does not hold. */
  lemma FindCharAbsent(s: string, c: char)
    requires forall j :: 0 <= j < |s| ==> s[j] != c
    ensures Find(s, [c], 0) == None
  {
    forall k | 0 <= k < |s| ensures !MatchesAt(s, [c], k) {
      assert s[k..k + 1][0] == s[k];
    }

  }

  /** s holds no c. */
  predicate Lacks(s: string, c: char)
  {
    forall k :: 0 <= k < |s| ==> s[k] != c
  }

  /**
   * The text of s before its first c, or all of s when it holds none:
   * defined character by character, independently of find.
   */
  function Upto(s: string, c: char): (r: string)
    ensures r <= s && Lacks(r, c)
    ensures r == s || s[|r|] == c
  {
    if s == [] || s[0] == c then [] else [s[0]] + Upto(s[1..], c)
  }

  /** The text before the first c is everything before its first occurrence. */
  lemma {:induction false} UptoOf(s: string, c: char, k: nat)
    requires k <= |s| && Lacks(s[..k], c) && (k == |s| || s[k] == c)
    ensures Upto(s, c) == s[..k]
  {
    if s != [] && k > 0 {
      assert s[0] == s[..k][0];
      UptoOf(s[1..], c, k - 1);
      assert s[1..][..k - 1] == s[..k][1..];
      assert forall j :: 0 <= j < k - 1 ==> s[..k][1..][j] == s[..k][j + 1];
    }
  }

  /** Python's `pat in s` on strings: a substring test. */
  predicate Contains(s: string, pat: string)
  {
    Find(s, pat, 0).Some?
  }

  lemma ContainsIffMatch(s: string, pat: string)
    ensures Contains(s, pat) <==> exists i :: MatchesAt(s, pat, i)
  {
  }

  predicate StartsWith(s: string, prefix: string)
  {
    |prefix| <= |s| && s[..|prefix|] == prefix
  }

  predicate EndsWith(s: string, suffix: string)
  {
    |suffix| <= |s| && s[|s| - |suffix|..] == suffix
  }

  // ---------------------------------------------------------------------
  // std::string::substr

  datatype StdError = OutOfRange

  /**
   * std::string::substr(pos, len): throws std::out_of_range when pos is
   * past the end, otherwise takes at most len characters.
   */
  function Substr(s: string, pos: nat, len: nat): (r: Result<string, StdError>)
    ensures r.Err? <==> pos > |s|
    ensures r.Ok? ==> |r.value| <= len && r.value <= s[pos..]
    ensures r.Ok? && pos + len >= |s| ==> r.value == s[pos..]
    ensures r.Ok? && pos + len < |s| ==> |r.value| == len
  {
    if pos > |s| then Err(OutOfRange)
    else if pos + len >= |s| then Ok(s[pos..])
    else Ok(s[pos..pos + len])
  }

  // ---------------------------------------------------------------------
  // Python slicing and str.replace

  /** Python's s[lo:hi] for non-negative bounds: both ends are clamped. */
  function Slice(s: string, lo: nat, hi: nat): (r: string)
    ensures lo <= hi <= |s| ==> r == s[lo..hi]
    ensures hi <= lo || |s| <= lo ==> r == []
  {
    var a := if lo <= |s| then lo else |s|;
    var b := if hi <= |s| then hi else |s|;
    if a <= b then s[a..b] else []
  }

  /**
   * Python's s.replace(old, new): every non-overlapping occurrence, left to
   * right. A replacement no longer than the pattern never lengthens the
   * text.
   */
  function ReplaceAll(s: string, pat: string, rep: string): (r: string)
    requires pat != []
    ensures |rep| <= |pat| ==> |r| <= |s|
    decreases |s|
  {
    if |s| < |pat| then s
    else if s[..|pat|] == pat then rep + ReplaceAll(s[|pat|..], pat, rep)
    else [s[0]] + ReplaceAll(s[1..], pat, rep)
  }

  /**
   * str.replace(c, "") keeps exactly the other characters, in order: it is
   * the filter that drops c.
   */
  lemma {:induction false} ReplaceAllCharIsFilter(s: string, c: char)
    ensures ReplaceAll(s, [c], []) == Filter(s, (x: char) => x != c)
    decreases |s|
  {
    if s != [] {
      ReplaceAllCharIsFilter(s[1..], c);
      assert s[..1] == [s[0]];
    }
  }

  /** A character that str.replace(old, new) with new == "" leaves out. */
  lemma {:induction false} ReplaceAllRemovesChar(s: string, c: char)
    ensures forall k :: 0 <= k < |ReplaceAll(s, [c], [])| ==> ReplaceAll(s, [c], [])[k] != c
    ensures |ReplaceAll(s, [c], [])| <= |s|
    decreases |s|
  {
    if |s| >= 1 {
      ReplaceAllRemovesChar(s[1..], c);
    }
  }

  /** str.replace(c, "") leaves a string without c as it is. */
  lemma {:induction false} ReplaceAllAbsent(s: string, c: char)
    requires forall k :: 0 <= k < |s| ==> s[k] != c
    ensures ReplaceAll(s, [c], []) == s
    decreases |s|
  {
    if |s| >= 1 {
      assert s[..1] != [c] by { assert s[..1][0] == s[0]; }
      ReplaceAllAbsent(s[1..], c);
      assert s == [s[0]] + s[1..];
    }
  }

  // ---------------------------------------------------------------------
  // Joining

  function Join(parts: seq<string>, sep: string): (r: string)
    ensures |parts| == 0 ==> r == []
    ensures |parts| == 1 ==> r == parts[0]
  {
    if |parts| == 0 then []
    else if |parts| == 1 then parts[0]
    else parts[0] + sep + Join(parts[1..], sep)
  }

  /** One more part joins after a separator, at the end. */
  lemma {:induction false} JoinSnoc(parts: seq<string>, x: string, sep: string)
    requires |parts| >= 1
    ensures Join(parts + [x], sep) == Join(parts, sep) + sep + x
  {
    assert (parts + [x])[0] == parts[0];
    if |parts| == 1 {
      assert (parts + [x])[1..] == [x];
    } else {
      assert (parts + [x])[1..] == parts[1..] + [x];
      JoinSnoc(parts[1..], x, sep);
    }
  }

  // ---------------------------------------------------------------------
  // Comprehensions: Python's nested for-loops that append, and list filters

  /** The concatenation of f(x) for each x of xs, in order. */
  function FlatMap<A(!new), B(!new)>(xs: seq<A>, f: A -> seq<B>): (r: seq<B>)
    ensures forall y :: y in r <==> exists x :: x in xs && y in f(x)
  {
    if xs == [] then []
    else
      var rest := FlatMap(xs[1..], f);
      assert forall x :: x in xs <==> x == xs[0] || x in xs[1..];
      f(xs[0]) + rest
  }

  /** FlatMap keeps the order of its input: a split input gives a split result. */
  lemma {:induction false} FlatMapAppend<A(!new), B(!new)>(a: seq<A>, b: seq<A>, f: A -> seq<B>)
    ensures FlatMap(a + b, f) == FlatMap(a, f) + FlatMap(b, f)
  {
    if a != [] {
      assert (a + b)[0] == a[0] && (a + b)[1..] == a[1..] + b;
      FlatMapAppend(a[1..], b, f);
    } else {
      assert a + b == b;
    }
  }

  /** Every split point of the input splits the result. */
  lemma FlatMapSplit<A(!new), B(!new)>(xs: seq<A>, f: A -> seq<B>)
    ensures forall i :: 0 <= i <= |xs| ==> FlatMap(xs, f) == FlatMap(xs[..i], f) + FlatMap(xs[i..], f)
    ensures |xs| == 1 ==> FlatMap(xs, f) == f(xs[0])
  {
    forall i | 0 <= i <= |xs|
      ensures FlatMap(xs, f) == FlatMap(xs[..i], f) + FlatMap(xs[i..], f)
    {
      assert xs == xs[..i] + xs[i..];
      FlatMapAppend(xs[..i], xs[i..], f);
    }
  }

  /** The elements of xs that keep holds for, in order. */
  function Filter<A(!new)>(xs: seq<A>, keep: A -> bool): (r: seq<A>)
    ensures |r| <= |xs|
    ensures forall x :: x in r <==> x in xs && keep(x)
  {
    if xs == [] then []
    else
      var rest := Filter(xs[1..], keep);
      assert forall x :: x in xs <==> x == xs[0] || x in xs[1..];
      (if keep(xs[0]) then [xs[0]] else []) + rest
  }

  /** Filter keeps the order of its input: a split input gives a split result. */
  lemma {:induction false} FilterAppend<A(!new)>(a: seq<A>, b: seq<A>, keep: A -> bool)
    ensures Filter(a + b, keep) == Filter(a, keep) + Filter(b, keep)
  {
    if a != [] {
      assert (a + b)[0] == a[0] && (a + b)[1..] == a[1..] + b;
      FilterAppend(a[1..], b, keep);
    } else {
      assert a + b == b;
    }
  }

  // ---------------------------------------------------------------------
  // Decimal text: std::to_string, atoi and strtoul

  predicate IsDigit(c: char)
  {
    '0' <= c <= '9'
  }

  predicate AllDigits(s: string)
  {
    forall k :: 0 <= k < |s| ==> IsDigit(s[k])
  }

  function DigitChar(d: nat): (c: char)
    requires d < 10
    ensures IsDigit(c)
  {
    ['0', '1', '2', '3', '4', '5', '6', '7', '8', '9'][d]
  }

  function DigitValue(c: char): (d: nat)
    requires IsDigit(c)
    ensures d < 10
  {
    (c as int - '0' as int) as nat
  }

  /** The decimal representation of n, with no leading zeros. */
  function NatToString(n: nat): (r: string)
    ensures |r| >= 1 && AllDigits(r)
    ensures n < 10 <==> |r| == 1
  {
    if n < 10 then [DigitChar(n)] else NatToString(n / 10) + [DigitChar(n % 10)]
  }

  /** std::to_string / Python's str() of an integer. */
  function IntToString(i: int): (r: string)
    ensures |r| >= 1
    ensures i < 0 <==> r[0] == '-'
  {
    if i < 0 then "-" + NatToString(-i) else NatToString(i)
  }

  /** The value of a string of decimal digits, most significant first. */
  function DigitsValue(d: string): nat
    requires AllDigits(d)
  {
    if d == [] then 0 else DigitsValue(d[..|d| - 1]) * 10 + DigitValue(d[|d| - 1])
  }

  /** The longest prefix of s made of decimal digits. */
  function LeadingDigits(s: string): (r: string)
    ensures r <= s && AllDigits(r)
    ensures |r| < |s| ==> !IsDigit(s[|r|])
  {
    if s != [] && IsDigit(s[0]) then [s[0]] + LeadingDigits(s[1..]) else []
  }

  /** The white-space characters of C's isspace in the "C" locale. */
  predicate IsSpace(c: char)
  {
    c == ' ' || c == '\t' || c == '\n' || c == '\r' || c == '\U{0B}' || c == '\U{0C}'
  }

  function SkipSpaces(s: string): (r: string)
    ensures |r| <= |s| && r == s[|s| - |r|..]
    ensures r != [] ==> !IsSpace(r[0])
  {
    if s != [] && IsSpace(s[0]) then SkipSpaces(s[1..]) else s
  }

  /** The optional sign of a number in C's strtol family, and the rest. */
  function SplitSign(t: string): (bool, string)
  {
    if t != [] && t[0] == '-' then (true, t[1..])
    else if t != [] && t[0] == '+' then (false, t[1..])
    else (false, t)
  }

  /**
   * C's atoi: leading white space, an optional sign and the longest run of
   * digits; 0 when there are none. (Overflow is undefined in C and not
   * modelled: the value is the mathematical one.)
   */
  function Atoi(s: string): (r: int)
    ensures s != [] && IsSpace(s[0]) ==> r == Atoi(s[1..])
    ensures r != 0 ==> var t := SkipSpaces(s); t != [] && (r < 0 <==> t[0] == '-')
    ensures s == [] || !(IsSpace(s[0]) || IsDigit(s[0]) || s[0] == '-' || s[0] == '+') ==> r == 0
    decreases |s|
  {
    SignedValue(SkipSpaces(s))
  }

  /** The value of an optional sign and the digits after it; 0 when no digit follows the sign. */
  function SignedValue(t: string): (r: int)
    ensures r != 0 ==> t != [] && (r < 0 <==> t[0] == '-')
    ensures t == [] || !(IsDigit(t[0]) || t[0] == '-' || t[0] == '+') ==> r == 0
  {
    var (negative, rest) := SplitSign(t);
    var v: int := DigitsValue(LeadingDigits(rest));
    if negative then -v else v
  }

  /**
   * C's strtoul(s, NULL, 10): as atoi, but the value saturates at
   * ULONG_MAX and a leading minus negates it modulo 2^64.
   */
  function StrToUl(s: string): (r: nat)
    ensures r < SizeModulus
  {
    var (negative, rest) := SplitSign(SkipSpaces(s));
    var v: int := DigitsValue(LeadingDigits(rest));
    if v > Npos then Npos else if negative then SizeT(-v) else v
  }

  lemma {:induction false} DigitsValueOfNatToString(n: nat)
    ensures DigitsValue(NatToString(n)) == n
  {
    if n >= 10 {
      var d := NatToString(n);
      assert d[..|d| - 1] == NatToString(n / 10);
      DigitsValueOfNatToString(n / 10);
    }
  }

  lemma {:induction false} LeadingDigitsOfDigits(s: string)
    requires AllDigits(s)
    ensures LeadingDigits(s) == s
  {
    if s != [] {
      LeadingDigitsOfDigits(s[1..]);
    }
  }

  lemma AtoiOfDigits(t: string)
    requires t != [] && AllDigits(t)
    ensures Atoi(t) == DigitsValue(t)
    ensures Atoi("-" + t) == -(DigitsValue(t) as int)
  {
    assert IsDigit(t[0]);
    assert SkipSpaces(t) == t;
    var m := "-" + t;
    assert m[0] == '-';
    assert SkipSpaces(m) == m;
    SignedValueOfDigits(t);
  }

  /** A run of digits, with or without a leading minus, has its decimal value. */
  lemma SignedValueOfDigits(t: string)
    requires AllDigits(t)
    ensures SignedValue(t) == DigitsValue(t)
    ensures SignedValue("-" + t) == -(DigitsValue(t) as int)
  {
    LeadingDigitsOfDigits(t);
    if t != [] {
      assert IsDigit(t[0]);
      assert SplitSign(t) == (false, t);
    }
    var m := "-" + t;
    assert m[0] == '-' && m[1..] == t;
    assert SplitSign(m) == (true, t);
  }

  /** atoi of "0", the text the process falls back on for a missing item. */
  lemma AtoiOfZero(z: string)
    requires z == "0"
    ensures Atoi(z) == 0
  {
    assert z[0] == '0' && !IsSpace(z[0]);
    assert SkipSpaces(z) == z;
    assert SplitSign(z) == (false, z);
    assert LeadingDigits(z[1..]) == [];
    assert LeadingDigits(z) == z;
    assert z[..0] == [];
    assert DigitsValue(z) == 0;
  }

  /** atoi reads back what std::to_string wrote. */
  lemma AtoiOfIntToString(i: int)
    ensures Atoi(IntToString(i)) == i
  {
    if i < 0 {
      var n: nat := -i;
      assert IntToString(i) == "-" + NatToString(n);
      AtoiOfDigits(NatToString(n));
      DigitsValueOfNatToString(n);
    } else {
      assert IntToString(i) == NatToString(i);
      AtoiOfDigits(NatToString(i));
      DigitsValueOfNatToString(i);
    }
  }

  /** strtoul reads back what std::to_string wrote, for values an unsigned long holds. */
  lemma StrToUlOfNatToString(n: nat)
    requires n < SizeModulus
    ensures StrToUl(NatToString(n)) == n
  {
    var t := NatToString(n);
    assert t[0] != '-' && t[0] != '+' && !IsSpace(t[0]) by { assert IsDigit(t[0]); }
    LeadingDigitsOfDigits(t);
    DigitsValueOfNatToString(n);
  }
}
