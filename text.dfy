/** String operations the Python code relies on: decimal rendering of ids,
    `str.lower`, `str.strip`, `in` on strings and `os.path.splitext`. */
module Text {

  /** A value that may be missing (Python's `None`). */
  datatype Option<T> = None | Some(value: T)

  // ---------------------------------------------------------------------------
  // Decimal digits
  // ---------------------------------------------------------------------------

  predicate IsDigit(c: char) {
    '0' <= c <= '9'
  }

  predicate AllDigits(s: string) {
    forall i | 0 <= i < |s| :: IsDigit(s[i])
  }

  function DigitChar(d: nat): (c: char)
    requires d < 10
    ensures IsDigit(c)
  {
    (48 + d) as char
  }

  function DigitValue(c: char): (d: nat)
    requires IsDigit(c)
    ensures d < 10 && DigitChar(d) == c
  {
    (c as int - 48) as nat
  }

  /** The decimal text Python's f-string gives a non-negative int. */
  function NatText(n: nat): (s: string)
    ensures |s| > 0 && AllDigits(s)
    ensures |s| > 1 ==> s[0] != '0'
  {
    if n < 10 then [DigitChar(n)] else NatText(n / 10) + [DigitChar(n % 10)]
  }

  /** The value of a string of decimal digits. */
  function ParseNat(s: string): nat
    requires AllDigits(s)
  {
    if s == [] then 0 else 10 * ParseNat(s[..|s| - 1]) + DigitValue(s[|s| - 1])
  }

  lemma {:induction false} ParseNatText(n: nat)
    ensures ParseNat(NatText(n)) == n
  {
    var s := NatText(n);
    if n >= 10 {
      ParseNatText(n / 10);
      assert s[..|s| - 1] == NatText(n / 10);
    }
  }

  /** `k` zero digits. */
  function Zeros(k: nat): (s: string)
    ensures |s| == k && AllDigits(s)
  {
    seq(k, i => '0')
  }

  /** Leading zeros do not change the value of a digit string. */
  lemma {:induction false} ParseZerosPrefix(k: nat, s: string)
    requires AllDigits(s)
    ensures AllDigits(Zeros(k) + s) && ParseNat(Zeros(k) + s) == ParseNat(s)
    decreases |s|, k
  {
    var t := Zeros(k) + s;
    assert AllDigits(t) by {
      forall i | 0 <= i < |t| ensures IsDigit(t[i]) {
        if i < k { assert t[i] == Zeros(k)[i]; } else { assert t[i] == s[i - k]; }
      }
    }
    if s == [] {
      if k > 0 {
        assert t[..|t| - 1] == Zeros(k - 1) + [];
        ParseZerosPrefix(k - 1, []);
      }
    } else {
      assert t[..|t| - 1] == Zeros(k) + s[..|s| - 1];
      ParseZerosPrefix(k, s[..|s| - 1]);
    }
  }

  /** A digit string without a leading zero (other than "0" itself) is the
      decimal text of its value. */
  lemma {:induction false} CanonicalText(t: string)
    requires t != [] && AllDigits(t) && (|t| > 1 ==> t[0] != '0')
    ensures NatText(ParseNat(t)) == t
    decreases |t|
  {
    var n := ParseNat(t);
    var d := DigitValue(t[|t| - 1]);
    if |t| > 1 {
      var u := t[..|t| - 1];
      assert u[0] == t[0];
      CanonicalText(u);
      var m := ParseNat(u);
      assert n / 10 == m && n % 10 == d;
      assert t == u + [t[|t| - 1]];
    }
  }

  /** Every non-empty digit string is its value's decimal text behind some
      leading zeros. */
  lemma {:induction false} DigitsForm(s: string)
    requires s != [] && AllDigits(s)
    ensures exists k: nat :: s == Zeros(k) + NatText(ParseNat(s))
    decreases |s|
  {
    if |s| > 1 && s[0] == '0' {
      var rest := s[1..];
      DigitsForm(rest);
      var k: nat :| rest == Zeros(k) + NatText(ParseNat(rest));
      assert s == Zeros(1) + rest;
      ParseZerosPrefix(1, rest);
      assert s == Zeros(k + 1) + NatText(ParseNat(s));
    } else {
      CanonicalText(s);
      assert s == Zeros(0) + NatText(ParseNat(s));
    }
  }

  /** The value of a decimal text behind leading zeros. */
  lemma ZerosTextValue(k: nat, n: nat)
    ensures Zeros(k) + NatText(n) != [] && AllDigits(Zeros(k) + NatText(n))
    ensures ParseNat(Zeros(k) + NatText(n)) == n
  {
    ParseZerosPrefix(k, NatText(n));
    ParseNatText(n);
  }

  /** Distinct ids render as distinct texts (so distinct lectures get distinct groups). */
  lemma NatTextInjective(m: nat, n: nat)
    ensures NatText(m) == NatText(n) ==> m == n
  {
    ParseNatText(m);
    ParseNatText(n);
  }

  /** The decimal text Python gives any int. */
  function IntText(i: int): (s: string)
    ensures |s| > 0
    ensures i >= 0 ==> s == NatText(i)
    ensures i < 0 ==> s[0] == '-'
  {
    if i < 0 then "-" + NatText(-i) else NatText(i)
  }

  // ---------------------------------------------------------------------------
  // Lower-casing (ASCII letters; every other character is left as it is)
  // ---------------------------------------------------------------------------

  predicate IsUpper(c: char) {
    'A' <= c <= 'Z'
  }

  function LowerChar(c: char): char {
    if IsUpper(c) then (c as int + 32) as char else c
  }

  function Lower(s: string): string {
    seq(|s|, i requires 0 <= i < |s| => LowerChar(s[i]))
  }

  predicate IsLowerCase(s: string) {
    forall i | 0 <= i < |s| :: !IsUpper(s[i])
  }

  lemma LowerProperties(s: string)
    ensures |Lower(s)| == |s| && IsLowerCase(Lower(s)) && Lower(Lower(s)) == Lower(s)
    ensures IsLowerCase(s) ==> Lower(s) == s
  {
  }

  lemma LowerAppend(a: string, b: string)
    ensures Lower(a + b) == Lower(a) + Lower(b)
  {
  }

  lemma LowerSlice(s: string, i: int, j: int)
    requires 0 <= i <= j <= |s|
    ensures Lower(s[i..j]) == Lower(s)[i..j]
  {
  }

  // ---------------------------------------------------------------------------
  // str.strip(): the characters Python counts as whitespace
  // ---------------------------------------------------------------------------

  predicate IsSpace(c: char) {
    || c == ' ' || c == '\t' || c == '\n' || c == '\r'
    || c == '\U{000B}' || c == '\U{000C}'
    || ('\U{001C}' <= c <= '\U{001F}')
    || c == '\U{0085}' || c == '\U{00A0}' || c == '\U{1680}'
    || ('\U{2000}' <= c <= '\U{200A}')
    || c == '\U{2028}' || c == '\U{2029}' || c == '\U{202F}' || c == '\U{205F}' || c == '\U{3000}'
  }

  /** Drops the leading whitespace: what is left is a suffix of `s` that is empty
      or starts with a non-space, and everything dropped is whitespace. */
  function StripStart(s: string): (r: string)
    ensures |r| <= |s| && r == s[|s| - |r|..]
    ensures r == [] || !IsSpace(r[0])
    ensures forall k | 0 <= k < |s| - |r| :: IsSpace(s[k])
  {
    if |s| > 0 && IsSpace(s[0]) then StripStart(s[1..]) else s
  }

  /** Drops the trailing whitespace, symmetrically. */
  function StripEnd(s: string): (r: string)
    ensures |r| <= |s| && r == s[..|r|]
    ensures r == [] || !IsSpace(r[|r| - 1])
    ensures forall k | |r| <= k < |s| :: IsSpace(s[k])
  {
    if |s| > 0 && IsSpace(s[|s| - 1]) then StripEnd(s[..|s| - 1]) else s
  }

  /** `s.strip()`: the longest infix of `s` with no whitespace at either end such
      that everything around it is whitespace. */
  function Strip(s: string): (r: string)
    ensures r == [] || (!IsSpace(r[0]) && !IsSpace(r[|r| - 1]))
    ensures exists i, j | 0 <= i <= j <= |s| ::
      (r == s[i..j] && (forall k | 0 <= k < i :: IsSpace(s[k])) && (forall k | j <= k < |s| :: IsSpace(s[k])))
  {
    var t := StripStart(s);
    var r := StripEnd(t);
    var i := |s| - |t|;
    assert r == s[i..i + |r|];
    r
  }

  lemma {:induction false} StripStartNoop(s: string)
    requires s == [] || !IsSpace(s[0])
    ensures StripStart(s) == s
  {
  }

  lemma {:induction false} StripEndNoop(s: string)
    requires s == [] || !IsSpace(s[|s| - 1])
    ensures StripEnd(s) == s
  {
  }

  /** Stripping twice is stripping once. */
  lemma StripIdempotent(s: string)
    ensures Strip(Strip(s)) == Strip(s)
  {
    var r := Strip(s);
    StripStartNoop(r);
    StripEndNoop(r);
  }

  // ---------------------------------------------------------------------------
  // `p in s` on strings
  // ---------------------------------------------------------------------------

  predicate IsPrefix(p: string, s: string) {
    |p| <= |s| && s[..|p|] == p
  }

  predicate IsInfix(p: string, s: string)
    decreases |s|
  {
    IsPrefix(p, s) || (|s| > 0 && IsInfix(p, s[1..]))
  }

  predicate OccursAt(p: string, s: string, i: int) {
    0 <= i <= |s| - |p| && s[i..i + |p|] == p
  }

  /** `IsInfix` is substring search: `p` occurs at some position of `s`. */
  lemma {:induction false} InfixAt(p: string, s: string)
    ensures IsInfix(p, s) <==> exists i :: OccursAt(p, s, i)
    decreases |s|
  {
    if IsPrefix(p, s) {
      assert OccursAt(p, s, 0);
    } else if |s| > 0 {
      InfixAt(p, s[1..]);
      if exists i :: OccursAt(p, s, i) {
        var i :| OccursAt(p, s, i);
        assert i != 0;
        assert OccursAt(p, s[1..], i - 1);
      }
      if IsInfix(p, s[1..]) {
        var i :| OccursAt(p, s[1..], i);
        assert OccursAt(p, s, i + 1);
      }
    } else {
      assert forall i :: !OccursAt(p, s, i);
    }
  }

  // ---------------------------------------------------------------------------
  // os.path.splitext (POSIX)
  // ---------------------------------------------------------------------------

  /** `s.rfind(c)`: the last position of `c` in `s`, or -1. */
  function LastIndex(s: string, c: char): (r: int)
    ensures -1 <= r < |s|
    ensures r >= 0 ==> s[r] == c
    ensures forall k | r < k < |s| :: s[k] != c
  {
    if s == [] then -1
    else if s[|s| - 1] == c then |s| - 1
    else LastIndex(s[..|s| - 1], c)
  }

  /** Some character strictly between positions `lo` and `hi` of `p` is not a dot. */
  predicate HasNonDot(p: string, lo: int, hi: int) {
    exists k | lo < k < hi && 0 <= k < |p| :: p[k] != '.'
  }

  /** The dot that starts the extension, if any: the last dot of the last path
      component, provided that some non-dot character precedes it within that
      component (leading dots, as in ".bashrc", do not start an extension). */
  function ExtensionDot(p: string): (r: int)
    ensures -1 <= r < |p|
    ensures r >= 0 ==> p[r] == '.' && LastIndex(p, '/') < r
  {
    var sep := LastIndex(p, '/');
    var dot := LastIndex(p, '.');
    if dot > sep && HasNonDot(p, sep, dot) then dot else -1
  }

  /** `os.path.splitext(p)`: the pair (root, ext) with root + ext == p. */
  function SplitExt(p: string): (r: (string, string))
    ensures r.0 + r.1 == p
    ensures r.1 == [] || (r.1[0] == '.' && forall k | 1 <= k < |r.1| :: r.1[k] != '.' && r.1[k] != '/')
  {
    var d := ExtensionDot(p);
    if d >= 0 then (p[..d], p[d..]) else (p, "")
  }

  /** A character that lower-casing neither produces nor changes. */
  predicate NotLetter(c: char) {
    !IsUpper(c) && !('a' <= c <= 'z')
  }

  lemma LowerCharIs(x: char, c: char)
    requires NotLetter(c)
    ensures LowerChar(x) == c <==> x == c
  {
  }

  lemma {:induction false} LastIndexLower(s: string, c: char)
    requires NotLetter(c)
    ensures LastIndex(Lower(s), c) == LastIndex(s, c)
    decreases |s|
  {
    if s != [] {
      assert Lower(s)[..|s| - 1] == Lower(s[..|s| - 1]);
      LowerCharIs(s[|s| - 1], c);
      LastIndexLower(s[..|s| - 1], c);
    }
  }

  lemma ExtensionDotLower(p: string)
    ensures ExtensionDot(Lower(p)) == ExtensionDot(p)
  {
    var q := Lower(p);
    LastIndexLower(p, '/');
    LastIndexLower(p, '.');
    var sep := LastIndex(p, '/');
    var dot := LastIndex(p, '.');
    if HasNonDot(p, sep, dot) {
      var k :| sep < k < dot && 0 <= k < |p| && p[k] != '.';
      LowerCharIs(p[k], '.');
      assert q[k] != '.';
    }
    if HasNonDot(q, sep, dot) {
      var k :| sep < k < dot && 0 <= k < |q| && q[k] != '.';
      LowerCharIs(p[k], '.');
      assert p[k] != '.';
    }
  }

  /** Lower-casing a name and then taking its extension is the same as
      lower-casing its extension: dots and slashes are not letters. */
  lemma SplitExtLower(p: string)
    ensures SplitExt(Lower(p)).1 == Lower(SplitExt(p).1)
  {
    ExtensionDotLower(p);
    var d := ExtensionDot(p);
    if d >= 0 {
      LowerSlice(p, d, |p|);
    }
  }

  lemma LastIndexAbsent(s: string, c: char)
    requires forall k | 0 <= k < |s| :: s[k] != c
    ensures LastIndex(s, c) == -1
  {
  }

  /** The last occurrence in a concatenation is in the right part if there is one there. */
  lemma {:induction false} LastIndexAppend(a: string, b: string, c: char)
    ensures LastIndex(a + b, c) == if LastIndex(b, c) >= 0 then |a| + LastIndex(b, c) else LastIndex(a, c)
    decreases |b|
  {
    if b == [] {
      assert a + b == a;
    } else {
      assert (a + b)[..|a + b| - 1] == a + b[..|b| - 1];
      LastIndexAppend(a, b[..|b| - 1], c);
    }
  }

  /** Giving a base name (no slash) that has a non-dot character one more
      extension makes that the extension, whatever the name already ends with. */
  lemma SplitExtAppend(name: string, e: string)
    requires forall k | 0 <= k < |name| :: name[k] != '/'
    requires exists k | 0 <= k < |name| :: name[k] != '.'
    requires forall k | 0 <= k < |e| :: e[k] != '.' && e[k] != '/'
    ensures SplitExt(name + "." + e) == (name, "." + e)
  {
    var p := name + "." + e;
    var tail := "." + e;
    assert p == name + tail;
    LastIndexAbsent(e, '.');
    LastIndexAppend(".", e, '.');
    assert LastIndex(tail, '.') == 0;
    LastIndexAppend(name, tail, '.');
    assert LastIndex(p, '.') == |name|;
    assert forall k | 0 <= k < |p| :: p[k] != '/';
    LastIndexAbsent(p, '/');
    var k :| 0 <= k < |name| && name[k] != '.';
    assert p[k] == name[k];
    assert HasNonDot(p, -1, |name|);
    assert p[..|name|] == name && p[|name|..] == tail;
  }
}
