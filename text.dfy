/** The JavaScript string operations the core uses: `includes`, `indexOf`,
    `toLowerCase`, `trim`, `split(sep)[1]`, `replace(c, '')` and the decimal
    rendering of a number inside a template literal. */
module Text {
  import opened Wrappers

  /** `t` occurs in `s` starting at index `i`. */
  predicate OccursAt(s: string, t: string, i: nat) {
    i + |t| <= |s| && s[i..i + |t|] == t
  }

  /** The first index at or after `from` where `t` occurs in `s`. */
  function IndexFrom(s: string, t: string, from: nat): (r: Option<nat>)
    requires from <= |s|
    ensures r.Some? ==> from <= r.value && OccursAt(s, t, r.value)
    ensures r.Some? ==> forall j :: from <= j < r.value ==> !OccursAt(s, t, j)
    ensures r.None? ==> forall j :: from <= j <= |s| ==> !OccursAt(s, t, j)
    decreases |s| - from
  {
    if OccursAt(s, t, from) then Some(from)
    else if from == |s| then None
    else IndexFrom(s, t, from + 1)
  }

  /** `s.indexOf(t)`, with `None` for -1. */
  function IndexOf(s: string, t: string): (r: Option<nat>)
    ensures r.Some? ==> OccursAt(s, t, r.value)
    ensures r.Some? ==> forall j :: 0 <= j < r.value ==> !OccursAt(s, t, j)
    ensures r.None? ==> forall j :: 0 <= j <= |s| ==> !OccursAt(s, t, j)
  {
    IndexFrom(s, t, 0)
  }

  /** `s.includes(t)`. */
  predicate Contains(s: string, t: string) {
    IndexOf(s, t).Some?
  }

  lemma ContainsIff(s: string, t: string)
    ensures Contains(s, t) <==> exists i :: 0 <= i <= |s| && OccursAt(s, t, i)
  {
    if Contains(s, t) {
      assert OccursAt(s, t, IndexOf(s, t).value);
    }
  }

  /** Every string contains the empty string. */
  lemma ContainsEmpty(s: string)
    ensures Contains(s, "")
  {
    assert OccursAt(s, "", 0);
  }

  /** An occurrence of `t` starts with `t`'s first character. */
  lemma OccursAtHead(s: string, t: string, i: nat)
    requires |t| > 0 && OccursAt(s, t, i)
    ensures s[i] == t[0]
  {
    assert s[i..i + |t|][0] == t[0];
  }

  /** When the first character of `t` does not occur in `p`, the first
      occurrence of `t` in `p + t + u` is right after `p`. */
  lemma IndexOfAfterPrefix(p: string, t: string, u: string)
    requires |t| > 0 && t[0] !in p
    ensures IndexOf(p + t + u, t) == Some(|p|)
  {
    var s := p + t + u;
    assert s[|p|..|p| + |t|] == t;
    assert OccursAt(s, t, |p|);
    var r := IndexOf(s, t);
    forall j | 0 <= j < |p| ensures !OccursAt(s, t, j) {
      if OccursAt(s, t, j) {
        OccursAtHead(s, t, j);
        assert false;
      }
    }
  }

  /** A string without `t`'s first character does not contain `t`. */
  lemma NotContainsWithoutHead(s: string, t: string)
    requires |t| > 0 && t[0] !in s
    ensures !Contains(s, t)
  {
    if Contains(s, t) {
      OccursAtHead(s, t, IndexOf(s, t).value);
      assert false;
    }
  }

  /** `p + t + u` contains `t`. */
  lemma ContainsInfix(p: string, t: string, u: string)
    ensures Contains(p + t + u, t)
  {
    var s := p + t + u;
    assert s[|p|..|p| + |t|] == t;
    assert OccursAt(s, t, |p|);
    ContainsIff(s, t);
  }

  /** ASCII lower-casing of one character. */
  function LowerChar(c: char): (r: char)
    ensures 'A' <= c <= 'Z' ==> r as int == c as int + 32
    ensures !('A' <= c <= 'Z') ==> r == c
  {
    if 'A' <= c <= 'Z' then (c as int + 32) as char else c
  }

  /** `s.toLowerCase()`, on ASCII letters. */
  function ToLower(s: string): (r: string)
    ensures |r| == |s|
    ensures forall i :: 0 <= i < |s| ==> r[i] == LowerChar(s[i])
  {
    seq(|s|, i requires 0 <= i < |s| => LowerChar(s[i]))
  }

  /** A string without capital letters is its own lower-case form. */
  lemma ToLowerWithoutCapitals(s: string)
    requires forall i :: 0 <= i < |s| ==> !('A' <= s[i] <= 'Z')
    ensures ToLower(s) == s
  {
  }

  /** `s` without the run of `c` characters at its end. */
  function TrimEndChar(s: string, c: char): (r: string)
    ensures |r| <= |s| && r == s[..|r|]
    ensures r != [] ==> r[|r| - 1] != c
    ensures forall i :: |r| <= i < |s| ==> s[i] == c
  {
    if s != [] && s[|s| - 1] == c then TrimEndChar(s[..|s| - 1], c) else s
  }

  /** The characters JavaScript's `trim` strips. */
  predicate IsWhitespace(c: char) {
    c == ' ' || c == '\t' || c == '\n' || c == '\r' || c == '\U{000B}' || c == '\U{000C}'
    || c == '\U{00A0}' || c == '\U{FEFF}' || c == '\U{2028}' || c == '\U{2029}'
  }

  predicate IsBlank(s: string) {
    forall i :: 0 <= i < |s| ==> IsWhitespace(s[i])
  }

  function TrimStart(s: string): (r: string)
    ensures |r| <= |s| && r == s[|s| - |r|..]
    ensures r != [] ==> !IsWhitespace(r[0])
    ensures IsBlank(s[..|s| - |r|])
  {
    if s != [] && IsWhitespace(s[0]) then
      var r := TrimStart(s[1..]);
      assert s[..|s| - |r|] == [s[0]] + s[1..][..|s[1..]| - |r|];
      r
    else s
  }

  function TrimEnd(s: string): (r: string)
    ensures |r| <= |s| && r == s[..|r|]
    ensures r != [] ==> !IsWhitespace(r[|r| - 1])
    ensures IsBlank(s[|r|..])
  {
    if s != [] && IsWhitespace(s[|s| - 1]) then
      var r := TrimEnd(s[..|s| - 1]);
      assert s[|r|..] == s[..|s| - 1][|r|..] + [s[|s| - 1]];
      r
    else s
  }

  /** `s.trim()`. */
  function Trim(s: string): string {
    TrimEnd(TrimStart(s))
  }

  /** The source's guards `if (q.trim())`: the trimmed string is falsy
      exactly when every character is whitespace. */
  lemma TrimEmptyIffBlank(s: string)
    ensures Trim(s) == "" <==> IsBlank(s)
  {
    var a := TrimStart(s);
    if Trim(s) == "" {
      assert IsBlank(a[0..]);
      assert a == [];
      assert s[..|s| - |a|] == s;
    } else {
      var r := Trim(s);
      assert r[0] == a[0];
      assert a[0] == s[|s| - |a|];
      assert !IsWhitespace(s[|s| - |a|]);
    }
  }

  /** The decimal digit for `d`. */
  function Digit(d: nat): (c: char)
    requires d < 10
    ensures '0' <= c <= '9'
  {
    (d + '0' as int) as char
  }

  /** The number a string of decimal digits spells, most significant first. */
  function DigitsValue(s: string): nat
    requires forall i :: 0 <= i < |s| ==> '0' <= s[i] <= '9'
  {
    if s == [] then 0 else DigitsValue(s[..|s| - 1]) * 10 + (s[|s| - 1] as int - '0' as int)
  }

  /** A natural number as a template literal renders it: decimal, without
      leading zeros. */
  function Decimal(n: nat): (r: string)
    ensures |r| >= 1
    ensures |r| == 1 <==> n < 10
    ensures forall i :: 0 <= i < |r| ==> '0' <= r[i] <= '9'
  {
    if n < 10 then [Digit(n)] else Decimal(n / 10) + [Digit(n % 10)]
  }

  /** The rendering spells `n` in base ten, and starts with '0' only for 0. */
  lemma {:induction false} DecimalValue(n: nat)
    ensures DigitsValue(Decimal(n)) == n
    ensures Decimal(n)[0] == '0' ==> n == 0
  {
    if n >= 10 {
      var d := Decimal(n);
      DecimalValue(n / 10);
      assert d[..|d| - 1] == Decimal(n / 10);
      assert d[0] == Decimal(n / 10)[0];
    }
  }

  /** Distinct numbers render as distinct strings. */
  lemma {:induction false} DecimalInjective(a: nat, b: nat)
    requires Decimal(a) == Decimal(b)
    ensures a == b
  {
    if a >= 10 && b >= 10 {
      var da, db := Decimal(a), Decimal(b);
      assert da[..|da| - 1] == Decimal(a / 10);
      assert db[..|db| - 1] == Decimal(b / 10);
      DecimalInjective(a / 10, b / 10);
      assert da[|da| - 1] == Digit(a % 10);
      assert db[|db| - 1] == Digit(b % 10);
    }
  }

  /** `r` is `s` with the character at `k` taken out, and that character is
      the first `c` of `s`. */
  predicate RemovedAt(s: string, c: char, k: nat, r: string) {
    k < |s| && s[k] == c && c !in s[..k] && r == s[..k] + s[k + 1..]
  }

  /** `s.replace(c, '')` for a one-character pattern: the first occurrence of
      `c` is removed. */
  function RemoveFirst(s: string, c: char): (r: string)
    ensures c !in s ==> r == s
    ensures c in s ==> exists k: nat :: RemovedAt(s, c, k, r)
  {
    if s == [] then []
    else if s[0] == c then
      assert RemovedAt(s, c, 0, s[1..]);
      s[1..]
    else
      var t := RemoveFirst(s[1..], c);
      RemoveFirstStep(s, c, t);
      [s[0]] + t
  }

  /** The step of `RemoveFirst` past a first character other than `c`: a
      removal position in the tail is one in the whole string, one further on. */
  lemma RemoveFirstStep(s: string, c: char, t: string)
    requires s != [] && s[0] != c
    requires c in s[1..] ==> exists k: nat :: RemovedAt(s[1..], c, k, t)
    ensures c in s ==> exists k: nat :: RemovedAt(s, c, k, [s[0]] + t)
  {
    if c in s {
      assert s == [s[0]] + s[1..];
      var k: nat :| RemovedAt(s[1..], c, k, t);
      RemovedAtCons(s, c, k, t);
    }
  }

  lemma RemovedAtCons(s: string, c: char, k: nat, t: string)
    requires s != [] && s[0] != c && RemovedAt(s[1..], c, k, t)
    ensures RemovedAt(s, c, k + 1, [s[0]] + t)
  {
    var u := s[1..];
    assert s[..k + 1] == [s[0]] + u[..k];
    assert s[k + 2..] == u[k + 1..];
  }

  /** With no `c` before it, the `c` after `a` is the one removed. */
  lemma RemoveFirstAfter(a: string, c: char, b: string)
    requires c !in a
    ensures RemoveFirst(a + [c] + b, c) == a + b
  {
    var s := a + [c] + b;
    assert s[|a|] == c;
    assert c in s;
    var r := RemoveFirst(s, c);
    var k: nat :| RemovedAt(s, c, k, r);
    assert k == |a|;
    assert s[..|a|] == a && s[|a| + 1..] == b;
  }

  /** `s.split(sep)[1]`: the text between the first and the second
      occurrence of `sep` (or to the end). The callers check `includes`
      first; without an occurrence the source's `[1]` is undefined. */
  function SecondPiece(s: string, sep: string): (r: string)
    requires Contains(s, sep)
    ensures var i := IndexOf(s, sep).value + |sep|;
      && i + |r| <= |s| && r == s[i..i + |r|]
      && (forall k :: i <= k < i + |r| ==> !OccursAt(s, sep, k))
      && (i + |r| == |s| || OccursAt(s, sep, i + |r|))
  {
    var i := IndexOf(s, sep).value;
    var rest := s[i + |sep|..];
    OccursAtShift(s, sep, i + |sep|);
    match IndexOf(rest, sep)
    case Some(j) => rest[..j]
    case None => rest
  }

  /** An occurrence in a suffix is an occurrence in the whole string,
      shifted by where the suffix starts. */
  lemma OccursAtShift(s: string, t: string, off: nat)
    requires off <= |s|
    ensures forall k: nat :: off <= k ==> (OccursAt(s[off..], t, k - off) <==> OccursAt(s, t, k))
  {
    forall k: nat | off <= k ensures OccursAt(s[off..], t, k - off) <==> OccursAt(s, t, k) {
      if k + |t| <= |s| {
        assert s[off..][k - off..k - off + |t|] == s[k..k + |t|];
      }
    }
  }
}
