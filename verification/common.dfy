/** Value wrappers and the Python string operations the backend relies on:
    `str.strip`, `str.startswith`/`endswith`, `find`/`rfind`, `in` on strings,
    `str.split()` (first word), slicing prefixes, `str(int)` and `sep.join`. */
module Common {

  datatype Option<+T> = None | Some(value: T)

  /** Failure-compatible result, so that `:-` can propagate a raised error. */
  datatype Result<+T, +E> = Ok(value: T) | Err(error: E) {
    predicate IsFailure() { Err? }
    function PropagateFailure<U>(): Result<U, E> requires Err? { Err(error) }
    function Extract(): T requires Ok? { value }
  }

  /** Python truthiness of an optional string: `None` and `""` are falsy. */
  predicate Present(s: Option<string>) {
    s.Some? && s.value != ""
  }

  /** `value or default` on an optional string. */
  function OrElse(s: Option<string>, default: string): (r: string)
    ensures Present(s) ==> r == s.value
    ensures !Present(s) ==> r == default
  {
    if Present(s) then s.value else default
  }

  // ---------------------------------------------------------------------------
  // Whitespace and strip

  /** The characters Python's `str.isspace()` accepts; `strip()` and `split()`
      with no argument treat exactly these as whitespace. */
  predicate IsSpace(c: char) {
    || ('\t' <= c <= '\r')
    || ('\U{1C}' <= c <= ' ')
    || c == '\U{85}' || c == '\U{A0}' || c == '\U{1680}'
    || ('\U{2000}' <= c <= '\U{200A}')
    || c == '\U{2028}' || c == '\U{2029}' || c == '\U{202F}' || c == '\U{205F}' || c == '\U{3000}'
  }

  predicate AllSpace(s: string) {
    forall i :: 0 <= i < |s| ==> IsSpace(s[i])
  }

  /** Neither the first nor the last character is whitespace. */
  predicate NoOuterSpace(s: string) {
    |s| > 0 ==> !IsSpace(s[0]) && !IsSpace(s[|s| - 1])
  }

  function LeadingSpaces(s: string): (n: nat)
    ensures n <= |s|
    ensures forall i :: 0 <= i < n ==> IsSpace(s[i])
    ensures n < |s| ==> !IsSpace(s[n])
  {
    if s == [] || !IsSpace(s[0]) then 0 else 1 + LeadingSpaces(s[1..])
  }

  function TrailingSpaces(s: string): (n: nat)
    ensures n <= |s|
    ensures forall i :: |s| - n <= i < |s| ==> IsSpace(s[i])
    ensures n < |s| ==> !IsSpace(s[|s| - 1 - n])
  {
    if s == [] || !IsSpace(s[|s| - 1]) then 0 else 1 + TrailingSpaces(s[..|s| - 1])
  }

  /** Python's `s.strip()`. */
  function Strip(s: string): (r: string)
    ensures NoOuterSpace(r)
    ensures |r| <= |s|
  {
    var t := s[LeadingSpaces(s)..];
    t[..|t| - TrailingSpaces(t)]
  }

  lemma StripKeepsTrimmed(s: string)
    requires NoOuterSpace(s)
    ensures Strip(s) == s
  {
    assert LeadingSpaces(s) == 0;
    assert s[0..] == s;
    assert TrailingSpaces(s) == 0;
  }

  lemma {:induction false} LeadingAfterSpaces(w: string, x: string)
    requires AllSpace(w)
    ensures LeadingSpaces(w + x) == |w| + LeadingSpaces(x)
  {
    if w == [] {
      assert w + x == x;
    } else {
      assert (w + x)[1..] == w[1..] + x;
      LeadingAfterSpaces(w[1..], x);
    }
  }

  lemma {:induction false} TrailingBeforeSpaces(x: string, w: string)
    requires AllSpace(w)
    ensures TrailingSpaces(x + w) == TrailingSpaces(x) + |w|
  {
    if w == [] {
      assert x + w == x;
    } else {
      assert (x + w)[..|x + w| - 1] == x + w[..|w| - 1];
      TrailingBeforeSpaces(x, w[..|w| - 1]);
    }
  }

  /** Whitespace on either side of a trimmed text is exactly what strip removes. */
  lemma StripSurrounded(w1: string, b: string, w2: string)
    requires AllSpace(w1) && AllSpace(w2) && NoOuterSpace(b)
    ensures Strip(w1 + b + w2) == b
  {
    var s := w1 + b + w2;
    assert s == w1 + (b + w2);
    LeadingAfterSpaces(w1, b + w2);
    if b == [] {
      assert b + w2 == w2;
      LeadingAfterSpaces(w2, []);
      assert w2 + [] == w2;
    } else {
      assert LeadingSpaces(b + w2) == 0;
      var t := s[|w1|..];
      assert t == b + w2;
      TrailingBeforeSpaces(b, w2);
      assert TrailingSpaces(b) == 0;
      assert t[..|t| - |w2|] == b;
    }
  }

  // ---------------------------------------------------------------------------
  // Prefix / suffix / search

  predicate StartsWith(s: string, p: string) {
    |p| <= |s| && s[..|p|] == p
  }

  predicate EndsWith(s: string, p: string) {
    |p| <= |s| && s[|s| - |p|..] == p
  }

  /** Python's `p in s` for two strings. */
  predicate ContainsSub(s: string, p: string)
    decreases |s|
  {
    StartsWith(s, p) || (s != [] && ContainsSub(s[1..], p))
  }

  lemma {:induction false} ContainsSubAt(s: string, p: string, k: nat)
    requires OccursAt(s, p, k)
    ensures ContainsSub(s, p)
    decreases k
  {
    if k == 0 {
      assert s[..|p|] == s[0..|p|];
    } else {
      assert s[1..][k - 1..k - 1 + |p|] == s[k..k + |p|];
      ContainsSubAt(s[1..], p, k - 1);
    }
  }

  /** Python's `s.find(c)`, with `None` for -1. */
  function FindChar(s: string, c: char): (r: Option<nat>)
    ensures r.Some? ==> r.value < |s| && s[r.value] == c
    ensures r.Some? ==> forall i :: 0 <= i < r.value ==> s[i] != c
    ensures r.None? ==> forall i :: 0 <= i < |s| ==> s[i] != c
  {
    if s == [] then None
    else if s[0] == c then Some(0)
    else match FindChar(s[1..], c)
      case None => None
      case Some(k) => Some(k + 1)
  }

  /** Python's `s.rfind(c)`, with `None` for -1. */
  function RFindChar(s: string, c: char): (r: Option<nat>)
    ensures r.Some? ==> r.value < |s| && s[r.value] == c
    ensures r.Some? ==> forall i :: r.value < i < |s| ==> s[i] != c
    ensures r.None? ==> forall i :: 0 <= i < |s| ==> s[i] != c
  {
    if s == [] then None
    else if s[|s| - 1] == c then Some(|s| - 1)
    else RFindChar(s[..|s| - 1], c)
  }

  /** `p` occurs in `s` starting at index `k`. */
  predicate OccursAt(s: string, p: string, k: nat) {
    k + |p| <= |s| && s[k..k + |p|] == p
  }

  /** Start of the last occurrence of `p` in `s`. */
  function LastIndexOf(s: string, p: string): (r: Option<nat>)
    ensures r.Some? ==> OccursAt(s, p, r.value)
    ensures r.Some? ==> forall k: nat :: r.value < k ==> !OccursAt(s, p, k)
    ensures r.None? ==> forall k: nat :: !OccursAt(s, p, k)
    decreases |s|
  {
    if |s| < |p| then None
    else if s[|s| - |p|..] == p then Some(|s| - |p|)
    else
      var r := LastIndexOf(s[..|s| - 1], p);
      assert forall k: nat :: OccursAt(s, p, k) ==> OccursAt(s[..|s| - 1], p, k) by {
        forall k: nat | OccursAt(s, p, k) ensures OccursAt(s[..|s| - 1], p, k) {
          assert k + |p| != |s|;
          assert s[..|s| - 1][k..k + |p|] == s[k..k + |p|];
        }
      }
      r
  }

  /** Python's `s.split()[0]`: the first maximal run of non-whitespace
      characters; `None` where the source would raise IndexError. */
  function FirstWord(s: string): (r: Option<string>)
    ensures r.None? <==> AllSpace(s)
    ensures r.Some? ==> r.value != [] && forall i :: 0 <= i < |r.value| ==> !IsSpace(r.value[i])
    ensures r.Some? ==> StartsWith(s[LeadingSpaces(s)..], r.value)
  {
    var t := s[LeadingSpaces(s)..];
    if t == [] then None else Some(t[..WordLength(t)])
  }

  function WordLength(t: string): (n: nat)
    ensures n <= |t|
    ensures forall i :: 0 <= i < n ==> !IsSpace(t[i])
    ensures n < |t| ==> IsSpace(t[n])
    ensures t != [] && !IsSpace(t[0]) ==> n > 0
  {
    if t == [] || IsSpace(t[0]) then 0 else 1 + WordLength(t[1..])
  }

  /** Python's `s[:n]` for `n >= 0`. */
  function Take<T>(s: seq<T>, n: nat): (r: seq<T>)
    ensures |r| == if |s| < n then |s| else n
    ensures r == s[..|r|]
  {
    if |s| <= n then s else s[..n]
  }

  /** ASCII lower-casing (the part of `str.lower()` the heuristics depend on). */
  function LowerAscii(s: string): (r: string)
    ensures |r| == |s|
  {
    seq(|s|, i requires 0 <= i < |s| => if 'A' <= s[i] <= 'Z' then (s[i] as int + 32) as char else s[i])
  }

  // ---------------------------------------------------------------------------
  // Formatting

  function DigitChar(d: nat): (c: char)
    requires d < 10
    ensures '0' <= c <= '9'
  {
    "0123456789"[d]
  }

  function NatToString(n: nat): (r: string)
    ensures |r| >= 1
    ensures forall i :: 0 <= i < |r| ==> '0' <= r[i] <= '9'
  {
    if n < 10 then [DigitChar(n)] else NatToString(n / 10) + [DigitChar(n % 10)]
  }

  /** Python's `str(n)` for an integer. */
  function IntToString(n: int): (r: string)
    ensures |r| >= 1
  {
    if n < 0 then "-" + NatToString(-n) else NatToString(n)
  }

  /** `sep.join(parts)`. */
  function Join(parts: seq<string>, sep: string): string
  {
    if parts == [] then ""
    else if |parts| == 1 then parts[0]
    else Join(parts[..|parts| - 1], sep) + sep + parts[|parts| - 1]
  }

  /** `"".join(parts)`. */
  function Concat(parts: seq<string>): (r: string)
  {
    if parts == [] then "" else Concat(parts[..|parts| - 1]) + parts[|parts| - 1]
  }

  lemma {:induction false} ConcatAppend(a: seq<string>, b: seq<string>)
    ensures Concat(a + b) == Concat(a) + Concat(b)
    decreases |b|
  {
    if b == [] {
      assert a + b == a;
    } else {
      assert (a + b)[..|a + b| - 1] == a + b[..|b| - 1];
      ConcatAppend(a, b[..|b| - 1]);
    }
  }
}
