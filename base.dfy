/** JavaScript value helpers shared by every module of the model:
    optional values, thrown errors, `Math.round`, truthiness and the few
    string operations the source relies on. */
module Base {

  /** `undefined`/`null` versus a present value. */
  datatype Option<+T> = None | Some(value: T)

  /** A completed computation, or the exception it threw. */
  datatype Result<+T, +E> = Ok(value: T) | Err(error: E)

  /** The only exception the formatters can raise: a property read on `undefined`. */
  datatype JsError = TypeError

  function Min(a: int, b: int): int { if a <= b then a else b }

  /** `Math.round`: the nearest integer, ties toward +infinity. */
  function Round(x: real): (n: int)
    ensures n as real - 0.5 <= x < n as real + 0.5
  {
    (x + 0.5).Floor
  }

  /** The characterisation of `Round` is unique: exactly one integer lies in the window. */
  lemma RoundUnique(x: real, n: int)
    requires n as real - 0.5 <= x < n as real + 0.5
    ensures Round(x) == n
  {
  }

  /** Ties go toward +infinity: 24.5 rounds to 25 and -2.5 to -2. */
  lemma RoundTies()
    ensures Round(24.5) == 25 && Round(-2.5) == -2 && Round(24.4) == 24
  {
    RoundUnique(24.5, 25);
    RoundUnique(-2.5, -2);
    RoundUnique(24.4, 24);
  }

  /** Rounding an integer gives it back. */
  lemma RoundOfInteger(n: int)
    ensures Round(n as real) == n
  {
    RoundUnique(n as real, n);
  }

  /** `Math.min(hi, Math.max(lo, x))`. */
  function Clamp(x: int, lo: int, hi: int): (r: int)
    requires lo <= hi
    ensures lo <= r <= hi
    ensures lo <= x <= hi ==> r == x
    ensures x < lo ==> r == lo
    ensures x > hi ==> r == hi
  {
    if x < lo then lo else if x > hi then hi else x
  }

  /** A JavaScript number is truthy unless it is absent or zero (NaN is not modelled). */
  predicate NumTruthy(o: Option<real>) { o.Some? && o.value != 0.0 }

  /** A JavaScript string is truthy unless it is absent or empty. */
  predicate StrTruthy(o: Option<string>) { o.Some? && o.value != "" }

  /** `a || fallback` on an optional string. */
  function StrOr(a: Option<string>, fallback: string): (r: string)
    ensures StrTruthy(a) ==> r == a.value
    ensures !StrTruthy(a) ==> r == fallback
  {
    if StrTruthy(a) then a.value else fallback
  }

  /** `a || fallback` on an optional number. */
  function NumOr(a: Option<real>, fallback: real): (r: real)
    ensures NumTruthy(a) ==> r == a.value
    ensures !NumTruthy(a) ==> r == fallback
  {
    if NumTruthy(a) then a.value else fallback
  }

  predicate IsUpper(c: char) { 'A' <= c <= 'Z' }

  /** Lower-casing one character: an upper-case ASCII letter becomes the
      letter 32 code points above it, every other character stays. */
  function LowerChar(c: char): (r: char)
    ensures !IsUpper(r)
    ensures !IsUpper(c) ==> r == c
    ensures IsUpper(c) ==> 'a' <= r <= 'z' && r as int - c as int == 'a' as int - 'A' as int
  {
    if IsUpper(c) then (c as int + 32) as char else c
  }

  /** `String.prototype.toLowerCase`, restricted to ASCII letters: the same
      length, no upper-case letter left, every other character in place. */
  function ToLower(s: string): (r: string)
    ensures |r| == |s|
    ensures forall i :: 0 <= i < |r| ==> !IsUpper(r[i])
    ensures forall i :: 0 <= i < |s| && !IsUpper(s[i]) ==> r[i] == s[i]
    ensures forall i :: 0 <= i < |s| && IsUpper(s[i]) ==> r[i] == (s[i] as int + 32) as char
  {
    seq(|s|, i requires 0 <= i < |s| => LowerChar(s[i]))
  }

  /** Lower-casing twice is lower-casing once. */
  lemma ToLowerIdempotent(s: string)
    ensures ToLower(ToLower(s)) == ToLower(s)
  {
    var r := ToLower(s);
    assert forall i :: 0 <= i < |r| ==> ToLower(r)[i] == r[i];
  }

  /** `s.includes(t)`: `t` occurs in `s` at some position. */
  predicate Contains(s: string, t: string)
    decreases |s|
  {
    t <= s || (|s| > 0 && Contains(s[1..], t))
  }

  /** `t` occurs in `s` starting at index `i`. */
  predicate OccursAt(s: string, t: string, i: int)
  {
    0 <= i <= |s| - |t| && s[i..i + |t|] == t
  }

  /** An occurrence at a position is found by `Contains`. */
  lemma {:induction false} OccursImpliesContains(s: string, t: string, i: int)
    requires OccursAt(s, t, i)
    ensures Contains(s, t)
    decreases i
  {
    if i == 0 {
      assert t <= s;
    } else {
      assert OccursAt(s[1..], t, i - 1);
      OccursImpliesContains(s[1..], t, i - 1);
    }
  }

  /** `Contains` finds an actual occurrence, returned as its position. */
  lemma {:induction false} ContainsImpliesOccurs(s: string, t: string) returns (i: int)
    requires Contains(s, t)
    ensures OccursAt(s, t, i)
    decreases |s|
  {
    if t <= s {
      i := 0;
    } else {
      var j := ContainsImpliesOccurs(s[1..], t);
      i := j + 1;
      assert s[i..i + |t|] == s[1..][j..j + |t|];
    }
  }

  /** `Contains` agrees with the positional definition of a substring. */
  lemma ContainsAt(s: string, t: string)
    ensures Contains(s, t) <==> exists i :: OccursAt(s, t, i)
  {
    if Contains(s, t) {
      var i := ContainsImpliesOccurs(s, t);
    }
    if exists i :: OccursAt(s, t, i) {
      var i :| OccursAt(s, t, i);
      OccursImpliesContains(s, t, i);
    }
  }

  /** `Array.prototype.slice(0, n)`. */
  function Take<T>(s: seq<T>, n: nat): (r: seq<T>)
    ensures |r| == Min(n, |s|)
    ensures forall k :: 0 <= k < |r| ==> r[k] == s[k]
  {
    if |s| <= n then s else s[..n]
  }

  /** A prefix of length `n` is what `Take` returns. */
  lemma TakeOfPrefix<T>(p: seq<T>, s: seq<T>, n: nat)
    requires p <= s && |p| == n
    ensures Take(s, n) == p
  {
  }
}
