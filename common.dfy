/**
 * Shared vocabulary of the model: optional values and results, the
 * JavaScript truthiness of an optional string, decimal rendering of
 * integers (`String(n)`), and plain JavaScript objects as ordered records
 * whose keys are distinct and keep their insertion order (the order
 * `Object.keys` and `Object.entries` report).
 */
module Common {

  datatype Option<+T> = None | Some(value: T) {
    function GetOr(fallback: T): T {
      match this
      case Some(v) => v
      case None => fallback
    }
  }

  datatype Result<+T, +E> = Ok(value: T) | Err(error: E)

  datatype Outcome<+E> = Pass | Fail(error: E)

  /** `if (s)` on a `string | undefined`: absent and the empty string are falsy. */
  predicate Truthy(s: Option<string>) {
    s.Some? && s.value != ""
  }

  // ---------------------------------------------------------------------
  // String(n) for an integer n

  function DigitChar(d: nat): (c: char)
    requires d < 10
    ensures '0' <= c <= '9'
    ensures DigitValue(c) == d
  {
    "0123456789"[d]
  }

  /** The value of a decimal digit. */
  function DigitValue(c: char): nat {
    if '0' <= c <= '9' then c as int - '0' as int else 0
  }

  /** The number a string of decimal digits denotes, most significant digit first. */
  function DigitsValue(s: string): nat {
    if s == [] then 0 else DigitsValue(s[..|s| - 1]) * 10 + DigitValue(s[|s| - 1])
  }

  /** The decimal digits of `n`: they denote `n`, with no leading zero. */
  function NatDigits(n: nat): (s: string)
    ensures |s| >= 1
    ensures forall i :: 0 <= i < |s| ==> '0' <= s[i] <= '9'
    ensures DigitsValue(s) == n
    ensures s[0] == '0' ==> n == 0
    decreases n
  {
    if n < 10 then
      var s := [DigitChar(n)];
      assert s[..0] == [];
      s
    else
      var front := NatDigits(n / 10);
      var s := front + [DigitChar(n % 10)];
      assert s[..|s| - 1] == front;
      s
  }

  /**
   * The decimal text JavaScript's `String(n)` gives an integer: the digits of
   * `|n|` without leading zeros, after a `-` when `n` is negative.
   */
  function DecimalString(n: int): (s: string)
    ensures |s| >= 1
    ensures n >= 0 ==> forall i :: 0 <= i < |s| ==> '0' <= s[i] <= '9'
    ensures n < 0 ==> s[0] == '-'
  {
    if n < 0 then "-" + NatDigits(-n) else NatDigits(n)
  }

  /**
   * `String(n)` is the decimal numeral of `n`: the digits denote `|n|`, with
   * no leading zero except in `"0"`, after a `-` exactly when `n < 0`.
   */
  lemma DecimalStringDenotes(n: int)
    ensures var s := DecimalString(n);
      && (n >= 0 ==> DigitsValue(s) == n && (s[0] == '0' ==> n == 0))
      && (n < 0 ==> |s| >= 2 && s[0] == '-' && s[1] != '0'
                    && (forall i :: 1 <= i < |s| ==> '0' <= s[i] <= '9') && DigitsValue(s[1..]) == -n)
  {
    if n < 0 {
      var digits := NatDigits(-n);
      assert DecimalString(n)[1..] == digits;
    }
  }

  // ---------------------------------------------------------------------
  // Plain objects: the keys in insertion order, and the value of each key

  /** No key occurs twice. */
  predicate Distinct(ks: seq<string>) {
    ks == [] || (ks[0] !in ks[1..] && Distinct(ks[1..]))
  }

  /** Appending a key that is not yet there keeps the keys distinct. */
  lemma {:induction false} DistinctAppend(ks: seq<string>, k: string)
    requires Distinct(ks) && k !in ks
    ensures Distinct(ks + [k])
  {
    if ks != [] {
      assert (ks + [k])[1..] == ks[1..] + [k];
      DistinctAppend(ks[1..], k);
    }
  }

  /** In distinct keys, no key occurs before its own position. */
  lemma {:induction false} DistinctAt(ks: seq<string>, i: nat)
    requires Distinct(ks) && i < |ks|
    ensures ks[i] !in ks[..i]
  {
    if i > 0 {
      DistinctAt(ks[1..], i - 1);
      assert ks[..i] == [ks[0]] + ks[1..][..i - 1];
      assert ks[i] in ks[1..];
    }
  }

  /** In distinct keys, entries at two positions differ. */
  lemma DistinctIndex(ks: seq<string>, i: nat, j: nat)
    requires Distinct(ks) && i < |ks| && j < |ks| && i != j
    ensures ks[i] != ks[j]
  {
    if i < j {
      DistinctAt(ks, j);
      assert ks[..j][i] == ks[i];
    } else {
      DistinctAt(ks, i);
      assert ks[..i][j] == ks[j];
    }
  }

  /** The representation of a plain object: `Object.keys` order and the values. */
  datatype Dict<V> = Dict(keys: seq<string>, values: map<string, V>)

  /** The set of keys a key list holds. */
  function Elems(ks: seq<string>): set<string> {
    if ks == [] then {} else {ks[0]} + Elems(ks[1..])
  }

  lemma {:induction false} ElemsIn(ks: seq<string>, k: string)
    ensures k in Elems(ks) <==> k in ks
  {
    if ks != [] {
      ElemsIn(ks[1..], k);
    }
  }

  lemma {:induction false} ElemsAppend(ks: seq<string>, k: string)
    ensures Elems(ks + [k]) == Elems(ks) + {k}
  {
    if ks != [] {
      assert (ks + [k])[1..] == ks[1..] + [k];
      ElemsAppend(ks[1..], k);
    }
  }

  /** A JavaScript object used as a dictionary: each key once, each with a value. */
  type Record<V> = r: Dict<V> | Distinct(r.keys) && r.values.Keys == Elems(r.keys)
    witness Dict([], map[])

  /** `{}`. */
  function Empty<V>(): (r: Record<V>)
    ensures r.keys == []
  {
    Dict([], map[])
  }

  /** `Object.keys(r)`. */
  function Keys<V>(r: Record<V>): (ks: seq<string>)
    ensures Distinct(ks)
  {
    r.keys
  }

  /** `r[k]`, with `None` for a key the object does not have. */
  function Lookup<V>(r: Record<V>, k: string): (o: Option<V>)
    ensures o.Some? <==> k in Keys(r)
  {
    ElemsIn(r.keys, k);
    if k in r.values then Some(r.values[k]) else None
  }

  /** `r[k] = v`: an existing key keeps its place, a new key goes last. */
  function Assign<V>(r: Record<V>, k: string, v: V): (r': Record<V>)
    ensures Lookup(r', k) == Some(v)
    ensures forall k' :: k' != k ==> Lookup(r', k') == Lookup(r, k')
    ensures Keys(r') == if k in Keys(r) then Keys(r) else Keys(r) + [k]
  {
    ElemsIn(r.keys, k);
    if k in r.keys then Dict(r.keys, r.values[k := v])
    else
      ElemsAppend(r.keys, k);
      DistinctAppend(r.keys, k);
      Dict(r.keys + [k], r.values[k := v])
  }

  /** `s` with every occurrence of `x` taken out, the rest in order. */
  function Without(s: seq<string>, x: string): (r: seq<string>)
    ensures forall y :: y in r <==> y in s && y != x
    ensures Distinct(s) ==> Distinct(r)
  {
    if s == [] then []
    else if s[0] == x then Without(s[1..], x)
    else
      var tail := Without(s[1..], x);
      assert ([s[0]] + tail)[1..] == tail;
      [s[0]] + tail
  }

  /** `delete r[k]`: the other entries keep their order. */
  function Remove<V>(r: Record<V>, k: string): (r': Record<V>)
    ensures Lookup(r', k) == None
    ensures forall k' :: k' != k ==> Lookup(r', k') == Lookup(r, k')
    ensures Keys(r') == Without(Keys(r), k)
  {
    ElemsWithout(r.keys, k);
    Dict(Without(r.keys, k), r.values - {k})
  }

  lemma {:induction false} ElemsWithout(s: seq<string>, x: string)
    ensures Elems(Without(s, x)) == Elems(s) - {x}
  {
    if s != [] {
      ElemsWithout(s[1..], x);
    }
  }

  /**
   * Taking a key out of a list of distinct keys keeps the others in their
   * order: the keys before it, then the keys after it.
   */
  lemma {:induction false} WithoutAt(s: seq<string>, p: nat)
    requires Distinct(s) && p < |s|
    ensures Without(s, s[p]) == s[..p] + s[p + 1..]
  {
    var x, tail := s[p], s[1..];
    if p == 0 {
      WithoutAbsent(tail, x);
      assert s[..p] + s[p + 1..] == tail;
    } else {
      assert tail[p - 1] == x;
      DistinctIndex(s, 0, p);
      WithoutAt(tail, p - 1);
      WithoutCons(s, x);
      SplitAround(s, p);
    }
  }

  /** Taking out a name other than the first keeps the first in front. */
  lemma WithoutCons(s: seq<string>, x: string)
    requires s != [] && s[0] != x
    ensures Without(s, x) == [s[0]] + Without(s[1..], x)
  {
  }

  /** The keys around position `p > 0`, seen from the tail. */
  lemma SplitAround(s: seq<string>, p: nat)
    requires 0 < p < |s|
    ensures s[..p] + s[p + 1..] == [s[0]] + (s[1..][..p - 1] + s[1..][p..])
  {
    assert s[..p] == [s[0]] + s[1..][..p - 1];
    assert s[p + 1..] == s[1..][p..];
  }

  lemma {:induction false} WithoutAbsent(s: seq<string>, x: string)
    requires x !in s
    ensures Without(s, x) == s
  {
    if s != [] {
      WithoutAbsent(s[1..], x);
    }
  }

  /** Assigning a key the value it already holds changes nothing. */
  lemma AssignSame<V>(r: Record<V>, k: string, v: V)
    requires Lookup(r, k) == Some(v)
    ensures Assign(r, k, v) == r
  {
    assert r.values[k := v] == r.values;
  }

  /** A second assignment to the same key overrides the first and keeps its place. */
  lemma AssignTwice<V>(r: Record<V>, k: string, v: V, w: V)
    ensures Assign(Assign(r, k, v), k, w) == Assign(r, k, w)
  {
    assert r.values[k := v][k := w] == r.values[k := w];
  }
}
