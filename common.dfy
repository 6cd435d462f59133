/**
 * Shared vocabulary of the model: JavaScript's optional values and thrown
 * errors, the decimal rendering that template literals apply to numbers, and
 * the `Array.prototype.filter` by key that both the toast list and the person
 * list use to delete entries.
 */
module Common {

  /** A value that may be `null`/`undefined` in the source. */
  datatype Option<T> = None | Some(value: T) {
    function GetOr(default: T): T {
      match this
      case Some(v) => v
      case None => default
    }
  }

  /** The outcome of an awaited call: a value, or the error it throws. */
  datatype Result<T, E> = Ok(value: T) | Err(error: E)

  // ---------------------------------------------------------------------------
  // Decimal rendering of integers, as `${n}` does for an integral number

  predicate IsDigit(c: char) {
    '0' <= c <= '9'
  }

  function DigitChar(d: nat): (c: char)
    requires d < 10
    ensures IsDigit(c) && c as int - '0' as int == d
  {
    "0123456789"[d]
  }

  /** The decimal digits of `n`, most significant first, without leading zeros. */
  function NatToString(n: nat): (s: string)
    ensures 1 <= |s|
    ensures forall i :: 0 <= i < |s| ==> IsDigit(s[i])
    ensures |s| > 1 ==> s[0] != '0'
    decreases n
  {
    if n < 10 then [DigitChar(n)] else NatToString(n / 10) + [DigitChar(n % 10)]
  }

  /** `${i}` for an integer: a leading minus sign for negative values. */
  function IntToString(i: int): (s: string)
    ensures 1 <= |s|
    ensures (s[0] == '-') <==> i < 0
  {
    if i < 0 then "-" + NatToString(-i) else NatToString(i)
  }

  function DigitValue(c: char): nat
    requires IsDigit(c)
  {
    c as int - '0' as int
  }

  /** Reads a string of decimal digits back as a number. */
  function ParseDigits(s: string): nat
    requires forall i :: 0 <= i < |s| ==> IsDigit(s[i])
  {
    if s == [] then 0
    else ParseDigits(s[..|s| - 1]) * 10 + DigitValue(s[|s| - 1])
  }

  /** Reads an optionally signed decimal back as an integer. */
  function ParseInt(s: string): Option<int> {
    if |s| > 0 && s[0] == '-' then
      if forall i :: 1 <= i < |s| ==> IsDigit(s[i]) then Some(0 - ParseDigits(s[1..])) else None
    else if forall i :: 0 <= i < |s| ==> IsDigit(s[i]) then Some(ParseDigits(s))
    else None
  }

  lemma {:induction false} NatToStringRoundTrip(n: nat)
    ensures ParseDigits(NatToString(n)) == n
    decreases n
  {
    if n >= 10 {
      var prefix := NatToString(n / 10);
      var s := prefix + [DigitChar(n % 10)];
      assert s[..|s| - 1] == prefix;
      NatToStringRoundTrip(n / 10);
    }
  }

  /** Rendering an integer loses nothing: it can be read back exactly. */
  lemma IntToStringRoundTrip(i: int)
    ensures ParseInt(IntToString(i)) == Some(i)
  {
    var s := IntToString(i);
    if i < 0 {
      var t := NatToString(-i);
      assert s[1..] == t;
      assert forall j :: 1 <= j < |s| ==> IsDigit(s[j]) by {
        forall j | 1 <= j < |s| ensures IsDigit(s[j]) {
          assert s[j] == t[j - 1];
        }
      }
      NatToStringRoundTrip(-i);
    } else {
      assert IsDigit(s[0]);
      NatToStringRoundTrip(i);
    }
  }

  /** Distinct integers render to distinct strings. */
  lemma IntToStringInjective(i: int, j: int)
    requires IntToString(i) == IntToString(j)
    ensures i == j
  {
    IntToStringRoundTrip(i);
    IntToStringRoundTrip(j);
  }

  // ---------------------------------------------------------------------------
  // `list.filter(x => key(x) !== k)`

  /** The entries of `s` whose key differs from `k`, in their original order. */
  function RemoveByKey<T, K(==)>(s: seq<T>, key: T -> K, k: K): (r: seq<T>)
    ensures |r| <= |s|
    ensures forall i :: 0 <= i < |r| ==> r[i] in s && key(r[i]) != k
    ensures forall i :: 0 <= i < |s| && key(s[i]) != k ==> s[i] in r
    decreases |s|
  {
    if s == [] then []
    else if key(s[0]) != k then [s[0]] + RemoveByKey(s[1..], key, k)
    else RemoveByKey(s[1..], key, k)
  }

  /** Filtering a concatenation filters each part and keeps the parts in order. */
  lemma {:induction false} RemoveByKeyAppend<T, K>(a: seq<T>, b: seq<T>, key: T -> K, k: K)
    ensures RemoveByKey(a + b, key, k) == RemoveByKey(a, key, k) + RemoveByKey(b, key, k)
    decreases |a|
  {
    if a != [] {
      assert (a + b)[0] == a[0];
      assert (a + b)[1..] == a[1..] + b;
      RemoveByKeyAppend(a[1..], b, key, k);
    } else {
      assert a + b == b;
    }
  }

  /** A list with no entry under `k` is left exactly as it was. */
  lemma {:induction false} RemoveByKeyAbsent<T, K>(s: seq<T>, key: T -> K, k: K)
    requires forall i :: 0 <= i < |s| ==> key(s[i]) != k
    ensures RemoveByKey(s, key, k) == s
    decreases |s|
  {
    if s != [] {
      RemoveByKeyAbsent(s[1..], key, k);
    }
  }

  /** Removing the same key a second time changes nothing. */
  lemma RemoveByKeyIdempotent<T, K>(s: seq<T>, key: T -> K, k: K)
    ensures RemoveByKey(RemoveByKey(s, key, k), key, k) == RemoveByKey(s, key, k)
  {
    var r := RemoveByKey(s, key, k);
    RemoveByKeyAbsent(r, key, k);
  }

  /** Entries under other keys are never lost: their count is unchanged. */
  lemma {:induction false} RemoveByKeyKeepsOthers<T, K>(s: seq<T>, key: T -> K, k: K, x: T)
    requires key(x) != k
    ensures multiset(RemoveByKey(s, key, k))[x] == multiset(s)[x]
    decreases |s|
  {
    if s != [] {
      assert s == [s[0]] + s[1..];
      RemoveByKeyKeepsOthers(s[1..], key, k, x);
    }
  }
}
