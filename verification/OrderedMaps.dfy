/**
Insertion-ordered maps (the source's dicts) as sequences of pairs with distinct
keys, and decimal numerals.
*/
module OrderedMaps {
  type Pairs<V> = seq<(string, V)>

  function Keys<V>(d: Pairs<V>): set<string> {
    if d == [] then {} else {d[0].0} + Keys(d[1..])
  }

  predicate Distinct<V>(d: Pairs<V>) {
    d == [] || (d[0].0 !in Keys(d[1..]) && Distinct(d[1..]))
  }

  /** Assignment: a known key keeps its place, a new one goes last. */
  function Put<V>(d: Pairs<V>, k: string, v: V): Pairs<V> {
    if d == [] then [(k, v)]
    else if d[0].0 == k then [(k, v)] + d[1..]
    else [d[0]] + Put(d[1..], k, v)
  }

  /** `pop(k, None)`. */
  function Remove<V>(d: Pairs<V>, k: string): Pairs<V> {
    if d == [] then []
    else if d[0].0 == k then Remove(d[1..], k)
    else [d[0]] + Remove(d[1..], k)
  }

  lemma {:induction false} PutKeys<V>(d: Pairs<V>, k: string, v: V)
    ensures Keys(Put(d, k, v)) == Keys(d) + {k}
    ensures Distinct(d) ==> Distinct(Put(d, k, v))
  {
    if d == [] {
      assert Put(d, k, v)[1..] == [];
    } else if d[0].0 == k {
      assert Put(d, k, v)[1..] == d[1..];
    } else {
      PutKeys(d[1..], k, v);
      assert Put(d, k, v)[1..] == Put(d[1..], k, v);
    }
  }

  lemma {:induction false} RemoveKeys<V>(d: Pairs<V>, k: string)
    ensures Keys(Remove(d, k)) == Keys(d) - {k}
    ensures Distinct(d) ==> Distinct(Remove(d, k))
  {
    if d != [] {
      RemoveKeys(d[1..], k);
      if d[0].0 != k {
        assert Remove(d, k)[1..] == Remove(d[1..], k);
      }
    }
  }

  function Digit(n: nat): char
    requires n < 10
  {
    "0123456789"[n]
  }

  /** The decimal numeral of `n`. */
  function Decimal(n: nat): (s: string)
    ensures s != []
  {
    if n < 10 then [Digit(n)] else Decimal(n / 10) + [Digit(n % 10)]
  }

  function DigitValue(c: char): nat {
    if '0' <= c <= '9' then c as int - '0' as int else 0
  }

  /** Reads a numeral. */
  function Value(s: string): nat {
    if s == "" then 0 else 10 * Value(s[..|s| - 1]) + DigitValue(s[|s| - 1])
  }

  /** A numeral reads back as its number, and has no leading zero. */
  lemma {:induction false} DecimalReads(n: nat)
    ensures Value(Decimal(n)) == n
    ensures n > 0 ==> Decimal(n)[0] != '0'
    ensures n < 10 ==> |Decimal(n)| == 1
  {
    var s := Decimal(n);
    assert DigitValue(Digit(n % 10)) == n % 10;
    if n >= 10 {
      DecimalReads(n / 10);
      assert s[..|s| - 1] == Decimal(n / 10) && s[0] == Decimal(n / 10)[0];
    } else {
      assert s[..0] == "";
    }
  }

  lemma DecimalInjective(m: nat, n: nat)
    requires Decimal(m) == Decimal(n)
    ensures m == n
  {
    DecimalReads(m);
    DecimalReads(n);
  }
}
