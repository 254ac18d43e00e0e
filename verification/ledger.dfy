/**
 * Balance maps keyed by address, read with Solidity's mapping default:
 * an address without an entry holds 0.
 */
module Ledger {
  import opened Eth

  /** The amount recorded for `a`, 0 when `a` has no entry. */
  function Get(m: map<Address, Wei>, a: Address): Wei
  {
    if a in m then m[a] else 0
  }

  /** Some key of a non-empty map; fixed once per map so that Total is a function. */
  ghost function Pick(m: map<Address, Wei>): (a: Address)
    requires m != map[]
    ensures a in m
  {
    var a :| a in m; a
  }

  /** The sum of every amount recorded in `m`. */
  ghost function Total(m: map<Address, Wei>): Wei
    decreases |m|
  {
    if m == map[] then 0
    else
      var a := Pick(m);
      assert |m - {a}| == |m| - 1;
      m[a] + Total(m - {a})
  }

  /** Any entry can be taken out of the sum first, whichever key Total picked. */
  lemma {:induction false} TotalRemove(m: map<Address, Wei>, a: Address)
    requires a in m
    ensures Total(m) == m[a] + Total(m - {a})
    decreases |m|
  {
    var b := Pick(m);
    if b != a {
      assert |m - {b}| == |m| - 1;
      assert |m - {a}| == |m| - 1;
      TotalRemove(m - {b}, a);
      TotalRemove(m - {a}, b);
      assert m - {b} - {a} == m - {a} - {b};
    }
  }

  /** Overwriting one entry changes the sum by exactly the difference. */
  lemma {:induction false} TotalUpdate(m: map<Address, Wei>, a: Address, v: Wei)
    ensures Total(m[a := v]) + Get(m, a) == Total(m) + v
  {
    if a in m {
      TotalRemove(m, a);
    } else {
      assert m - {a} == m;
    }
    TotalRemove(m[a := v], a);
    assert m[a := v] - {a} == m - {a};
  }

  /** No single entry exceeds the sum. */
  lemma {:induction false} EntryBounded(m: map<Address, Wei>, a: Address)
    ensures Get(m, a) <= Total(m)
  {
    if a in m {
      TotalRemove(m, a);
    }
  }
}
