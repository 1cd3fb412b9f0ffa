/**
  The allocation table and its rescaling.

  The table maps each loan level to a capital share. When the investment
  differs from the sum of the shares, every share is multiplied, in place,
  by `investment / sum` and rounded to a whole amount; the keys and their
  order stay as they are.
 */
module Scaling {
  import opened Rounding

  /** The default allocation table: its keys in insertion order, and the shares. */
  const DefaultKeys: seq<string> := ["Level_1", "Level_2", "Level_3", "Level_4"]
  const DefaultShares: map<string, int> :=
    map["Level_1" := 30000, "Level_2" := 40000, "Level_3" := 40000, "Level_4" := 40000]

  /** `sum(allocation.values())`, taken over the keys in order. */
  function SumOver(keys: seq<string>, m: map<string, int>): int
    requires forall i :: 0 <= i < |keys| ==> keys[i] in m
  {
    if keys == [] then 0 else m[keys[0]] + SumOver(keys[1..], m)
  }

  /** `scale = total_investment / total_alloc`. */
  function ScaleFactor(totalInvestment: int, totalAlloc: int): (scale: real)
    requires totalAlloc != 0
    ensures scale * totalAlloc as real == totalInvestment as real
  {
    totalInvestment as real / totalAlloc as real
  }

  /** One rescaled share: `round(share * scale)`. */
  function Scaled(share: int, scale: real): int
  {
    RoundHalfEven(share as real * scale)
  }

  /** Every share of `m` rescaled by the same factor. */
  function ScaledShares(m: map<string, int>, scale: real): (r: map<string, int>)
    ensures r.Keys == m.Keys
  {
    map k | k in m :: Scaled(m[k], scale)
  }

  /** The allocation the default table ends up with for a given investment. */
  function AllocationFor(totalInvestment: int): map<string, int>
  {
    if SumOver(DefaultKeys, DefaultShares) == totalInvestment then DefaultShares
    else ScaledShares(DefaultShares, ScaleFactor(totalInvestment, SumOver(DefaultKeys, DefaultShares)))
  }

  /** The allocation dictionary, which the scaling step updates in place. */
  class Allocation {
    var keys: seq<string>          // insertion order of the dictionary
    var shares: map<string, int>   // capital share per loan type

    ghost predicate Valid()
      reads this
    {
      (forall i, j :: 0 <= i < j < |keys| ==> keys[i] != keys[j]) &&
      (forall k :: k in shares <==> k in keys)
    }

    /** The table as the source writes it. */
    constructor Default()
      ensures Valid()
      ensures keys == DefaultKeys && shares == DefaultShares
    {
      keys := DefaultKeys;
      shares := DefaultShares;
    }

    /** `total_alloc`: the sum of the shares. */
    function Total(): int
      reads this
      requires Valid()
    {
      SumOver(keys, shares)
    }

    /**
      Rescale every share so that the table follows the investment, unless
      the totals already match. Python raises on a zero total that differs
      from the investment; that case is excluded.
     */
    method ScaleTo(totalInvestment: int)
      requires Valid()
      requires Total() != 0 || Total() == totalInvestment
      modifies this
      ensures Valid()
      ensures keys == old(keys) && shares.Keys == old(shares.Keys)
      ensures old(Total()) == totalInvestment ==> shares == old(shares)
      ensures old(Total()) != totalInvestment ==>
        shares == ScaledShares(old(shares), ScaleFactor(totalInvestment, old(Total())))
    {
      var totalAlloc := Total();
      if totalAlloc != totalInvestment {
        var scale := ScaleFactor(totalInvestment, totalAlloc);
        ghost var before := shares;
        for i := 0 to |keys|
          invariant keys == old(keys)
          invariant shares.Keys == before.Keys
          invariant forall j :: 0 <= j < i ==> shares[keys[j]] == Scaled(before[keys[j]], scale)
          invariant forall j :: i <= j < |keys| ==> shares[keys[j]] == before[keys[j]]
        {
          var k := keys[i];
          shares := shares[k := Scaled(shares[k], scale)];
        }
        SameOnKeys(keys, shares, ScaledShares(before, scale));
      }
    }
  }

  /** Two maps over the same listed keys that agree key by key are equal. */
  lemma SameOnKeys(keys: seq<string>, a: map<string, int>, b: map<string, int>)
    requires forall k :: k in a <==> k in keys
    requires a.Keys == b.Keys
    requires forall j :: 0 <= j < |keys| ==> a[keys[j]] == b[keys[j]]
    ensures a == b
  {
    forall k | k in a
      ensures a[k] == b[k]
    {
      var j :| 0 <= j < |keys| && keys[j] == k;
    }
  }

  /** `c * (a + b)` split into its two products. */
  lemma Distribute(a: real, b: real, c: real)
    ensures c * (a + b) == a * c + c * b
  {
  }

  /** The shares multiplied by `scale` before any rounding, summed over the keys. */
  function ExactSum(keys: seq<string>, m: map<string, int>, scale: real): real
    requires forall i :: 0 <= i < |keys| ==> keys[i] in m
  {
    if keys == [] then 0.0 else m[keys[0]] as real * scale + ExactSum(keys[1..], m, scale)
  }

  /** Scaling each share and then summing is scaling the sum. */
  lemma {:induction false} ExactSumLinear(keys: seq<string>, m: map<string, int>, scale: real)
    requires forall i :: 0 <= i < |keys| ==> keys[i] in m
    ensures ExactSum(keys, m, scale) == scale * SumOver(keys, m) as real
  {
    if keys != [] {
      ExactSumLinear(keys[1..], m, scale);
      Distribute(m[keys[0]] as real, SumOver(keys[1..], m) as real, scale);
    }
  }

  /**
    Shares that are each within one half of `scale` times the originals sum
    to within one half per share of the exact scaled total.
   */
  lemma {:induction false} RoundedSumError(keys: seq<string>, m: map<string, int>, r: map<string, int>, scale: real)
    requires forall i :: 0 <= i < |keys| ==> keys[i] in m && keys[i] in r
    requires forall i :: 0 <= i < |keys| ==> -0.5 <= r[keys[i]] as real - m[keys[i]] as real * scale <= 0.5
    ensures -(|keys| as real) / 2.0 <= SumOver(keys, r) as real - ExactSum(keys, m, scale) <= |keys| as real / 2.0
  {
    if keys != [] {
      RoundedSumError(keys[1..], m, r, scale);
      assert -0.5 <= r[keys[0]] as real - m[keys[0]] as real * scale <= 0.5;
    }
  }

  /** Each rescaled share is within one half of the exact product `share * scale`. */
  lemma ScaledSharesNear(keys: seq<string>, m: map<string, int>, scale: real)
    requires forall i :: 0 <= i < |keys| ==> keys[i] in m
    ensures forall i :: 0 <= i < |keys| ==> keys[i] in ScaledShares(m, scale)
    ensures forall i :: 0 <= i < |keys| ==>
      -0.5 <= ScaledShares(m, scale)[keys[i]] as real - m[keys[i]] as real * scale <= 0.5
  {
    var r := ScaledShares(m, scale);
    forall i | 0 <= i < |keys|
      ensures -0.5 <= r[keys[i]] as real - m[keys[i]] as real * scale <= 0.5
    {
      assert r[keys[i]] == RoundHalfEven(m[keys[i]] as real * scale);
    }
  }

  /** Rounding the scaled shares moves their sum by at most one half per share. */
  lemma ScaledSumError(keys: seq<string>, m: map<string, int>, scale: real)
    requires forall i :: 0 <= i < |keys| ==> keys[i] in m
    ensures forall i :: 0 <= i < |keys| ==> keys[i] in ScaledShares(m, scale)
    ensures -(|keys| as real) / 2.0
            <= SumOver(keys, ScaledShares(m, scale)) as real - ExactSum(keys, m, scale)
            <= |keys| as real / 2.0
  {
    ScaledSharesNear(keys, m, scale);
    RoundedSumError(keys, m, ScaledShares(m, scale), scale);
  }

  /**
    After scaling by a factor that takes the original total to the
    investment, the shares add up to the investment, give or take one half
    per share.
   */
  lemma ScaledSumClose(keys: seq<string>, m: map<string, int>, scale: real, totalInvestment: int)
    requires forall i :: 0 <= i < |keys| ==> keys[i] in m
    requires scale * SumOver(keys, m) as real == totalInvestment as real
    ensures -(|keys| as real) / 2.0
            <= SumOver(keys, ScaledShares(m, scale)) as real - totalInvestment as real
            <= |keys| as real / 2.0
  {
    ScaledSumError(keys, m, scale);
    ExactSumOfFactor(keys, m, scale, totalInvestment);
  }

  /** A factor that maps the original total onto the investment maps the exact sum onto it too. */
  lemma ExactSumOfFactor(keys: seq<string>, m: map<string, int>, scale: real, totalInvestment: int)
    requires forall i :: 0 <= i < |keys| ==> keys[i] in m
    requires scale * SumOver(keys, m) as real == totalInvestment as real
    ensures ExactSum(keys, m, scale) == totalInvestment as real
  {
    ExactSumLinear(keys, m, scale);
  }

  /** Scaling by the factor one (investment equal to the total) would change nothing. */
  lemma ScaledByOne(m: map<string, int>)
    ensures ScaledShares(m, 1.0) == m
  {
    forall k | k in m
      ensures ScaledShares(m, 1.0)[k] == m[k]
    {
      RoundOfInteger(m[k]);
    }
  }

  /** The default table totals 150000. */
  lemma DefaultTotal()
    ensures SumOver(DefaultKeys, DefaultShares) == 150000
  {
  }

  /**
    For every investment, the default table's shares after scaling are
    within two of the investment (one half for each of four shares).
   */
  lemma AllocationForSum(totalInvestment: int)
    ensures AllocationFor(totalInvestment).Keys == DefaultShares.Keys
    ensures -2 <= SumOver(DefaultKeys, AllocationFor(totalInvestment)) - totalInvestment <= 2
  {
    DefaultTotal();
    if totalInvestment != 150000 {
      ScaledSumClose(DefaultKeys, DefaultShares, ScaleFactor(totalInvestment, 150000), totalInvestment);
    }
  }
}
