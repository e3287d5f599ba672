/** Account balances and the total they hold. */
module Supply {
  import opened Words

  type Balances = map<Address, nat>

  function BalanceOf(b: Balances, a: Address): nat {
    if a in b then b[a] else 0
  }

  ghost function Total(b: Balances): nat {
    if b == map[] then 0
    else
      var a :| a in b;
      b[a] + Total(b - {a})
  }

  /** The total does not depend on which account is counted first. */
  lemma {:induction false} TotalSplit(b: Balances, a: Address)
    requires a in b
    ensures Total(b) == b[a] + Total(b - {a})
    decreases |b|
  {
    var c :| c in b && Total(b) == b[c] + Total(b - {c});
    if c != a {
      TotalSplit(b - {c}, a);
      TotalSplit(b - {a}, c);
      assert b - {c} - {a} == b - {a} - {c};
    }
  }

  /** Setting one balance changes the total by the difference. */
  lemma {:induction false} TotalSet(b: Balances, a: Address, v: nat)
    ensures Total(b[a := v]) + BalanceOf(b, a) == Total(b) + v
  {
    var u := b[a := v];
    TotalSplit(u, a);
    assert u - {a} == b - {a};
    if a in b {
      TotalSplit(b, a);
    } else {
      assert b - {a} == b;
    }
  }
}
