/** The source of fresh identifiers that stands in for `bbop.core.uuid`. */
module Ids {

  function DigitChar(d: nat): char
    requires d < 10
  {
    ('0' as int + d) as char
  }

  /** The decimal numeral of `n`; identifiers handed out by IdSupply are these numerals. */
  function Decimal(n: nat): (s: string)
    ensures |s| >= 1
    decreases n
  {
    if n < 10 then [DigitChar(n)] else Decimal(n / 10) + [DigitChar(n % 10)]
  }

  /** Different numbers have different numerals, so a counter never hands out an id twice. */
  lemma {:induction false} DecimalInjective(a: nat, b: nat)
    requires a != b
    ensures Decimal(a) != Decimal(b)
    decreases a
  {
    if a < 10 && b < 10 {
      assert Decimal(a)[0] != Decimal(b)[0];
    } else if a < 10 || b < 10 {
      assert |Decimal(a)| != |Decimal(b)|;
    } else if a % 10 != b % 10 {
      assert Decimal(a)[|Decimal(a)| - 1] == DigitChar(a % 10);
      assert Decimal(b)[|Decimal(b)| - 1] == DigitChar(b % 10);
    } else {
      DecimalInjective(a / 10, b / 10);
      var sa, sb := Decimal(a), Decimal(b);
      assert sa[..|sa| - 1] == Decimal(a / 10);
      assert sb[..|sb| - 1] == Decimal(b / 10);
    }
  }

  /** An injected identifier generator: every id it returns is non-empty and was never returned before. */
  class IdSupply {
    var next: nat
    ghost var issued: set<string>

    ghost predicate Valid()
      reads this
    {
      issued == set i | 0 <= i < next :: Decimal(i)
    }

    constructor ()
      ensures Valid() && issued == {}
    {
      next := 0;
      issued := {};
    }

    method Fresh() returns (id: string)
      requires Valid()
      modifies this
      ensures Valid()
      ensures id != "" && id !in old(issued)
      ensures issued == old(issued) + {id}
    {
      id := Decimal(next);
      forall i | 0 <= i < next
        ensures Decimal(i) != id
      {
        DecimalInjective(i, next);
      }
      issued := issued + {id};
      next := next + 1;
    }
  }
}
