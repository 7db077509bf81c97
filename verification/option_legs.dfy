/** One contract leg of an option basket, as both the strategy builder and the margin engine see it. */
module OptionLegs {
  datatype OptionLeg = OptionLeg(strike: real, isCall: bool, isBuy: bool, quantity: int, lotSize: int,
                                 entryPrice: real, isEnabled: bool)
  {
    /** The field constraints of the source's model. */
    predicate Valid() {
      quantity > 0 && lotSize > 0 && entryPrice >= 0.0
    }
  }

  function Active(legs: seq<OptionLeg>): seq<OptionLeg> {
    if legs == [] then []
    else
      var rest := Active(legs[..|legs| - 1]);
      if legs[|legs| - 1].isEnabled then rest + [legs[|legs| - 1]] else rest
  }

  lemma {:induction false} ActiveAreLegs(legs: seq<OptionLeg>)
    ensures forall leg :: leg in Active(legs) <==> leg in legs && leg.isEnabled
  {
    if legs != [] {
      ActiveAreLegs(legs[..|legs| - 1]);
      assert forall leg :: leg in legs <==> leg in legs[..|legs| - 1] || leg == legs[|legs| - 1];
    }
  }
}
