/**
 * The option-count policy of an element holding options
 * (src/Partials/OptionsConfig.php): the least number of options, the most,
 * and the most initial options, each possibly unset. A new policy asks for
 * at least one option and sets no maximum.
 */
module OptionsConfigs {
  import opened Outcomes

  /** The three limits as values, unset limits being `None`. */
  datatype Policy = Policy(min: Option<int>, max: Option<int>, maxInitial: Option<int>)

  class OptionsConfig {
    var minOptions: Option<int>
    var maxOptions: Option<int>
    var maxInitialOptions: Option<int>

    /** `new OptionsConfig()`: at least one option, no maximum, no maximum of initial options. */
    constructor()
      ensures Limits() == Policy(Some(1), None, None)
    {
      minOptions := Some(1);
      maxOptions := None;
      maxInitialOptions := None;
    }

    /** The three getters at once. */
    function Limits(): (p: Policy)
      reads this
      ensures p.min == minOptions && p.max == maxOptions && p.maxInitial == maxInitialOptions
    {
      Policy(minOptions, maxOptions, maxInitialOptions)
    }

    /** `setMinOptions`: stores its argument, keeps the other limits and returns the same object. */
    method SetMinOptions(n: Option<int>) returns (r: OptionsConfig)
      modifies this
      ensures r == this
      ensures Limits() == old(Limits()).(min := n)
    {
      minOptions := n;
      r := this;
    }

    /** `setMaxOptions`: stores its argument, keeps the other limits and returns the same object. */
    method SetMaxOptions(n: Option<int>) returns (r: OptionsConfig)
      modifies this
      ensures r == this
      ensures Limits() == old(Limits()).(max := n)
    {
      maxOptions := n;
      r := this;
    }

    /** `setMaxInitialOptions`: stores its argument, keeps the other limits and returns the same object. */
    method SetMaxInitialOptions(n: Option<int>) returns (r: OptionsConfig)
      modifies this
      ensures r == this
      ensures Limits() == old(Limits()).(maxInitial := n)
    {
      maxInitialOptions := n;
      r := this;
    }
  }

  /** `(int)` applied to a limit: an unset limit counts as 0. */
  function IntOf(n: Option<int>): (r: int)
    ensures n.None? ==> r == 0
    ensures n.Some? ==> r == n.value
  {
    if n.Some? then n.value else 0
  }
}
