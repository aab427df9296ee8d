/** The savings-rate step (src/components/SavePercentageForm.tsx): one percentage input,
    clamped to [0, 100]. */
module SavePercentageForm {
  import opened Wrappers
  import opened Numbers

  /** `Math.min(100, Math.max(0, raw))`: the rate always lies in [0, 100]; a rate already
      there is kept, anything below becomes 0 and anything above becomes 100. */
  function Clamp(raw: real): (r: real)
    ensures 0.0 <= r <= 100.0
    ensures 0.0 <= raw <= 100.0 ==> r == raw
    ensures raw < 0.0 ==> r == 0.0
    ensures raw > 100.0 ==> r == 100.0
  {
    var low := if raw > 0.0 then raw else 0.0;
    if low < 100.0 then low else 100.0
  }

  /** Clamping a clamped rate changes nothing. */
  lemma ClampIdempotent(raw: real)
    ensures Clamp(Clamp(raw)) == Clamp(raw)
  {
  }

  /** What `handleInput` stores for a parse result: an unparseable or zero input gives 0. */
  function InputRate(parsed: Option<real>): (r: real)
    ensures 0.0 <= r <= 100.0
    ensures parsed.None? ==> r == 0.0
    ensures parsed.Some? ==> r == Clamp(parsed.value)
  {
    Clamp(OrZero(parsed))
  }

  /** The page's `percentage` signal. */
  class RateForm {
    var percentage: real

    /** The stored percentage, or 0 when no record is stored. The stored value is taken
        as it is, without clamping. */
    constructor (stored: Option<real>)
      ensures stored.None? ==> percentage == 0.0
      ensures stored.Some? ==> percentage == stored.value
    {
      percentage := stored.GetOr(0.0);
    }

    /** `handleInput`: parse, default to 0, clamp, store. */
    method HandleInput(parsed: Option<real>)
      modifies this
      ensures percentage == InputRate(parsed)
      ensures 0.0 <= percentage <= 100.0
    {
      percentage := Clamp(OrZero(parsed));
    }
  }
}
