/** The two settings inputs; `parseFloat` is abstracted to its parsed value, `None` standing for NaN. */
module SettingsView {
  import opened Wrappers
  import opened Types

  /** `parseFloat(text) || 0`: NaN is falsy and becomes 0 (as does 0 itself). */
  function NumberOrZero(parsed: Option<real>): (v: real)
    ensures parsed.None? ==> v == 0.0
    ensures parsed.Some? ==> v == parsed.value
  {
    match parsed
    case None => 0.0
    case Some(x) => x
  }

  /** A balance edit replaces the balance and keeps the risk. */
  function HandleBalanceChange(s: Settings, parsed: Option<real>): (r: Settings)
    ensures r.accountBalance == NumberOrZero(parsed)
    ensures r.riskPerTrade == s.riskPerTrade
  {
    s.(accountBalance := NumberOrZero(parsed))
  }

  /** A risk edit replaces the risk and keeps the balance. */
  function HandleRiskChange(s: Settings, parsed: Option<real>): (r: Settings)
    ensures r.riskPerTrade == NumberOrZero(parsed)
    ensures r.accountBalance == s.accountBalance
  {
    s.(riskPerTrade := NumberOrZero(parsed))
  }

  /** Applying the same edit twice is the same as once; the later of two edits of a field wins. */
  lemma EditsIdempotent(s: Settings, p: Option<real>, q: Option<real>)
    ensures HandleBalanceChange(HandleBalanceChange(s, p), p) == HandleBalanceChange(s, p)
    ensures HandleRiskChange(HandleRiskChange(s, p), p) == HandleRiskChange(s, p)
    ensures HandleBalanceChange(HandleBalanceChange(s, p), q) == HandleBalanceChange(s, q)
    ensures HandleRiskChange(HandleRiskChange(s, p), q) == HandleRiskChange(s, q)
  {
  }

  /** Edits of different fields do not interfere. */
  lemma EditsCommute(s: Settings, p: Option<real>, q: Option<real>)
    ensures HandleBalanceChange(HandleRiskChange(s, q), p) == HandleRiskChange(HandleBalanceChange(s, p), q)
  {
  }
}
