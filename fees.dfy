/** The application fee and the over-fetch factor of the paginated queries. */
module Fees {

  /** `getAmountWithApplicationFee`: the amount inflated by `applicationFee` percent.
      The fee rate is a parameter of the model. */
  function AmountWithApplicationFee(amount: real, applicationFee: real): (r: real)
    ensures amount == 0.0 ==> r == 0.0
    ensures amount >= 0.0 && applicationFee >= 0.0 ==> r >= amount
  {
    amount * (1.0 + applicationFee / 100.0)
  }

  /** The fee is linear: inflating a sum is the sum of the inflated parts. */
  lemma FeeIsAdditive(a: real, b: real, applicationFee: real)
    ensures AmountWithApplicationFee(a + b, applicationFee)
         == AmountWithApplicationFee(a, applicationFee) + AmountWithApplicationFee(b, applicationFee)
  {
  }

  /** Scaling commutes with the fee, so a percentage share may be taken before or after it. */
  lemma FeeCommutesWithShare(a: real, share: real, applicationFee: real)
    ensures AmountWithApplicationFee(a * share, applicationFee) == AmountWithApplicationFee(a, applicationFee) * share
  {
  }

  /** `queryLimit`: how many documents one page query fetches, twice the page size so
      that filtering on the client still fills the page. */
  function QueryLimit(limit: int): (r: int)
    ensures r % 2 == 0 && r / 2 == limit
    ensures limit > 0 ==> r > limit
  {
    limit * 2
  }
}
