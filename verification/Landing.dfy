/** The landing page's earnings calculator: a slider picks a number of
    monthly subscribers and the page shows what the creator earns. */
module Landing {

  /** What a referred subscriber earns the creator per month, in pounds. */
  const FeePerSubscriber: nat := 25

  /** The slider's initial value and its bounds; a range input only ever
      reports whole numbers between its bounds. */
  const DefaultSubscribers: nat := 50
  const MinSubscribers: nat := 1
  const MaxSubscribers: nat := 500

  /** `earnings`: the monthly figure. */
  function MonthlyEarnings(subscribers: nat): nat {
    subscribers * FeePerSubscriber
  }

  /** `annualEarnings`: twelve months of the monthly figure. */
  function AnnualEarnings(subscribers: nat): nat {
    MonthlyEarnings(subscribers) * 12
  }

  /** Both figures are linear in the subscribers: 25 and 300 pounds each. */
  lemma EarningsRates(subscribers: nat)
    ensures MonthlyEarnings(subscribers) == 25 * subscribers
    ensures AnnualEarnings(subscribers) == 300 * subscribers
  {
  }

  /** The page opens at 50 subscribers: 1250 a month, 15000 a year. */
  lemma DefaultEarnings()
    ensures MonthlyEarnings(DefaultSubscribers) == 1250
    ensures AnnualEarnings(DefaultSubscribers) == 15000
  {
  }

  /** Across the slider's range the monthly figure runs from 25 to 12500,
      and more subscribers never earn less. */
  lemma EarningsOnSlider(a: nat, b: nat)
    requires MinSubscribers <= a <= b <= MaxSubscribers
    ensures 25 <= MonthlyEarnings(a) <= MonthlyEarnings(b) <= 12500
    ensures a < b ==> MonthlyEarnings(a) < MonthlyEarnings(b) && AnnualEarnings(a) < AnnualEarnings(b)
  {
  }
}
