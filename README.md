# Spending-limit card

A model of the logic inside the wallet app's spending-limit card
(`components/SpendingLimitCard.jsx`). The card keeps two pieces of state: the
active spending limit, which starts as null, and the current period's
spending, which starts at 0. On mount it fires two fetches. Each fetch writes
its own field, and only when the response is ok. On every render the card
either shows a "Set Spending Limit" prompt (no limit) or a progress bar. The
bar's width is the spent share of the limit, capped at 100%. Its colour is
error at 100% or more, warning at 80% or more, and primary otherwise.

- `progress.dfy`, module `Progress`: the limit and band datatypes. It holds the
  pure functions `Percentage` and `Color` over `real`, and the lemmas about
  their thresholds, bounds and monotonicity.
- `card.dfy`, module `SpendingLimitCard`: the fetch outcome, the card state and
  its two transitions, and the render branch. It also holds the class `Card`,
  whose two fields are overwritten by the handler methods. The methods are
  proved against the transition functions.

A fetch outcome is `Thrown`, or `Responded(ok, data)`. `Thrown` covers a
failed request and a body that does not parse. The body is parsed before the
ok flag is checked, so either failure is caught and has the same effect. The
active-limit body is a limit object or JSON null. An ok response with a null
body sets the limit to null, so the card shows the prompt. The fetch runs once
per mount from a null limit, so within one mount there is no earlier limit to
lose; `ApplyLimit` states the same update for an arbitrary prior state.

## Model

| member | source | states |
|---|---|---|
| Progress.RawPercentage | components/SpendingLimitCard.jsx:56 | the raw percentage is the spending expressed in hundredths of the amount: result × amount = spending × 100 |
| Progress.Min | components/SpendingLimitCard.jsx:64 | `Math.min` returns one of its arguments, and that argument is no larger than either |
| Progress.Percentage | components/SpendingLimitCard.jsx:62-65 | 0 without a limit; with a limit, the raw spent percentage capped at 100 (never above 100, never above the raw value, and equal to one of them) |
| Progress.Color | components/SpendingLimitCard.jsx:54-60 | primary without a limit; with one, error iff the raw percentage is at least 100, warning iff it lies in [80, 100), primary iff it is below 80 |
| Progress.RawPercentageAtLeast | components/SpendingLimitCard.jsx:56 | for a positive amount, the raw percentage reaches k iff spending reaches k/100 of the amount |
| Progress.ColorThresholds | components/SpendingLimitCard.jsx:56-59 | for a positive amount: error iff spending is at least the amount; warning iff spending is in [0.8·amount, amount); primary iff it is below 0.8·amount |
| Progress.BoundaryCases | components/SpendingLimitCard.jsx:56-64 | spending equal to the amount gives 100% and error; spending equal to 0.8·amount gives warning (both thresholds inclusive) |
| Progress.PercentageFull | components/SpendingLimitCard.jsx:64 | for a positive amount, the percentage is exactly 100 iff spending is at least the amount |
| Progress.PercentageBelowLimit | components/SpendingLimitCard.jsx:64 | below the amount, the percentage is the true ratio spending/amount·100, and it is under 100 |
| Progress.PercentageBounds | components/SpendingLimitCard.jsx:64 | for a positive amount and non-negative spending, the percentage lies in [0, 100] |
| Progress.NegativeSpendingIsNotClamped | components/SpendingLimitCard.jsx:64 | only the upper end is clamped: negative spending gives a negative percentage |
| Progress.ErrorIffFull | components/SpendingLimitCard.jsx:54-65 | the band is error exactly when a limit exists and the clamped percentage equals 100 |
| Progress.PercentageMonotone | components/SpendingLimitCard.jsx:64 | for a fixed positive amount, more spending never lowers the percentage |
| Progress.ColorMonotone | components/SpendingLimitCard.jsx:56-59 | for a fixed positive amount, more spending never lowers the band's severity (primary < warning < error) |
| Progress.ThreeQuartersScenario | components/SpendingLimitCard.jsx:54-65 | a limit of 200 with 150 spent gives a 75% bar in primary |
| SpendingLimitCard.ApplyLimit | components/SpendingLimitCard.jsx:23-29 | the limit handler never changes the spending; on an ok response the limit becomes the body; otherwise the state is unchanged |
| SpendingLimitCard.ApplySpending | components/SpendingLimitCard.jsx:40-46 | the spending handler never changes the limit; on an ok response the spending becomes the body's total; otherwise the state is unchanged |
| SpendingLimitCard.UpdatesCommute | components/SpendingLimitCard.jsx:49-52 | applying the two fetch results in either order gives the same state |
| SpendingLimitCard.AfterMount | components/SpendingLimitCard.jsx:10-52 | after the mount effect runs both handlers on the initial state, the limit is the fetched body if that fetch was ok and null otherwise; the spending is the fetched total if that fetch was ok and 0 otherwise |
| SpendingLimitCard.LimitAfterMount | components/SpendingLimitCard.jsx:10-52 | after both mount-time fetches, in either order: a limit is present iff its fetch was ok with a non-null body; the spending is the fetched total if that fetch was ok, else 0 |
| SpendingLimitCard.Render | components/SpendingLimitCard.jsx:67-96 | the prompt iff there is no limit; both branches navigate to `/spending-limit`; the progress view shows the limit's period and amount, the spending, and the `Percentage` and `Color` of the state |
| SpendingLimitCard.PromptAfterMount | components/SpendingLimitCard.jsx:49-80 | after mount the prompt is shown iff the limit fetch did not succeed with a limit, whatever the spending fetch returned |
| SpendingLimitCard.Card.constructor | components/SpendingLimitCard.jsx:10-11 | a new card has no limit and spending 0 |
| SpendingLimitCard.Card.ApplyLimitResponse | components/SpendingLimitCard.jsx:15-30 | the new state is `ApplyLimit` of the old one; the spending field is untouched; a failure leaves the object unchanged |
| SpendingLimitCard.Card.ApplySpendingResponse | components/SpendingLimitCard.jsx:32-47 | the new state is `ApplySpending` of the old one; the limit field is untouched; a failure leaves the object unchanged |
| SpendingLimitCard.Card.View | components/SpendingLimitCard.jsx:71-96 | the card renders the prompt iff its limit field is null |
| SpendingLimitCard.Mount | components/SpendingLimitCard.jsx:49-52 | a fresh card that receives both fetch results, in either order, ends in `AfterMount` of the two results |

## Left out

- The HTTP layer is not modelled: `fetch`, the URLs built from `API_URL` and the user id, the headers and `response.json()`. Only the outcome (thrown, or ok flag plus body) is a parameter.
- Asynchrony is not modelled: the mount-time `useEffect` scheduling, in-flight requests and updates after unmount. Only the fact that the two results may arrive in either order is stated (`UpdatesCommute`, `Mount`).
- `console.error` logging of a failed fetch is not modelled.
- JavaScript floating point is replaced by exact `real` arithmetic.
- Progress.Percentage, Progress.Color, SpendingLimitCard.Render, SpendingLimitCard.Card.View and SpendingLimitCard.PromptAfterMount require a present limit to have a non-zero amount. The source does not guard this, and in JavaScript an amount of 0 gives Infinity or NaN. The bound and threshold lemmas also assume a positive amount.
- A body that is not a limit object or null is not modelled (for example `{}`, whose missing amount gives NaN in JavaScript). Neither is a spending body without `totalSpending`.
- Currency formatting with `toFixed(2)`, the styles, the icons, the concrete `COLORS` values (they are the three `Band` values here), Clerk's `useUser` and the router are not modelled. Navigation is only the route both branches target.
- The limit editor screen (`app/(root)/spending-limit.jsx`) is not part of this model.
