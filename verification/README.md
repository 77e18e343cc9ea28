# Meme-coin screening bot: model of the core of `data.js`

The bot listens to a feed of newly created liquidity pools and stores each
pool's token address (`mint`) in a set of tracked addresses. Once a minute it
lists the tracked addresses and looks up market data for each one. It is meant
to keep the tokens whose first trading pair passes a fixed screen; as written
it keeps nothing (see Findings). To pass, the pair needs
a market cap of at least 50000 USD, USD liquidity of at least 10000, a
one-hour price change of at least 5 percent and a one-hour volume of at least
5000. These thresholds are the constants at data.js:60-63. The screen never
reads `baseToken` (`Screening.IdentityIgnored`).

This Dafny project models the pure logic of that loop. The HTTP lookup and the
Redis store are treated as parameters.

- `wrappers.dfy`: `Option` stands for absent JSON fields, `undefined` and
  `null`. `Result` stands for a thrown error.
- `screening.dfy` (module `Screening`): the trading-pair record and
  `filterMemeCoins`.
- `address_store.dfy` (module `AddressStore`): the feed's `message` handler,
  applied to single messages and to whole feeds, and the store listing.
- `pairs.dfy` (module `Pairs`): `fetchPriceAsPair`, where the outcome of the
  HTTP call is an input.
- `poll_cycle.dfy` (module `PollCycle`): the filter step of one poll cycle.
  It comes in two versions: the cycle as written, and the cycle with every
  lookup awaited (see Findings).

Metrics are `real`. JavaScript's `x || 0` becomes "absent reads as 0"
(`Screening.OrZero`). A present 0 also reads as 0, so the two cases give the
same value.

## Model

| member | source | states |
|---|---|---|
| Screening.Qualifies | data.js:59-76 | A pair qualifies exactly when market cap, `liquidity.usd`, `priceChange.h1` and `volume.h1` are all present and each reaches its threshold. Because every threshold is positive, an absent value (read as 0) always fails. |
| Screening.ThresholdsExactly | data.js:60-75 | When all four metrics are present, the pair qualifies if and only if market cap >= 50000, liquidity >= 10000, price change >= 5 and volume >= 5000. There is no weighting and no partial credit. |
| Screening.AtThresholdQualifies | data.js:71-74 | The comparisons are inclusive: a pair with every metric exactly at its threshold qualifies. |
| Screening.BelowThresholdFails | data.js:70-75 | One metric strictly below its threshold makes the pair fail, whatever the other three are. |
| Screening.MissingMetricFails | data.js:64-68 | A pair that lacks any of the four metrics, or lacks the object holding it, never qualifies. |
| Screening.Monotone | data.js:70-75 | If a pair qualifies, every pair that is at least as high on all four metrics also qualifies. |
| Screening.RaiseOneMetric | data.js:70-75 | Raising any single metric of a qualifying pair, with the other three fixed, keeps it qualifying. |
| Screening.IdentityIgnored | data.js:64-75 | Only the four metrics are read. Two pairs whose four readings agree are screened alike, whatever their `baseToken`, price or `liquidity.quote`. An absent metric and a present 0 count the same. |
| Screening.ExampleScenarios | data.js:60-75 | The pair (150000, 40000, 60, 120000) qualifies. It still qualifies with volume 50000, and fails with volume 4999. |
| AddressStore.OnMessage | data.js:41-46 | The handler adds the message's `mint` exactly when it is present and non-empty. Otherwise the store is unchanged. No other address is added or removed, and a store of non-empty addresses stays that way. |
| AddressStore.OnMessageIdempotent | data.js:45 | A repeated message is a no-op. A message whose address is already stored leaves the store unchanged. |
| AddressStore.IngestCollectsMints | data.js:41-46 | After any feed, the store is its old contents plus every non-empty `mint` the feed carried. |
| AddressStore.IngestReplayIdempotent | data.js:41-46 | Replaying a whole feed a second time leaves the store unchanged. |
| AddressStore.IngestPreservesValid | data.js:43-45 | If every stored address is non-empty before a feed, that still holds after it. |
| AddressStore.TrackedMints | data.js:15-23 | A successful listing yields the stored members; a failed store call yields the empty list. |
| AddressStore.ListingAfterFeed | data.js:15-23 | Listing a store after a feed yields exactly the old addresses plus the feed's non-empty `mint`s, and never an empty address. |
| Pairs.FirstPair | data.js:52-56 | The result is some pair exactly when `pairs` is present and non-empty, and that pair is `pairs[0]`. Otherwise the result is `null`. |
| Pairs.FetchPriceAsPair | data.js:48-57 | When the fetch helper yielded `undefined` (an error it swallowed), reading `data.pairs` throws. Otherwise the result is the first pair, or `null` when there is none. |
| Pairs.FirstPairIgnoresTail | data.js:52-53 | Pairs after the first never affect the selection. |
| PollCycle.FilterQualifying | data.js:88 | The filter keeps only qualifying snapshots. Each qualifying snapshot is kept as often as it occurs in the input. The output is a subsequence of the input, in the original order. |
| PollCycle.FilterComplete | data.js:88 | Every qualifying input snapshot appears in the output. |
| PollCycle.FilterIdempotent | data.js:88 | Filtering a filtered sequence again changes nothing. |
| PollCycle.Settle | data.js:82-86 | An empty address settles as `undefined`. A failed fetch settles as a thrown error, and only a failed fetch does. A lookup whose response has a first pair settles as that pair. |
| PollCycle.Lookups | data.js:82-86 | There is one lookup per listed address, in listing order, each settled by the per-address callback. |
| PollCycle.ValidListingIsLookedUp | data.js:82-83 | When the listing is of a store of non-empty addresses, the callback's `!mint` guard never fires. |
| PollCycle.Resolved | data.js:82-88 | The snapshots kept from the settled lookups are exactly those that settled as a pair. Each is kept as often as it settled, in settling order. |
| PollCycle.Cycle | data.js:79-88 | In the awaited cycle, a failed store read yields nothing. Every output snapshot qualifies and is the first pair of some tracked address. Every qualifying first pair appears in the output, as many times as listed addresses produced it. The output keeps the order in which the addresses were listed. |
| PollCycle.CycleAsWritten | data.js:82-88 | The cycle as written logs nothing, whatever the store and the market data hold. A lookup promise rejects, unhandled, exactly when some non-empty listed address had a failed fetch. |
| PollCycle.CycleDiscrepancy | data.js:82-88 | Take one tracked address whose only pair qualifies. The awaited cycle reports that pair, and the cycle as written reports nothing. |
| PollCycle.FailedFetchDiscrepancy | data.js:48-88 | Take two tracked addresses: the fetch for the first fails, and the second has a qualifying pair. The awaited cycle reports that pair. The cycle as written logs nothing and leaves a rejection unhandled. |

## Left out

- The WebSocket connection and its subscription request (data.js:32-39) are network I/O. The model starts from already-parsed feed messages. A message that fails `JSON.parse` is not modelled.
- A non-string `mint` is not modelled. A number or `true` would be stored in its string form, and an array would become several members. A payload that is not an object is not modelled either: `null` makes the destructuring at data.js:43 throw. The feed sends neither.
- The SIGINT shutdown handler (data.js:26-30) is process I/O.
- The Redis calls (`smembers` at data.js:17, `sadd` at data.js:45, `quit` at data.js:28, and print-tracked-stored.js) are external. The store is a `set<string>`, and a failed listing is the reply `StoreError`, which yields the empty list.
- The `setInterval` timer and the asynchronous fan-out (data.js:78-91) are left out. One cycle is one function call, so overlapping cycles are not modelled.
- `console.log` of the cycle's output (data.js:90) is output only.
- `fetchFromProxy` (fetch.js) makes an HTTP call through a proxy. Its outcome is a parameter: a parsed response, or the `undefined` it returns after an error.
- `sendTelegramMessage.js` makes an outbound HTTP POST. Nothing in `data.js` calls it.
- An "already alerted" set, at-most-once alerts, message formatting with K/M suffixes and block-explorer links: none of these exists in the code, which only logs the filtered list. They are not modelled.
- IEEE floating point is not modelled. In particular, `NaN || 0` would read as 0, and metric values that are not numbers are not considered.
- PollCycle.CycleAsWritten: reports that an unhandled rejection occurs but not what follows it (under Node's default mode the process ends), because process termination is outside the model.
- PollCycle.Cycle: this is the corrected cycle. It drops lookups that settle as `undefined`, `null` or a thrown error before filtering. Handed those values directly, `filterMemeCoins` would throw on `null.marketCap`.

## Findings

| source | as written | input that shows it | evidently intended | confidence | as-written member | corrected member |
|---|---|---|---|---|---|---|
| data.js:82-88 | The `map` callback is `async`, so `trackedMemes` holds pending Promises. `filter(filterMemeCoins)` reads `marketCap`, `liquidity`, `priceChange` and `volume` on each Promise, gets `undefined` for all of them, and rejects every element. | The store holds `["A"]`, and the lookup for "A" returns one pair (150000, 40000, 60, 120000), which qualifies. The output is still `[]`. | Await every lookup, then filter the resolved first pairs. | high (follows from Promise semantics; not executed) | PollCycle.CycleAsWritten | PollCycle.Cycle |
| data.js:48-88 | When `fetchFromProxy` swallows an error it returns `undefined`, so reading `data.pairs` throws. The rejected callback promise is never awaited, so the rejection is unhandled. | The store holds `["A", "B"]`, the fetch for "A" fails, and "B" has a qualifying pair. | Treat a failed lookup as "no pair" and still report "B". | medium (depends on Node's unhandled-rejection mode, which ends the process by default from Node 15; not executed) | PollCycle.CycleAsWritten | PollCycle.Cycle |
