# Lotto: a verified model of the ticket, prize, statistics and history logic

This project models the logic of a small lottery web application. A player buys
tickets of six distinct numbers from 1 to 45 and sees a winning draw of six
numbers plus a bonus number. Each ticket is graded into one of five prize tiers
or no prize. Past rounds are kept in a history capped at 100 entries. From the
history the application reports the number drawn most often.

The model has four modules:

- `Wrappers` (`wrappers.dfy`): `Option` and `Result`.
- `Lotto` (`lotto.dfy`), for `src/features/lotto.ts`:
  - picking a number, generating a ticket, grading a ticket and counting a tier;
  - the session store as the class `LottoStore`, with the fields `purchasedLotto`
    and `winningLotto` and the operations that replace them.
- `Statistics` (`statistics.dfy`), for `src/features/statistics.ts`:
  - the counting loop over a map;
  - the choice of the most frequent number;
  - all of it against a specification by per-number frequency.
- `History` (`history.dfy`), for `src/features/history.ts`:
  - the storage slot as the class `LottoHistoryStorage`;
  - the fail-soft read, and the bounded prepend-and-truncate write.

`Math.random()` is an input. Every operation that draws numbers takes the real
values in [0, 1) it would have drawn, so `pickLottoNumber` is
`floor(r * 45) + 1` of its argument.

## Model

| member | source | states |
|---|---|---|
| Lotto.ValidLottoDistinct | src/features/lotto.ts:6 | a ticket (six strictly ascending numbers in range) has no repeated number |
| Lotto.DistinctElementsCard | src/features/lotto.test.ts:29-38 | a list without repeats has as many distinct members as entries, so a valid ticket has six distinct numbers |
| Lotto.PickLottoNumber | src/features/lotto.ts:29-31 | every pick is an integer in [1,45] |
| Lotto.PickLottoNumberInterval | src/features/lotto.ts:29-31 | a pick is n exactly when the random value lies in [(n-1)/45, n/45), so every number in [1,45] has an equal share of [0,1) |
| Lotto.Picks | src/features/lotto.ts:39-41 | the set of numbers a run of random values picks holds only numbers in [1,45] |
| Lotto.PicksOfPrefix | src/features/lotto.ts:39-41 | consuming fewer random values picks a subset of the numbers |
| Lotto.AscendingFrom | src/features/lotto.ts:43 | the members of a set from a lower bound up to 45, strictly ascending, with exactly those members |
| Lotto.SortAscending | src/features/lotto.ts:43 | sorting a set of lottery numbers numerically gives a strictly ascending list with exactly the set's members and its size |
| Lotto.GenerateLottoNumbers | src/features/lotto.ts:36-46 | the result is a valid ticket (six numbers, strictly ascending, in [1,45]) whose numbers are exactly those picked; the loop stops at the first random value that brings the set to six |
| Lotto.MatchedCount | src/features/lotto.ts:57-59 | the number of ticket entries found among the winning numbers never exceeds the ticket's length |
| Lotto.MatchedCountIsShared | src/features/lotto.ts:57-59 | for a ticket without repeats, that count is the number of numbers the ticket and the draw share |
| Lotto.GetLottoPrize | src/features/lotto.ts:51-73 | the tier of one ticket: a prize exactly when three to six entries are winning numbers; five matches give Second or Third, Second exactly when the ticket also holds the bonus (the full case split is PrizeTiers, on the shared numbers via MatchedCountIsShared) |
| Lotto.PrizeTiers | src/features/lotto.ts:51-73 | the tier is First iff 6 numbers are shared, Second iff 5 plus the bonus, Third iff 5 without the bonus, Fourth iff 4, Fifth iff 3, and no prize otherwise |
| Lotto.PrizeIgnoresBonusUnlessFiveMatched | src/features/lotto.ts:55-72 | changing the bonus number changes nothing unless exactly five numbers match |
| Lotto.PrizeScenarioFirst | src/features/lotto.test.ts:49-51 | the ticket 1-6 against draw 1-6 with bonus 7 wins First |
| Lotto.PrizeScenarioSecond | src/features/lotto.test.ts:53-55 | the ticket 1,2,3,4,5,7 wins Second |
| Lotto.PrizeScenarioThird | src/features/lotto.test.ts:57-59 | the ticket 1,2,3,4,5,8 wins Third |
| Lotto.PrizeScenarioFourth | src/features/lotto.test.ts:61-63 | the ticket 1,2,3,4,7,8 wins Fourth |
| Lotto.PrizeScenarioFifth | src/features/lotto.test.ts:65-67 | the ticket 1,2,3,7,8,9 wins Fifth |
| Lotto.PrizeScenarioNone | src/features/lotto.test.ts:69-71 | the ticket 7-12 wins nothing |
| Lotto.GetLottoPrizeCountByPrize | src/features/lotto.ts:78-90 | the number of tickets in a tier is at most the number of tickets |
| Lotto.PrizeCountsPartition | src/features/lotto.ts:78-90 | the six tier counts add up to the number of tickets: every ticket is in exactly one tier |
| Lotto.PrizeCountOfConcat | src/features/lotto.ts:78-90 | the count over two lists of tickets joined is the sum of their counts |
| Lotto.OneTicketPerTier | src/features/lotto.ts:78-90 | six tickets graded First to no prize, in order, give every tier a count of one |
| Lotto.PrizeCountScenario | src/features/lotto.test.ts:74-113 | the six scenario tickets give each tier, including no prize, a count of one |
| Lotto.GetLottoPrizeCountByPrizeAsWritten | src/features/lotto.ts:78-90 | as written, the call succeeds exactly when the tickets are passed under the name `lotto`, and then counts at most that many tickets |
| Lotto.CallersOfPrizeCountThrow | src/App.tsx:186-187 | with the tickets passed as `lottos`, as every caller does, the call as written fails |
| Lotto.LottoStore.constructor | src/features/lotto.ts:103-109 | the store starts with no tickets and no draw |
| Lotto.LottoStore.PurchaseLottoByAmount | src/features/lotto.ts:113-121 | `amount` new valid tickets are appended after the old ones, each made of numbers its random values picked; the draw is unchanged |
| Lotto.LottoStore.ShowResult | src/features/lotto.ts:125-132 | the draw is set to a valid ticket of picked numbers and a picked bonus number; the tickets are unchanged |
| Lotto.LottoStore.StartOver | src/features/lotto.ts:136-138 | the store is back to no tickets and no draw |
| Statistics.AllWinningLottoNumbers | src/features/statistics.ts:9-11 | a number is in the flattened list exactly when it is a winning number of some draw |
| Statistics.AllBonusNumbers | src/features/statistics.ts:12-14 | one bonus number per draw, in draw order |
| Statistics.AllNumbers | src/features/statistics.ts:15 | the winning numbers followed by the bonus numbers: every number occurs as often as it was drawn, a bonus counting like a winning number |
| Statistics.CountIsFrequency | src/features/statistics.ts:9-15 | in the flattened list, every number occurs as often as it was drawn, a bonus counting like a winning number |
| Statistics.FrequentIsDrawn | src/features/statistics.ts:9-15 | a number that occurs is a winning or bonus number of some draw |
| Statistics.CountNumbers | src/features/statistics.ts:17-28 | the map has a key for exactly the numbers in the list, each mapped to how often it occurs |
| Statistics.Smallest | src/features/statistics.ts:30 | the smallest number in the list, where `Object.entries` starts for integer keys |
| Statistics.Largest | src/features/statistics.ts:30 | the largest number in the list, where `Object.entries` ends for integer keys |
| Statistics.FirstMostFrequentKey | src/features/statistics.ts:30-34 | the key chosen has the largest count, and every smaller key has a strictly smaller count: the entry a stable descending sort puts first |
| Statistics.GetMostFrequentWinningLottoNumber | src/features/statistics.ts:6-35 | the result is drawn, no number is drawn more often, and every smaller number is drawn strictly less often; it is a number of some draw |
| Statistics.MostFrequentIsUnique | src/features/statistics.ts:30-34 | at most one number meets that description, so the result is determined |
| Statistics.FrequencyOfConcat | src/features/statistics.ts:9-15 | the frequency over two lists of draws joined is the sum of their frequencies |
| Statistics.FrequencyWithout | src/features/statistics.ts:9-15 | removing one draw removes its weight from the frequency |
| Statistics.FrequencyPermutation | src/features/statistics.ts:9-28 | frequencies do not depend on the order of the draws |
| Statistics.MostFrequentPermutation | src/features/statistics.ts:6-35 | reordering the draws does not change the most frequent number |
| Statistics.BonusWeighsLikeWinningNumber | src/features/statistics.ts:15 | swapping a draw's bonus with one of its winning numbers changes no count |
| Statistics.SingleDrawScenario | src/features/statistics.ts:6-35 | for the single draw 1-6 with bonus 7, all seven numbers tie and 1 is reported |
| History.PrependBounded | src/features/history.ts:5-36 | the new list holds at most 100 entries. The new entry comes first. The previous first min(99, n) entries follow in order. It grows by one below 100 and stays at 100 otherwise |
| History.LottoHistoryStorage.GetLottoHistory | src/features/history.ts:22-29 | the stored list when the slot parses; the empty list when it is missing, empty or unparsable |
| History.LottoHistoryStorage.AddLottoHistory | src/features/history.ts:31-38 | the slot now holds the bounded prepend of the previous history; reading it back gives `([entry] + old)[..min(100, old + 1)]`, at most 100 long and starting with the entry |
| History.LottoHistoryStorage.constructor | src/features/history.ts:3 | the storage slot starts with the given content |
| History.PrependTake | src/features/history.ts:36 | truncating before prepending is the same as truncating after, for a cut no longer than the list |
| History.AddAllKeepsMostRecent | src/features/history.ts:31-38 | after any number of additions the history is the new entries in reverse order of addition (newest first), then the previous history, cut to 100 |
| History.OldestDroppedAfter101Adds | src/features/history.ts:5-36 | from an empty history, 101 additions keep exactly the last 100, newest first; the first entry added is gone |

## Left out

- `Math.random()` returns a binary floating-point value; the model treats it as an exact real in [0, 1), so `floor(r * 45)` involves no rounding.
- The random stream is passed in as parameters: one sequence of values per generated ticket, plus one value for the bonus number.
- Lotto.GenerateLottoNumbers: requires random values that pick at least six distinct numbers. The source loops until it has them, which happens with probability one but is not bounded, so the model does not capture a run that never stops.
- The numeric sort of `Array.from(numbers).sort(...)` is modelled by its result (the set in ascending order), not as an in-place sort of an array.
- Lotto.LottoStore.PurchaseLottoByAmount: the amount is a natural number. The price check and the division by `LOTTO_PRICE` happen in the page's event handler, which is not part of this model. So is the rest of src/App.tsx.
- Zustand's `create`/`set` merge is modelled as direct field updates of `LottoStore`; subscriptions and re-rendering are not modelled.
- Statistics.FirstMostFrequentKey: visits the keys in ascending numeric order. `Object.entries` uses that order only for keys that are array indices (integers from 0 to 2^32 - 2). Negative, fractional or very large numbers would come out in insertion order as strings. Lottery draws never hold such numbers.
- Statistics.GetMostFrequentWinningLottoNumber: requires at least one draw. The source reads `sorted[0][0]` and its only caller calls it with three draws or more.
- `localStorage`, `JSON.parse` and `JSON.stringify` are abstracted into `StorageItem`. The slot holds nothing, an empty string, text that fails to parse, or a parsed list. Valid JSON that is not a list of entries is not modelled. The write is assumed to round-trip through JSON unchanged.
- Entry `id` and `createdAt` are opaque strings supplied by the caller. Their uniqueness and format are not modelled.

## Findings

| source | as written | input that shows it | evidently intended | confidence | as-written member | corrected member |
|---|---|---|---|---|---|---|
| src/features/lotto.ts:78-90 | the function destructures the ticket list from a property named `lotto`, but its callers (src/App.tsx:186-187, 244-245) and its test (src/features/lotto.test.ts:91) pass it as `lottos`, so `lotto` is `undefined` and `lotto.filter` throws a TypeError | `{ lottos: [[1,2,3,4,5,6]], winningLotto: { numbers: [1,2,3,4,5,6], bonusNumber: 7 }, prize: "1" }` | count the tickets passed as `lottos` that win `prize` | not executed | Lotto.CallersOfPrizeCountThrow | Lotto.GetLottoPrizeCountByPrize |
