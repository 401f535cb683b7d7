/**
 * Ticket generation, prize evaluation and the session store of the lottery
 * (src/features/lotto.ts).
 *
 * `Math.random()` is not modelled as a source of randomness: every operation
 * that calls it receives the values it returns as parameters, each a real
 * number in [0, 1).
 */
module Lotto {
  import opened Wrappers

  const MinNumber := 1
  const MaxNumber := 45
  /** The number of numbers on a ticket. */
  const LottoSize := 6

  predicate IsLottoNumber(n: int) {
    MinNumber <= n <= MaxNumber
  }

  predicate StrictlyAscending(s: seq<int>) {
    forall i, j :: 0 <= i < j < |s| ==> s[i] < s[j]
  }

  predicate Distinct(s: seq<int>) {
    forall i, j :: 0 <= i < j < |s| ==> s[i] != s[j]
  }

  /** A ticket: six lottery numbers in strictly ascending order. */
  predicate ValidLotto(lotto: seq<int>) {
    && |lotto| == LottoSize
    && (forall i :: 0 <= i < |lotto| ==> IsLottoNumber(lotto[i]))
    && StrictlyAscending(lotto)
  }

  function Elements(s: seq<int>): set<int> {
    set x | x in s
  }

  /** The winning numbers and the bonus number of one draw. */
  datatype WinningLotto = WinningLotto(numbers: seq<int>, bonusNumber: int)

  /** The six winning numbers form a ticket; the bonus is a lottery number that may equal one of them. */
  predicate ValidWinningLotto(w: WinningLotto) {
    ValidLotto(w.numbers) && IsLottoNumber(w.bonusNumber)
  }

  /** The prize tiers "1", "2", "3", "4", "5" and "none". */
  datatype LottoPrize = First | Second | Third | Fourth | Fifth | NoPrize

  lemma ValidLottoDistinct(lotto: seq<int>)
    requires ValidLotto(lotto)
    ensures Distinct(lotto)
  {
  }

  lemma {:induction false} DistinctElementsCard(s: seq<int>)
    requires Distinct(s)
    ensures |Elements(s)| == |s|
  {
    if |s| > 0 {
      DistinctElementsCard(s[1..]);
      assert Elements(s) == {s[0]} + Elements(s[1..]);
      assert s[0] !in Elements(s[1..]);
    }
  }

  // ---------------------------------------------------------------------------
  // Random numbers

  /** A value `Math.random()` can return. */
  predicate IsRandom(r: real) {
    0.0 <= r < 1.0
  }

  predicate AllRandom(random: seq<real>) {
    forall i :: 0 <= i < |random| ==> IsRandom(random[i])
  }

  /** pickLottoNumber: `Math.floor(random * 45) + 1` for the value `random` of `Math.random()`. */
  function PickLottoNumber(random: real): (n: int)
    requires IsRandom(random)
    ensures IsLottoNumber(n)
  {
    (random * 45.0).Floor + 1
  }

  /** Each lottery number is picked by exactly the random values of one interval of width 1/45. */
  lemma PickLottoNumberInterval(random: real, n: int)
    requires IsRandom(random) && IsLottoNumber(n)
    ensures PickLottoNumber(random) == n <==> (n - 1) as real <= random * 45.0 < n as real
  {
  }

  /** The set of numbers that the values `random` pick, one after the other. */
  function Picks(random: seq<real>): (s: set<int>)
    requires AllRandom(random)
    ensures forall n :: n in s ==> IsLottoNumber(n)
  {
    if |random| == 0 then {}
    else Picks(random[..|random| - 1]) + {PickLottoNumber(random[|random| - 1])}
  }

  lemma {:induction false} PicksOfPrefix(random: seq<real>, k: nat)
    requires AllRandom(random) && k <= |random|
    ensures Picks(random[..k]) <= Picks(random)
  {
    if k < |random| {
      var init := random[..|random| - 1];
      assert init[..k] == random[..k];
      PicksOfPrefix(init, k);
    } else {
      assert random[..k] == random;
    }
  }

  /** The random values of one generateLottoNumbers call eventually pick six distinct numbers. */
  predicate SuppliesLotto(random: seq<real>) {
    AllRandom(random) && |Picks(random)| >= LottoSize
  }

  // ---------------------------------------------------------------------------
  // generateLottoNumbers

  /** The members of `s` in [lo, 45], ascending. */
  function AscendingFrom(s: set<int>, lo: int): (r: seq<int>)
    ensures StrictlyAscending(r)
    ensures forall i :: 0 <= i < |r| ==> lo <= r[i] <= MaxNumber
    ensures Elements(r) == set x | x in s && lo <= x <= MaxNumber
    decreases MaxNumber + 1 - lo
  {
    if lo > MaxNumber then []
    else
      var rest := AscendingFrom(s, lo + 1);
      var r := if lo in s then [lo] + rest else rest;
      assert Elements(r) == (if lo in s then {lo} else {}) + Elements(rest);
      assert (set x | x in s && lo <= x <= MaxNumber)
          == (if lo in s then {lo} else {}) + (set x | x in s && lo + 1 <= x <= MaxNumber);
      r
  }

  /**
   * `Array.from(numbers).sort((a, b) => a - b)` for a set of lottery numbers:
   * the same numbers, each once, in ascending order.
   */
  function SortAscending(numbers: set<int>): (r: seq<int>)
    requires forall n :: n in numbers ==> IsLottoNumber(n)
    ensures StrictlyAscending(r) && Elements(r) == numbers && |r| == |numbers|
  {
    var r := AscendingFrom(numbers, MinNumber);
    assert forall x :: x in numbers ==> IsLottoNumber(x);
    assert (set x | x in numbers && MinNumber <= x <= MaxNumber) == numbers;
    DistinctElementsCard(r);
    r
  }

  /**
   * generateLottoNumbers: add picked numbers to a set until it holds six, then
   * sort them. `random` holds the values `Math.random()` returns during the
   * call; `used` is how many of them the loop consumed.
   */
  method GenerateLottoNumbers(random: seq<real>) returns (lotto: seq<int>, used: nat)
    requires SuppliesLotto(random)
    ensures ValidLotto(lotto)
    ensures used <= |random| && Elements(lotto) == Picks(random[..used])
    ensures forall j :: 0 <= j < used ==> |Picks(random[..j])| < LottoSize
  {
    var numbers: set<int> := {};
    used := 0;
    assert random[..|random|] == random;
    while |numbers| < LottoSize
      invariant used <= |random|
      invariant numbers == Picks(random[..used])
      invariant |numbers| <= LottoSize
      invariant forall j :: 0 <= j < used ==> |Picks(random[..j])| < LottoSize
      decreases |random| - used
    {
      assert random[..used + 1][..used] == random[..used];
      numbers := numbers + {PickLottoNumber(random[used])};
      used := used + 1;
    }
    lotto := SortAscending(numbers);
  }

  // ---------------------------------------------------------------------------
  // getLottoPrize

  /** How many numbers of `lotto` appear among `numbers` (`lotto.filter(n => numbers.includes(n)).length`). */
  function MatchedCount(lotto: seq<int>, numbers: seq<int>): (count: nat)
    ensures count <= |lotto|
  {
    if |lotto| == 0 then 0
    else (if lotto[0] in numbers then 1 else 0) + MatchedCount(lotto[1..], numbers)
  }

  /** Taking the first number off a ticket takes it out of the shared numbers, if it was shared and not repeated. */
  lemma SharedWithoutFirst(lotto: seq<int>, numbers: seq<int>)
    requires |lotto| > 0 && lotto[0] !in lotto[1..]
    ensures |Elements(lotto) * Elements(numbers)|
         == |Elements(lotto[1..]) * Elements(numbers)| + (if lotto[0] in numbers then 1 else 0)
  {
    var first, rest := lotto[0], lotto[1..];
    var shared, sharedRest := Elements(lotto) * Elements(numbers), Elements(rest) * Elements(numbers);
    assert Elements(lotto) == {first} + Elements(rest);
    if first in numbers {
      assert shared == sharedRest + {first};
    } else {
      assert shared == sharedRest;
    }
  }

  /** On a ticket without repeated numbers, the matched count is the number of numbers it shares with the draw. */
  lemma {:induction false} MatchedCountIsShared(lotto: seq<int>, numbers: seq<int>)
    requires Distinct(lotto)
    ensures MatchedCount(lotto, numbers) == |Elements(lotto) * Elements(numbers)|
  {
    if |lotto| > 0 {
      var rest := lotto[1..];
      assert Distinct(rest) by {
        forall i, j | 0 <= i < j < |rest| ensures rest[i] != rest[j] {
          assert rest[i] == lotto[i + 1] && rest[j] == lotto[j + 1];
        }
      }
      assert lotto[0] !in rest by {
        forall j | 0 <= j < |rest| ensures rest[j] != lotto[0] {
          assert rest[j] == lotto[j + 1];
        }
      }
      MatchedCountIsShared(rest, numbers);
      SharedWithoutFirst(lotto, numbers);
    }
  }

  /**
   * getLottoPrize: the prize tier of one ticket against the winning draw. A
   * ticket wins something exactly when three to six of its entries are
   * winning numbers, and the bonus number only splits five matches into the
   * second and the third tier.
   */
  function GetLottoPrize(lotto: seq<int>, winningLotto: WinningLotto): (prize: LottoPrize)
    ensures prize != NoPrize <==> 3 <= MatchedCount(lotto, winningLotto.numbers) <= 6
    ensures prize == Second || prize == Third <==> MatchedCount(lotto, winningLotto.numbers) == 5
    ensures prize == Second <==> MatchedCount(lotto, winningLotto.numbers) == 5 && winningLotto.bonusNumber in lotto
  {
    var hasBonusNumber := winningLotto.bonusNumber in lotto;
    var matchedCount := MatchedCount(lotto, winningLotto.numbers);
    if matchedCount == 6 then First
    else if matchedCount == 5 then (if hasBonusNumber then Second else Third)
    else if matchedCount == 4 then Fourth
    else if matchedCount == 3 then Fifth
    else NoPrize
  }

  /**
   * The prize of a ticket without repeated numbers, stated on the set of
   * numbers it shares with the winning numbers; the bonus number only decides
   * between the second and the third tier.
   */
  lemma PrizeTiers(lotto: seq<int>, winningLotto: WinningLotto)
    requires Distinct(lotto)
    ensures var shared := |Elements(lotto) * Elements(winningLotto.numbers)|;
            var hasBonus := winningLotto.bonusNumber in Elements(lotto);
            var prize := GetLottoPrize(lotto, winningLotto);
            && (prize == First <==> shared == 6)
            && (prize == Second <==> shared == 5 && hasBonus)
            && (prize == Third <==> shared == 5 && !hasBonus)
            && (prize == Fourth <==> shared == 4)
            && (prize == Fifth <==> shared == 3)
            && (prize == NoPrize <==> shared < 3 || shared > 6)
  {
    MatchedCountIsShared(lotto, winningLotto.numbers);
  }

  /** Unless exactly five numbers match, the bonus number does not affect the prize. */
  lemma PrizeIgnoresBonusUnlessFiveMatched(lotto: seq<int>, winningLotto: WinningLotto, bonusNumber: int)
    requires MatchedCount(lotto, winningLotto.numbers) != 5
    ensures GetLottoPrize(lotto, winningLotto) == GetLottoPrize(lotto, winningLotto.(bonusNumber := bonusNumber))
  {
  }

  /** On six numbers, the matched count adds up the six membership tests. */
  lemma MatchedCountOfSix(lotto: seq<int>, numbers: seq<int>)
    requires |lotto| == 6
    ensures MatchedCount(lotto, numbers)
         == (if lotto[0] in numbers then 1 else 0) + (if lotto[1] in numbers then 1 else 0)
          + (if lotto[2] in numbers then 1 else 0) + (if lotto[3] in numbers then 1 else 0)
          + (if lotto[4] in numbers then 1 else 0) + (if lotto[5] in numbers then 1 else 0)
  {
    var n := numbers;
    assert lotto[5..][1..] == [];
    assert MatchedCount(lotto[5..], n) == (if lotto[5] in n then 1 else 0);
    assert lotto[4..][1..] == lotto[5..];
    assert MatchedCount(lotto[4..], n) == (if lotto[4] in n then 1 else 0) + MatchedCount(lotto[5..], n);
    assert lotto[3..][1..] == lotto[4..];
    assert MatchedCount(lotto[3..], n) == (if lotto[3] in n then 1 else 0) + MatchedCount(lotto[4..], n);
    assert lotto[2..][1..] == lotto[3..];
    assert MatchedCount(lotto[2..], n) == (if lotto[2] in n then 1 else 0) + MatchedCount(lotto[3..], n);
    assert lotto[1..][1..] == lotto[2..];
  }

  /*
   * The prize scenarios, each against the draw 1 to 6 with bonus 7. Each lemma
   * takes the ticket and the draw as parameters equal to the literals, so that
   * a caller's context does not unfold the prize on the literals again.
   */

  /** [1, 2, 3, 4, 5, 6]: six numbers match. */
  lemma PrizeScenarioFirst(lotto: seq<int>, winningLotto: WinningLotto)
    requires lotto == [1, 2, 3, 4, 5, 6] && winningLotto == WinningLotto([1, 2, 3, 4, 5, 6], 7)
    ensures GetLottoPrize(lotto, winningLotto) == First
  {
    MatchedCountOfSix(lotto, winningLotto.numbers);
  }

  /** [1, 2, 3, 4, 5, 7]: five numbers and the bonus match. */
  lemma PrizeScenarioSecond(lotto: seq<int>, winningLotto: WinningLotto)
    requires lotto == [1, 2, 3, 4, 5, 7] && winningLotto == WinningLotto([1, 2, 3, 4, 5, 6], 7)
    ensures GetLottoPrize(lotto, winningLotto) == Second
  {
    MatchedCountOfSix(lotto, winningLotto.numbers);
  }

  /** [1, 2, 3, 4, 5, 8]: five numbers match, the bonus does not. */
  lemma PrizeScenarioThird(lotto: seq<int>, winningLotto: WinningLotto)
    requires lotto == [1, 2, 3, 4, 5, 8] && winningLotto == WinningLotto([1, 2, 3, 4, 5, 6], 7)
    ensures GetLottoPrize(lotto, winningLotto) == Third
  {
    var numbers := winningLotto.numbers;
    assert lotto[0] in numbers && lotto[1] in numbers && lotto[2] in numbers;
    assert lotto[3] in numbers && lotto[4] in numbers && lotto[5] !in numbers;
    MatchedCountOfSix(lotto, numbers);
    assert winningLotto.bonusNumber !in lotto;
  }

  /** [1, 2, 3, 4, 7, 8]: four numbers match. */
  lemma PrizeScenarioFourth(lotto: seq<int>, winningLotto: WinningLotto)
    requires lotto == [1, 2, 3, 4, 7, 8] && winningLotto == WinningLotto([1, 2, 3, 4, 5, 6], 7)
    ensures GetLottoPrize(lotto, winningLotto) == Fourth
  {
    MatchedCountOfSix(lotto, winningLotto.numbers);
  }

  /** [1, 2, 3, 7, 8, 9]: three numbers match. */
  lemma PrizeScenarioFifth(lotto: seq<int>, winningLotto: WinningLotto)
    requires lotto == [1, 2, 3, 7, 8, 9] && winningLotto == WinningLotto([1, 2, 3, 4, 5, 6], 7)
    ensures GetLottoPrize(lotto, winningLotto) == Fifth
  {
    MatchedCountOfSix(lotto, winningLotto.numbers);
  }

  /** [7, 8, 9, 10, 11, 12]: no number matches. */
  lemma PrizeScenarioNone(lotto: seq<int>, winningLotto: WinningLotto)
    requires lotto == [7, 8, 9, 10, 11, 12] && winningLotto == WinningLotto([1, 2, 3, 4, 5, 6], 7)
    ensures GetLottoPrize(lotto, winningLotto) == NoPrize
  {
    MatchedCountOfSix(lotto, winningLotto.numbers);
  }

  // ---------------------------------------------------------------------------
  // getLottoPrizeCountByPrize

  /** getLottoPrizeCountByPrize: how many of the tickets `lottos` win `prize`. */
  function GetLottoPrizeCountByPrize(lottos: seq<seq<int>>, winningLotto: WinningLotto, prize: LottoPrize): (count: nat)
    ensures count <= |lottos|
  {
    if |lottos| == 0 then 0
    else
      (if GetLottoPrize(lottos[0], winningLotto) == prize then 1 else 0)
      + GetLottoPrizeCountByPrize(lottos[1..], winningLotto, prize)
  }

  /** The counts of the six tiers add up to the number of tickets: every ticket lands in exactly one tier. */
  lemma {:induction false} PrizeCountsPartition(lottos: seq<seq<int>>, winningLotto: WinningLotto)
    ensures GetLottoPrizeCountByPrize(lottos, winningLotto, First)
          + GetLottoPrizeCountByPrize(lottos, winningLotto, Second)
          + GetLottoPrizeCountByPrize(lottos, winningLotto, Third)
          + GetLottoPrizeCountByPrize(lottos, winningLotto, Fourth)
          + GetLottoPrizeCountByPrize(lottos, winningLotto, Fifth)
          + GetLottoPrizeCountByPrize(lottos, winningLotto, NoPrize)
          == |lottos|
  {
    if |lottos| > 0 {
      PrizeCountsPartition(lottos[1..], winningLotto);
    }
  }

  /** Counting is additive over a ticket list split in two, e.g. the tickets of two purchases. */
  lemma {:induction false} PrizeCountOfConcat(a: seq<seq<int>>, b: seq<seq<int>>, winningLotto: WinningLotto, prize: LottoPrize)
    ensures GetLottoPrizeCountByPrize(a + b, winningLotto, prize)
         == GetLottoPrizeCountByPrize(a, winningLotto, prize) + GetLottoPrizeCountByPrize(b, winningLotto, prize)
  {
    if |a| > 0 {
      assert (a + b)[1..] == a[1..] + b;
      PrizeCountOfConcat(a[1..], b, winningLotto, prize);
    } else {
      assert a + b == b;
    }
  }

  /** Six tickets that land in the six tiers, in order, give a count of one for every tier. */
  lemma OneTicketPerTier(lottos: seq<seq<int>>, winningLotto: WinningLotto, prize: LottoPrize)
    requires |lottos| == 6
    requires GetLottoPrize(lottos[0], winningLotto) == First
    requires GetLottoPrize(lottos[1], winningLotto) == Second
    requires GetLottoPrize(lottos[2], winningLotto) == Third
    requires GetLottoPrize(lottos[3], winningLotto) == Fourth
    requires GetLottoPrize(lottos[4], winningLotto) == Fifth
    requires GetLottoPrize(lottos[5], winningLotto) == NoPrize
    ensures GetLottoPrizeCountByPrize(lottos, winningLotto, prize) == 1
  {
    var l, w := lottos, winningLotto;
    assert l[5..][1..] == l[6..] && l[4..][1..] == l[5..] && l[3..][1..] == l[4..];
    assert l[2..][1..] == l[3..] && l[1..][1..] == l[2..];
    assert GetLottoPrizeCountByPrize(l[5..], w, prize) == if prize == NoPrize then 1 else 0;
    assert GetLottoPrizeCountByPrize(l[4..], w, prize) == if prize in {Fifth, NoPrize} then 1 else 0;
    assert GetLottoPrizeCountByPrize(l[3..], w, prize) == if prize in {Fourth, Fifth, NoPrize} then 1 else 0;
    assert GetLottoPrizeCountByPrize(l[2..], w, prize) == if prize in {Third, Fourth, Fifth, NoPrize} then 1 else 0;
    assert GetLottoPrizeCountByPrize(l[1..], w, prize) == if prize != First then 1 else 0;
  }

  /** The six scenario tickets against the draw 1 to 6 with bonus 7: one ticket in every tier. */
  lemma PrizeCountScenario(lottos: seq<seq<int>>, winningLotto: WinningLotto, prize: LottoPrize)
    requires lottos == [[1, 2, 3, 4, 5, 6], [1, 2, 3, 4, 5, 7], [1, 2, 3, 4, 5, 8],
                        [1, 2, 3, 4, 7, 8], [1, 2, 3, 7, 8, 9], [7, 8, 9, 10, 11, 12]]
    requires winningLotto == WinningLotto([1, 2, 3, 4, 5, 6], 7)
    ensures GetLottoPrizeCountByPrize(lottos, winningLotto, prize) == 1
  {
    var l, w := lottos, winningLotto;
    assert l[0] == [1, 2, 3, 4, 5, 6] && l[1] == [1, 2, 3, 4, 5, 7] && l[2] == [1, 2, 3, 4, 5, 8];
    assert l[3] == [1, 2, 3, 4, 7, 8] && l[4] == [1, 2, 3, 7, 8, 9] && l[5] == [7, 8, 9, 10, 11, 12];
    PrizeScenarioFirst(l[0], w);
    PrizeScenarioSecond(l[1], w);
    PrizeScenarioThird(l[2], w);
    PrizeScenarioFourth(l[3], w);
    PrizeScenarioFifth(l[4], w);
    PrizeScenarioNone(l[5], w);
    OneTicketPerTier(l, w, prize);
  }

  /** The argument object of getLottoPrizeCountByPrize, with the name of the property that holds the ticket list. */
  datatype PrizeCountArgs = PrizeCountArgs(ticketsKey: string, tickets: seq<seq<int>>, winningLotto: WinningLotto, prize: LottoPrize)

  /** Calling `filter` on the `undefined` that a missing property reads as. */
  datatype TypeError = FilterOfUndefined

  /**
   * getLottoPrizeCountByPrize as written: it destructures a property named
   * `lotto`, so an argument object that holds the tickets under any other name
   * leaves it `undefined`, and calling `filter` on that throws.
   */
  function GetLottoPrizeCountByPrizeAsWritten(args: PrizeCountArgs): (r: Result<nat, TypeError>)
    ensures r.Success? <==> args.ticketsKey == "lotto"
    ensures r.Success? ==> r.value <= |args.tickets|
  {
    if args.ticketsKey == "lotto" then Success(GetLottoPrizeCountByPrize(args.tickets, args.winningLotto, args.prize))
    else Failure(FilterOfUndefined)
  }

  /** Every caller passes the tickets as `lottos`, so as written every call throws, even on the scenario tickets. */
  lemma CallersOfPrizeCountThrow(tickets: seq<seq<int>>, winningLotto: WinningLotto, prize: LottoPrize)
    ensures GetLottoPrizeCountByPrizeAsWritten(PrizeCountArgs("lottos", tickets, winningLotto, prize)) == Failure(FilterOfUndefined)
  {
    assert "lottos" != "lotto" by { assert |"lottos"| != |"lotto"|; }
  }

  // ---------------------------------------------------------------------------
  // The session store (useLottoStore)

  /** The store's state: the purchased tickets, in purchase order, and the draw once the result is shown. */
  class LottoStore {
    var purchasedLotto: seq<seq<int>>
    var winningLotto: Option<WinningLotto>

    ghost predicate Valid()
      reads this
    {
      && (forall k :: 0 <= k < |purchasedLotto| ==> ValidLotto(purchasedLotto[k]))
      && (winningLotto.Some? ==> ValidWinningLotto(winningLotto.value))
    }

    /** The default state: no tickets, no draw. */
    constructor ()
      ensures Valid()
      ensures purchasedLotto == [] && winningLotto == None
    {
      purchasedLotto := [];
      winningLotto := None;
    }

    /**
     * purchaseLottoByAmount: generate `amount` tickets and append them.
     * `random[k]` holds the values `Math.random()` returns while the k-th new
     * ticket is generated.
     */
    method PurchaseLottoByAmount(amount: nat, random: seq<seq<real>>)
      requires Valid()
      requires |random| == amount
      requires forall k :: 0 <= k < amount ==> SuppliesLotto(random[k])
      modifies this
      ensures Valid()
      ensures |purchasedLotto| == |old(purchasedLotto)| + amount
      ensures purchasedLotto[..|old(purchasedLotto)|] == old(purchasedLotto)
      ensures forall k :: 0 <= k < amount ==>
                SuppliesLotto(random[k]) && Elements(purchasedLotto[|old(purchasedLotto)| + k]) <= Picks(random[k])
      ensures winningLotto == old(winningLotto)
    {
      var newLotto: seq<seq<int>> := [];
      var k := 0;
      while k < amount
        invariant k <= amount && |newLotto| == k
        invariant purchasedLotto == old(purchasedLotto) && winningLotto == old(winningLotto)
        invariant forall j :: 0 <= j < k ==> ValidLotto(newLotto[j]) && Elements(newLotto[j]) <= Picks(random[j])
      {
        var lotto, used := GenerateLottoNumbers(random[k]);
        PicksOfPrefix(random[k], used);
        newLotto := newLotto + [lotto];
        k := k + 1;
      }
      purchasedLotto := purchasedLotto + newLotto;
    }

    /**
     * showResult: draw the winning numbers and, independently, the bonus
     * number; the tickets stay as they are.
     */
    method ShowResult(random: seq<real>, bonusRandom: real)
      requires Valid()
      requires SuppliesLotto(random) && IsRandom(bonusRandom)
      modifies this
      ensures Valid()
      ensures winningLotto.Some?
      ensures Elements(winningLotto.value.numbers) <= Picks(random)
      ensures winningLotto.value.bonusNumber == PickLottoNumber(bonusRandom)
      ensures purchasedLotto == old(purchasedLotto)
    {
      var numbers, used := GenerateLottoNumbers(random);
      PicksOfPrefix(random, used);
      winningLotto := Some(WinningLotto(numbers, PickLottoNumber(bonusRandom)));
    }

    /** startOver: back to the default state from any state. */
    method StartOver()
      modifies this
      ensures Valid()
      ensures purchasedLotto == [] && winningLotto == None
    {
      purchasedLotto := [];
      winningLotto := None;
    }
  }
}
