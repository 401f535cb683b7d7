/**
 * The most frequent number among past winning draws
 * (src/features/statistics.ts).
 */
module Statistics {
  import opened Lotto

  /** `winningLottos.flatMap(w => w.numbers)`: exactly the winning numbers of the draws. */
  function AllWinningLottoNumbers(winningLottos: seq<WinningLotto>): (all: seq<int>)
    ensures forall k, x :: 0 <= k < |winningLottos| && x in winningLottos[k].numbers ==> x in all
    ensures forall x :: x in all ==> exists k :: 0 <= k < |winningLottos| && x in winningLottos[k].numbers
  {
    if |winningLottos| == 0 then []
    else
      var init := winningLottos[..|winningLottos| - 1];
      var all := AllWinningLottoNumbers(init) + winningLottos[|winningLottos| - 1].numbers;
      assert forall k :: 0 <= k < |init| ==> init[k] == winningLottos[k];
      all
  }

  /** `winningLottos.map(w => w.bonusNumber)`. */
  function AllBonusNumbers(winningLottos: seq<WinningLotto>): (bonuses: seq<int>)
    ensures |bonuses| == |winningLottos|
    ensures forall k :: 0 <= k < |winningLottos| ==> bonuses[k] == winningLottos[k].bonusNumber
  {
    if |winningLottos| == 0 then []
    else AllBonusNumbers(winningLottos[..|winningLottos| - 1]) + [winningLottos[|winningLottos| - 1].bonusNumber]
  }

  /**
   * `[...allWinningLottoNumbers, ...allBonusNumbers]`: every number occurs in
   * it as often as it was drawn, a bonus number counting like a winning number.
   */
  function AllNumbers(winningLottos: seq<WinningLotto>): (all: seq<int>)
    ensures forall x :: multiset(all)[x] == Frequency(winningLottos, x)
  {
    assert forall x :: multiset(AllWinningLottoNumbers(winningLottos) + AllBonusNumbers(winningLottos))[x] == Frequency(winningLottos, x) by {
      forall x ensures multiset(AllWinningLottoNumbers(winningLottos) + AllBonusNumbers(winningLottos))[x] == Frequency(winningLottos, x) {
        CountIsFrequency(winningLottos, x);
      }
    }
    AllWinningLottoNumbers(winningLottos) + AllBonusNumbers(winningLottos)
  }

  /** What one draw adds to the count of `x`: one per occurrence among its numbers, one more if it is the bonus. */
  function DrawWeight(w: WinningLotto, x: int): nat {
    multiset(w.numbers)[x] + if w.bonusNumber == x then 1 else 0
  }

  /** How often `x` was drawn, the bonus counted like a winning number. */
  function Frequency(winningLottos: seq<WinningLotto>, x: int): nat {
    if |winningLottos| == 0 then 0
    else Frequency(winningLottos[..|winningLottos| - 1], x) + DrawWeight(winningLottos[|winningLottos| - 1], x)
  }

  /**
   * `n` is drawn, no number is drawn more often, and every smaller number is
   * drawn strictly less often: the most frequent number, the smallest on a tie.
   */
  ghost predicate IsMostFrequent(winningLottos: seq<WinningLotto>, n: int) {
    && Frequency(winningLottos, n) > 0
    && (forall x :: Frequency(winningLottos, x) <= Frequency(winningLottos, n))
    && (forall x :: x < n ==> Frequency(winningLottos, x) < Frequency(winningLottos, n))
  }

  /** Counting the flattened list of numbers counts every bonus number exactly once, like a winning number. */
  lemma {:induction false} CountIsFrequency(winningLottos: seq<WinningLotto>, x: int)
    ensures multiset(AllWinningLottoNumbers(winningLottos) + AllBonusNumbers(winningLottos))[x] == Frequency(winningLottos, x)
  {
    if |winningLottos| > 0 {
      var init, last := winningLottos[..|winningLottos| - 1], winningLottos[|winningLottos| - 1];
      CountIsFrequency(init, x);
      var numbers, bonuses := AllWinningLottoNumbers(init), AllBonusNumbers(init);
      assert AllWinningLottoNumbers(winningLottos) == numbers + last.numbers;
      assert AllBonusNumbers(winningLottos) == bonuses + [last.bonusNumber];
      assert multiset(numbers + last.numbers + (bonuses + [last.bonusNumber]))
          == multiset(numbers + bonuses) + multiset(last.numbers) + multiset{last.bonusNumber};
    }
  }

  /** A number drawn at least once is a winning or bonus number of some draw. */
  lemma {:induction false} FrequentIsDrawn(winningLottos: seq<WinningLotto>, x: int)
    requires Frequency(winningLottos, x) > 0
    ensures exists k :: 0 <= k < |winningLottos| && (x in winningLottos[k].numbers || x == winningLottos[k].bonusNumber)
  {
    var n := |winningLottos|;
    var init := winningLottos[..n - 1];
    if Frequency(init, x) > 0 {
      FrequentIsDrawn(init, x);
      var k :| 0 <= k < |init| && (x in init[k].numbers || x == init[k].bonusNumber);
      assert winningLottos[k] == init[k];
    } else {
      assert DrawWeight(winningLottos[n - 1], x) > 0;
      assert x in multiset(winningLottos[n - 1].numbers) || x == winningLottos[n - 1].bonusNumber;
    }
  }

  /**
   * The `reduce` of getMostFrequentWinningLottoNumber: a map from every number
   * in `allNumbers` to how often it occurs there.
   */
  method CountNumbers(allNumbers: seq<int>) returns (numberCountMap: map<int, nat>)
    ensures forall x :: x in numberCountMap <==> x in multiset(allNumbers)
    ensures forall x :: x in numberCountMap ==> numberCountMap[x] == multiset(allNumbers)[x]
  {
    numberCountMap := map[];
    var i := 0;
    while i < |allNumbers|
      invariant i <= |allNumbers|
      invariant forall x :: x in numberCountMap <==> x in multiset(allNumbers[..i])
      invariant forall x :: x in numberCountMap ==> numberCountMap[x] == multiset(allNumbers[..i])[x]
    {
      var lotto := allNumbers[i];
      if lotto in numberCountMap && numberCountMap[lotto] > 0 {
        numberCountMap := numberCountMap[lotto := numberCountMap[lotto] + 1];
      } else {
        numberCountMap := numberCountMap[lotto := 1];
      }
      assert allNumbers[..i + 1] == allNumbers[..i] + [lotto];
      i := i + 1;
    }
    assert allNumbers[..i] == allNumbers;
  }

  /** The smallest member of a non-empty list. */
  function Smallest(s: seq<int>): (m: int)
    requires |s| > 0
    ensures m in s && forall i :: 0 <= i < |s| ==> m <= s[i]
  {
    if |s| == 1 then s[0]
    else
      var m := Smallest(s[1..]);
      if s[0] <= m then s[0] else m
  }

  /** The largest member of a non-empty list. */
  function Largest(s: seq<int>): (m: int)
    requires |s| > 0
    ensures m in s && forall i :: 0 <= i < |s| ==> s[i] <= m
  {
    if |s| == 1 then s[0]
    else
      var m := Largest(s[1..]);
      if s[0] >= m then s[0] else m
  }

  /**
   * The sort of getMostFrequentWinningLottoNumber and its `sorted[0][0]`: the
   * key of the first entry with the largest count, visiting the keys in
   * ascending order, from the smallest key `lo` up to `hi` (the order
   * `Object.entries` lists integer keys in; a stable sort by descending count
   * puts exactly that entry first).
   */
  method FirstMostFrequentKey(numberCountMap: map<int, nat>, lo: int, hi: int) returns (n: int)
    requires lo in numberCountMap
    requires forall y :: y in numberCountMap ==> lo <= y <= hi
    ensures n in numberCountMap
    ensures forall y :: y in numberCountMap ==> numberCountMap[y] <= numberCountMap[n]
    ensures forall y :: y in numberCountMap && y < n ==> numberCountMap[y] < numberCountMap[n]
  {
    n := lo;
    var key := lo + 1;
    while key <= hi
      invariant lo < key <= hi + 1
      invariant n in numberCountMap && n < key
      invariant forall y :: y in numberCountMap && y < key ==> numberCountMap[y] <= numberCountMap[n]
      invariant forall y :: y in numberCountMap && y < n ==> numberCountMap[y] < numberCountMap[n]
    {
      if key in numberCountMap && numberCountMap[key] > numberCountMap[n] {
        n := key;
      }
      key := key + 1;
    }
  }

  /**
   * getMostFrequentWinningLottoNumber: count every winning and bonus number,
   * then report the most frequent one, the smallest on a tie.
   */
  method GetMostFrequentWinningLottoNumber(winningLottos: seq<WinningLotto>) returns (n: int)
    requires |winningLottos| > 0
    ensures IsMostFrequent(winningLottos, n)
    ensures exists k :: 0 <= k < |winningLottos| && (n in winningLottos[k].numbers || n == winningLottos[k].bonusNumber)
  {
    var allNumbers := AllNumbers(winningLottos);
    var numberCountMap := CountNumbers(allNumbers);
    var lo, hi := Smallest(allNumbers), Largest(allNumbers);
    assert forall y :: y in numberCountMap ==> y in allNumbers;
    n := FirstMostFrequentKey(numberCountMap, lo, hi);
    FrequentIsDrawn(winningLottos, n);
  }

  /** Two numbers that both satisfy the description are the same number. */
  lemma MostFrequentIsUnique(winningLottos: seq<WinningLotto>, n: int, m: int)
    requires IsMostFrequent(winningLottos, n) && IsMostFrequent(winningLottos, m)
    ensures n == m
  {
  }

  lemma {:induction false} FrequencyOfConcat(a: seq<WinningLotto>, b: seq<WinningLotto>, x: int)
    ensures Frequency(a + b, x) == Frequency(a, x) + Frequency(b, x)
    decreases |b|
  {
    if |b| > 0 {
      assert (a + b)[..|a + b| - 1] == a + b[..|b| - 1];
      FrequencyOfConcat(a, b[..|b| - 1], x);
    } else {
      assert a + b == a;
    }
  }

  /** Taking the draw at `j` out of a list takes its weight out of every frequency. */
  lemma FrequencyWithout(b: seq<WinningLotto>, j: nat, x: int)
    requires j < |b|
    ensures Frequency(b, x) == Frequency(b[..j] + b[j + 1..], x) + DrawWeight(b[j], x)
  {
    assert b == b[..j] + [b[j]] + b[j + 1..];
    assert Frequency([b[j]], x) == DrawWeight(b[j], x) by { assert [b[j]][..0] == []; }
    FrequencyOfConcat(b[..j] + [b[j]], b[j + 1..], x);
    FrequencyOfConcat(b[..j], [b[j]], x);
    FrequencyOfConcat(b[..j], b[j + 1..], x);
  }

  /** Taking the element at `j` out of a list takes one copy of it out of its multiset. */
  lemma MultisetWithout<T>(b: seq<T>, j: nat)
    requires j < |b|
    ensures multiset(b[..j] + b[j + 1..]) == multiset(b) - multiset{b[j]}
  {
    assert b == b[..j] + [b[j]] + b[j + 1..];
  }

  /** Frequencies depend only on which draws there are, not on their order. */
  lemma {:induction false} FrequencyPermutation(a: seq<WinningLotto>, b: seq<WinningLotto>, x: int)
    requires multiset(a) == multiset(b)
    ensures Frequency(a, x) == Frequency(b, x)
    decreases |a|
  {
    if |a| > 0 {
      var last := a[|a| - 1];
      assert last in multiset(b);
      var j :| 0 <= j < |b| && b[j] == last;
      MultisetWithout(a, |a| - 1);
      MultisetWithout(b, j);
      assert a[..|a| - 1] + a[|a|..] == a[..|a| - 1];
      FrequencyPermutation(a[..|a| - 1], b[..j] + b[j + 1..], x);
      FrequencyWithout(b, j, x);
    } else {
      assert b == [];
    }
  }

  /** Reordering the draws does not change the most frequent number. */
  lemma MostFrequentPermutation(a: seq<WinningLotto>, b: seq<WinningLotto>, n: int, m: int)
    requires multiset(a) == multiset(b)
    requires IsMostFrequent(a, n) && IsMostFrequent(b, m)
    ensures n == m
  {
    forall x ensures Frequency(a, x) == Frequency(b, x) {
      FrequencyPermutation(a, b, x);
    }
  }

  /** Swapping a draw's bonus number with one of its winning numbers leaves every count unchanged. */
  lemma BonusWeighsLikeWinningNumber(w: WinningLotto, i: nat, x: int)
    requires i < |w.numbers|
    ensures DrawWeight(WinningLotto(w.numbers[i := w.bonusNumber], w.numbers[i]), x) == DrawWeight(w, x)
  {
    var s := w.numbers;
    assert s == s[..i] + [s[i]] + s[i + 1..];
    assert s[i := w.bonusNumber] == s[..i] + [w.bonusNumber] + s[i + 1..];
  }

  /** With a single draw 1 to 6 with bonus 7 every number is drawn once, so the smallest, 1, is reported. */
  lemma SingleDrawScenario(winningLottos: seq<WinningLotto>)
    requires winningLottos == [WinningLotto([1, 2, 3, 4, 5, 6], 7)]
    ensures IsMostFrequent(winningLottos, 1)
  {
    var w := winningLottos[0];
    assert winningLottos[..0] == [];
    forall x ensures Frequency(winningLottos, x) == (if 1 <= x <= 7 then 1 else 0) {
      assert Frequency(winningLottos, x) == DrawWeight(w, x);
    }
  }
}
