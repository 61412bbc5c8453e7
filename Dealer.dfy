/** The dealer's fixed rule, get_dealer_sum (blackjack.py:61-75), over an
    explicit finite list of draws. */
module Dealer {
  import opened Cards

  /** The dealer stands as soon as the sum reaches this value. */
  const StandThreshold := 17

  /** The loop state of get_dealer_sum: dealer_sum and has_ace. */
  datatype Hand = Hand(sum: int, hasAce: bool)

  /** What the dealer ends on, and how many draws it took. */
  datatype Final = Final(sum: int, used: nat)

  /** The hand before the first draw: an ace upcard counts 11 and arms the flag. */
  function Start(upcard: int): (h: Hand)
    ensures h.hasAce <==> upcard == 1
    ensures h.sum == upcard || (upcard == 1 && h.sum == 11)
    ensures 1 <= upcard <= 10 ==> 2 <= h.sum <= 11 < StandThreshold
  {
    var ace := upcard == 1;
    Hand(upcard + (if ace then 10 else 0), ace)
  }

  /** One pass of the loop body: a drawn 1 is added at face value but arms the
      flag, and the flag pays for one later -10 when the sum passes 21. */
  function Step(h: Hand, card: Card): (r: Hand)
    ensures r.sum > 21 ==> !r.hasAce
    ensures r.sum == h.sum + card || (r.sum == h.sum + card - 10 && !r.hasAce)
    ensures r.sum == h.sum + card - 10 <==> h.sum + card > 21 && (h.hasAce || card == 1)
    ensures r.hasAce <==> (h.hasAce || card == 1) && h.sum + card <= 21
  {
    var ace := h.hasAce || card == 1;
    var sum := h.sum + card;
    if sum > 21 && ace then Hand(sum - 10, false) else Hand(sum, ace)
  }

  /** The hand after the given draws, ignoring the stand rule. */
  function Fold(h: Hand, draws: seq<Card>): Hand
    decreases |draws|
  {
    if draws == [] then h else Fold(Step(h, draws[0]), draws[1..])
  }

  /** The loop of get_dealer_sum as a function: None when the draws run out
      before the dealer stands. */
  function Play(h: Hand, draws: seq<Card>): (r: Option<Final>)
    ensures r.Some? ==> r.value.used <= |draws| && r.value.sum >= StandThreshold
    decreases |draws|
  {
    if h.sum >= StandThreshold then Some(Final(h.sum, 0))
    else if draws == [] then None
    else
      match Play(Step(h, draws[0]), draws[1..])
      case None => None
      case Some(f) => Some(Final(f.sum, f.used + 1))
  }

  /** Play stops exactly at the first prefix of the draws after which the sum
      has reached the threshold, and ends with that prefix's sum; it runs out
      exactly when no prefix reaches it. */
  lemma {:induction false} PlayStopsAtFirstStand(h: Hand, draws: seq<Card>)
    ensures Play(h, draws).Some? ==>
      var f := Play(h, draws).value;
      f.used <= |draws| && Fold(h, draws[..f.used]).sum == f.sum >= StandThreshold &&
      forall j :: 0 <= j < f.used ==> Fold(h, draws[..j]).sum < StandThreshold
    ensures Play(h, draws).None? ==>
      forall j :: 0 <= j <= |draws| ==> Fold(h, draws[..j]).sum < StandThreshold
    decreases |draws|
  {
    assert draws[..0] == [];
    if h.sum < StandThreshold && draws != [] {
      var rest := draws[1..];
      PlayStopsAtFirstStand(Step(h, draws[0]), rest);
      forall j | 1 <= j <= |draws|
        ensures Fold(h, draws[..j]) == Fold(Step(h, draws[0]), rest[..j - 1])
      {
        assert draws[..j][0] == draws[0];
        assert draws[..j][1..] == rest[..j - 1];
      }
    }
  }

  /** Given enough draws, a dealer who starts below the threshold ends in
      17..26; a sum above 21 is a bust with no ace left to demote. */
  lemma {:induction false} PlayRange(h: Hand, draws: seq<Card>)
    requires h.sum < StandThreshold
    ensures Play(h, draws).Some? ==>
      var f := Play(h, draws).value;
      StandThreshold <= f.sum <= 26 && 1 <= f.used
    decreases |draws|
  {
    if draws != [] {
      var n := Step(h, draws[0]);
      if n.sum < StandThreshold {
        PlayRange(n, draws[1..]);
      }
    }
  }

  /** The draws 1, 9 repeated k times. */
  function Cycle(k: nat): (d: seq<Card>)
    ensures |d| == 2 * k
  {
    if k == 0 then [] else [1, 9] + Cycle(k - 1)
  }

  /** From a hard 12, a drawn 1 gives 13 and arms the flag, and a drawn 9 gives
      22, demoted back to a hard 12: no number of repetitions of 1, 9 lets the
      dealer stand, so the loop does not terminate on that infinite draw
      sequence. */
  lemma {:induction false} CycleNeverStands(k: nat)
    ensures Play(Hand(12, false), Cycle(k)).None?
  {
    if k > 0 {
      var d := Cycle(k);
      assert d[0] == 1 && d[1..][0] == 9 && d[1..][1..] == Cycle(k - 1);
      assert Step(Hand(12, false), 1) == Hand(13, true);
      assert Step(Hand(13, true), 9) == Hand(12, false);
      CycleNeverStands(k - 1);
    }
  }

  /** get_dealer_sum with the draws it makes taken from the front of `draws`. */
  method GetDealerSum(upcard: int, draws: seq<Card>) returns (r: Option<Final>)
    ensures r == Play(Start(upcard), draws)
    ensures 1 <= upcard <= 10 && r.Some? ==>
      StandThreshold <= r.value.sum <= 26 && 1 <= r.value.used <= |draws|
  {
    var hasAce := upcard == 1;
    var dealerSum := upcard + (if hasAce then 10 else 0);
    var i := 0;
    while dealerSum < StandThreshold
      invariant 0 <= i <= |draws|
      invariant Play(Start(upcard), draws) == Shift(Play(Hand(dealerSum, hasAce), draws[i..]), i)
      decreases |draws| - i
    {
      if i == |draws| {
        return None;
      }
      var newCard := draws[i];
      var i' := i + 1;
      PlayStep(Hand(dealerSum, hasAce), draws, i, i');
      i := i';
      hasAce := hasAce || newCard == 1;
      dealerSum := dealerSum + newCard;
      if dealerSum > 21 && hasAce {
        hasAce := false;
        dealerSum := dealerSum - 10;
      }
    }
    r := Some(Final(dealerSum, i));
    if 1 <= upcard <= 10 {
      PlayRange(Start(upcard), draws);
    }
  }

  /** One draw of the loop, seen from the whole list: below the threshold,
      playing from draw i is stepping with draw i and playing from i' = i + 1.
      i' is the loop's next index, passed in so that the invariant matches the
      ensures term for term. */
  lemma PlayStep(h: Hand, draws: seq<Card>, i: nat, i': nat)
    requires h.sum < StandThreshold && i < |draws| && i' == i + 1
    ensures Shift(Play(h, draws[i..]), i) == Shift(Play(Step(h, draws[i]), draws[i'..]), i')
  {
    var d := draws[i..];
    PlayDraws(h, d);
    assert d[1..] == draws[i'..];
    ShiftShift(Play(Step(h, d[0]), d[1..]), 1, i, i');
  }

  /** Below the threshold with a draw left, Play takes that draw. */
  lemma PlayDraws(h: Hand, d: seq<Card>)
    requires h.sum < StandThreshold && d != []
    ensures Play(h, d) == Shift(Play(Step(h, d[0]), d[1..]), 1)
  {
  }

  /** Shifting by j then by k is shifting by j + k. */
  lemma ShiftShift(r: Option<Final>, j: nat, k: nat, jk: nat)
    requires jk == j + k
    ensures Shift(Shift(r, j), k) == Shift(r, jk)
  {
  }

  /** An outcome of Play on a suffix, seen from the whole list. */
  function Shift(r: Option<Final>, k: nat): Option<Final>
  {
    match r
    case None => None
    case Some(f) => Some(Final(f.sum, f.used + k))
  }

  /** Scripted dealer games worked by hand. */
  lemma DealerScenarios()
    ensures Play(Start(10), [10, 7]) == Some(Final(20, 1))
    ensures Play(Start(1), [10]) == Some(Final(21, 1))
    ensures Play(Start(1), [5, 9, 4]) == Some(Final(19, 3))
    ensures Play(Start(10), [1, 5, 10, 10]) == Some(Final(26, 4))
  {
    assert [10, 7][1..] == [7];
    assert [5, 9, 4][1..] == [9, 4] && [9, 4][1..] == [4];
    assert [1, 5, 10, 10][1..] == [5, 10, 10] && [5, 10, 10][1..] == [10, 10]
      && [10, 10][1..] == [10];
  }
}
