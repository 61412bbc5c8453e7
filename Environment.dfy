/** The environment step `reward(state, action)` (blackjack.py:78-112). */
module Environment {
  import opened Cards
  import Dealer

  /** `(reward, next_state)`; `next` is None when the game is over. */
  datatype Outcome = Outcome(reward: int, next: Option<State>)

  /** An outcome and the part of the card stream left after it. */
  datatype Transition = Transition(outcome: Outcome, rest: seq<Card>)

  /** The HIT branch once the card is drawn.  The player busts exactly when no
      ace is usable and the hard total passes 21; otherwise the hard total
      grows by the card, the ace counts 11 exactly when that fits, and
      the progress measure strictly falls. */
  function HitOutcome(s: State, card: Card): (o: Outcome)
    requires s.mySum < 21
    ensures o.reward == -1 || o.reward == 0
    ensures o.reward == -1 <==> o.next.None?
    ensures o.reward == -1 <==> !s.usableAce && HardTotal(s) + card > 21
    ensures o.next.Some? ==>
      var t := o.next.value;
      t.mySum <= 21 && t.dealerCard == s.dealerCard &&
      HardTotal(t) == HardTotal(s) + card &&
      (t.usableAce <==> (s.usableAce || card == 1) && HardTotal(s) + card + 10 <= 21) &&
      Progress(t) < Progress(s)
  {
    var (mySum, usable) :=
      if card == 1 && !s.usableAce then (s.mySum + 11, true)
      else (s.mySum + card, s.usableAce);
    if mySum > 21 && !usable then Outcome(-1, None)
    else if mySum > 21 then Outcome(0, Some(State(mySum - 10, false, s.dealerCard)))
    else Outcome(0, Some(State(mySum, usable, s.dealerCard)))
  }

  /** The STOP branch once the dealer has played: a win exactly when the
      dealer busts or ends below the player; a tie is a loss. */
  function StopOutcome(s: State, dealerSum: int): (o: Outcome)
    ensures o.next.None? && o.reward != 0
    ensures o.reward == 1 <==> dealerSum > 21 || s.mySum > dealerSum
    ensures o.reward == -1 <==> dealerSum <= 21 && s.mySum <= dealerSum
  {
    if dealerSum > 21 || s.mySum > dealerSum then Outcome(1, None) else Outcome(-1, None)
  }

  /** `reward` as a function of the state, the action and the card stream. */
  function Step(s: State, a: Action, cards: seq<Card>): (r: Result<Transition>)
    requires s.mySum <= 21
    requires a == Hit ==> s.mySum < 21
    ensures r.Err? ==> r.error == OutOfCards
    ensures r.Ok? ==>
      var o := r.value.outcome;
      |r.value.rest| <= |cards| && r.value.rest == cards[|cards| - |r.value.rest|..] &&
      (o.reward == -1 || o.reward == 0 || o.reward == 1) &&
      (o.reward == 0 <==> o.next.Some?) &&
      (o.reward == 0 ==> a == Hit) &&
      (o.reward == 1 ==> a == Stop)
    ensures r.Ok? && r.value.outcome.next.Some? ==>
      var t := r.value.outcome.next.value;
      t.mySum <= 21 && t.dealerCard == s.dealerCard && Progress(t) < Progress(s)
  {
    match a
    case Hit =>
      if cards == [] then Err(OutOfCards)
      else Ok(Transition(HitOutcome(s, cards[0]), cards[1..]))
    case Stop =>
      match Dealer.Play(Dealer.Start(s.dealerCard), cards)
      case None => Err(OutOfCards)
      case Some(f) =>
        Ok(Transition(StopOutcome(s, f.sum), cards[f.used..]))
  }

  /** `reward`, drawing from the front of `cards`; `assert(my_sum <= 21)` and
      `assert(my_sum < 21)` become the preconditions. */
  method Reward(s: State, a: Action, cards: seq<Card>) returns (r: Result<Transition>)
    requires s.mySum <= 21
    requires a == Hit ==> s.mySum < 21
    ensures r == Step(s, a, cards)
  {
    if a == Hit {
      if cards == [] {
        return Err(OutOfCards);
      }
      var newCard := cards[0];
      r := Ok(Transition(HitOutcome(s, newCard), cards[1..]));
    } else {
      var final := Dealer.GetDealerSum(s.dealerCard, cards);
      if final.None? {
        return Err(OutOfCards);
      }
      r := Ok(Transition(StopOutcome(s, final.value.sum), cards[final.value.used..]));
    }
  }

  /** A hand of 11 or less cannot bust on one card. */
  lemma HitFromElevenNeverBusts(s: State, card: Card)
    requires s.mySum <= 11
    ensures HitOutcome(s, card).reward == 0
  {
  }

  /** Three scripted games worked by hand. */
  lemma RewardScenarios()
    ensures Step(State(20, false, 10), Stop, [7]) == Ok(Transition(Outcome(1, None), []))
    ensures Step(State(12, false, 6), Hit, [10]) == Ok(Transition(Outcome(-1, None), []))
    ensures Step(State(17, false, 10), Stop, [7]) == Ok(Transition(Outcome(-1, None), []))
  {
    assert [7][1..] == [];
    assert Dealer.Play(Dealer.Start(10), [7]) == Some(Dealer.Final(17, 1));
  }
}
