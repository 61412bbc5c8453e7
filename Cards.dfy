/** Cards, states and the random streams that replace `random.choice` and
    `random.random` (blackjack.py:24-41). */
module Cards {

  datatype Option<T> = None | Some(value: T)

  /** Why an explicit stream of random draws could not supply a run. */
  datatype Shortfall = OutOfCards | OutOfCoins

  datatype Result<T> = Ok(value: T) | Err(error: Shortfall)

  /** A card of the infinite deck: 1 is an ace, 10 stands for ten and the
      three picture cards. */
  type Card = c: int | 1 <= c <= 10 witness 1

  /** ACTION_STOP = 0 and ACTION_HIT = 1, in the order of `actions`. */
  datatype Action = Stop | Hit

  /** The triple (my_sum, usable_ace, dealer_card).  `mySum` already counts a
      usable ace as 11. */
  datatype State = State(mySum: int, usableAce: bool, dealerCard: int)

  /** a is what is left of b after dropping some of its front. */
  predicate IsSuffix<T(==)>(a: seq<T>, b: seq<T>)
  {
    |a| <= |b| && a == b[|b| - |a|..]
  }

  lemma SuffixTrans<T>(a: seq<T>, b: seq<T>, c: seq<T>)
    requires IsSuffix(a, b) && IsSuffix(b, c)
    ensures IsSuffix(a, c)
  {
    assert c[|c| - |b|..][|b| - |a|..] == c[|c| - |a|..];
  }

  /** The ten points a usable ace adds on top of its face value 1. */
  function AceBonus(usable: bool): int
  {
    if usable then 10 else 0
  }

  /** The hand counted with every ace as 1. */
  function HardTotal(s: State): int
  {
    s.mySum - AceBonus(s.usableAce)
  }

  /** The termination measure of an episode: (21 - my_sum) + 10 * usable_ace,
      which is 21 minus the hard total. */
  function Progress(s: State): int
  {
    (21 - s.mySum) + AceBonus(s.usableAce)
  }

  /** get_random_state on the three cards it draws: two for the player, then
      the dealer's upcard. */
  function InitialState(c1: Card, c2: Card, up: Card): (s: State)
    ensures s.usableAce <==> (c1 == 1 || c2 == 1)
    ensures HardTotal(s) == c1 + c2
    ensures 4 <= s.mySum <= 21
    ensures c1 == 1 && c2 == 1 ==> s.mySum == 12
    ensures s.mySum == 21 <==> (c1 == 1 && c2 == 10) || (c1 == 10 && c2 == 1)
    ensures s.dealerCard == up && 1 <= s.dealerCard <= 10
  {
    var usable := c1 == 1 || c2 == 1;
    State(c1 + c2 + AceBonus(usable), usable, up)
  }

  /** get_random_state drawing from the front of a card stream; the unused
      rest of the stream is returned with the state. */
  function RandomState(cards: seq<Card>): (r: Result<(State, seq<Card>)>)
    ensures r.Err? <==> |cards| < 3
    ensures r.Ok? ==> r.value.0.mySum <= 21 && r.value.1 == cards[3..]
    ensures r.Ok? ==> r.value.0 == InitialState(cards[0], cards[1], cards[2])
  {
    if |cards| < 3 then Err(OutOfCards)
    else Ok((InitialState(cards[0], cards[1], cards[2]), cards[3..]))
  }
}
