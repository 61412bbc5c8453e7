/** The value lookup and the epsilon-greedy behaviour policy
    (blackjack.py:26-27, 43-59). */
module Behavior {
  import opened Cards

  /** explore_threshold */
  const ExploreThreshold: real := 0.1

  /** The optimistic value of a pair that has never been updated. */
  const DefaultValue: real := 0.5

  type Key = (State, Action)

  /** One use of the policy's randomness: `roll` is random.random() and
      `pick` is random.choice(actions), used when the roll says explore. */
  datatype Coin = Coin(roll: real, pick: Action)

  /** The action an exploring coin chooses, None when the coin says greedy. */
  function Exploration(c: Coin): (e: Option<Action>)
    ensures e.Some? <==> c.roll < ExploreThreshold
    ensures e.Some? ==> e.value == c.pick
  {
    if c.roll < ExploreThreshold then Some(c.pick) else None
  }

  /** `value(state, action)`: the stored estimate, or 0.5 when there is none. */
  function Value(values: map<Key, real>, s: State, a: Action): (v: real)
    ensures (s, a) in values ==> v == values[(s, a)]
    ensures (s, a) !in values ==> v == DefaultValue
  {
    if (s, a) in values then values[(s, a)] else DefaultValue
  }

  /** Whether the policy reaches the random.random() call, which draws a coin. */
  predicate Consults(s: State)
  {
    s.mySum >= 11 && s.mySum != 21
  }

  /** `policy(state)`; `explore` is what the coin decided (only read when
      Consults(s)).  Below 11 it hits, at 21 it stops; an exploring coin's
      pick is taken; otherwise the result maximises Value, and HIT is chosen
      only if it is strictly better, because `max` keeps the first of
      [STOP, HIT] on a tie. */
  function Policy(s: State, values: map<Key, real>, explore: Option<Action>): (a: Action)
    ensures s.mySum < 11 ==> a == Hit
    ensures s.mySum == 21 ==> a == Stop
    ensures a == Hit ==> s.mySum != 21
    ensures Consults(s) && explore.Some? ==> a == explore.value
    ensures Consults(s) && explore.None? ==>
      Value(values, s, a) >= Value(values, s, Stop) &&
      Value(values, s, a) >= Value(values, s, Hit) &&
      (a == Hit <==> Value(values, s, Hit) > Value(values, s, Stop))
  {
    if s.mySum < 11 then Hit
    else if s.mySum == 21 then Stop
    else if explore.Some? then explore.value
    else if Value(values, s, Hit) > Value(values, s, Stop) then Hit
    else Stop
  }

  /** With no estimates stored, the greedy choice is STOP (both default to 0.5). */
  lemma UnseenStateStops(s: State)
    requires Consults(s)
    ensures Policy(s, map[], None) == Stop
  {
  }

  /** The value lookup: a stored estimate wins, an absent one reads 0.5. */
  lemma ValueDefault(values: map<Key, real>, s: State, a: Action, v: real)
    ensures Value(values[(s, a) := v], s, a) == v
    ensures (s, a) !in values ==> Value(values, s, a) == DefaultValue
  {
  }
}
