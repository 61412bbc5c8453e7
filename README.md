# Blackjack Monte Carlo learner, modelled in Dafny

This project models `blackjack.py`. That file holds a Blackjack environment with an infinite deck and a learner that estimates action values by Monte Carlo averaging.

- The player's state is the triple (player sum, usable-ace flag, dealer upcard).
- The player either HITs (takes a card) or STOPs (ends their turn).
- The dealer follows a fixed rule: draw while below 17.
- A STOP wins (+1) when the dealer busts or ends below the player. Otherwise it loses (-1), and a tie counts as a loss.
- Episodes are generated by an epsilon-greedy policy over a value table. Unseen entries read 0.5.
- After each episode, a backward pass updates every visited (state, action) pair with the exact running mean `count/(count+1)*old + g/(count+1)`.

The randomness of the source becomes explicit input:

- Every `get_card()` takes the next element of a finite card stream `seq<Card>`, where `Card` is an integer in 1..10.
- Every time `policy` reaches `random.random()`, it takes the next `Coin(roll, pick)` from a coin stream. `roll` is the value of `random.random()`. `pick` is what `random.choice(actions)` would return if the roll says explore.
- When a stream runs out, the operation returns `Err(OutOfCards)` or `Err(OutOfCoins)`. The Python program never runs out of randomness.

Files and modules:

| file | module | contents |
|---|---|---|
| `Cards.dfy` | `Cards` | cards, actions, states, the initial deal, the HIT progress measure |
| `Dealer.dfy` | `Dealer` | `get_dealer_sum`: a loop method proved against a recursive function over a finite list of draws |
| `Environment.dfy` | `Environment` | `reward`: the HIT and STOP branches as functions; `reward` itself is a method, because it calls the dealer loop |
| `Behavior.dfy` | `Behavior` | `value` and `policy` |
| `Episodes.dfy` | `Episodes` | `episode`: a loop method proved against a recursive function, plus the shape of every history it returns |
| `Learning.dfy` | `Learning` | the `counts` and `value_map` tables as a class `Learner`; `policy_update` as methods proved against functions; the running-mean lemmas |

Behaviour of the code that is easy to misread, kept as written:

- The update on line 138 reads the old value with `value_map.get((s,a), 0)`, a default of 0, not the 0.5 that `value` uses. The weight `count/(count+1)` is 0 for a pair that has never been updated, so the default cannot change the result. The model uses 0 (`StoredOr0`).
- The header comment (line 17) calls the method first-visit Monte Carlo, but the backward pass updates every record, with no check for an earlier visit of the same pair. `PassCounts` and `PassTotal` state exactly that. It makes no difference here: every HIT that does not end the game lowers `Progress`, so the states of one history are pairwise distinct (`Episodes.RunStatesDistinct`). As a result, one round of training raises a pair's count by at most one (`Learning.LearnUpdatesPairAtMostOnce`).
- On the dealer's side, a drawn 1 is added at face value 1 and only arms a later -10 (lines 66-71). For example, an upcard of 10 followed by an ace gives 11, not 21, and the dealer draws again.
  - The flag also pays for one -10 that the hand never had as an 11: upcard 10, then draws 1, 5, 10 give 26 → 16, and the dealer continues.
  - Because of this, the dealer loop does not terminate on every infinite draw sequence. `Dealer.CycleNeverStands` proves that from a hard 12, any number of repetitions of the draws 1, 9 never lets the dealer stand.
  - The model keeps this rule exactly as written.
- `get_random_state` grants a single ace bonus even when both cards are aces (two aces give 12). The model keeps this.

## Model

| member | source | states |
|---|---|---|
| `Cards.InitialState` | blackjack.py:34-41 | the ace is usable exactly when one of the two cards is 1; the hard total is the cards' sum; the sum lies in 4..21; two aces give 12 (only one bonus); 21 exactly for ace plus ten; the upcard is the third card |
| `Cards.RandomState` | blackjack.py:34-41 | drawing a state fails exactly when fewer than three cards are left; otherwise it consumes exactly three cards and yields the initial state of the first two cards with the third as upcard, in the order of lines 35 and 39 |
| `Dealer.Start` | blackjack.py:62-63 | the flag is armed exactly for an ace upcard, which counts 11; any other upcard counts its face value; a real upcard starts in 2..11, below 17 |
| `Dealer.Step` | blackjack.py:65-71 | the draw is added at face value; 10 is taken off exactly when the sum passes 21 while an ace is held or was just drawn, and that clears the flag; afterwards the flag is set exactly when an ace is held or was just drawn and the sum is at most 21 |
| `Dealer.Play` | blackjack.py:64-75 | when the dealer stands, it stands on at least 17 and has used no more draws than it was given |
| `Dealer.PlayStopsAtFirstStand` | blackjack.py:64-75 | the dealer stops at the first prefix of the draws whose running hand reaches 17 and ends on that hand's sum; it runs out exactly when no prefix reaches 17 |
| `Dealer.PlayRange` | blackjack.py:61-75 | a dealer starting below 17 who stands ends in 17..26, after at least one draw |
| `Dealer.CycleNeverStands` | blackjack.py:64-71 | from a hard 12, any number of repetitions of the draws 1, 9 never lets the dealer stand: the loop has no termination argument over arbitrary draws |
| `Dealer.GetDealerSum` | blackjack.py:61-75 | the loop computes the dealer rule's result; for an upcard in 1..10 the final sum lies in 17..26 and at least one card is drawn |
| `Dealer.DealerScenarios` | blackjack.py:61-75 | worked dealer games: 10 then 10 stands on 20; an ace upcard then 10 stands on 21; ace, 5, 9 (demoted), 4 stands on 19; 10, 1, 5, 10 (demoted), 10 busts on 26 |
| `Environment.HitOutcome` | blackjack.py:85-105 | HIT gives -1 or 0; -1 exactly with no next state, and exactly when no ace is usable and the hard total passes 21; a next state keeps the upcard, has sum at most 21, a hard total grown by the card, a usable ace exactly when an ace is held and 11 fits, and a strictly smaller progress measure |
| `Environment.StopOutcome` | blackjack.py:107-112 | STOP ends the game, gives +1 exactly when the dealer busts or ends below the player, -1 otherwise (ties included), never 0 |
| `Environment.Step` | blackjack.py:78-112 | `reward` gives -1, 0 or +1; 0 exactly when a next state is returned, and only after HIT; +1 only after STOP; the cards left are a suffix of the stream; a next state satisfies the precondition again and lowers the progress measure |
| `Environment.Reward` | blackjack.py:78-112 | the method, which runs the dealer loop, computes exactly `Environment.Step` |
| `Environment.HitFromElevenNeverBusts` | blackjack.py:88-98 | a HIT from a sum of 11 or less never ends the game |
| `Environment.RewardScenarios` | blackjack.py:78-112 | (20, no ace, 10) STOP with dealer draw 7 wins; (12, no ace, 6) HIT with a 10 busts; (17, no ace, 10) STOP with dealer draw 7 ties and loses |
| `Behavior.Exploration` | blackjack.py:56-57 | a coin explores exactly when its roll is below 0.1, and then picks its action |
| `Behavior.Policy` | blackjack.py:47-59 | below 11 the policy HITs, at 21 it STOPs and never HITs; an exploring coin's pick is taken; otherwise the action maximises the value and is HIT exactly when HIT's value is strictly larger (ties go to STOP) |
| `Behavior.UnseenStateStops` | blackjack.py:43-59 | with an empty table the greedy choice is STOP, both actions reading 0.5 |
| `Behavior.Value` | blackjack.py:43-45 | a stored estimate is returned as it is; otherwise the result is 0.5 |
| `Behavior.ValueDefault` | blackjack.py:43-45 | a stored value is read back; an absent one reads 0.5 |
| `Episodes.Decide` | blackjack.py:56-57 | a coin is drawn exactly when the policy reaches its random branch (sum at least 11 and not 21); only then is the stream shortened |
| `Episodes.Play` | blackjack.py:119-126 | the loop of `episode`: a finished game ends with more records than it started with |
| `Episodes.PlayExtends` | blackjack.py:119-126 | a finished game keeps the records already made as its front part and adds at least one; the cards and coins left over are what remains after taking a front part of each stream |
| `Episodes.Run` | blackjack.py:114-126 | `episode` with an optional start state: with none and fewer than three cards it runs out; a finished episode has at least one record |
| `Episodes.RunUses` | blackjack.py:114-126 | an episode leaves a suffix of each random stream, and drawing its start state uses up at least three cards |
| `Episodes.PlayWellFormed` | blackjack.py:117-126 | an episode continued from pending HIT records ends in a well-formed history that extends them |
| `Episodes.RunWellFormed` | blackjack.py:114-126 | every returned history has length at least 2; every record but the last has reward 0 and a state (of sum at most 21) and an action; all but the last two took HIT; the last is (r, None, None) with r = ±1, and +1 only after STOP |
| `Episodes.PlayProgressFalls` | blackjack.py:119-126 | continuing a game whose records lie above the current state in the progress measure yields a history whose recorded states fall strictly in that measure |
| `Episodes.RunStatesDistinct` | blackjack.py:114-126 | the states of every returned history, sentinel aside, are pairwise distinct, so no (state, action) pair is recorded twice |
| `Episodes.RunEpisode` | blackjack.py:114-126 | the episode loop computes exactly `Episodes.Run` and returns a well-formed history |
| `Episodes.EpisodeScenario` | blackjack.py:114-126 | from (20, no ace, 10) with an empty table and a greedy coin, the history is [(0, state, STOP), (1, None, None)] |
| `Learning.IncMean` | blackjack.py:138 | the first update (count 0) yields the return itself; the new value always lies between the old value and the return |
| `Learning.UpdateAt` | blackjack.py:137-139 | an update adds its pair to both tables and sets its count to one more than before |
| `Learning.IncMeanScaled` | blackjack.py:138 | the incremental mean times the new count is the old count times the old value plus the new return |
| `Learning.FirstUpdateStoresReturn` | blackjack.py:137-139 | the first update of a pair stores its return exactly and sets its count to 1 |
| `Learning.UpdateFrame` | blackjack.py:137-139 | an update leaves every other pair's value and count as they were |
| `Learning.UpdateTotal` | blackjack.py:137-139 | an update raises the count by exactly 1 and adds the return to count times value |
| `Learning.UpdateManyTotal` | blackjack.py:137-139 | N updates of one pair raise its count by N and add the sum of the N returns to count times value |
| `Learning.MeanOfReturns` | blackjack.py:137-139 | after N updates of a pair that had none, its count is N and its value is the mean of its N returns |
| `Learning.VisitKey` | blackjack.py:134-139 | visiting a record changes only the entries of its own pair: count +1 and total + g for it, nothing for any other pair |
| `Learning.VisitPaired` | blackjack.py:138-139 | a visit writes both tables or neither |
| `Learning.ReturnIsTerminalReward` | blackjack.py:132-136 | in a history an episode returns, the accumulated g at every recorded step equals the terminal reward |
| `Learning.Pass` | blackjack.py:133-139 | the backward pass over records n-1 down to 0 never removes a key from either table |
| `Learning.PassAll` | blackjack.py:132-139 | the pass over a whole history never removes a key, and leaves the tables alone for a history of at most one record, because the loop range is empty then |
| `Learning.PassCounts` | blackjack.py:133-139 | the backward pass raises each pair's count by the number of its records, repeated pairs included |
| `Learning.PassFrame` | blackjack.py:133-139 | a pair with no record in the episode keeps its value and count |
| `Learning.PassPaired` | blackjack.py:133-139 | the pass keeps the keys of the two tables equal |
| `Learning.PassTotal` | blackjack.py:133-139 | the pass adds to each pair's count times value exactly the returns of its records |
| `Learning.ReturnsAreTerminal` | blackjack.py:132-138 | in an episode ending in reward R, each record of a pair contributes R |
| `Learning.FreshKeyTakesTerminalReward` | blackjack.py:129-139 | a pair first seen in an episode ends the pass with exactly that episode's terminal reward as value |
| `Learning.AtMostOneRecord` | blackjack.py:133-139 | when the recorded states are pairwise distinct, a pair has at most one record |
| `Learning.PassAllAtMostOnce` | blackjack.py:133-139 | over a history whose recorded states are pairwise distinct, the pass raises any pair's count by at most one |
| `Learning.LearnUpdatesPairAtMostOnce` | blackjack.py:130-139 | in one round of training a pair's count rises by at most one, so the every-visit pass acts as a first-visit one |
| `Learning.Learn` | blackjack.py:130-139 | one round fails exactly when its episode runs out of randomness; otherwise it keeps every key of both tables |
| `Learning.LearnUses` | blackjack.py:130-139 | a round that succeeds uses at least three cards and leaves a suffix of each random stream |
| `Learning.Train` | blackjack.py:129-139 | after `played` episodes, training plays at most n more, at most one for every three cards, and keeps the keys of the two tables equal |
| `Learning.LearnIsRunThenPass` | blackjack.py:131-139 | every episode the learner plays has a well-formed history, and the round of training is the backward pass over exactly that history |
| `Learning.LearnPaired` | blackjack.py:131-139 | a round of training that starts from tables with equal keys ends with equal keys |
| `Learning.Learner.constructor` | blackjack.py:29 | both tables start empty: `value_map` here and `counts` on line 128 |
| `Learning.Learner.BackwardPass` | blackjack.py:132-139 | the loop from record len(h)-2 down to 0, accumulating g, leaves the tables equal to the backward-pass function and keeps their keys equal |
| `Learning.Learner.Learn1` | blackjack.py:130-139 | one iteration of the outer loop performs exactly one round of training, or changes nothing when a stream runs out |
| `Learning.Learner.PolicyUpdate` | blackjack.py:129-139 | after the loop, the tables and the number of episodes played are those of the training function, with at most n episodes played |

## Left out

- The card distribution (4/13 for a ten, 1/13 for each other value) and the exploration probability: the model takes draws and coins as explicit streams and proves properties for every stream, not probabilities.
- The interleaving of card draws and policy coins within Python's single random generator: the model uses two separate streams, one per kind of draw.
- Running out of randomness cannot happen in Python. `Err(OutOfCards)`/`Err(OutOfCoins)` and `Learner.PolicyUpdate` stopping early exist only because the model's streams are finite.
- Floating-point rounding on line 138: the update uses exact `real` arithmetic.
- The 5000 default for `n_episodes` and convergence over many episodes: `Learner.PolicyUpdate` takes the count as an argument, and no statistical property is stated.
- `usable_ace` as the integers 0/1 used by Python's truthiness: the model uses `bool`.
- The commented-out print on line 73.
- Writing `value_map` and `counts` at every step of the backward pass: `Learner.BackwardPass` updates a local copy of the two tables and stores it into the fields after the loop. The loop's own reads (lines 137-138) go to the local copy, which holds the same entries as the fields would at that point, and nothing else reads the fields during the loop, so the final state is the same.
- Python's `assert` statements on lines 83 and 86 become preconditions of `Environment.Step` and `Environment.Reward`. `episode` with a given state requires its sum to be at most 21, since the first `reward` call would otherwise fail.
- `Learning.Pass` skips records that lack a state or an action. In a history an episode returns, only the terminal sentinel lacks them, and the pass never visits it. `Learner.BackwardPass` itself requires every visited record to have both.
