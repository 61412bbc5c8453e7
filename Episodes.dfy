/** `episode(s)` (blackjack.py:114-126): play one game and record its history. */
module Episodes {
  import opened Cards
  import Environment
  import opened Behavior
  import Dealer

  /** A history record `(reward, state, action)`; the last one is
      `(r, None, None)`. */
  datatype Entry = Entry(reward: int, state: Option<State>, action: Option<Action>)

  /** A finished episode and what is left of the two random streams. */
  datatype Episode = Episode(history: seq<Entry>, cards: seq<Card>, coins: seq<Coin>)

  /** The shape of every history an episode returns: at least two records;
      every record but the last has reward 0 and a state and an action, every
      record but the last two took HIT, and the last is `(r, None, None)` with
      r = -1 or r = 1 (and +1 only after a STOP). */
  ghost predicate WellFormed(h: seq<Entry>)
  {
    |h| >= 2 &&
    (forall i :: 0 <= i < |h| - 1 ==>
       h[i].reward == 0 && h[i].state.Some? && h[i].action.Some? &&
       h[i].state.value.mySum <= 21) &&
    (forall i :: 0 <= i < |h| - 2 ==> h[i].action == Some(Hit)) &&
    h[|h| - 1].state.None? && h[|h| - 1].action.None? &&
    (h[|h| - 1].reward == 1 || h[|h| - 1].reward == -1) &&
    (h[|h| - 1].reward == 1 ==> h[|h| - 2].action == Some(Stop))
  }

  /** The records of the game so far: all of them took HIT and are pending. */
  ghost predicate Prefix(h: seq<Entry>)
  {
    forall i :: 0 <= i < |h| ==>
      h[i].reward == 0 && h[i].state.Some? && h[i].action == Some(Hit) &&
      h[i].state.value.mySum <= 21
  }

  /** The explore decision for state s, and the coins left after it. */
  function Decide(s: State, coins: seq<Coin>): (r: Result<(Option<Action>, seq<Coin>)>)
    ensures r.Err? <==> Consults(s) && coins == []
    ensures r.Ok? && !Consults(s) ==> r.value == (None, coins)
    ensures r.Ok? && Consults(s) ==> r.value == (Exploration(coins[0]), coins[1..])
  {
    if !Consults(s) then Ok((None, coins))
    else if coins == [] then Err(OutOfCoins)
    else Ok((Exploration(coins[0]), coins[1..]))
  }

  /** The loop of `episode` from state s with `history` already recorded. */
  function Play(s: State, values: map<Key, real>, cards: seq<Card>, coins: seq<Coin>,
                history: seq<Entry>): (r: Result<Episode>)
    requires s.mySum <= 21
    ensures r.Ok? ==> |history| < |r.value.history|
    decreases Progress(s)
  {
    match Decide(s, coins)
    case Err(e) => Err(e)
    case Ok((explore, coins')) =>
      var a := Policy(s, values, explore);
      var h := history + [Entry(0, Some(s), Some(a))];
      match Environment.Step(s, a, cards)
      case Err(e) => Err(e)
      case Ok(t) =>
        if t.outcome.reward != 0 then
          Ok(Episode(h + [Entry(t.outcome.reward, None, None)], t.rest, coins'))
        else
          Play(t.outcome.next.value, values, t.rest, coins', h)
  }

  /** `episode(s)` as a function: with no initial state it first draws one. */
  function Run(init: Option<State>, values: map<Key, real>, cards: seq<Card>,
               coins: seq<Coin>): (r: Result<Episode>)
    requires init.Some? ==> init.value.mySum <= 21
    ensures init.None? && |cards| < 3 ==> r == Err(OutOfCards)
    ensures r.Ok? ==> |r.value.history| > 0
  {
    match init
    case Some(s) => Play(s, values, cards, coins, [])
    case None =>
      match RandomState(cards)
      case Err(e) => Err(e)
      case Ok((s, rest)) => Play(s, values, rest, coins, [])
  }

  /** A finished game extends the records already made, and consumes a front
      part of each random stream. */
  lemma {:induction false} PlayExtends(s: State, values: map<Key, real>, cards: seq<Card>,
                                       coins: seq<Coin>, history: seq<Entry>)
    requires s.mySum <= 21
    ensures Play(s, values, cards, coins, history).Ok? ==>
      var e := Play(s, values, cards, coins, history).value;
      |history| < |e.history| && e.history[..|history|] == history &&
      IsSuffix(e.cards, cards) && IsSuffix(e.coins, coins)
    decreases Progress(s)
  {
    match Decide(s, coins)
    case Err(_) =>
    case Ok((explore, coins')) =>
      var a := Policy(s, values, explore);
      var h := history + [Entry(0, Some(s), Some(a))];
      match Environment.Step(s, a, cards)
      case Err(_) =>
      case Ok(t) =>
        if t.outcome.reward != 0 {
          var fin := h + [Entry(t.outcome.reward, None, None)];
          assert fin[..|history|] == history;
        } else {
          PlayExtends(t.outcome.next.value, values, t.rest, coins', h);
          var res := Play(t.outcome.next.value, values, t.rest, coins', h);
          if res.Ok? {
            assert h[..|history|] == history;
            ExtendsPrefix(res.value.history, h, history);
            SuffixTrans(res.value.cards, t.rest, cards);
            SuffixTrans(res.value.coins, coins', coins);
          }
        }
  }

  /** An episode consumes a front part of each random stream, three cards or
      more when it draws its own start state. */
  lemma RunUses(init: Option<State>, values: map<Key, real>, cards: seq<Card>, coins: seq<Coin>)
    requires init.Some? ==> init.value.mySum <= 21
    ensures Run(init, values, cards, coins).Ok? ==>
      var e := Run(init, values, cards, coins).value;
      IsSuffix(e.cards, cards) && IsSuffix(e.coins, coins) &&
      (init.None? ==> |e.cards| <= |cards| - 3)
  {
    match init
    case Some(s) => PlayExtends(s, values, cards, coins, []);
    case None =>
      match RandomState(cards)
      case Err(_) =>
      case Ok((s, rest)) =>
        PlayExtends(s, values, rest, coins, []);
        var res := Play(s, values, rest, coins, []);
        if res.Ok? {
          SuffixTrans(res.value.cards, rest, cards);
        }
  }

  /** A HIT that did not end the game extends the pending records. */
  lemma ExtendPrefix(history: seq<Entry>, s: State)
    requires Prefix(history) && s.mySum <= 21
    ensures Prefix(history + [Entry(0, Some(s), Some(Hit))])
  {
  }

  /** The last step's record and the terminal sentinel complete the shape. */
  lemma FinishWellFormed(history: seq<Entry>, s: State, a: Action, r: int)
    requires Prefix(history) && s.mySum <= 21
    requires r == 1 || r == -1
    requires r == 1 ==> a == Stop
    ensures
      var fin := history + [Entry(0, Some(s), Some(a))] + [Entry(r, None, None)];
      WellFormed(fin) && |history| < |fin| && fin[..|history|] == history
  {
    var fin := history + [Entry(0, Some(s), Some(a))] + [Entry(r, None, None)];
    assert fin[..|history|] == history;
    assert fin[|fin| - 2] == Entry(0, Some(s), Some(a));
    assert forall i :: 0 <= i < |history| ==> fin[i] == history[i];
  }

  /** A history that extends h also extends every prefix of h. */
  lemma ExtendsPrefix(full: seq<Entry>, h: seq<Entry>, history: seq<Entry>)
    requires |h| < |full| && full[..|h|] == h
    requires |history| < |h| && h[..|history|] == history
    ensures |history| < |full| && full[..|history|] == history
  {
    assert full[..|history|] == full[..|h|][..|history|];
  }

  lemma {:induction false} PlayWellFormed(s: State, values: map<Key, real>, cards: seq<Card>,
                                          coins: seq<Coin>, history: seq<Entry>)
    requires s.mySum <= 21
    requires Prefix(history)
    ensures Play(s, values, cards, coins, history).Ok? ==>
      var e := Play(s, values, cards, coins, history).value;
      WellFormed(e.history) && |history| < |e.history| && e.history[..|history|] == history
    decreases Progress(s)
  {
    match Decide(s, coins)
    case Err(_) =>
    case Ok((explore, coins')) =>
      var a := Policy(s, values, explore);
      match Environment.Step(s, a, cards)
      case Err(_) =>
      case Ok(t) =>
        var r := t.outcome.reward;
        if r != 0 {
          FinishWellFormed(history, s, a, r);
        } else {
          var h := history + [Entry(0, Some(s), Some(a))];
          var next := t.outcome.next.value;
          ExtendPrefix(history, s);
          PlayWellFormed(next, values, t.rest, coins', h);
          PlayExtends(next, values, t.rest, coins', h);
          var res := Play(next, values, t.rest, coins', h);
          if res.Ok? {
            assert h[..|history|] == history;
            ExtendsPrefix(res.value.history, h, history);
          }
        }
  }

  /** Every history `episode` returns has the shape WellFormed describes. */
  lemma RunWellFormed(init: Option<State>, values: map<Key, real>, cards: seq<Card>,
                      coins: seq<Coin>)
    requires init.Some? ==> init.value.mySum <= 21
    ensures Run(init, values, cards, coins).Ok? ==>
      WellFormed(Run(init, values, cards, coins).value.history)
  {
    match init
    case Some(s) => PlayWellFormed(s, values, cards, coins, []);
    case None =>
      match RandomState(cards)
      case Err(_) =>
      case Ok((s, rest)) => PlayWellFormed(s, values, rest, coins, []);
  }

  /** The progress measure of the recorded states falls strictly from each
      record to every later one. */
  ghost predicate ProgressFalls(h: seq<Entry>)
  {
    forall i, j :: 0 <= i < j < |h| && h[i].state.Some? && h[j].state.Some? ==>
      Progress(h[i].state.value) > Progress(h[j].state.value)
  }

  /** Every state recorded so far lies strictly above s in the progress measure. */
  ghost predicate Above(h: seq<Entry>, s: State)
  {
    forall i :: 0 <= i < |h| && h[i].state.Some? ==> Progress(h[i].state.value) > Progress(s)
  }

  /** Recording the current state, then moving to a state of lower progress,
      keeps the measure falling. */
  lemma Record(history: seq<Entry>, s: State, a: Action, next: State)
    requires ProgressFalls(history) && Above(history, s)
    requires Progress(next) < Progress(s)
    ensures ProgressFalls(history + [Entry(0, Some(s), Some(a))])
    ensures Above(history + [Entry(0, Some(s), Some(a))], next)
  {
  }

  /** The last step's record and the sentinel keep the measure falling. */
  lemma RecordLast(history: seq<Entry>, s: State, a: Action, r: int)
    requires ProgressFalls(history) && Above(history, s)
    ensures ProgressFalls(history + [Entry(0, Some(s), Some(a))] + [Entry(r, None, None)])
  {
    var h := history + [Entry(0, Some(s), Some(a))];
    assert ProgressFalls(h);
  }

  lemma {:induction false} PlayProgressFalls(s: State, values: map<Key, real>, cards: seq<Card>,
                                             coins: seq<Coin>, history: seq<Entry>)
    requires s.mySum <= 21
    requires ProgressFalls(history) && Above(history, s)
    ensures Play(s, values, cards, coins, history).Ok? ==>
      ProgressFalls(Play(s, values, cards, coins, history).value.history)
    decreases Progress(s)
  {
    match Decide(s, coins)
    case Err(_) =>
    case Ok((explore, coins')) =>
      var a := Policy(s, values, explore);
      var h := history + [Entry(0, Some(s), Some(a))];
      match Environment.Step(s, a, cards)
      case Err(_) =>
      case Ok(t) =>
        if t.outcome.reward != 0 {
          RecordLast(history, s, a, t.outcome.reward);
        } else {
          var next := t.outcome.next.value;
          Record(history, s, a, next);
          PlayProgressFalls(next, values, t.rest, coins', h);
        }
  }

  /** The states an episode records are pairwise distinct: every HIT that does
      not end the game lowers the progress measure, so no (state, action) pair
      can occur twice in one history. */
  lemma RunStatesDistinct(init: Option<State>, values: map<Key, real>, cards: seq<Card>,
                          coins: seq<Coin>)
    requires init.Some? ==> init.value.mySum <= 21
    ensures Run(init, values, cards, coins).Ok? ==>
      var h := Run(init, values, cards, coins).value.history;
      forall i, j :: 0 <= i < j < |h| - 1 ==> h[i].state != h[j].state
  {
    RunWellFormed(init, values, cards, coins);
    match init
    case Some(s) => PlayProgressFalls(s, values, cards, coins, []);
    case None =>
      match RandomState(cards)
      case Err(_) =>
      case Ok((s, rest)) => PlayProgressFalls(s, values, rest, coins, []);
  }

  /** `episode(s)`, drawing cards and coins from the front of the two streams. */
  method RunEpisode(init: Option<State>, values: map<Key, real>, cards: seq<Card>,
                    coins: seq<Coin>) returns (res: Result<Episode>)
    requires init.Some? ==> init.value.mySum <= 21
    ensures res == Run(init, values, cards, coins)
    ensures res.Ok? ==> WellFormed(res.value.history)
  {
    RunWellFormed(init, values, cards, coins);
    var cs, ks := cards, coins;
    var s: State;
    if init.Some? {
      s := init.value;
    } else {
      var start := RandomState(cs);
      if start.Err? {
        return Err(start.error);
      }
      s, cs := start.value.0, start.value.1;
    }
    var r := 0;
    var history: seq<Entry> := [];
    while r == 0
      invariant r == 0 ==> s.mySum <= 21
      invariant r == 0 ==> Run(init, values, cards, coins) == Play(s, values, cs, ks, history)
      invariant r != 0 ==> Run(init, values, cards, coins) == Ok(Episode(history, cs, ks))
      decreases if r == 0 then Progress(s) + 1 else 0
    {
      var explore: Option<Action> := None;
      if Consults(s) {
        if ks == [] {
          return Err(OutOfCoins);
        }
        explore := Exploration(ks[0]);
        ks := ks[1..];
      }
      var a := Policy(s, values, explore);
      history := history + [Entry(r, Some(s), Some(a))];
      var t := Environment.Reward(s, a, cs);
      if t.Err? {
        return Err(t.error);
      }
      cs := t.value.rest;
      r := t.value.outcome.reward;
      if r != 0 {
        history := history + [Entry(r, None, None)];
      } else {
        s := t.value.outcome.next.value;
      }
    }
    return Ok(Episode(history, cs, ks));
  }

  /** A scripted episode: from (20, no ace, dealer 10) with an empty table and
      a greedy coin the player stops on the tie of two defaults, the dealer
      draws 7 and stands on 17, and the player wins. */
  lemma EpisodeScenario()
    ensures Run(Some(State(20, false, 10)), map[], [7], [Coin(0.5, Hit)]) ==
      Ok(Episode([Entry(0, Some(State(20, false, 10)), Some(Stop)), Entry(1, None, None)], [], []))
  {
    var s := State(20, false, 10);
    assert [Coin(0.5, Hit)][1..] == [] && [7][1..] == [];
    assert Exploration(Coin(0.5, Hit)) == None;
    assert Decide(s, [Coin(0.5, Hit)]) == Ok((None, []));
    assert Policy(s, map[], None) == Stop;
    assert Dealer.Play(Dealer.Start(10), [7]) == Some(Dealer.Final(17, 1));
    assert Environment.Step(s, Stop, [7]) ==
      Ok(Environment.Transition(Environment.Outcome(1, None), []));
    var first := Entry(0, Some(s), Some(Stop));
    assert [] + [first] + [Entry(1, None, None)] == [first, Entry(1, None, None)];
  }
}
