/** The Monte Carlo update `policy_update` (blackjack.py:128-139) and the two
    tables it shares across episodes (blackjack.py:29, 128). */
module Learning {
  import opened Cards
  import opened Behavior
  import opened Episodes

  /** A snapshot of `value_map` and `counts`. */
  datatype Tables = Tables(values: map<Key, real>, counts: map<Key, nat>)

  /** The two tables gain keys together: every update writes both. */
  predicate Paired(t: Tables)
  {
    t.values.Keys == t.counts.Keys
  }

  /** `counts.get((s, a), 0)` */
  function CountOf(counts: map<Key, nat>, k: Key): nat
  {
    if k in counts then counts[k] else 0
  }

  /** `value_map.get((s, a), 0)`, the lookup the update itself uses. */
  function StoredOr0(values: map<Key, real>, k: Key): real
  {
    if k in values then values[k] else 0.0
  }

  /** The incremental mean count/(count+1)*old + g/(count+1), in exact reals. */
  function IncMean(v: real, c: nat, g: real): (r: real)
    ensures c == 0 ==> r == g
    ensures v <= g ==> v <= r <= g
    ensures g <= v ==> g <= r <= v
  {
    (c as real) / (c as real + 1.0) * v + g / (c as real + 1.0)
  }

  /** Weighted by the new count, the incremental mean adds g to the old sum. */
  lemma IncMeanScaled(v: real, c: nat, g: real)
    ensures (c as real + 1.0) * IncMean(v, c, g) == (c as real) * v + g
  {
    var n := c as real + 1.0;
    assert n * ((c as real) / n) == c as real;
    assert n * (g / n) == g;
    calc {
      n * IncMean(v, c, g);
      n * ((c as real) / n * v) + n * (g / n);
      (n * ((c as real) / n)) * v + g;
    }
  }

  /** Lines 137-139 for one key and one return g. */
  function UpdateAt(t: Tables, k: Key, g: real): (r: Tables)
    ensures r.values.Keys == t.values.Keys + {k} && r.counts.Keys == t.counts.Keys + {k}
    ensures r.counts[k] == CountOf(t.counts, k) + 1
  {
    var c := CountOf(t.counts, k);
    Tables(t.values[k := IncMean(StoredOr0(t.values, k), c, g)], t.counts[k := c + 1])
  }

  /** The first update of a key stores its return exactly, whatever the default. */
  lemma FirstUpdateStoresReturn(t: Tables, k: Key, g: real)
    requires k !in t.counts
    ensures UpdateAt(t, k, g).values[k] == g
    ensures UpdateAt(t, k, g).counts[k] == 1
  {
  }

  /** An update changes its own key and leaves every other entry as it was. */
  lemma UpdateFrame(t: Tables, k: Key, g: real, other: Key)
    requires other != k
    ensures (other in UpdateAt(t, k, g).values <==> other in t.values)
    ensures (other in UpdateAt(t, k, g).counts <==> other in t.counts)
    ensures other in t.values ==> UpdateAt(t, k, g).values[other] == t.values[other]
    ensures other in t.counts ==> UpdateAt(t, k, g).counts[other] == t.counts[other]
  {
  }

  function Sum(gs: seq<real>): real
  {
    if gs == [] then 0.0 else gs[0] + Sum(gs[1..])
  }

  /** The same key updated with the returns gs, in order. */
  function UpdateMany(t: Tables, k: Key, gs: seq<real>): Tables
    decreases |gs|
  {
    if gs == [] then t else UpdateMany(UpdateAt(t, k, gs[0]), k, gs[1..])
  }

  /** From a x == a y with a nonzero, x == y. */
  lemma Cancel(a: real, x: real, y: real)
    requires a != 0.0 && a * x == a * y
    ensures x == y
  {
    assert a * (x - y) == 0.0;
  }

  /** c copies of v added up. */
  function Times(c: nat, v: real): real
  {
    if c == 0 then 0.0 else Times(c - 1, v) + v
  }

  lemma {:induction false} TimesIsProduct(c: nat, v: real)
    ensures Times(c, v) == (c as real) * v
  {
    if c > 0 {
      TimesIsProduct(c - 1, v);
      assert ((c - 1) as real) * v + v == (c as real) * v;
    }
  }

  /** The sum of the returns a key's running mean stands for: its count times
      its value. */
  function Total(t: Tables, k: Key): real
  {
    Times(CountOf(t.counts, k), StoredOr0(t.values, k))
  }

  /** A key whose total is its count times r holds the value r. */
  lemma MeanFromTotal(t: Tables, k: Key, r: real)
    requires CountOf(t.counts, k) > 0
    requires Total(t, k) == Times(CountOf(t.counts, k), r)
    ensures StoredOr0(t.values, k) == r
  {
    var c := CountOf(t.counts, k);
    TimesIsProduct(c, r);
    TimesIsProduct(c, StoredOr0(t.values, k));
    Cancel(c as real, StoredOr0(t.values, k), r);
  }

  /** One update adds one to the count and the return g to the total. */
  lemma UpdateTotal(t: Tables, k: Key, g: real)
    ensures k in UpdateAt(t, k, g).values && k in UpdateAt(t, k, g).counts
    ensures CountOf(UpdateAt(t, k, g).counts, k) == CountOf(t.counts, k) + 1
    ensures Total(UpdateAt(t, k, g), k) == Total(t, k) + g
  {
    var c := CountOf(t.counts, k);
    var v := StoredOr0(t.values, k);
    IncMeanScaled(v, c, g);
    TimesIsProduct(c + 1, IncMean(v, c, g));
    TimesIsProduct(c, v);
  }

  /** After updates with gs, the count has grown by |gs| and the total by the
      sum of gs. */
  lemma {:induction false} UpdateManyTotal(t: Tables, k: Key, gs: seq<real>)
    ensures CountOf(UpdateMany(t, k, gs).counts, k) == CountOf(t.counts, k) + |gs|
    ensures gs != [] ==> k in UpdateMany(t, k, gs).values && k in UpdateMany(t, k, gs).counts
    ensures Total(UpdateMany(t, k, gs), k) == Total(t, k) + Sum(gs)
    decreases |gs|
  {
    if gs != [] {
      var u := UpdateAt(t, k, gs[0]);
      UpdateTotal(t, k, gs[0]);
      UpdateManyTotal(u, k, gs[1..]);
    }
  }

  /** After N updates of a key that had none, its value is the mean of its N returns. */
  lemma MeanOfReturns(t: Tables, k: Key, gs: seq<real>)
    requires k !in t.counts
    requires gs != []
    ensures k in UpdateMany(t, k, gs).counts && UpdateMany(t, k, gs).counts[k] == |gs|
    ensures k in UpdateMany(t, k, gs).values
    ensures UpdateMany(t, k, gs).values[k] == Sum(gs) / (|gs| as real)
  {
    UpdateManyTotal(t, k, gs);
    var u := UpdateMany(t, k, gs);
    var mean := Sum(gs) / (|gs| as real);
    TimesIsProduct(|gs|, mean);
    DivCancel(|gs| as real, Sum(gs));
    assert Total(u, k) == Times(CountOf(u.counts, k), mean);
    MeanFromTotal(u, k, mean);
  }

  /** Multiplying a quotient by its divisor gives back the dividend. */
  lemma DivCancel(n: real, x: real)
    requires n != 0.0
    ensures n * (x / n) == x
  {
  }

  /** Every history record but the last has a state and an action. */
  ghost predicate Recorded(h: seq<Entry>)
  {
    forall i :: 0 <= i < |h| - 1 ==> h[i].state.Some? && h[i].action.Some?
  }

  /** Whether a record is for the pair k. */
  predicate IsFor(e: Entry, k: Key)
  {
    e.state == Some(k.0) && e.action == Some(k.1)
  }

  /** Lines 134-139 for one record and its return g.  Only the terminal
      sentinel lacks a state and an action, and the pass never visits it;
      such a record leaves the tables as they are. */
  function Visit(t: Tables, e: Entry, g: real): Tables
  {
    if e.state.Some? && e.action.Some? then UpdateAt(t, (e.state.value, e.action.value), g) else t
  }

  /** What one visit does to the entries of a key k. */
  lemma VisitKey(t: Tables, e: Entry, g: real, k: Key)
    ensures CountOf(Visit(t, e, g).counts, k) == CountOf(t.counts, k) + (if IsFor(e, k) then 1 else 0)
    ensures Total(Visit(t, e, g), k) == Total(t, k) + (if IsFor(e, k) then g else 0.0)
    ensures IsFor(e, k) ==> k in Visit(t, e, g).values && k in Visit(t, e, g).counts
    ensures !IsFor(e, k) ==>
      (k in Visit(t, e, g).values <==> k in t.values) &&
      (k in Visit(t, e, g).counts <==> k in t.counts) &&
      (k in t.values ==> Visit(t, e, g).values[k] == t.values[k]) &&
      (k in t.counts ==> Visit(t, e, g).counts[k] == t.counts[k])
  {
    if e.state.Some? && e.action.Some? {
      var key := (e.state.value, e.action.value);
      if key == k {
        UpdateTotal(t, k, g);
      } else {
        UpdateFrame(t, key, g, k);
        assert Total(Visit(t, e, g), k) == Total(t, k);
      }
    }
  }

  /** A visit writes both tables or neither. */
  lemma VisitPaired(t: Tables, e: Entry, g: real)
    requires Paired(t)
    ensures Paired(Visit(t, e, g))
  {
  }

  /** The undiscounted return: the sum of the rewards of the records given. */
  function RewardSum(h: seq<Entry>): int
  {
    if h == [] then 0 else h[0].reward + RewardSum(h[1..])
  }

  /** The backward pass over the records n-1, n-2, ..., 0, each updated with
      the return of the records after it. */
  function Pass(t: Tables, h: seq<Entry>, n: nat): (r: Tables)
    requires n < |h|
    ensures t.values.Keys <= r.values.Keys && t.counts.Keys <= r.counts.Keys
    decreases n
  {
    if n == 0 then t
    else Pass(Visit(t, h[n - 1], RewardSum(h[n..]) as real), h, n - 1)
  }

  /** The return from record n on is that record's reward plus the return
      from record n' = n + 1 on. */
  lemma RewardStep(h: seq<Entry>, n: nat, n': nat)
    requires n < |h| && n' == n + 1
    ensures RewardSum(h[n..]) == h[n].reward + RewardSum(h[n'..])
  {
    assert h[n..][0] == h[n] && h[n..][1..] == h[n'..];
  }

  /** One step of the pass: visit record n-1, then the records before it. */
  lemma PassStep(t: Tables, h: seq<Entry>, n: nat, n': nat)
    requires 0 < n < |h| && n' == n - 1
    ensures Pass(t, h, n) == Pass(Visit(t, h[n - 1], RewardSum(h[n..]) as real), h, n')
  {
  }

  /** One iteration of the backward pass, from record i to record i' = i - 1:
      the return grows by the reward after record i, and what is left of the
      pass continues from the tables after visiting record i.  The next
      values i', g' and t' are parameters, the very variables the loop assigns,
      so that its invariants match these ensures term for term. */
  lemma PassBack(t0: Tables, h: seq<Entry>, i: nat, i': int, g: int, g': int, t: Tables, t': Tables)
    requires i <= |h| - 2 && i' == i - 1
    requires g == RewardSum(h[i + 2..]) && g' == g + h[i + 1].reward
    requires Pass(t0, h, |h| - 1) == Pass(t, h, i + 1)
    requires t' == Visit(t, h[i], g' as real)
    ensures g' == RewardSum(h[i' + 2..])
    ensures Pass(t0, h, |h| - 1) == Pass(t', h, i' + 1)
  {
    RewardStep(h, i + 1, i + 2);
    assert h[i + 1..] == h[i' + 2..];
    PassStep(t, h, i + 1, i' + 1);
  }

  /** The whole pass of `policy_update` over a history: records |h|-2 down
      to 0.  An empty history is left alone, as `range(-2, -1, -1)` is empty. */
  function PassAll(t: Tables, h: seq<Entry>): (r: Tables)
    ensures t.values.Keys <= r.values.Keys && t.counts.Keys <= r.counts.Keys
    ensures |h| <= 1 ==> r == t
  {
    if h == [] then t else Pass(t, h, |h| - 1)
  }

  /** How many of the first n records are for key k. */
  function Occurrences(h: seq<Entry>, n: nat, k: Key): nat
    requires n < |h|
  {
    if n == 0 then 0
    else Occurrences(h, n - 1, k) + (if IsFor(h[n - 1], k) then 1 else 0)
  }

  /** The returns the pass feeds to key k from the first n records. */
  function ReturnsFor(h: seq<Entry>, n: nat, k: Key): real
    requires n < |h|
    decreases n
  {
    if n == 0 then 0.0
    else ReturnsFor(h, n - 1, k) + (if IsFor(h[n - 1], k) then RewardSum(h[n..]) as real else 0.0)
  }

  /** In a history `episode` returns, the return after every recorded step is
      the terminal reward. */
  lemma {:induction false} ReturnIsTerminalReward(h: seq<Entry>, i: nat)
    requires WellFormed(h) && i < |h| - 1
    ensures RewardSum(h[i + 1..]) == h[|h| - 1].reward
    decreases |h| - i
  {
    if i + 1 == |h| - 1 {
      assert h[i + 1..] == [h[|h| - 1]];
      assert RewardSum(h[i + 1..][1..]) == 0;
    } else {
      ReturnIsTerminalReward(h, i + 1);
      assert h[i + 1..][1..] == h[i + 2..];
    }
  }

  /** The pass raises each key's count by the number of its records,
      repeated pairs included. */
  lemma {:induction false} PassCounts(t: Tables, h: seq<Entry>, n: nat, k: Key)
    requires n < |h|
    ensures CountOf(Pass(t, h, n).counts, k) == CountOf(t.counts, k) + Occurrences(h, n, k)
    decreases n
  {
    if n > 0 {
      var g := RewardSum(h[n..]) as real;
      VisitKey(t, h[n - 1], g, k);
      PassCounts(Visit(t, h[n - 1], g), h, n - 1, k);
    }
  }

  /** A key with no record in the episode keeps its value and its count. */
  lemma {:induction false} PassFrame(t: Tables, h: seq<Entry>, n: nat, k: Key)
    requires n < |h|
    requires Occurrences(h, n, k) == 0
    ensures (k in Pass(t, h, n).values <==> k in t.values)
    ensures (k in Pass(t, h, n).counts <==> k in t.counts)
    ensures k in t.values ==> Pass(t, h, n).values[k] == t.values[k]
    ensures k in t.counts ==> Pass(t, h, n).counts[k] == t.counts[k]
    decreases n
  {
    if n > 0 {
      var g := RewardSum(h[n..]) as real;
      VisitKey(t, h[n - 1], g, k);
      PassFrame(Visit(t, h[n - 1], g), h, n - 1, k);
    }
  }

  /** The pass keeps the two tables' keys in step. */
  lemma {:induction false} PassPaired(t: Tables, h: seq<Entry>, n: nat)
    requires n < |h|
    requires Paired(t)
    ensures Paired(Pass(t, h, n))
    decreases n
  {
    if n > 0 {
      var g := RewardSum(h[n..]) as real;
      VisitPaired(t, h[n - 1], g);
      PassPaired(Visit(t, h[n - 1], g), h, n - 1);
    }
  }

  /** The pass adds to a key's total exactly the returns of its records. */
  lemma {:induction false} PassTotal(t: Tables, h: seq<Entry>, n: nat, k: Key)
    requires n < |h|
    ensures Occurrences(h, n, k) > 0 ==> k in Pass(t, h, n).values
    ensures Total(Pass(t, h, n), k) == Total(t, k) + ReturnsFor(h, n, k)
    decreases n
  {
    if n > 0 {
      var g := RewardSum(h[n..]) as real;
      var u := Visit(t, h[n - 1], g);
      VisitKey(t, h[n - 1], g, k);
      PassTotal(u, h, n - 1, k);
      if IsFor(h[n - 1], k) && Occurrences(h, n - 1, k) == 0 {
        PassFrame(u, h, n - 1, k);
      }
    }
  }

  /** In an episode ending in reward R, each record of a key contributes R. */
  lemma {:induction false} ReturnsAreTerminal(h: seq<Entry>, n: nat, k: Key)
    requires WellFormed(h) && n < |h|
    ensures ReturnsFor(h, n, k) == Times(Occurrences(h, n, k), h[|h| - 1].reward as real)
    decreases n
  {
    if n > 0 {
      ReturnsAreTerminal(h, n - 1, k);
      ReturnIsTerminalReward(h, n - 1);
    }
  }

  /** A pair seen for the first time in an episode ends the pass with its
      count raised by its number of records and its value exactly the
      episode's terminal reward. */
  lemma FreshKeyTakesTerminalReward(t: Tables, h: seq<Entry>, k: Key)
    requires WellFormed(h)
    requires k !in t.counts
    ensures Occurrences(h, |h| - 1, k) > 0 ==>
      k in Pass(t, h, |h| - 1).values &&
      Pass(t, h, |h| - 1).values[k] == h[|h| - 1].reward as real
  {
    var n := |h| - 1;
    var p := Pass(t, h, n);
    PassTotal(t, h, n, k);
    ReturnsAreTerminal(h, n, k);
    PassCounts(t, h, n, k);
    var m := Occurrences(h, n, k);
    if m > 0 {
      var r := h[n].reward as real;
      assert CountOf(t.counts, k) == 0 && CountOf(p.counts, k) == m;
      assert Total(t, k) == 0.0;
      MeanFromTotal(p, k, r);
    }
  }

  datatype Training = Training(tables: Tables, played: nat)

  /** One episode from a drawn state followed by its backward pass; None
      when a random stream runs out. */
  function Learn(t: Tables, cards: seq<Card>, coins: seq<Coin>):
    (r: Option<(Tables, seq<Card>, seq<Coin>)>)
    ensures r.None? <==> Run(None, t.values, cards, coins).Err?
    ensures r.Some? ==> t.values.Keys <= r.value.0.values.Keys && t.counts.Keys <= r.value.0.counts.Keys
  {
    match Run(None, t.values, cards, coins)
    case Err(_) => None
    case Ok(e) =>
      Some((PassAll(t, e.history), e.cards, e.coins))
  }

  /** A round of training consumes at least three cards and front parts of
      both streams. */
  lemma LearnUses(t: Tables, cards: seq<Card>, coins: seq<Coin>)
    ensures Learn(t, cards, coins).Some? ==>
      var (_, cards', coins') := Learn(t, cards, coins).value;
      |cards'| <= |cards| - 3 && IsSuffix(cards', cards) && IsSuffix(coins', coins)
  {
    RunUses(None, t.values, cards, coins);
  }

  /** `policy_update(n)` as a function, after `played` episodes already
      played: n more rounds of Learn, stopping early when a random stream
      runs out.  The result counts every episode played. */
  function Train(t: Tables, n: nat, cards: seq<Card>, coins: seq<Coin>, played: nat): (r: Training)
    ensures played <= r.played <= played + n && 3 * (r.played - played) <= |cards|
    ensures Paired(t) ==> Paired(r.tables)
    decreases n
  {
    if n == 0 then Training(t, played)
    else
      LearnPaired(t, cards, coins);
      LearnUses(t, cards, coins);
      match Learn(t, cards, coins)
      case None => Training(t, played)
      case Some((t', cards', coins')) => Train(t', n - 1, cards', coins', played + 1)
  }

  /** One round of Train: Learn, then the remaining n' = n - 1 rounds, with
      one more episode played.  n' and played' are the loop's next counters,
      passed in so that its invariant matches the ensures term for term. */
  lemma TrainStep(t: Tables, n: nat, cards: seq<Card>, coins: seq<Coin>, played: nat,
                  n': nat, played': nat)
    requires n > 0 && n' == n - 1 && played' == played + 1
    ensures Learn(t, cards, coins).None? ==> Train(t, n, cards, coins, played) == Training(t, played)
    ensures Learn(t, cards, coins).Some? ==>
      var (t', cards', coins') := Learn(t, cards, coins).value;
      Train(t, n, cards, coins, played) == Train(t', n', cards', coins', played')
  {
  }

  /** The episode the learner plays and the round of Learn agree. */
  lemma LearnIsRunThenPass(t: Tables, cards: seq<Card>, coins: seq<Coin>, e: Episode)
    requires Run(None, t.values, cards, coins) == Ok(e)
    ensures WellFormed(e.history)
    ensures Learn(t, cards, coins) == Some((PassAll(t, e.history), e.cards, e.coins))
  {
    RunWellFormed(None, t.values, cards, coins);
  }

  /** A round of Learn keeps the two tables' keys in step. */
  lemma LearnPaired(t: Tables, cards: seq<Card>, coins: seq<Coin>)
    ensures Paired(t) && Learn(t, cards, coins).Some? ==> Paired(Learn(t, cards, coins).value.0)
  {
    match Run(None, t.values, cards, coins)
    case Err(_) =>
    case Ok(e) =>
      if Paired(t) && e.history != [] {
        PassPaired(t, e.history, |e.history| - 1);
      }
  }

  /** With pairwise distinct recorded states, no pair has two records among
      the first n. */
  lemma {:induction false} AtMostOneRecord(h: seq<Entry>, n: nat, k: Key)
    requires n < |h|
    requires forall i, j :: 0 <= i < j < |h| - 1 ==> h[i].state != h[j].state
    ensures Occurrences(h, n, k) <= 1
    ensures Occurrences(h, n, k) > 0 ==> exists i :: 0 <= i < n && IsFor(h[i], k)
    decreases n
  {
    if n > 0 {
      AtMostOneRecord(h, n - 1, k);
    }
  }

  /** The pass updates every record, not only the first visit of a pair, but
      an episode never records a pair twice: in a round of training each
      pair's count rises by at most one, so the every-visit pass and a
      first-visit pass agree. */
  lemma LearnUpdatesPairAtMostOnce(t: Tables, cards: seq<Card>, coins: seq<Coin>, k: Key)
    ensures Learn(t, cards, coins).Some? ==>
      CountOf(Learn(t, cards, coins).value.0.counts, k) <= CountOf(t.counts, k) + 1
  {
    match Run(None, t.values, cards, coins)
    case Err(_) =>
    case Ok(e) =>
      RunWellFormed(None, t.values, cards, coins);
      RunStatesDistinct(None, t.values, cards, coins);
      PassAllAtMostOnce(t, e.history, k);
  }

  /** Over a history whose recorded states are pairwise distinct, the pass
      raises each pair's count by at most one. */
  lemma PassAllAtMostOnce(t: Tables, h: seq<Entry>, k: Key)
    requires |h| >= 2
    requires forall i, j :: 0 <= i < j < |h| - 1 ==> h[i].state != h[j].state
    ensures CountOf(PassAll(t, h).counts, k) <= CountOf(t.counts, k) + 1
  {
    PassCounts(t, h, |h| - 1, k);
    AtMostOneRecord(h, |h| - 1, k);
  }

  /** The process-wide `value_map` and `counts` as one object. */
  class Learner {
    var values: map<Key, real>
    var counts: map<Key, nat>

    predicate Valid()
      reads this
    {
      Paired(Tables(values, counts))
    }

    function Snapshot(): Tables
      reads this
    {
      Tables(values, counts)
    }

    constructor ()
      ensures Valid()
      ensures values == map[] && counts == map[]
    {
      values := map[];
      counts := map[];
    }

    /** The inner loop of `policy_update` over one history:
        records |h|-2 down to 0, accumulating g from the rewards after each. */
    method BackwardPass(h: seq<Entry>)
      requires Valid()
      requires Recorded(h)
      modifies this
      ensures Valid()
      ensures Snapshot() == PassAll(old(Snapshot()), h)
    {
      if h == [] {
        return;
      }
      PassPaired(Snapshot(), h, |h| - 1);
      ghost var t0 := Snapshot();
      var t := Snapshot();
      var g := 0;
      var i := |h| - 2;
      while i >= 0
        invariant -1 <= i <= |h| - 2
        invariant g == RewardSum(h[i + 2..])
        invariant Pass(t0, h, |h| - 1) == Pass(t, h, i + 1)
      {
        var nextR := h[i + 1].reward;
        var s, a := h[i].state.value, h[i].action.value;
        var i', g' := i - 1, g + nextR;
        var t' := UpdateAt(t, (s, a), g' as real);
        PassBack(t0, h, i, i', g, g', t, t');
        g, i, t := g', i', t';
      }
      values, counts := t.values, t.counts;
    }

    /** One iteration of the outer loop of `policy_update`: play an episode
        from a drawn state, then run the backward pass over its history. */
    method Learn1(cards: seq<Card>, coins: seq<Coin>) returns (ok: bool, cards': seq<Card>, coins': seq<Coin>)
      requires Valid()
      modifies this
      ensures Valid()
      ensures ok == Learn(old(Snapshot()), cards, coins).Some?
      ensures ok ==> Learn(old(Snapshot()), cards, coins) == Some((Snapshot(), cards', coins'))
      ensures !ok ==> Snapshot() == old(Snapshot())
    {
      var res := RunEpisode(None, values, cards, coins);
      if res.Err? {
        return false, cards, coins;
      }
      var e := res.value;
      LearnIsRunThenPass(Snapshot(), cards, coins, e);
      BackwardPass(e.history);
      return true, e.cards, e.coins;
    }

    /** `policy_update(n_episodes)` with the random draws of all its episodes
        taken in order from the two streams; it returns how many episodes it
        played, which is fewer than asked only when a stream ran out. */
    method PolicyUpdate(nEpisodes: nat, cards: seq<Card>, coins: seq<Coin>) returns (played: nat)
      requires Valid()
      modifies this
      ensures Valid()
      ensures played <= nEpisodes
      ensures Snapshot() == Train(old(Snapshot()), nEpisodes, cards, coins, 0).tables
      ensures played == Train(old(Snapshot()), nEpisodes, cards, coins, 0).played
    {
      ghost var goal := Train(Snapshot(), nEpisodes, cards, coins, 0);
      var cs, ks := cards, coins;
      played := 0;
      ghost var left: nat := nEpisodes;
      while played < nEpisodes
        invariant played <= nEpisodes && left == nEpisodes - played && Valid()
        invariant goal == Train(Snapshot(), left, cs, ks, played)
      {
        var played': nat := played + 1;
        ghost var left': nat := left - 1;
        TrainStep(Snapshot(), left, cs, ks, played, left', played');
        var ok, cs', ks' := Learn1(cs, ks);
        if !ok {
          return;
        }
        cs, ks, played, left := cs', ks', played', left';
      }
    }
  }
}
