/**
 * The Q-learning strategy (src/agents/qlearning_agent.py): a sparse table of
 * state-action values read with a default of 0.0, epsilon-greedy selection,
 * the Bellman update and a summary of the table.
 *
 * The table is a `defaultdict(float)`: reading a missing entry through
 * `q_table[key]` stores 0.0 under that key, while `q_table.get(key, 0.0)` does
 * not. `Lookup` gives the value such a read yields and `TouchRow` the table it
 * leaves behind. `random.random()` is the `draw` parameter of `Decide`, and
 * `random.choice` picks any element of its list.
 */
module QLearning {
  import opened Values
  import opened Core

  type QTable = map<(string, string), real>

  /** Python truthiness of an optional string: present and not empty. */
  predicate Truthy(s: Option<string>) {
    s.Some? && s.value != ""
  }

  /** The value `q_table[(s, a)]` yields: the stored value, or 0.0. */
  function Lookup(q: QTable, s: string, a: string): real {
    if (s, a) in q then q[(s, a)] else 0.0
  }

  /** The keys `q_table[(s, a)]` touches for every `a` in `acts`. */
  function Row(s: string, acts: seq<string>): set<(string, string)> {
    set a | a in acts :: (s, a)
  }

  /** The table after `q_table[(s, a)]` has been read for every `a` in `acts`. */
  function TouchRow(q: QTable, s: string, acts: seq<string>): (r: QTable)
    ensures r.Keys == q.Keys + Row(s, acts)
    ensures forall k :: k in q ==> r[k] == q[k]
    ensures forall t, a :: Lookup(r, t, a) == Lookup(q, t, a)
  {
    map k | k in q.Keys + Row(s, acts) :: if k in q then q[k] else 0.0
  }

  /** Reading one more entry of the row stores 0.0 under it when it is missing, and yields its value. */
  lemma TouchRowSnoc(q: QTable, s: string, acts: seq<string>, a: string)
    ensures var t := TouchRow(q, s, acts);
      TouchRow(q, s, acts + [a]) == (if (s, a) in t then t else t[(s, a) := 0.0])
    ensures RowValues(q, s, acts + [a]) == RowValues(q, s, acts) + [Lookup(q, s, a)]
  {
    assert Row(s, acts + [a]) == Row(s, acts) + {(s, a)};
  }

  /** `[q_table[(s, a)] for a in acts]` */
  function RowValues(q: QTable, s: string, acts: seq<string>): seq<real> {
    seq(|acts|, i requires 0 <= i < |acts| => Lookup(q, s, acts[i]))
  }

  /** Python's max() of a non-empty list. */
  function MaxOf(xs: seq<real>): (m: real)
    requires |xs| > 0
    ensures m in xs
    ensures forall i :: 0 <= i < |xs| ==> xs[i] <= m
  {
    if |xs| == 1 then xs[0]
    else
      var rest := MaxOf(xs[1..]);
      if xs[0] >= rest then xs[0] else rest
  }

  /** Python's min() of a non-empty list. */
  function MinOf(xs: seq<real>): (m: real)
    requires |xs| > 0
    ensures m in xs
    ensures forall i :: 0 <= i < |xs| ==> m <= xs[i]
  {
    if |xs| == 1 then xs[0]
    else
      var rest := MinOf(xs[1..]);
      if xs[0] <= rest then xs[0] else rest
  }

  /** `[a for a, v in zip(acts, values) if v == m]` */
  function Filter(acts: seq<string>, values: seq<real>, m: real): (r: seq<string>)
    requires |acts| == |values|
    ensures forall a :: a in r <==> exists i :: 0 <= i < |acts| && acts[i] == a && values[i] == m
  {
    if acts == [] then []
    else
      var tail := Filter(acts[1..], values[1..], m);
      assert forall a :: a in tail <==> exists i :: 1 <= i < |acts| && acts[i] == a && values[i] == m by {
        forall a | a in tail ensures exists i :: 1 <= i < |acts| && acts[i] == a && values[i] == m {
          var j :| 0 <= j < |acts| - 1 && acts[1..][j] == a && values[1..][j] == m;
          assert acts[j + 1] == a && values[j + 1] == m;
        }
      }
      (if values[0] == m then [acts[0]] else []) + tail
  }

  /** `a` is one of `acts` and no action of `acts` is worth more in state `s`. */
  predicate Greedy(q: QTable, s: string, acts: seq<string>, a: string) {
    a in acts && forall b :: b in acts ==> Lookup(q, s, b) <= Lookup(q, s, a)
  }

  /** The list of best actions `_get_best_action` chooses from when the values differ. */
  function BestActions(q: QTable, s: string, acts: seq<string>): seq<string>
    requires |acts| > 0
  {
    var values := RowValues(q, s, acts);
    Filter(acts, values, MaxOf(values))
  }

  /** The best actions are exactly the greedy ones. */
  lemma BestActionsAreGreedy(q: QTable, s: string, acts: seq<string>, a: string)
    requires |acts| > 0
    ensures a in BestActions(q, s, acts) <==> Greedy(q, s, acts, a)
  {
    var values := RowValues(q, s, acts);
    var m := MaxOf(values);
    if a in BestActions(q, s, acts) {
      var i :| 0 <= i < |acts| && acts[i] == a && values[i] == m;
      forall b | b in acts ensures Lookup(q, s, b) <= Lookup(q, s, a) {
        var j :| 0 <= j < |acts| && acts[j] == b;
        assert values[j] == Lookup(q, s, b);
      }
    }
    if Greedy(q, s, acts, a) {
      var i :| 0 <= i < |acts| && acts[i] == a;
      var j :| 0 <= j < |values| && values[j] == m;
      assert values[j] <= values[i];
    }
  }

  /** Some action is best, so `random.choice` never sees an empty list. */
  lemma BestActionsNonEmpty(q: QTable, s: string, acts: seq<string>)
    requires |acts| > 0
    ensures |BestActions(q, s, acts)| > 0
  {
    var values := RowValues(q, s, acts);
    var i :| 0 <= i < |values| && values[i] == MaxOf(values);
    assert acts[i] in BestActions(q, s, acts);
  }

  /** When every action has the same value, every action is greedy. */
  lemma AllEqualAllGreedy(q: QTable, s: string, acts: seq<string>, a: string)
    requires |acts| > 0 && a in acts
    requires MaxOf(RowValues(q, s, acts)) == MinOf(RowValues(q, s, acts))
    ensures Greedy(q, s, acts, a)
  {
    var values := RowValues(q, s, acts);
    forall b | b in acts ensures Lookup(q, s, b) <= Lookup(q, s, a) {
      var i :| 0 <= i < |acts| && acts[i] == a;
      var j :| 0 <= j < |acts| && acts[j] == b;
      assert values[j] <= MaxOf(values) == MinOf(values) <= values[i];
    }
  }

  /** The Bellman update: q + alpha * (reward + gamma * nextMax - q). */
  function Bellman(q: real, reward: real, nextMax: real, alpha: real, gamma: real): (r: real)
    ensures alpha == 0.0 ==> r == q
    ensures alpha == 1.0 ==> r == reward + gamma * nextMax
    ensures q == reward + gamma * nextMax ==> r == q
  {
    q + alpha * (reward + gamma * nextMax - q)
  }

  /** With alpha = 0.1 and gamma = 0.9, a first reward of 10 with nothing known of the next state gives 1.0. */
  lemma BellmanFirstReward()
    ensures Bellman(0.0, 10.0, 0.0, 0.1, 0.9) == 1.0
  {
  }

  /** For a learning rate in [0, 1] the new value lies between the current value and the target. */
  lemma BellmanBetween(q: real, reward: real, nextMax: real, alpha: real, gamma: real)
    requires 0.0 <= alpha <= 1.0
    ensures var target := reward + gamma * nextMax;
      var v := Bellman(q, reward, nextMax, alpha, gamma);
      (q <= target ==> q <= v <= target) && (target <= q ==> target <= v <= q)
  {
    var target := reward + gamma * nextMax;
    var d := target - q;
    assert Bellman(q, reward, nextMax, alpha, gamma) == q + alpha * d;
    if d >= 0.0 {
      assert 0.0 <= alpha * d <= d;
    } else {
      assert d <= alpha * d <= 0.0;
    }
  }

  /** The table `learn` leaves: the next state's row read, then `(s, a)` set to `v`. */
  function LearnEffect(q: QTable, s: string, a: string, next: Option<string>, acts: seq<string>, v: real): QTable {
    (if Truthy(next) then TouchRow(q, next.value, acts) else q)[(s, a) := v]
  }

  /**
   * `learn` changes only the entry it updates: every other stored value keeps
   * its number, and the only new keys are the updated one and the next state's row.
   */
  lemma LearnEffectFrame(q: QTable, s: string, a: string, next: Option<string>, acts: seq<string>, v: real)
    ensures var r := LearnEffect(q, s, a, next, acts, v);
      && r.Keys == q.Keys + {(s, a)} + (if Truthy(next) then Row(next.value, acts) else {})
      && Lookup(r, s, a) == v
      && (forall k :: k in q && k != (s, a) ==> r[k] == q[k])
      && (forall t, b :: (t, b) != (s, a) ==> Lookup(r, t, b) == Lookup(q, t, b))
  {
    var r := LearnEffect(q, s, a, next, acts, v);
    forall t, b | (t, b) != (s, a) ensures Lookup(r, t, b) == Lookup(q, t, b) {
      if Truthy(next) && (t, b) !in q && (t, b) in r {
        assert (t, b) in Row(next.value, acts);
      }
    }
  }

  /**
   * Reading `(s, a)`, then the next state's row, then storing `v` under `(s, a)`
   * leaves the table `LearnEffect` describes, and the row values read are those
   * of the table before the update.
   */
  lemma LearnSteps(q: QTable, s: string, a: string, next: Option<string>, acts: seq<string>, v: real)
    ensures var q1 := TouchRow(q, s, [a]);
      && (if Truthy(next) then TouchRow(q1, next.value, acts) else q1)[(s, a) := v] == LearnEffect(q, s, a, next, acts, v)
      && (Truthy(next) ==> RowValues(q1, next.value, acts) == RowValues(q, next.value, acts))
  {
    var q1 := TouchRow(q, s, [a]);
    assert Row(s, [a]) == {(s, a)};
  }

  /** The items in Python's `sorted()` order, that is by key (keys of a dict are distinct). */
  function SortItems(items: seq<Item>): (r: seq<Item>)
    ensures multiset(r) == multiset(items)
  {
    if items == [] then []
    else
      assert items == [items[0]] + items[1..];
      Insert(items[0], SortItems(items[1..]))
  }

  function Insert(x: Item, s: seq<Item>): (r: seq<Item>)
    ensures multiset(r) == multiset(s) + multiset{x}
  {
    if s == [] then [x]
    else if Before(s[0].0, x.0) then
      assert s == [s[0]] + s[1..];
      [s[0]] + Insert(x, s[1..])
    else [x] + s
  }

  predicate StrictlySorted(s: seq<Item>) {
    forall i, j :: 0 <= i < j < |s| ==> Before(s[i].0, s[j].0)
  }

  lemma {:induction false} InsertSorted(x: Item, s: seq<Item>)
    requires StrictlySorted(s)
    requires forall y :: y in s ==> y.0 != x.0
    ensures StrictlySorted(Insert(x, s))
  {
    if s == [] {
    } else if Before(s[0].0, x.0) {
      InsertSorted(x, s[1..]);
      var tail := Insert(x, s[1..]);
      forall j | 0 <= j < |tail| ensures Before(s[0].0, tail[j].0) {
        assert tail[j] in multiset(tail);
        if tail[j] != x {
          assert tail[j] in s[1..];
          var k :| 0 <= k < |s[1..]| && s[1..][k] == tail[j];
          assert s[k + 1] == tail[j];
        }
      }
    } else {
      assert s[0] in s;
      BeforeTotal(s[0].0, x.0);
      forall j | 0 <= j < |s| ensures Before(x.0, s[j].0) {
        if j > 0 {
          BeforeTransitive(x.0, s[0].0, s[j].0);
        }
      }
    }
  }

  lemma {:induction false} SortedBySortItems(items: seq<Item>)
    requires DistinctKeys(items)
    ensures StrictlySorted(SortItems(items))
  {
    if items != [] {
      SortedBySortItems(items[1..]);
      var sorted := SortItems(items[1..]);
      forall y | y in sorted ensures y.0 != items[0].0 {
        assert y in multiset(items[1..]);
        var k :| 0 <= k < |items[1..]| && items[1..][k] == y;
        assert items[k + 1] == y;
      }
      InsertSorted(items[0], sorted);
    }
  }

  /** Two strictly sorted lists of the same items are the same list. */
  lemma {:induction false} SortedUnique(a: seq<Item>, b: seq<Item>)
    requires StrictlySorted(a) && StrictlySorted(b)
    requires multiset(a) == multiset(b)
    ensures a == b
    decreases |a|
  {
    if a == [] || b == [] {
      assert |multiset(a)| == |a| && |multiset(b)| == |b|;
    } else {
      SortedHeads(a, b);
      DropHead(a);
      DropHead(b);
      SortedUnique(a[1..], b[1..]);
      assert a == [a[0]] + a[1..] && b == [b[0]] + b[1..];
    }
  }

  /** The least item of two sorted lists of the same items is the same. */
  lemma SortedHeads(a: seq<Item>, b: seq<Item>)
    requires StrictlySorted(a) && StrictlySorted(b)
    requires multiset(a) == multiset(b) && a != [] && b != []
    ensures a[0] == b[0]
  {
    assert a[0] in multiset(b) && b[0] in multiset(a);
    var j :| 0 <= j < |b| && b[j] == a[0];
    var i :| 0 <= i < |a| && a[i] == b[0];
    if a[0] != b[0] {
      assert Before(a[0].0, b[0].0) && Before(b[0].0, a[0].0);
      BeforeTransitive(a[0].0, b[0].0, a[0].0);
      BeforeIrreflexive(a[0].0);
    }
  }

  /** Dropping the head keeps the rest sorted and removes one copy of the head. */
  lemma DropHead(a: seq<Item>)
    requires StrictlySorted(a) && a != []
    ensures StrictlySorted(a[1..])
    ensures multiset(a[1..]) == multiset(a) - multiset{a[0]}
  {
    assert a == [a[0]] + a[1..];
  }

  /** `_state_from_observation`: a dict by its items in sorted order, anything else by its str(). */
  function Encode(p: Payload): (r: string)
    ensures p.Text? ==> r == p.text
  {
    match p
    case Dict(items) => ReprItemList(SortItems(items))
    case Text(t) => t
    case Opaque(s) => s
  }

  /** Dicts holding the same items encode to the same state, whatever their key order. */
  lemma KeyOrderIrrelevant(d1: seq<Item>, d2: seq<Item>)
    requires DistinctKeys(d1) && DistinctKeys(d2)
    requires multiset(d1) == multiset(d2)
    ensures Encode(Dict(d1)) == Encode(Dict(d2))
  {
    SortedBySortItems(d1);
    SortedBySortItems(d2);
    SortedUnique(SortItems(d1), SortItems(d2));
  }

  /** Some key of a non-empty table. */
  ghost function AnyKey(q: QTable): (k: (string, string))
    requires |q| > 0
    ensures k in q
  {
    assert q.Keys != {} by {
      assert |q.Keys| == |q|;
    }
    var k :| k in q.Keys;
    k
  }

  /** The sum of the stored values. */
  ghost function SumValues(q: QTable): real
    decreases |q|
  {
    if |q| == 0 then 0.0
    else
      var k := AnyKey(q);
      q[k] + SumValues(q - {k})
  }

  /** The sum may be taken by removing any one entry first. */
  lemma {:induction false} SumValuesRemove(q: QTable, j: (string, string))
    requires j in q
    ensures SumValues(q) == q[j] + SumValues(q - {j})
    decreases |q|
  {
    var k := AnyKey(q);
    if k != j {
      SumValuesRemove(q - {k}, j);
      SumValuesRemove(q - {j}, k);
      assert q - {k} - {j} == q - {j} - {k};
    }
  }

  /** The states that occur in the table's keys. */
  function StatesOf(q: QTable): set<string> {
    set k | k in q :: k.0
  }

  /** The mean stored value, or 0.0 for an empty table. */
  ghost function Mean(q: QTable): real {
    if |q| == 0 then 0.0 else SumValues(q) / (|q| as real)
  }

  /** `x` added up `n` times. */
  function Times(x: real, n: nat): (r: real)
    ensures r == x * (n as real)
  {
    if n == 0 then 0.0 else x + Times(x, n - 1)
  }

  /** Values within [lo, hi] sum to within [lo * n, hi * n]. */
  lemma {:induction false} SumValuesBounds(q: QTable, lo: real, hi: real)
    requires forall k :: k in q ==> lo <= q[k] <= hi
    ensures Times(lo, |q|) <= SumValues(q) <= Times(hi, |q|)
    decreases |q|
  {
    if |q| > 0 {
      var k := AnyKey(q);
      var rest := q - {k};
      SumValuesRemove(q, k);
      SumValuesBounds(rest, lo, hi);
      assert |rest| == |q| - 1;
    }
  }

  /** The mean lies within the range of the stored values. */
  lemma MeanBounds(q: QTable, lo: real, hi: real)
    requires |q| > 0
    requires forall k :: k in q ==> lo <= q[k] <= hi
    ensures lo <= Mean(q) <= hi
  {
    SumValuesBounds(q, lo, hi);
    var n := |q| as real;
    var sum := SumValues(q);
    assert Mean(q) == sum / n;
    DivideBounds(lo, hi, sum, n);
  }

  /** Dividing `x * n <= s <= y * n` by a positive `n`. */
  lemma DivideBounds(x: real, y: real, s: real, n: real)
    requires n > 0.0 && x * n <= s <= y * n
    ensures x <= s / n <= y
  {
    var m := s / n;
    assert m * n == s;
  }

  /** No more states are visited than there are entries. */
  lemma {:induction false} StatesAtMostEntries(q: QTable)
    ensures |StatesOf(q)| <= |q|
    decreases |q|
  {
    if |q| > 0 {
      var k := AnyKey(q);
      StatesAtMostEntries(q - {k});
      assert StatesOf(q) == StatesOf(q - {k}) + {k.0};
      assert |q - {k}| == |q| - 1;
    }
  }

  /** The record `act` returns. */
  datatype Report = Report(agent: string, action: string, state: Option<string>, qValue: real)

  /** The record `get_q_table_summary` returns. */
  datatype Summary = Summary(totalEntries: nat, totalExperiences: nat, averageQValue: real, statesVisited: nat)

  class QLearningAgent {
    const name: string
    var state: AgentState
    var observations: seq<Observation>
    var actionsTaken: seq<Action>
    ghost var trace: seq<AgentState>
    const learningRate: real
    var experience: seq<Experience>
    const availableActions: seq<string>
    const discountFactor: real
    const explorationRate: real
    var qTable: QTable
    var currentState: Option<string>
    var lastState: Option<string>
    var lastAction: Option<string>
    var lastReward: real

    /** A recorded last action is always one of the available actions. */
    ghost predicate Valid()
      reads this`lastAction
    {
      lastAction.Some? ==> lastAction.value in availableActions
    }

    /** No parameter is checked. */
    constructor (name: string, actions: seq<string>, learningRate: real := 0.1,
                 discountFactor: real := 0.9, explorationRate: real := 0.1)
      ensures Valid()
      ensures this.name == name && availableActions == actions
      ensures this.learningRate == learningRate && this.discountFactor == discountFactor
      ensures this.explorationRate == explorationRate
      ensures state == Idle && observations == [] && actionsTaken == [] && trace == [Idle]
      ensures qTable == map[] && experience == []
      ensures currentState == None && lastState == None && lastAction == None && lastReward == 0.0
    {
      this.name := name;
      this.learningRate := learningRate;
      availableActions := actions;
      this.discountFactor := discountFactor;
      this.explorationRate := explorationRate;
      state := Idle;
      observations := [];
      actionsTaken := [];
      trace := [Idle];
      experience := [];
      qTable := map[];
      currentState := None;
      lastState := None;
      lastAction := None;
      lastReward := 0.0;
    }

    /** The action `decide` returns for `name`. */
    function Proposal(name: string): (r: Action)
      ensures r.name == name && r.parameters == map[]
      ensures r.confidence == 1.0 - explorationRate
      ensures 0.0 <= explorationRate <= 1.0 ==> 0.0 <= r.confidence <= 1.0
    {
      Action(name, map[], 1.0 - explorationRate)
    }

    /** The largest value of the next state's row, or 0.0 without a next state. */
    function NextMax(q: QTable, next: Option<string>): real
      requires Truthy(next) ==> |availableActions| > 0
    {
      if Truthy(next) then MaxOf(RowValues(q, next.value, availableActions)) else 0.0
    }

    /** The table `learn` leaves, given the last state and action and the current state. */
    function LearnedTable(q: QTable, last: Option<string>, action: Option<string>, next: Option<string>, reward: real): QTable
      requires action.Some? ==> action.value in availableActions
    {
      if Truthy(last) && Truthy(action) then
        var v := Bellman(Lookup(q, last.value, action.value), reward, NextMax(q, next), learningRate, discountFactor);
        LearnEffect(q, last.value, action.value, next, availableActions, v)
      else q
    }

    /** The experience records `learn` appends: none, or one. */
    function LearnedRecords(q: QTable, last: Option<string>, action: Option<string>, next: Option<string>, reward: real): seq<Experience>
      requires action.Some? ==> action.value in availableActions
    {
      if Truthy(last) && Truthy(action) then
        var v := Bellman(Lookup(q, last.value, action.value), reward, NextMax(q, next), learningRate, discountFactor);
        [Experience(last.value, action.value, reward, next, v)]
      else []
    }

    /** `self.state = s` */
    method Enter(s: AgentState)
      modifies this`state, this`trace
      ensures state == s && trace == old(trace) + [s]
    {
      state := s;
      trace := trace + [s];
    }

    method Perceive(obs: Observation)
      modifies this`observations, this`lastState, this`currentState
      ensures observations == old(observations) + [obs]
      ensures lastState == old(currentState)
      ensures currentState == Some(Encode(obs.data))
    {
      observations := observations + [obs];
      lastState := currentState;
      currentState := Some(Encode(obs.data));
    }

    /** `[self.q_table[(s, a)] for a in self.available_actions]`, which stores 0.0 for each missing entry it reads. */
    method ReadRow(s: string) returns (values: seq<real>)
      modifies this`qTable
      ensures qTable == TouchRow(old(qTable), s, availableActions)
      ensures values == RowValues(old(qTable), s, availableActions)
    {
      values := [];
      var i := 0;
      while i < |availableActions|
        invariant 0 <= i <= |availableActions|
        invariant qTable == TouchRow(old(qTable), s, availableActions[..i])
        invariant values == RowValues(old(qTable), s, availableActions[..i])
      {
        var a := availableActions[i];
        assert availableActions[..i + 1] == availableActions[..i] + [a];
        TouchRowSnoc(old(qTable), s, availableActions[..i], a);
        if (s, a) !in qTable {
          qTable := qTable[(s, a) := 0.0];
        }
        values := values + [qTable[(s, a)]];
        i := i + 1;
      }
      assert availableActions[..i] == availableActions;
    }

    /** `self.q_table[(s, a)]`, which stores 0.0 when the entry is missing. */
    method ReadEntry(s: string, a: string) returns (v: real)
      modifies this`qTable
      ensures qTable == TouchRow(old(qTable), s, [a])
      ensures v == Lookup(old(qTable), s, a)
    {
      if (s, a) !in qTable {
        qTable := qTable[(s, a) := 0.0];
      }
      v := qTable[(s, a)];
      assert Row(s, [a]) == {(s, a)};
    }

    /** The next state's best value as `learn` reads it, or 0.0 when there is no current state. */
    method ReadNextMax() returns (m: real)
      requires Truthy(currentState) ==> |availableActions| > 0
      modifies this`qTable
      ensures m == NextMax(old(qTable), currentState)
      ensures qTable == if Truthy(currentState) then TouchRow(old(qTable), currentState.value, availableActions) else old(qTable)
    {
      m := 0.0;
      if Truthy(currentState) {
        var values := ReadRow(currentState.value);
        m := MaxOf(values);
      }
    }

    /** `_get_best_action`: a randomly chosen action of highest value. */
    method GetBestAction(s: string) returns (r: Result<string>)
      modifies this`qTable
      ensures qTable == TouchRow(old(qTable), s, availableActions)
      ensures r.Err? <==> |availableActions| == 0
      ensures r.Err? ==> r.error == ValueError
      ensures r.Ok? ==> Greedy(old(qTable), s, availableActions, r.value)
    {
      var values := ReadRow(s);
      if |values| == 0 {
        return Err(ValueError);
      }
      if MaxOf(values) == MinOf(values) {
        var a :| a in availableActions;
        AllEqualAllGreedy(old(qTable), s, availableActions, a);
        return Ok(a);
      }
      var best := Filter(availableActions, values, MaxOf(values));
      BestActionsNonEmpty(old(qTable), s, availableActions);
      assert best[0] in best;
      var a :| a in best;
      BestActionsAreGreedy(old(qTable), s, availableActions, a);
      return Ok(a);
    }

    /**
     * Epsilon-greedy choice. `draw` is the value `random.random()` returned: below
     * the exploration rate any action may be chosen, otherwise a greedy one.
     */
    method Decide(draw: real) returns (r: Result<Option<Action>>)
      requires Valid()
      requires 0.0 <= draw < 1.0
      modifies this`qTable, this`lastAction
      ensures Valid()
      ensures !Truthy(currentState) ==>
        r == Ok(None) && qTable == old(qTable) && lastAction == old(lastAction)
      ensures Truthy(currentState) ==>
        && qTable == (if draw < explorationRate then old(qTable) else TouchRow(old(qTable), currentState.value, availableActions))
        && (r.Err? <==> |availableActions| == 0)
        && (r.Err? ==> r.error == (if draw < explorationRate then IndexError else ValueError) && lastAction == old(lastAction))
        && (r.Ok? ==>
              && lastAction.Some? && lastAction.value in availableActions
              && r.value == Some(Proposal(lastAction.value))
              && (explorationRate <= draw ==> Greedy(old(qTable), currentState.value, availableActions, lastAction.value)))
    {
      if !Truthy(currentState) {
        return Ok(None);
      }
      var actionName: string;
      if draw < explorationRate {
        if |availableActions| == 0 {
          return Err(IndexError);
        }
        assert availableActions[0] in availableActions;
        actionName :| actionName in availableActions;
      } else {
        var best := GetBestAction(currentState.value);
        if best.Err? {
          return Err(best.error);
        }
        actionName := best.value;
      }
      lastAction := Some(actionName);
      return Ok(Some(Proposal(actionName)));
    }

    /** `act` reads the table with `.get`, which stores nothing. */
    function Act(action: Action): (r: Report)
      reads this`currentState, this`qTable
      ensures r.agent == name && r.action == action.name && r.state == currentState
      ensures r.qValue == if currentState.Some? then Lookup(qTable, currentState.value, action.name) else 0.0
    {
      var v := if currentState.Some? && (currentState.value, action.name) in qTable
               then qTable[(currentState.value, action.name)] else 0.0;
      Report(name, action.name, currentState, v)
    }

    /** The Bellman update of the last state-action pair, or nothing when either is unset. */
    method Learn(reward: real)
      requires Valid()
      modifies this`qTable, this`experience
      ensures qTable == LearnedTable(old(qTable), lastState, lastAction, currentState, reward)
      ensures experience == old(experience) + LearnedRecords(old(qTable), lastState, lastAction, currentState, reward)
    {
      if !Truthy(lastState) || !Truthy(lastAction) {
        return;
      }
      var s, a := lastState.value, lastAction.value;
      ghost var q0 := qTable;
      var oldQ := ReadEntry(s, a);
      LearnSteps(q0, s, a, currentState, availableActions, 0.0);
      assert NextMax(qTable, currentState) == NextMax(q0, currentState);
      var nextMax := ReadNextMax();
      var newQ := Bellman(oldQ, reward, nextMax, learningRate, discountFactor);
      qTable := qTable[(s, a) := newQ];
      LearnSteps(q0, s, a, currentState, availableActions, newQ);
      experience := experience + [Experience(s, a, reward, currentState, newQ)];
    }

    /** `get_q_table_summary`: it changes nothing. */
    method GetQTableSummary() returns (r: Summary)
      ensures r.totalEntries == |qTable| && r.totalExperiences == |experience|
      ensures r.averageQValue == Mean(qTable)
      ensures r.statesVisited == |StatesOf(qTable)|
    {
      var total := 0.0;
      var rest := qTable;
      while rest != map[]
        invariant forall k :: k in rest ==> k in qTable && rest[k] == qTable[k]
        invariant total + SumValues(rest) == SumValues(qTable)
        decreases |rest|
      {
        var k :| k in rest;
        SumValuesRemove(rest, k);
        total := total + rest[k];
        rest := rest - {k};
      }
      var average := if |qTable| == 0 then 0.0 else total / (|qTable| as real);
      r := Summary(|qTable|, |experience|, average, |StatesOf(qTable)|);
    }

    /**
     * The decide-and-act half shared by both cycles, run in state `Thinking` or
     * `Learning`: with an action, act on it, record it and go `Idle`; without
     * one, go `Idle`; when `decide` raises, leave the state as it is.
     */
    method DecideAndAct(draw: real) returns (result: Result<Option<Report>>)
      requires Valid()
      requires 0.0 <= draw < 1.0
      modifies this`state, this`trace, this`actionsTaken, this`lastAction, this`qTable
      ensures Valid()
      ensures !Truthy(currentState) ==>
        && result == Ok(None) && state == Idle && trace == old(trace) + [Idle]
        && actionsTaken == old(actionsTaken) && qTable == old(qTable) && lastAction == old(lastAction)
      ensures Truthy(currentState) ==>
        qTable == (if draw < explorationRate then old(qTable) else TouchRow(old(qTable), currentState.value, availableActions))
      ensures Truthy(currentState) && |availableActions| == 0 ==>
        && result == Err(if draw < explorationRate then IndexError else ValueError) && state == old(state) && trace == old(trace)
        && actionsTaken == old(actionsTaken) && lastAction == old(lastAction)
      ensures Truthy(currentState) && |availableActions| > 0 ==>
        && lastAction.Some? && lastAction.value in availableActions
        && result == Ok(Some(Act(Proposal(lastAction.value))))
        && actionsTaken == old(actionsTaken) + [Proposal(lastAction.value)]
        && state == Idle && trace == old(trace) + [Acting, Idle]
        && (explorationRate <= draw ==> Greedy(old(qTable), currentState.value, availableActions, lastAction.value))
    {
      var decided := Decide(draw);
      if decided.Err? {
        return Err(decided.error);
      }
      if decided.value.Some? {
        var action := decided.value.value;
        Enter(Acting);
        var r := Act(action);
        actionsTaken := actionsTaken + [action];
        Enter(Idle);
        return Ok(Some(r));
      }
      Enter(Idle);
      return Ok(None);
    }

    /** One perceive-decide-act cycle. */
    method RunCycle(obs: Observation, draw: real) returns (result: Result<Option<Report>>)
      requires Valid()
      requires 0.0 <= draw < 1.0
      modifies this`state, this`trace, this`observations, this`actionsTaken
      modifies this`currentState, this`lastState, this`lastAction, this`qTable
      ensures Valid()
      ensures observations == old(observations) + [obs]
      ensures lastState == old(currentState) && currentState == Some(Encode(obs.data))
      ensures !Truthy(currentState) ==>
        && result == Ok(None) && state == Idle && trace == old(trace) + CycleStates(false)
        && actionsTaken == old(actionsTaken) && qTable == old(qTable) && lastAction == old(lastAction)
      ensures Truthy(currentState) ==>
        qTable == (if draw < explorationRate then old(qTable) else TouchRow(old(qTable), currentState.value, availableActions))
      ensures Truthy(currentState) && |availableActions| == 0 ==>
        && result == Err(if draw < explorationRate then IndexError else ValueError) && state == Thinking && trace == old(trace) + [Thinking]
        && actionsTaken == old(actionsTaken) && lastAction == old(lastAction)
      ensures Truthy(currentState) && |availableActions| > 0 ==>
        && lastAction.Some? && lastAction.value in availableActions
        && result == Ok(Some(Act(Proposal(lastAction.value))))
        && actionsTaken == old(actionsTaken) + [Proposal(lastAction.value)]
        && state == Idle && trace == old(trace) + CycleStates(true)
        && (explorationRate <= draw ==> Greedy(old(qTable), currentState.value, availableActions, lastAction.value))
    {
      Enter(Thinking);
      Perceive(obs);
      result := DecideAndAct(draw);
    }

    /**
     * Perceive, then learn from `reward` when one is given (so the new state is
     * the next state of the update and the decision sees the updated table),
     * then decide and act.
     */
    method RunCycleWithFeedback(obs: Observation, reward: Option<real> := None, draw: real) returns (result: Result<Option<Report>>)
      requires Valid()
      requires 0.0 <= draw < 1.0
      modifies this`state, this`trace, this`observations, this`actionsTaken, this`experience
      modifies this`currentState, this`lastState, this`lastAction, this`qTable
      ensures Valid()
      ensures observations == old(observations) + [obs]
      ensures lastState == old(currentState) && currentState == Some(Encode(obs.data))
      ensures experience == old(experience) +
        (if reward.Some? then LearnedRecords(old(qTable), old(currentState), old(lastAction), currentState, reward.value) else [])
      ensures var learned := if reward.Some? then LearnedTable(old(qTable), old(currentState), old(lastAction), currentState, reward.value) else old(qTable);
        var stages := [Thinking] + (if reward.Some? then [Learning] else []);
        && (!Truthy(currentState) ==>
              && result == Ok(None) && state == Idle && trace == old(trace) + stages + [Idle]
              && actionsTaken == old(actionsTaken) && qTable == learned && lastAction == old(lastAction))
        && (Truthy(currentState) ==>
              qTable == (if draw < explorationRate then learned else TouchRow(learned, currentState.value, availableActions)))
        && (Truthy(currentState) && |availableActions| == 0 ==>
              && result == Err(if draw < explorationRate then IndexError else ValueError) && state == stages[|stages| - 1] && trace == old(trace) + stages
              && actionsTaken == old(actionsTaken) && lastAction == old(lastAction))
        && (Truthy(currentState) && |availableActions| > 0 ==>
              && lastAction.Some? && lastAction.value in availableActions
              && result == Ok(Some(Act(Proposal(lastAction.value))))
              && actionsTaken == old(actionsTaken) + [Proposal(lastAction.value)]
              && state == Idle && trace == old(trace) + stages + [Acting, Idle]
              && (explorationRate <= draw ==> Greedy(learned, currentState.value, availableActions, lastAction.value)))
    {
      Enter(Thinking);
      Perceive(obs);
      if reward.Some? {
        Enter(Learning);
        Learn(reward.value);
      }
      result := DecideAndAct(draw);
    }

    /** Back to `Idle` with empty histories; the table, the experience and the remembered states stay. */
    method Reset()
      modifies this`state, this`trace, this`observations, this`actionsTaken
      ensures state == Idle && observations == [] && actionsTaken == []
      ensures trace == old(trace) + [Idle]
    {
      Enter(Idle);
      observations := [];
      actionsTaken := [];
    }
  }
}
