/**
 * The grid world the Q-learning example trains on
 * (examples/learning_agent_example.py): a square grid, a position that moves
 * one cell per step and is clamped at the edges, a step counter, and the
 * reward rule.
 */
module Grid {
  import opened Values
  import opened QLearning

  /** A cell as `[row, col]`. */
  datatype Pos = Pos(row: int, col: int)

  predicate InBounds(p: Pos, size: int) {
    0 <= p.row < size && 0 <= p.col < size
  }

  function Max(a: int, b: int): int { if a >= b then a else b }
  function Min(a: int, b: int): int { if a <= b then a else b }

  /** The position `step(action)` moves to on a grid of side `size`. */
  function Move(p: Pos, action: string, size: int): (r: Pos)
    ensures InBounds(p, size) ==> InBounds(r, size)
    ensures InBounds(p, size) && action == "up" ==> r.col == p.col && p.row - 1 <= r.row <= p.row
    ensures InBounds(p, size) && action == "down" ==> r.col == p.col && p.row <= r.row <= p.row + 1
    ensures InBounds(p, size) && action == "left" ==> r.row == p.row && p.col - 1 <= r.col <= p.col
    ensures InBounds(p, size) && action == "right" ==> r.row == p.row && p.col <= r.col <= p.col + 1
    ensures action !in ["up", "down", "left", "right"] ==> r == p
    ensures InBounds(p, size) && action == "up" ==> r == (if p.row > 0 then Pos(p.row - 1, p.col) else p)
    ensures InBounds(p, size) && action == "down" ==> r == (if p.row < size - 1 then Pos(p.row + 1, p.col) else p)
    ensures InBounds(p, size) && action == "left" ==> r == (if p.col > 0 then Pos(p.row, p.col - 1) else p)
    ensures InBounds(p, size) && action == "right" ==> r == (if p.col < size - 1 then Pos(p.row, p.col + 1) else p)
  {
    if action == "up" then p.(row := Max(0, p.row - 1))
    else if action == "down" then p.(row := Min(size - 1, p.row + 1))
    else if action == "left" then p.(col := Max(0, p.col - 1))
    else if action == "right" then p.(col := Min(size - 1, p.col + 1))
    else p
  }

  /** The reward for arriving at `pos` as step number `steps`. */
  function Reward(pos: Pos, goal: Pos, steps: int, maxSteps: int): (r: real)
    ensures r == 100.0 <==> pos == goal
    ensures r < 0.0 <==> pos != goal
    ensures r == -50.0 <==> pos != goal && steps >= maxSteps
  {
    if pos == goal then 100.0
    else if steps >= maxSteps then -50.0
    else -1.0
  }

  /** The episode is over at the goal or once the step budget is used up. */
  predicate Done(pos: Pos, goal: Pos, steps: int, maxSteps: int) {
    pos == goal || steps >= maxSteps
  }

  /** Only a step that does not end the episode earns the step penalty. */
  lemma PenaltyIffNotDone(pos: Pos, goal: Pos, steps: int, maxSteps: int)
    ensures Reward(pos, goal, steps, maxSteps) == -1.0 <==> !Done(pos, goal, steps, maxSteps)
  {
  }

  /** Reaching the goal on the last allowed step still earns the goal reward. */
  lemma GoalTakesPriority(goal: Pos, steps: int, maxSteps: int)
    requires steps >= maxSteps
    ensures Reward(goal, goal, steps, maxSteps) == 100.0
  {
  }

  /** The positions visited by a sequence of actions end here. */
  function Run(p: Pos, actions: seq<string>, size: int): (r: Pos)
    ensures InBounds(p, size) ==> InBounds(r, size)
    decreases |actions|
  {
    if actions == [] then p else Run(Move(p, actions[0], size), actions[1..], size)
  }

  function Abs(x: int): nat { if x < 0 then -x else x }

  /** The number of moves between two cells. */
  function Distance(p: Pos, q: Pos): nat {
    Abs(p.row - q.row) + Abs(p.col - q.col)
  }

  /** A single step changes the distance to any cell by at most one, in either direction. */
  lemma MoveDistance(p: Pos, action: string, size: int, goal: Pos)
    requires InBounds(p, size)
    ensures Distance(p, goal) <= Distance(Move(p, action, size), goal) + 1
    ensures Distance(Move(p, action, size), goal) <= Distance(p, goal) + 1
  {
  }

  lemma {:induction false} RunDistance(p: Pos, actions: seq<string>, size: int, goal: Pos)
    requires InBounds(p, size)
    ensures Distance(p, goal) <= Distance(Run(p, actions, size), goal) + |actions|
    ensures Distance(Run(p, actions, size), goal) <= Distance(p, goal) + |actions|
    decreases |actions|
  {
    if actions != [] {
      MoveDistance(p, actions[0], size, goal);
      RunDistance(Move(p, actions[0], size), actions[1..], size, goal);
    }
  }

  /** From the start of an episode the goal cannot be reached in fewer than four steps. */
  lemma GoalNeedsFourSteps(actions: seq<string>)
    requires Run(Pos(0, 0), actions, 3) == Pos(2, 2)
    ensures |actions| >= 4
  {
    RunDistance(Pos(0, 0), actions, 3, Pos(2, 2));
  }

  /** ... and four steps suffice. */
  lemma FourStepsSuffice()
    ensures Run(Pos(0, 0), ["down", "down", "right", "right"], 3) == Pos(2, 2)
  {
  }

  predicate IsDigit(c: char) {
    '0' <= c <= '9'
  }

  predicate IsNumeral(s: string) {
    |s| > 0 && forall i :: 0 <= i < |s| ==> IsDigit(s[i])
  }

  /** The decimal digits of `n`, as an f-string renders a non-negative int. */
  function Decimal(n: nat): (s: string)
    ensures IsNumeral(s)
    ensures n > 0 ==> s[0] != '0'
    ensures |s| == 1 <==> n < 10
    decreases n
  {
    if n < 10 then [('0' as int + n) as char]
    else Decimal(n / 10) + [('0' as int + n % 10) as char]
  }

  /** The number a numeral denotes. */
  function ParseDecimal(s: string): nat
    requires IsNumeral(s)
    decreases |s|
  {
    var last := s[|s| - 1] as int - '0' as int;
    if |s| == 1 then last else ParseDecimal(s[..|s| - 1]) * 10 + last
  }

  lemma {:induction false} ParseDecimalInverse(n: nat)
    ensures ParseDecimal(Decimal(n)) == n
    decreases n
  {
    if n >= 10 {
      var s := Decimal(n);
      assert s[..|s| - 1] == Decimal(n / 10);
      ParseDecimalInverse(n / 10);
    }
  }

  /** `get_state`: the position as `"row,col"`. */
  function StateKey(p: Pos): string
    requires p.row >= 0 && p.col >= 0
  {
    Decimal(p.row) + "," + Decimal(p.col)
  }

  /** The index of the first `c` in `s`, or `|s|` when there is none. */
  function FirstIndex(s: string, c: char): (i: nat)
    ensures i <= |s| && (i < |s| ==> s[i] == c)
    ensures forall j :: 0 <= j < i ==> s[j] != c
  {
    if s == [] then 0
    else if s[0] == c then 0
    else 1 + FirstIndex(s[1..], c)
  }

  /** Reads a `"row,col"` key back. */
  function ParseStateKey(s: string): Option<Pos> {
    var i := FirstIndex(s, ',');
    if i == |s| then None
    else if IsNumeral(s[..i]) && IsNumeral(s[i + 1..]) then
      Some(Pos(ParseDecimal(s[..i]), ParseDecimal(s[i + 1..])))
    else None
  }

  /** The key of a cell reads back as that cell. */
  lemma StateKeyRoundTrip(p: Pos)
    requires p.row >= 0 && p.col >= 0
    ensures ParseStateKey(StateKey(p)) == Some(p)
  {
    var r, c := Decimal(p.row), Decimal(p.col);
    var s := StateKey(p);
    var i := FirstIndex(s, ',');
    assert s[|r|] == ',';
    assert i == |r|;
    assert s[..i] == r && s[i + 1..] == c;
    ParseDecimalInverse(p.row);
    ParseDecimalInverse(p.col);
  }

  /** Different cells have different keys. */
  lemma StateKeyInjective(p: Pos, q: Pos)
    requires p.row >= 0 && p.col >= 0 && q.row >= 0 && q.col >= 0
    requires StateKey(p) == StateKey(q)
    ensures p == q
  {
    StateKeyRoundTrip(p);
    StateKeyRoundTrip(q);
  }

  /** The payload `{'position': get_state()}` the example's training loop feeds to the agent. */
  function PositionPayload(p: Pos): Payload
    requires p.row >= 0 && p.col >= 0
  {
    Dict([("position", Str(StateKey(p)))])
  }

  /** The Q-learning state of a position payload: the key, wrapped in fixed text. */
  lemma PositionEncoding(p: Pos)
    requires p.row >= 0 && p.col >= 0
    ensures Encode(PositionPayload(p)) == "[('position', '" + StateKey(p) + "')]"
  {
    SingleTextEncoding("position", StateKey(p));
  }

  /** A one-item dict with a string value encodes to that item's tuple in a list. */
  lemma SingleTextEncoding(k: string, t: string)
    ensures Encode(Dict([(k, Str(t))])) == "[('" + k + "', '" + t + "')]"
  {
    var items := [(k, Str(t))];
    assert SortItems(items) == items;
    var parts := seq(|items|, i requires 0 <= i < |items| =>
      "(" + Quote(items[i].0) + ", " + ReprScalar(items[i].1) + ")");
    assert Join(", ", parts) == "(" + Quote(k) + ", " + Quote(t) + ")";
  }

  /** Different cells are different states of the Q-table. */
  lemma PositionStatesDistinct(p: Pos, q: Pos)
    requires InBounds(p, 3) && InBounds(q, 3) && p != q
    ensures Encode(PositionPayload(p)) != Encode(PositionPayload(q))
  {
    PositionEncoding(p);
    PositionEncoding(q);
    var pre, post := "[('position', '", "')]";
    var kp, kq := StateKey(p), StateKey(q);
    if pre + kp + post == pre + kq + post {
      var s := pre + kp + post;
      assert kp == s[|pre|..|s| - |post|];
      assert kq == s[|pre|..|s| - |post|];
      StateKeyInjective(p, q);
    }
  }

  class GridWorld {
    const size := 3
    const goalPos := Pos(2, 2)
    const maxSteps := 50
    var agentPos: Pos
    var steps: int

    /** The agent stays on the grid and the counter is never negative. */
    ghost predicate Valid()
      reads this`agentPos, this`steps
    {
      InBounds(agentPos, size) && steps >= 0
    }

    constructor ()
      ensures Valid()
      ensures agentPos == Pos(0, 0) && steps == 0
    {
      agentPos := Pos(0, 0);
      steps := 0;
    }

    /** Back to the start cell with a fresh step budget. */
    method Reset()
      modifies this`agentPos, this`steps
      ensures Valid()
      ensures agentPos == Pos(0, 0) && steps == 0
    {
      agentPos := Pos(0, 0);
      steps := 0;
    }

    function GetState(): (r: string)
      requires Valid()
      reads this`agentPos, this`steps
      ensures r == StateKey(agentPos)
      ensures ParseStateKey(r) == Some(agentPos)
    {
      StateKeyRoundTrip(agentPos);
      StateKey(agentPos)
    }

    /** One step: count it, move, then score the new position. */
    method Step(action: string) returns (reward: real)
      requires Valid()
      modifies this`agentPos, this`steps
      ensures Valid()
      ensures steps == old(steps) + 1
      ensures agentPos == Move(old(agentPos), action, size)
      ensures reward == Reward(agentPos, goalPos, steps, maxSteps)
      ensures reward == -1.0 <==> !IsDone()
    {
      steps := steps + 1;
      var newPos := agentPos;
      if action == "up" {
        newPos := newPos.(row := Max(0, newPos.row - 1));
      } else if action == "down" {
        newPos := newPos.(row := Min(size - 1, newPos.row + 1));
      } else if action == "left" {
        newPos := newPos.(col := Max(0, newPos.col - 1));
      } else if action == "right" {
        newPos := newPos.(col := Min(size - 1, newPos.col + 1));
      }
      agentPos := newPos;
      if agentPos == goalPos {
        return 100.0;
      } else if steps >= maxSteps {
        return -50.0;
      } else {
        return -1.0;
      }
    }

    function IsDone(): (r: bool)
      reads this`agentPos, this`steps
      ensures !r <==> Reward(agentPos, goalPos, steps, maxSteps) == -1.0
      ensures steps >= maxSteps ==> r
    {
      Done(agentPos, goalPos, steps, maxSteps)
    }
  }
}
