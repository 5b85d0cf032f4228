# Agent framework model

A Dafny model of a small autonomous-agent framework. It has four parts:

- **The core loop** (`src/core/agent.py`). An agent has a lifecycle state (`Idle`, `Thinking`, `Acting`, `Learning`, `Stopped`) and two append-only histories, the observations and the actions taken. `run_cycle` runs perceive, then decide, then act. `reset` clears the agent. A learning agent's `run_cycle_with_feedback` adds a `learn(reward)` step between perceive and decide.
- **The reactive agent** (`src/agents/reactive_agent.py`). It holds a table from condition key to action generator, a default action and the latest observation. `decide` looks up the payload's `type` entry first, then the payload's str() form, and otherwise returns the default.
- **The Q-learning agent** (`src/agents/qlearning_agent.py`). It has:
  - a sparse Q-table read with a default of 0.0;
  - the shift of the current state key into the last one on every observation;
  - epsilon-greedy action choice;
  - the Bellman update;
  - a summary of the table.
- **The grid world** the example trains on (`examples/learning_agent_example.py`). It is a 3×3 grid with clamped moves, a step counter and a reward rule.

Files:

- `values.dfy`: the Python values involved.
  - `Option` and `Result`, plus the exceptions that escape.
  - Payloads: a `str`, a `dict` given as its items in insertion order, or any other value known by its str() text.
  - str() rendering and Python's string order.
- `core.dfy`: the lifecycle, the records, and `BaseAgent` and `LearningAgent`.
  - The framework's hooks are abstract, so these two classes give them stub behaviour modelled on the minimal agents the framework's tests define. Those test agents' `decide` always returns one fixed action; here it is generalised to an arbitrary `policy` of the observations so far, of which the fixed action is one instance.
  - A ghost `calls` log records the order of the hook calls.
  - A ghost `trace` records every value assigned to `state`.
- `reactive.dfy`: `Select`, the decision as a pure function, its precedence lemmas, and `ReactiveAgent`.
- `qlearning.dfy`: the Q-table as a `map`, the state encoding, the `QLearningAgent` class, and the specification functions its methods are proved against.
  - `Lookup`: the value a read yields.
  - `TouchRow`: the table after reads that insert 0.0.
  - `BestActions`, `Greedy`, `Bellman`, `LearnEffect`.
  - `SumValues`, `Mean`, `StatesOf`.
- `grid.dfy`: `GridWorld`, the pure `Move`, `Reward` and `Done`, and the rendering of a position as a state key, with its inverse.

Python behaviours the model keeps explicit:

- Indexing the `defaultdict` Q-table stores 0.0 under a missing key. `act` uses `.get`, which stores nothing, so the two are modelled apart and `get_q_table_summary`'s counts see the difference.
- `random.random()` is the `draw` parameter (0 ≤ draw < 1), and `random.choice` picks any element of its list.
- When the action list is empty and the current state is truthy, `decide` raises (with a falsy current state it returns None before any draw). It raises `IndexError` on the exploring branch (`random.choice([])`) and `ValueError` on the exploiting branch (`max([])`). The `run_cycle` that called it then ends in `Thinking`.
- An optional string `x` is falsy for `None` and for `""`, so `not x` holds exactly then; `Truthy` is its negation.

Other facts about the code that the model keeps:

- The Q-learning constructor checks none of its arguments: an empty action list and rates outside [0, 1] are accepted.
- Ties among the best actions are broken by a random pick among them.
- The proposed action's confidence is `1.0 - exploration_rate`.
- `perceive` always moves `current_state` into `last_state`.
- `decide` sets `last_action` but never `last_state`.
- `learn` with no last state or no last action returns without doing anything.
- A reactive payload whose `type` entry names no rule falls back to the str() lookup and then to the default, which may be None.

## Model

| member | source | states |
|---|---|---|
| Values.Get | src/agents/reactive_agent.py:76 | `d.get(key)` finds a value exactly when some item has that key, and the value it finds is stored under that key |
| Values.Show | src/agents/reactive_agent.py:81 | the str() of a string payload is the string itself |
| Values.BeforeIrreflexive | src/agents/qlearning_agent.py:65 | no string sorts before itself |
| Values.BeforeTransitive | src/agents/qlearning_agent.py:65 | the string order `sorted` uses is transitive |
| Values.BeforeTotal | src/agents/qlearning_agent.py:65 | of two different strings, one sorts before the other |
| Core.CycleStates | src/core/agent.py:101-113 | a cycle sets `Thinking` first and `Idle` last, and passes through `Acting` exactly when an action was decided |
| Core.BaseAgent.constructor | src/core/agent.py:46-56 | a new agent is `Idle` with no observations and no actions taken |
| Core.BaseAgent.Enter | src/core/agent.py:101 | assigning the state records it |
| Core.BaseAgent.Perceive | src/core/agent.py:58-66 | the perceive hook records exactly the given observation and logs its call |
| Core.BaseAgent.Decide | src/core/agent.py:68-76 | the decide hook returns the policy's answer for the observations so far and logs its call |
| Core.BaseAgent.Act | src/core/agent.py:78-89 | the act hook reports the action it executed and logs its call |
| Core.BaseAgent.RunCycle | src/core/agent.py:91-114 | the cycle perceives, decides and acts in that order, and always ends `Idle`. When an action was decided, it returns act's result and appends exactly that action after act ran (the hook log records that `actions_taken` still had its old length when act was called). Otherwise it returns None and appends nothing. The state goes `Thinking`, then `Acting` only when there is an action, then `Idle` |
| Core.BaseAgent.Reset | src/core/agent.py:116-120 | from any state, reset gives `Idle` and empties both histories |
| Core.LearningAgent.constructor | src/core/agent.py:130-140 | a new learning agent has the given learning rate (0.1 by default), no experience, no histories and state `Idle` |
| Core.LearningAgent.Enter | src/core/agent.py:168 | assigning the state records it |
| Core.LearningAgent.Perceive | src/core/agent.py:58-66 | the perceive hook records exactly the given observation and logs its call |
| Core.LearningAgent.Learn | src/core/agent.py:142-150 | the learn hook records the reward and logs its call |
| Core.LearningAgent.Decide | src/core/agent.py:68-76 | the decide hook returns the policy's answer and logs its call |
| Core.LearningAgent.Act | src/core/agent.py:78-89 | the act hook returns its fixed report and logs its call |
| Core.LearningAgent.DecideAndAct | src/core/agent.py:176-187 | the decide-and-act half of the cycle sets `Acting` only when an action was decided, and always ends `Idle`. It returns act's result and appends exactly the decided action, or returns None and appends nothing |
| Core.LearningAgent.RunCycle | src/core/agent.py:91-114 | the inherited cycle perceives, decides and acts, appending the decided action after act ran, and ends `Idle`. It never calls learn |
| Core.LearningAgent.Reset | src/core/agent.py:116-120 | the inherited reset gives `Idle` and empty histories, and keeps the experience and the learned rewards |
| Core.LearningAgent.RunCycleWithFeedback | src/core/agent.py:152-187 | learn runs exactly once, with the given reward, if and only if a reward is given, and always after perceive and before decide. The state passes through `Learning` exactly then. The return value and `actions_taken` behave as in `run_cycle`, and the cycle ends `Idle` |
| Reactive.TypeKey | src/agents/reactive_agent.py:75-76 | a condition key is found exactly when the payload is a dict whose `type` entry is a string, and it is the value `.get("type")` returns |
| Reactive.Select | src/agents/reactive_agent.py:64-86 | the decision is the default, or some rule's generator applied to the current payload |
| Reactive.NoObservationGivesDefault | src/agents/reactive_agent.py:71-72 | with no current observation the default action is returned |
| Reactive.TypeKeyTakesPrecedence | src/agents/reactive_agent.py:74-78 | a rule named by the `type` entry decides, whatever the str() form and the default |
| Reactive.ShowKeyWhenNoTypeRule | src/agents/reactive_agent.py:80-86 | with no rule for the `type` entry, the rule named by str(payload) answers, and otherwise the default does, which may be None |
| Reactive.AddedRuleAnswersItsType | src/agents/reactive_agent.py:43 | after `add_rule(c, f)`, a payload whose `type` is `c` is answered by `f` |
| Reactive.UnrelatedRuleChangesNothing | src/agents/reactive_agent.py:43 | adding a rule under a key the payload does not name leaves the decision unchanged |
| Reactive.ReactiveAgent.constructor | src/agents/reactive_agent.py:19-29 | a new reactive agent has no rules, no default action and no current observation, and is `Idle` with empty histories |
| Reactive.ReactiveAgent.AddRule | src/agents/reactive_agent.py:31-43 | `rules[c] = f` overwrites any earlier generator for `c`, and every other key keeps its generator |
| Reactive.ReactiveAgent.SetDefaultAction | src/agents/reactive_agent.py:45-52 | the default becomes the given action |
| Reactive.ReactiveAgent.Enter | src/core/agent.py:101 | assigning the state records it |
| Reactive.ReactiveAgent.Perceive | src/agents/reactive_agent.py:54-62 | the current observation becomes the given one, and exactly it is appended to the observations |
| Reactive.ReactiveAgent.Decide | src/agents/reactive_agent.py:64-86 | `decide` changes nothing. With no current observation it returns the default. A rule named by the `type` entry decides. Otherwise the result is the default or some rule applied to the current payload |
| Reactive.ReactiveAgent.Act | src/agents/reactive_agent.py:88-103 | the report carries the agent's name and the action's name and parameters, and `success` is true |
| Reactive.ReactiveAgent.RunCycle | src/core/agent.py:91-114 | the cycle decides on the observation just perceived, using the precedence `Select` states. It appends the decided action and returns act's report, or appends nothing and returns None. It ends `Idle` |
| Reactive.ReactiveAgent.Reset | src/core/agent.py:116-120 | reset gives `Idle` and empty histories, and keeps the rules |
| QLearning.TouchRow | src/agents/qlearning_agent.py:115-118 | reading a row adds exactly the missing keys, keeps every stored value, and changes no value a later read yields |
| QLearning.TouchRowSnoc | src/agents/qlearning_agent.py:115-118 | reading one more action of a row inserts 0.0 for that entry only when it is still missing, and appends exactly the value that read yields |
| QLearning.MaxOf | src/agents/qlearning_agent.py:120 | `max` returns an element that no element exceeds |
| QLearning.MinOf | src/agents/qlearning_agent.py:120 | `min` returns an element that exceeds no element |
| QLearning.Filter | src/agents/qlearning_agent.py:125-128 | the comprehension keeps exactly the actions whose value equals the maximum |
| QLearning.BestActionsAreGreedy | src/agents/qlearning_agent.py:115-129 | an action is among the best actions if and only if it is available and no available action has a higher Q-value in the state |
| QLearning.BestActionsNonEmpty | src/agents/qlearning_agent.py:124-129 | with at least one action, `random.choice` gets a non-empty list of best actions |
| QLearning.AllEqualAllGreedy | src/agents/qlearning_agent.py:120-122 | when all values are equal, every available action is a best one |
| QLearning.Bellman | src/agents/qlearning_agent.py:175-177 | with α = 0 the value stays, with α = 1 it becomes the target r + γ·max, and a value already equal to the target stays |
| QLearning.BellmanFirstReward | src/agents/qlearning_agent.py:175-177 | with α = 0.1, γ = 0.9, an old value of 0, a next max of 0 and a reward of 10, the new value is 1.0 |
| QLearning.BellmanBetween | src/agents/qlearning_agent.py:175-177 | for 0 ≤ α ≤ 1 the new value lies between the old value and the target r + γ·max |
| QLearning.LearnEffectFrame | src/agents/qlearning_agent.py:163-179 | after learn, the updated entry holds the new value, every other stored value keeps its number, and the only new keys are the updated one and the next state's row |
| QLearning.LearnSteps | src/agents/qlearning_agent.py:163-179 | reading the old value, then the next state's row, then storing gives the table `LearnEffect` describes. The row values read equal those of the table before the update |
| QLearning.SortItems | src/agents/qlearning_agent.py:65 | sorting keeps exactly the items |
| QLearning.Insert | src/agents/qlearning_agent.py:65 | inserting adds exactly one item |
| QLearning.InsertSorted | src/agents/qlearning_agent.py:65 | inserting a new key into a sorted list keeps it sorted |
| QLearning.SortedBySortItems | src/agents/qlearning_agent.py:65 | `sorted(d.items())` is strictly ordered by key |
| QLearning.SortedUnique | src/agents/qlearning_agent.py:65 | two sorted lists of the same items are equal |
| QLearning.Encode | src/agents/qlearning_agent.py:53-66 | a string payload encodes to itself |
| QLearning.KeyOrderIrrelevant | src/agents/qlearning_agent.py:63-65 | dicts with the same items encode to the same state whatever their insertion order |
| QLearning.SumValuesRemove | src/agents/qlearning_agent.py:201 | the sum of the values does not depend on the order they are added in |
| QLearning.SumValuesBounds | src/agents/qlearning_agent.py:201 | values within [lo, hi] sum to within [n·lo, n·hi] |
| QLearning.MeanBounds | src/agents/qlearning_agent.py:200-203 | the average Q-value lies within the range of the stored values |
| QLearning.StatesAtMostEntries | src/agents/qlearning_agent.py:204-206 | no more states are visited than there are entries |
| QLearning.QLearningAgent.constructor | src/agents/qlearning_agent.py:21-51 | the given actions and rates are kept unchecked, with defaults 0.1, 0.9 and 0.1. The table and the experience are empty, and the current state, last state and last action are None |
| QLearning.QLearningAgent.Enter | src/core/agent.py:101 | assigning the state records it |
| QLearning.QLearningAgent.Proposal | src/agents/qlearning_agent.py:99-103 | the proposed action has the chosen name, no parameters and confidence 1 − ε, which lies in [0, 1] when ε does |
| QLearning.QLearningAgent.Perceive | src/agents/qlearning_agent.py:68-77 | the observation is appended, the old current state becomes the last state, and the current state becomes the payload's encoding |
| QLearning.QLearningAgent.ReadRow | src/agents/qlearning_agent.py:115-118 | the row comprehension returns the values the table held, and leaves the table with the row's missing entries set to 0.0 |
| QLearning.QLearningAgent.ReadEntry | src/agents/qlearning_agent.py:163 | reading one entry yields its value or 0.0, and stores 0.0 when it was missing |
| QLearning.QLearningAgent.ReadNextMax | src/agents/qlearning_agent.py:166-172 | the next-state maximum `learn` uses: the largest value of the current row, or 0.0 when there is no current state; the row read inserts its missing entries as 0.0 and touches nothing else |
| QLearning.QLearningAgent.GetBestAction | src/agents/qlearning_agent.py:105-129 | it fails with ValueError exactly when there are no actions. Otherwise it returns an action of maximal Q-value in the state, and the table gains that state's row |
| QLearning.QLearningAgent.Decide | src/agents/qlearning_agent.py:79-103 | with no current state or an empty one, the result is None and nothing changes. Otherwise the action returned is an available action, it is the new `last_action`, and its confidence is 1 − ε. On the exploiting branch (draw ≥ ε) it has maximal Q-value. With no actions, it raises the branch's error |
| QLearning.QLearningAgent.Act | src/agents/qlearning_agent.py:131-148 | the report carries the name, the action and the state, with the stored Q-value or 0.0, read without storing anything |
| QLearning.QLearningAgent.Learn | src/agents/qlearning_agent.py:150-188 | when the last state or last action is unset, the table and the experience are unchanged. Otherwise the entry becomes old + α·(r + γ·max Q(current, ·) − old), with a next max of 0.0 when there is no current state. The reads insert their 0.0 entries, and exactly one experience record with the new value is appended |
| QLearning.QLearningAgent.GetQTableSummary | src/agents/qlearning_agent.py:190-207 | the summary changes nothing. It reports the entry count, the experience count, the mean value (0.0 for an empty table) and the number of distinct states among the keys |
| QLearning.QLearningAgent.DecideAndAct | src/core/agent.py:176-187 | the decide-and-act half of the cycle. With no truthy state it only goes `Idle`. With actions, it acts on the decided action, records it and ends `Idle`. With no actions, `decide` raises `IndexError` when exploring and `ValueError` when exploiting, and the state stays what it was |
| QLearning.QLearningAgent.RunCycle | src/core/agent.py:91-114 | the cycle records the observation and shifts the states. With a truthy state and at least one action, it appends and acts on the decided action and ends `Idle`, and on the exploiting branch the action is greedy. Without a truthy state it ends `Idle` having done nothing. With no actions it raises `IndexError` when exploring and `ValueError` when exploiting, and stays `Thinking` |
| QLearning.QLearningAgent.RunCycleWithFeedback | src/core/agent.py:152-187 | learning happens only when a reward is given, after perceive, so the new state is the update's next state and the decision sees the updated table. The rest is as in `RunCycle`, including which exception escapes with no actions |
| QLearning.QLearningAgent.Reset | src/core/agent.py:116-120 | reset gives `Idle` and empty histories, and keeps the table |
| Grid.Move | examples/learning_agent_example.py:45-55 | a move keeps the agent on the grid. Each direction moves exactly one cell along its own axis unless the agent is at that edge, where it stays put, and an unknown action changes nothing |
| Grid.Reward | examples/learning_agent_example.py:58-64 | the reward is 100 exactly at the goal, negative exactly elsewhere, and −50 exactly away from the goal once the step budget is used up |
| Grid.PenaltyIffNotDone | examples/learning_agent_example.py:58-69 | the −1 step penalty is given exactly when the episode is not over |
| Grid.GoalTakesPriority | examples/learning_agent_example.py:58-61 | reaching the goal earns 100 even when the step budget is used up |
| Grid.Run | examples/learning_agent_example.py:45-55 | a sequence of steps keeps the agent on the grid |
| Grid.MoveDistance | examples/learning_agent_example.py:45-53 | one step changes the distance to any cell by at most one, up or down |
| Grid.RunDistance | examples/learning_agent_example.py:45-55 | k steps change the distance to any cell by at most k, up or down |
| Grid.GoalNeedsFourSteps | examples/learning_agent_example.py:16-21 | from the start cell, reaching the goal takes at least four steps |
| Grid.FourStepsSuffice | examples/learning_agent_example.py:16-21 | down, down, right, right reaches the goal from the start cell |
| Grid.Decimal | examples/learning_agent_example.py:30 | a non-negative int renders as a non-empty string of digits with no leading zero, one digit exactly below 10 |
| Grid.ParseDecimalInverse | examples/learning_agent_example.py:30 | the rendered digits read back as the number |
| Grid.FirstIndex | examples/learning_agent_example.py:30 | the index found is that of the first comma, or the length when there is none |
| Grid.StateKeyRoundTrip | examples/learning_agent_example.py:28-30 | `"row,col"` reads back as the position |
| Grid.StateKeyInjective | examples/learning_agent_example.py:28-30 | different positions render to different keys |
| Grid.PositionEncoding | src/agents/qlearning_agent.py:63-65 | the payload `{'position': key}` encodes to the key wrapped in fixed text |
| Grid.SingleTextEncoding | src/agents/qlearning_agent.py:63-65 | any one-item dict whose value is a string encodes to `[('k', 't')]`: the sorted item list holds one tuple, both parts quoted |
| Grid.PositionStatesDistinct | examples/learning_agent_example.py:100-103 | different cells become different Q-learning states when observed as the payload `{'position': get_state()}` that the example's `main()` builds |
| Grid.GridWorld.constructor | examples/learning_agent_example.py:16-21 | the world starts at (0, 0) with no steps taken, on a 3×3 grid with the goal at (2, 2) and 50 steps allowed |
| Grid.GridWorld.Reset | examples/learning_agent_example.py:23-26 | the position returns to (0, 0) and the step count to 0. Size, goal and budget are constants |
| Grid.GridWorld.GetState | examples/learning_agent_example.py:28-30 | the state is the f-string `"row,col"` of the current position (`StateKey`), and it reads back as that position |
| Grid.GridWorld.IsDone | examples/learning_agent_example.py:66-69 | the episode is over exactly when the last reward was not the −1 step penalty, and always once the step budget is used up |
| Grid.GridWorld.Step | examples/learning_agent_example.py:32-64 | the step count rises by exactly one and the agent stays on the grid. The position becomes `Move` of the old one. The reward is 100 at the goal, else −50 once the budget is used up, else −1, and it is −1 exactly when `is_done` is false afterwards |

## Left out

- Inheritance: Dafny traits are not used. Each agent class carries the base fields and its own copy of the inherited `run_cycle` and `reset`, with the same statements as the base class; `LearningAgent` and `QLearningAgent` also carry `run_cycle_with_feedback`. The decide-and-act block that `run_cycle_with_feedback` repeats from `run_cycle` is one method, `DecideAndAct`.
- Abstract hooks: `BaseAgent` and `LearningAgent` give `perceive`, `decide`, `act` and `learn` fixed stub behaviour. Any other subclass's hooks are not modelled.
- `Stopped` is declared but no modelled code ever enters it.
- Floats are modelled as exact reals, so rounding, NaN and infinity are not modelled.
- str() and repr(): quotes are always `'` with no escaping, and values other than strings are known only by their rendered text.
- Dict keys and `type` entries: only string dict keys are modelled. A `type` entry that is not a string matches no rule. An unhashable one, which makes Python raise `TypeError`, is not modelled.
- Rule generators are total functions. An exception raised inside one is not modelled.
- `Observation.timestamp` and `metadata` are carried along but never inspected.
- Randomness is reduced to the `draw` parameter and an arbitrary pick. The distribution is not modelled.
- QLearning.QLearningAgent.Learn: requires the class invariant that a recorded last action is one of the available actions. Every modelled method keeps it, but code that assigns `last_action` from outside could break it.
- QLearning.QLearningAgent.GetQTableSummary: sums the values in an arbitrary key order, which gives the same real number as Python's insertion order. Float summation order is not modelled.
- `exploration_rate`, the other rates and `available_actions` are constants of the model. Assigning the rates after construction, as the example's driver does, is not modelled, and neither is a change the caller makes later to the action list it passed in, which the agent keeps by reference.
- `last_reward` is stored but never read or updated by the modelled code.
- Grid.GridWorld.GetState: renders non-negative coordinates only. The grid invariant guarantees they are non-negative, so Python's `-` sign for negative ints is never needed.
- The example's `main()` training loop and printing (only the shape of the payload it builds, `{'position': get_state()}`, is kept, in `Grid.PositionPayload`), `examples/simple_agent.py`, the command-line runners, the configuration and setup checks, and the LLM tool-calling demo (`agent.py`, `main.py`, `tools.py`) are not part of this model. They are console I/O, network calls and foreign libraries.
