/**
 * The agent framework's core (src/core/agent.py): the lifecycle states, the
 * observation and action records, and the perceive-decide-act cycle with its
 * histories.
 *
 * `perceive`, `decide`, `act` and `learn` are abstract in the framework. Here
 * they are given stubs modelled on the minimal concrete agents the framework's
 * own tests use: perceive records the observation, decide returns whatever a
 * fixed `policy` makes of the observations so far (the tests' agents always
 * return one fixed action, a special case of a policy), act reports the action it
 * ran, and learn records the reward. A ghost `calls` log records every hook
 * call, and a ghost `trace` records every value assigned to `state`, so that
 * the order of the steps inside a cycle is visible in the contracts.
 */
module Core {
  import opened Values

  datatype AgentState = Idle | Thinking | Acting | Learning | Stopped

  /** The timestamp and metadata are carried along and never inspected. */
  datatype Observation = Observation(data: Payload, timestamp: real, metadata: Option<map<string, Scalar>> := None)

  datatype Action = Action(name: string, parameters: map<string, Scalar>, confidence: real := 1.0)

  /** One learning step as a learning agent records it. */
  datatype Experience = Experience(state: string, action: string, reward: real, nextState: Option<string>, qValue: real)

  /**
   * A call of one of the abstract hooks. `Acted` also records how many actions
   * `actions_taken` held when act ran, which fixes the order of act and the append.
   */
  datatype Hook = Perceived(obs: Observation) | Learned(reward: real) | Decided | Acted(action: Action, taken: nat)

  /** The state values `run_cycle` goes through after the ones it started from. */
  function CycleStates(acted: bool): (r: seq<AgentState>)
    ensures |r| >= 2 && r[0] == Thinking && r[|r| - 1] == Idle
    ensures Acting in r <==> acted
  {
    if acted then [Thinking, Acting, Idle] else [Thinking, Idle]
  }

  /** A BaseAgent whose hooks behave as described at the top of this module. */
  class BaseAgent {
    const name: string
    var state: AgentState
    var observations: seq<Observation>
    var actionsTaken: seq<Action>
    ghost var trace: seq<AgentState>
    ghost var calls: seq<Hook>
    const policy: seq<Observation> -> Option<Action>

    constructor (name: string, policy: seq<Observation> -> Option<Action>)
      ensures this.name == name && this.policy == policy
      ensures state == Idle && observations == [] && actionsTaken == []
      ensures trace == [Idle] && calls == []
    {
      this.name := name;
      this.policy := policy;
      state := Idle;
      observations := [];
      actionsTaken := [];
      trace := [Idle];
      calls := [];
    }

    /** `self.state = s` */
    method Enter(s: AgentState)
      modifies this`state, this`trace
      ensures state == s && trace == old(trace) + [s]
    {
      state := s;
      trace := trace + [s];
    }

    method Perceive(obs: Observation)
      modifies this`observations, this`calls
      ensures observations == old(observations) + [obs]
      ensures calls == old(calls) + [Perceived(obs)]
    {
      observations := observations + [obs];
      calls := calls + [Perceived(obs)];
    }

    method Decide() returns (a: Option<Action>)
      modifies this`calls
      ensures a == policy(observations)
      ensures calls == old(calls) + [Decided]
    {
      a := policy(observations);
      calls := calls + [Decided];
    }

    method Act(a: Action) returns (r: string)
      modifies this`calls
      ensures r == "Executed " + a.name
      ensures calls == old(calls) + [Acted(a, |actionsTaken|)]
    {
      r := "Executed " + a.name;
      calls := calls + [Acted(a, |actionsTaken|)];
    }

    /** One perceive-decide-act cycle; the decided action is recorded after act has run. */
    method RunCycle(obs: Observation) returns (result: Option<string>)
      modifies this`state, this`trace, this`observations, this`actionsTaken, this`calls
      ensures state == Idle
      ensures observations == old(observations) + [obs]
      ensures var decided := policy(observations);
        && trace == old(trace) + CycleStates(decided.Some?)
        && (decided.None? ==>
              && result == None
              && actionsTaken == old(actionsTaken)
              && calls == old(calls) + [Perceived(obs), Decided])
        && (decided.Some? ==>
              && result == Some("Executed " + decided.value.name)
              && actionsTaken == old(actionsTaken) + [decided.value]
              && calls == old(calls) + [Perceived(obs), Decided, Acted(decided.value, |old(actionsTaken)|)])
    {
      Enter(Thinking);
      Perceive(obs);
      var action := Decide();
      if action.Some? {
        Enter(Acting);
        var r := Act(action.value);
        actionsTaken := actionsTaken + [action.value];
        Enter(Idle);
        return Some(r);
      }
      Enter(Idle);
      return None;
    }

    /** Back to `Idle` with empty histories, from any state. */
    method Reset()
      modifies this`state, this`trace, this`observations, this`actionsTaken
      ensures state == Idle && observations == [] && actionsTaken == []
      ensures trace == old(trace) + [Idle]
    {
      Enter(Idle);
      observations := [];
      actionsTaken := [];
    }
  }

  /** A LearningAgent whose hooks behave as described at the top of this module. */
  class LearningAgent {
    const name: string
    var state: AgentState
    var observations: seq<Observation>
    var actionsTaken: seq<Action>
    ghost var trace: seq<AgentState>
    ghost var calls: seq<Hook>
    const learningRate: real
    var experience: seq<Experience>
    var learnedRewards: seq<real>
    const policy: seq<Observation> -> Option<Action>

    constructor (name: string, policy: seq<Observation> -> Option<Action>, learningRate: real := 0.1)
      ensures this.name == name && this.policy == policy && this.learningRate == learningRate
      ensures state == Idle && observations == [] && actionsTaken == [] && experience == []
      ensures learnedRewards == [] && trace == [Idle] && calls == []
    {
      this.name := name;
      this.policy := policy;
      this.learningRate := learningRate;
      state := Idle;
      observations := [];
      actionsTaken := [];
      experience := [];
      learnedRewards := [];
      trace := [Idle];
      calls := [];
    }

    /** `self.state = s` */
    method Enter(s: AgentState)
      modifies this`state, this`trace
      ensures state == s && trace == old(trace) + [s]
    {
      state := s;
      trace := trace + [s];
    }

    method Perceive(obs: Observation)
      modifies this`observations, this`calls
      ensures observations == old(observations) + [obs]
      ensures calls == old(calls) + [Perceived(obs)]
    {
      observations := observations + [obs];
      calls := calls + [Perceived(obs)];
    }

    method Learn(reward: real)
      modifies this`learnedRewards, this`calls
      ensures learnedRewards == old(learnedRewards) + [reward]
      ensures calls == old(calls) + [Learned(reward)]
    {
      learnedRewards := learnedRewards + [reward];
      calls := calls + [Learned(reward)];
    }

    method Decide() returns (a: Option<Action>)
      modifies this`calls
      ensures a == policy(observations)
      ensures calls == old(calls) + [Decided]
    {
      a := policy(observations);
      calls := calls + [Decided];
    }

    method Act(a: Action) returns (r: string)
      modifies this`calls
      ensures r == "Learning action executed"
      ensures calls == old(calls) + [Acted(a, |actionsTaken|)]
    {
      r := "Learning action executed";
      calls := calls + [Acted(a, |actionsTaken|)];
    }

    /** The decide-and-act half of the cycle: act on a decided action and record it, then go `Idle`. */
    method DecideAndAct() returns (result: Option<string>)
      modifies this`state, this`trace, this`actionsTaken, this`calls
      ensures state == Idle
      ensures var decided := policy(observations);
        && trace == old(trace) + CycleStates(decided.Some?)[1..]
        && (decided.None? ==>
              && result == None
              && actionsTaken == old(actionsTaken)
              && calls == old(calls) + [Decided])
        && (decided.Some? ==>
              && result == Some("Learning action executed")
              && actionsTaken == old(actionsTaken) + [decided.value]
              && calls == old(calls) + [Decided, Acted(decided.value, |old(actionsTaken)|)])
    {
      var action := Decide();
      if action.Some? {
        Enter(Acting);
        var r := Act(action.value);
        actionsTaken := actionsTaken + [action.value];
        Enter(Idle);
        return Some(r);
      }
      Enter(Idle);
      return None;
    }

    /** The inherited `run_cycle`: perceive, then decide and act, without learning. */
    method RunCycle(obs: Observation) returns (result: Option<string>)
      modifies this`state, this`trace, this`observations, this`actionsTaken, this`calls
      ensures state == Idle
      ensures observations == old(observations) + [obs]
      ensures learnedRewards == old(learnedRewards) && experience == old(experience)
      ensures var decided := policy(observations);
        && trace == old(trace) + CycleStates(decided.Some?)
        && (decided.None? ==>
              && result == None
              && actionsTaken == old(actionsTaken)
              && calls == old(calls) + [Perceived(obs), Decided])
        && (decided.Some? ==>
              && result == Some("Learning action executed")
              && actionsTaken == old(actionsTaken) + [decided.value]
              && calls == old(calls) + [Perceived(obs), Decided, Acted(decided.value, |old(actionsTaken)|)])
    {
      Enter(Thinking);
      Perceive(obs);
      result := DecideAndAct();
    }

    /**
     * Perceive, then learn from `reward` when one is given, then decide and act
     * as `run_cycle` does.
     */
    method RunCycleWithFeedback(obs: Observation, reward: Option<real> := None) returns (result: Option<string>)
      modifies this`state, this`trace, this`observations, this`actionsTaken, this`calls, this`learnedRewards
      ensures state == Idle
      ensures observations == old(observations) + [obs]
      ensures experience == old(experience)
      ensures learnedRewards == old(learnedRewards) + (if reward.Some? then [reward.value] else [])
      ensures var learned := if reward.Some? then [Learned(reward.value)] else [];
        var decided := policy(observations);
        && trace == old(trace) + [Thinking] + (if reward.Some? then [Learning] else []) + CycleStates(decided.Some?)[1..]
        && (decided.None? ==>
              && result == None
              && actionsTaken == old(actionsTaken)
              && calls == old(calls) + [Perceived(obs)] + learned + [Decided])
        && (decided.Some? ==>
              && result == Some("Learning action executed")
              && actionsTaken == old(actionsTaken) + [decided.value]
              && calls == old(calls) + [Perceived(obs)] + learned + [Decided, Acted(decided.value, |old(actionsTaken)|)])
    {
      Enter(Thinking);
      Perceive(obs);
      if reward.Some? {
        Enter(Learning);
        Learn(reward.value);
      }
      result := DecideAndAct();
    }

    /** The inherited `reset`: `Idle` with empty histories; the experience and the learned rewards stay. */
    method Reset()
      modifies this`state, this`trace, this`observations, this`actionsTaken
      ensures state == Idle && observations == [] && actionsTaken == []
      ensures trace == old(trace) + [Idle]
      ensures experience == old(experience) && learnedRewards == old(learnedRewards)
    {
      Enter(Idle);
      observations := [];
      actionsTaken := [];
    }
  }
}
