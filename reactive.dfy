/**
 * The reactive strategy (src/agents/reactive_agent.py): a table from condition
 * key to action generator, a default action, and the most recent observation.
 */
module Reactive {
  import opened Values
  import opened Core

  /** An action generator: builds an action from an observation payload. */
  type Generator = Payload -> Action

  /** The record `act` returns. */
  datatype Report = Report(agent: string, action: string, parameters: map<string, Scalar>, success: bool)

  /** The condition key of a dict payload: its `type` entry, when that entry is a string. */
  function TypeKey(p: Payload): (k: Option<string>)
    ensures k.Some? <==> p.Dict? && Get(p.items, "type").Some? && Get(p.items, "type").value.Str?
    ensures k.Some? ==> (("type", Str(k.value)) in p.items)
    ensures k.Some? ==> Get(p.items, "type") == Some(Str(k.value))
  {
    if p.Dict? then
      match Get(p.items, "type")
      case Some(Str(key)) => Some(key)
      case _ => None
    else None
  }

  /**
   * What `decide` returns for a rule table, a default action and the current
   * observation: the rule named by the payload's `type` entry, else the rule
   * named by the payload's str() form, else the default.
   */
  function Select(rules: map<string, Generator>, default: Option<Action>, current: Option<Observation>): (r: Option<Action>)
    ensures r == default || (current.Some? && exists k :: k in rules && r == Some(rules[k](current.value.data)))
  {
    if current.None? then default
    else
      var p := current.value.data;
      if TypeKey(p).Some? && TypeKey(p).value in rules then Some(rules[TypeKey(p).value](p))
      else if Show(p) in rules then Some(rules[Show(p)](p))
      else default
  }

  /** Without an observation the default is returned, whatever the rules. */
  lemma NoObservationGivesDefault(rules: map<string, Generator>, default: Option<Action>)
    ensures Select(rules, default, None) == default
  {
  }

  /** A matching `type` entry decides, whatever the str() form and the default. */
  lemma TypeKeyTakesPrecedence(rules: map<string, Generator>, default: Option<Action>, obs: Observation)
    requires TypeKey(obs.data).Some? && TypeKey(obs.data).value in rules
    ensures Select(rules, default, Some(obs)) == Some(rules[TypeKey(obs.data).value](obs.data))
  {
  }

  /** The str() form is consulted only when the `type` entry names no rule. */
  lemma ShowKeyWhenNoTypeRule(rules: map<string, Generator>, default: Option<Action>, obs: Observation)
    requires TypeKey(obs.data).None? || TypeKey(obs.data).value !in rules
    ensures Select(rules, default, Some(obs)) ==
      if Show(obs.data) in rules then Some(rules[Show(obs.data)](obs.data)) else default
  {
  }

  /** After `add_rule(c, f)`, a payload whose `type` is `c` is answered by `f`. */
  lemma AddedRuleAnswersItsType(rules: map<string, Generator>, default: Option<Action>, obs: Observation, c: string, f: Generator)
    requires TypeKey(obs.data) == Some(c)
    ensures Select(rules[c := f], default, Some(obs)) == Some(f(obs.data))
  {
  }

  /** A rule whose key the payload does not mention does not change the decision. */
  lemma UnrelatedRuleChangesNothing(rules: map<string, Generator>, default: Option<Action>, obs: Observation, c: string, f: Generator)
    requires TypeKey(obs.data) != Some(c) && Show(obs.data) != c
    ensures Select(rules[c := f], default, Some(obs)) == Select(rules, default, Some(obs))
  {
  }

  class ReactiveAgent {
    const name: string
    var state: AgentState
    var observations: seq<Observation>
    var actionsTaken: seq<Action>
    ghost var trace: seq<AgentState>
    var rules: map<string, Generator>
    var defaultAction: Option<Action>
    var currentObservation: Option<Observation>

    constructor (name: string)
      ensures this.name == name
      ensures state == Idle && observations == [] && actionsTaken == [] && trace == [Idle]
      ensures rules == map[] && defaultAction == None && currentObservation == None
    {
      this.name := name;
      state := Idle;
      observations := [];
      actionsTaken := [];
      trace := [Idle];
      rules := map[];
      defaultAction := None;
      currentObservation := None;
    }

    /** Registers `actionFn` under `condition`, replacing any earlier generator for that key. */
    method AddRule(condition: string, actionFn: Generator)
      modifies this`rules
      ensures rules == old(rules)[condition := actionFn]
      ensures rules.Keys == old(rules).Keys + {condition}
      ensures forall k :: k in old(rules) && k != condition ==> rules[k] == old(rules)[k]
    {
      rules := rules[condition := actionFn];
    }

    method SetDefaultAction(action: Action)
      modifies this`defaultAction
      ensures defaultAction == Some(action)
    {
      defaultAction := Some(action);
    }

    /** `self.state = s` */
    method Enter(s: AgentState)
      modifies this`state, this`trace
      ensures state == s && trace == old(trace) + [s]
    {
      state := s;
      trace := trace + [s];
    }

    method Perceive(obs: Observation)
      modifies this`currentObservation, this`observations
      ensures currentObservation == Some(obs)
      ensures observations == old(observations) + [obs]
    {
      currentObservation := Some(obs);
      observations := observations + [obs];
    }

    /** `decide` reads the rule table, the default and the current observation, and changes nothing. */
    function Decide(): (r: Option<Action>)
      reads this`rules, this`defaultAction, this`currentObservation
      ensures currentObservation.None? ==> r == defaultAction
      ensures currentObservation.Some? ==>
        var data := currentObservation.value.data;
        TypeKey(data).Some? && TypeKey(data).value in rules ==> r == Some(rules[TypeKey(data).value](data))
      ensures r == defaultAction || (currentObservation.Some? && exists k :: k in rules && r == Some(rules[k](currentObservation.value.data)))
    {
      Select(rules, defaultAction, currentObservation)
    }

    function Act(action: Action): (r: Report)
      ensures r.agent == name && r.action == action.name && r.parameters == action.parameters
      ensures r.success
    {
      Report(name, action.name, action.parameters, true)
    }

    /** One perceive-decide-act cycle: the decision is made on `obs`. */
    method RunCycle(obs: Observation) returns (result: Option<Report>)
      modifies this`state, this`trace, this`observations, this`actionsTaken, this`currentObservation
      ensures state == Idle
      ensures currentObservation == Some(obs)
      ensures observations == old(observations) + [obs]
      ensures var decided := Select(rules, defaultAction, Some(obs));
        && trace == old(trace) + CycleStates(decided.Some?)
        && (decided.None? ==> result == None && actionsTaken == old(actionsTaken))
        && (decided.Some? ==>
              && result == Some(Act(decided.value))
              && actionsTaken == old(actionsTaken) + [decided.value])
    {
      Enter(Thinking);
      Perceive(obs);
      var action := Decide();
      if action.Some? {
        Enter(Acting);
        var r := Act(action.value);
        actionsTaken := actionsTaken + [action.value];
        Enter(Idle);
        return Some(r);
      }
      Enter(Idle);
      return None;
    }

    /** Back to `Idle` with empty histories; the rules, the default and the current observation stay. */
    method Reset()
      modifies this`state, this`trace, this`observations, this`actionsTaken
      ensures state == Idle && observations == [] && actionsTaken == []
      ensures trace == old(trace) + [Idle]
    {
      Enter(Idle);
      observations := [];
      actionsTaken := [];
    }
  }
}
