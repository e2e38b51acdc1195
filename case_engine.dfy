/** The narrative case interpreter (lib/CaseEngine.ts). A case is a graph of
    narrative nodes, each offering choices; a choice may require flags or
    items, applies a list of effects to the patient state (flags, inventory,
    vitals, relationships, a log of what happened), costs time and leads to
    another node, whose entry effects then apply.

    The engine is the class `CaseEngine`; its `ApplyEffects` loop is proved
    against `ApplyAll`, the effects applied one after another by
    `ApplyEffect`. Effect values are whole numbers, as in every case file. */
module NarrativeCase {
  import opened Common
  import opened Skills

  /** The patient state; vitals are keyed by name ('HR', 'BP_SYS', ...) since
      an effect may name any key. */
  datatype PatientState = PatientState(
    vitals: map<string, real>, flags: seq<string>, inventory: seq<string>,
    history: seq<string>, stress: int, timeElapsed: int, relationships: map<string, int>)

  datatype RequirementType = FlagReq | ItemReq | SkillReq | VitalReq

  /** A requirement; its `value` and `operator` are never read by the engine. */
  datatype Requirement = Requirement(kind: RequirementType, key: string)

  datatype EffectType =
    | ModifyVitals | AddFlag | RemoveFlag | AddItem | RemoveItem
    | GameOverEffect | Win | ModifyRelationship | CraftItem

  datatype ActionEffect = ActionEffect(
    kind: EffectType, key: Option<string>, value: Option<int>, description: Option<string>)

  /** A choice; absent `reqs` and `effects` are empty sequences. */
  datatype Choice = Choice(
    id: string, text: string, reqs: seq<Requirement>, effects: seq<ActionEffect>,
    nextNodeId: Option<string>, timeCost: Option<int>)

  datatype NarrativeNode = NarrativeNode(
    id: string, text: string, options: seq<Choice>, onEnter: seq<ActionEffect>)

  datatype Difficulty = Easy | Medium | Hard | Legendary

  datatype PatientCase = PatientCase(
    id: string, title: string, description: string, difficulty: Difficulty,
    initialState: PatientState, nodes: map<string, NarrativeNode>, startNodeId: string)

  datatype ChoiceOutcome = Succeeded | Failed(message: string)

  const NodeNotFound := "Node not found"
  const ChoiceNotFound := "Choice not found"
  const RequirementsNotMet := "Requirements not met"

  const FlagAddedText := "Flag added: "
  const VitalsUpdateText := "Vitals update: "
  const ArrowText := " -> "
  const GameOverText := "GAME OVER: Patient Died"
  const RelationshipUpdateText := "Relationship update: "
  const CraftingText := "Crafting item: "

  // ------------------------------------------------------------------
  // Requirements
  // ------------------------------------------------------------------

  /** One requirement: a FLAG needs the flag set, an ITEM needs the item held;
      SKILL and VITAL requirements are not checked and always pass. */
  predicate Meets(st: PatientState, req: Requirement) {
    match req.kind
    case FlagReq => req.key in st.flags
    case ItemReq => req.key in st.inventory
    case SkillReq => true
    case VitalReq => true
  }

  /** `checkRequirements`: `reqs.every(...)`, true for no requirements. */
  function CheckRequirements(st: PatientState, reqs: seq<Requirement>): (b: bool)
    ensures b <==> forall i :: 0 <= i < |reqs| ==> Meets(st, reqs[i])
    ensures reqs == [] ==> b
  {
    if reqs == [] then true else Meets(st, reqs[0]) && CheckRequirements(st, reqs[1..])
  }

  /** The requirement of code-blue/src/data/cases/PC091.ts:107 (a VITAL check on
      HR) holds in every state, whatever the heart rate. */
  lemma VitalRequirementAlwaysMet(st: PatientState)
    ensures CheckRequirements(st, [Requirement(VitalReq, "HR")])
  {
    assert [Requirement(VitalReq, "HR")][1..] == [];
  }

  /** `getAvailableChoices` on a node's options: the options whose requirements
      hold, in their order. */
  function AvailableChoices(st: PatientState, options: seq<Choice>): (r: seq<Choice>)
    ensures |r| <= |options|
    ensures forall i :: 0 <= i < |r| ==> CheckRequirements(st, r[i].reqs)
  {
    if options == [] then []
    else
      var n := |options| - 1;
      AvailableChoices(st, options[..n]) + (if CheckRequirements(st, options[n].reqs) then [options[n]] else [])
  }

  /** The filter works option by option, so it keeps the options' order. */
  lemma {:induction false} AvailableChoicesAppend(st: PatientState, a: seq<Choice>, b: seq<Choice>)
    ensures AvailableChoices(st, a + b) == AvailableChoices(st, a) + AvailableChoices(st, b)
    decreases |b|
  {
    if b == [] {
      assert a + b == a;
    } else {
      AvailableChoicesAppend(st, a, b[..|b| - 1]);
      assert (a + b)[..|a + b| - 1] == a + b[..|b| - 1];
    }
  }

  /** Every option that passes is offered and none that fails is. */
  lemma {:induction false} AvailableChoicesExact(st: PatientState, options: seq<Choice>, c: Choice)
    ensures c in AvailableChoices(st, options) <==> c in options && CheckRequirements(st, c.reqs)
    decreases |options|
  {
    if options != [] {
      var n := |options| - 1;
      AvailableChoicesExact(st, options[..n], c);
      assert options == options[..n] + [options[n]];
    }
  }

  // ------------------------------------------------------------------
  // Effects
  // ------------------------------------------------------------------

  /** `[${timeElapsed}m] ${message}`. */
  function LogLine(timeElapsed: int, message: string): string {
    "[" + IntToString(timeElapsed) + "m] " + message
  }

  /** `log`: one line appended to the history, stamped with the elapsed time. */
  function Logged(st: PatientState, message: string): (r: PatientState)
    ensures r.history == st.history + [LogLine(st.timeElapsed, message)]
    ensures r == st.(history := r.history)
  {
    st.(history := st.history + [LogLine(st.timeElapsed, message)])
  }

  /** `${effect.key}`: an absent key prints as 'undefined'. */
  function KeyText(key: Option<string>): string {
    if key.None? then "undefined" else key.value
  }

  /** `filter(f => f !== key)`. */
  function Without(flags: seq<string>, key: string): (r: seq<string>)
    ensures key !in r
    ensures forall x :: x != key ==> (x in r <==> x in flags)
    ensures |r| <= |flags|
  {
    if flags == [] then []
    else
      var n := |flags| - 1;
      assert flags == flags[..n] + [flags[n]];
      Without(flags[..n], key) + (if flags[n] == key then [] else [flags[n]])
  }

  /** One effect, before its description is logged. The clock and the stress
      never move; the history only grows; a flag is added only if missing and
      removal takes every copy; an item is appended even if already held; a
      vital is overwritten, not adjusted; a relationship is adjusted from 0 if
      unknown. */
  function EffectCore(st: PatientState, e: ActionEffect): (r: PatientState)
    ensures r.timeElapsed == st.timeElapsed && r.stress == st.stress
    ensures |r.history| >= |st.history| && r.history[..|st.history|] == st.history
    ensures e.kind == AddFlag ==>
      r.flags == (if Truthy(e.key) && e.key.value !in st.flags then st.flags + [e.key.value] else st.flags)
    ensures e.kind == AddFlag && Truthy(e.key) ==> e.key.value in r.flags
    ensures e.kind == AddFlag ==> (NoDuplicates(st.flags) ==> NoDuplicates(r.flags))
    ensures e.kind == RemoveFlag && Truthy(e.key) ==>
      e.key.value !in r.flags && forall x :: x != e.key.value ==> (x in r.flags <==> x in st.flags)
    ensures e.kind == AddItem && Truthy(e.key) ==> r.inventory == st.inventory + [e.key.value]
    ensures e.kind == ModifyVitals && Truthy(e.key) && e.value.Some? ==>
      r.vitals == st.vitals[e.key.value := e.value.value as real]
    ensures e.kind == ModifyRelationship && Truthy(e.key) && e.value.Some? ==>
      r.relationships == st.relationships[e.key.value := LookupOr0(st.relationships, e.key.value) + e.value.value]
    // Each kind touches its own field only.
    ensures !((e.kind == AddFlag || e.kind == RemoveFlag) && Truthy(e.key)) ==> r.flags == st.flags
    ensures !(e.kind == AddItem && Truthy(e.key)) ==> r.inventory == st.inventory
    ensures !(e.kind == ModifyVitals && Truthy(e.key) && e.value.Some?) ==> r.vitals == st.vitals
    ensures !(e.kind == ModifyRelationship && Truthy(e.key) && e.value.Some?) ==> r.relationships == st.relationships
    ensures |r.history| <= |st.history| + 1
    ensures e.kind == RemoveFlag || e.kind == AddItem ==> r.history == st.history
    ensures e.kind == RemoveItem || e.kind == Win ==> r == st
  {
    match e.kind
    case AddFlag =>
      if Truthy(e.key) && e.key.value !in st.flags
      then Logged(st.(flags := st.flags + [e.key.value]), FlagAddedText + e.key.value)
      else st
    case RemoveFlag =>
      if Truthy(e.key) then st.(flags := Without(st.flags, e.key.value)) else st
    case AddItem =>
      if Truthy(e.key) then st.(inventory := st.inventory + [e.key.value]) else st
    case ModifyVitals =>
      if Truthy(e.key) && e.value.Some?
      then Logged(st.(vitals := st.vitals[e.key.value := e.value.value as real]),
                  VitalsUpdateText + e.key.value + ArrowText + IntToString(e.value.value))
      else st
    case GameOverEffect => Logged(st, GameOverText)
    case ModifyRelationship =>
      if Truthy(e.key) && e.value.Some?
      then
        var k, v := e.key.value, e.value.value;
        Logged(st.(relationships := st.relationships[k := LookupOr0(st.relationships, k) + v]),
               RelationshipUpdateText + k + " " + (if v > 0 then "+" else "") + IntToString(v))
      else st
    case CraftItem => Logged(st, CraftingText + KeyText(e.key))
    case RemoveItem => st
    case Win => st
  }

  /** One pass of the `applyEffects` loop: the effect, then its description
      (if it has a non-empty one) logged after it. */
  function ApplyEffect(st: PatientState, e: ActionEffect): (r: PatientState)
    ensures r.timeElapsed == st.timeElapsed && r.stress == st.stress
    ensures |r.history| >= |st.history| && r.history[..|st.history|] == st.history
    ensures Truthy(e.description) ==> r.history == EffectCore(st, e).history + [LogLine(st.timeElapsed, e.description.value)]
    ensures r.flags == EffectCore(st, e).flags && r.inventory == EffectCore(st, e).inventory
    ensures r.vitals == EffectCore(st, e).vitals && r.relationships == EffectCore(st, e).relationships
  {
    var s := EffectCore(st, e);
    if Truthy(e.description) then Logged(s, e.description.value) else s
  }

  predicate NoDuplicates(s: seq<string>) {
    forall i, j :: 0 <= i < j < |s| ==> s[i] != s[j]
  }

  /** The effects applied in order. Over any list of effects the clock and
      stress stay put and the history only grows. */
  function ApplyAll(st: PatientState, effects: seq<ActionEffect>): (r: PatientState)
    ensures r.timeElapsed == st.timeElapsed && r.stress == st.stress
    ensures |r.history| >= |st.history| && r.history[..|st.history|] == st.history
    decreases |effects|
  {
    if effects == [] then st
    else
      var mid := ApplyAll(st, effects[..|effects| - 1]);
      var r := ApplyEffect(mid, effects[|effects| - 1]);
      assert r.history[..|st.history|] == mid.history[..|mid.history|][..|st.history|];
      r
  }

  lemma {:induction false} ApplyAllAppend(st: PatientState, a: seq<ActionEffect>, b: seq<ActionEffect>)
    ensures ApplyAll(st, a + b) == ApplyAll(ApplyAll(st, a), b)
    decreases |b|
  {
    if b == [] {
      assert a + b == a;
    } else {
      ApplyAllAppend(st, a, b[..|b| - 1]);
      assert (a + b)[..|a + b| - 1] == a + b[..|b| - 1];
    }
  }

  /** Over any list of effects flags never gain a duplicate. */
  lemma {:induction false} ApplyAllKeepsFlagsDistinct(st: PatientState, effects: seq<ActionEffect>)
    requires NoDuplicates(st.flags)
    ensures NoDuplicates(ApplyAll(st, effects).flags)
    decreases |effects|
  {
    if effects != [] {
      var last := effects[|effects| - 1];
      var mid := ApplyAll(st, effects[..|effects| - 1]);
      ApplyAllKeepsFlagsDistinct(st, effects[..|effects| - 1]);
      var r := ApplyEffect(mid, last);
      if last.kind != AddFlag {
        assert r.flags == mid.flags || r.flags == Without(mid.flags, last.key.value);
        forall i, j | 0 <= i < j < |r.flags| ensures r.flags[i] != r.flags[j] {
          if r.flags != mid.flags {
            WithoutNoDuplicates(mid.flags, last.key.value);
          }
        }
      }
    }
  }

  lemma {:induction false} WithoutNoDuplicates(flags: seq<string>, key: string)
    requires NoDuplicates(flags)
    ensures NoDuplicates(Without(flags, key))
    decreases |flags|
  {
    if flags != [] {
      var n := |flags| - 1;
      WithoutNoDuplicates(flags[..n], key);
      assert flags[n] !in flags[..n];
    }
  }

  // ------------------------------------------------------------------
  // Choices
  // ------------------------------------------------------------------

  function FindChoice(options: seq<Choice>, id: string): (i: int)
    ensures -1 <= i < |options|
    ensures i >= 0 ==> options[i].id == id && forall j :: 0 <= j < i ==> options[j].id != id
    ensures i == -1 <==> forall j :: 0 <= j < |options| ==> options[j].id != id
    decreases |options|
  {
    if options == [] then -1
    else if options[0].id == id then 0
    else
      var k := FindChoice(options[1..], id);
      if k == -1 then -1 else k + 1
  }

  /** The entry effects of a node, none if the case has no such node. */
  function OnEnter(nodes: map<string, NarrativeNode>, id: string): seq<ActionEffect> {
    if id in nodes then nodes[id].onEnter else []
  }

  /** The minutes a choice costs; an absent or zero cost adds nothing. */
  function TimeCost(c: Choice): int {
    if c.timeCost.None? then 0 else c.timeCost.value
  }

  /** Where a choice leaves the engine: its next node when it names one,
      otherwise the current node. */
  function NextNode(current: string, c: Choice): string {
    if Truthy(c.nextNodeId) then c.nextNodeId.value else current
  }

  /** The state after a successful choice: its effects in order, then its time
      cost, then (if it names a next node the case has) that node's entry
      effects. */
  function AfterChoice(st: PatientState, c: Choice, nodes: map<string, NarrativeNode>): PatientState {
    var s1 := ApplyAll(st, c.effects);
    var s2 := s1.(timeElapsed := s1.timeElapsed + TimeCost(c));
    if Truthy(c.nextNodeId) then ApplyAll(s2, OnEnter(nodes, c.nextNodeId.value)) else s2
  }

  /** The effects of a choice are logged at the time before its cost, its
      cost is added exactly once, and the next node's entry effects come
      after both. */
  lemma AfterChoiceOrder(st: PatientState, c: Choice, nodes: map<string, NarrativeNode>)
    ensures var r := AfterChoice(st, c, nodes);
      var s1 := ApplyAll(st, c.effects);
      && r.timeElapsed == st.timeElapsed + TimeCost(c)
      && s1.timeElapsed == st.timeElapsed
      && |r.history| >= |s1.history| && r.history[..|s1.history|] == s1.history
      && |s1.history| >= |st.history| && s1.history[..|st.history|] == st.history
      && r.stress == st.stress
  {
    var s1 := ApplyAll(st, c.effects);
    var s2 := s1.(timeElapsed := s1.timeElapsed + TimeCost(c));
    if Truthy(c.nextNodeId) {
      assert AfterChoice(st, c, nodes) == ApplyAll(s2, OnEnter(nodes, c.nextNodeId.value));
    } else {
      assert AfterChoice(st, c, nodes) == s2;
      assert s2.history[..|s1.history|] == s1.history;
    }
  }

  /** A choice made at node `nodeId`: the outcome, the new state and the new
      current node. */
  function ChoiceStep(nodes: map<string, NarrativeNode>, st: PatientState, nodeId: string, choiceId: string)
    : (ChoiceOutcome, PatientState, string)
  {
    if nodeId !in nodes then (Failed(NodeNotFound), st, nodeId)
    else
      var i := FindChoice(nodes[nodeId].options, choiceId);
      if i == -1 then (Failed(ChoiceNotFound), st, nodeId)
      else
        var c := nodes[nodeId].options[i];
        if !CheckRequirements(st, c.reqs) then (Failed(RequirementsNotMet), st, nodeId)
        else (Succeeded, AfterChoice(st, c, nodes), NextNode(nodeId, c))
  }

  /** A choice fails, leaving state and node alone, exactly when the node is
      missing, the choice is not one of its options, or the requirements of the
      first option with the id do not hold; a choice that succeeds applies that
      first option, which is one the player was offered. */
  lemma ChoiceStepRules(nodes: map<string, NarrativeNode>, st: PatientState, nodeId: string, choiceId: string)
    ensures var (outcome, st', node') := ChoiceStep(nodes, st, nodeId, choiceId);
      && (outcome.Failed? ==> st' == st && node' == nodeId)
      && (outcome == Failed(NodeNotFound) <==> nodeId !in nodes)
      && (outcome == Failed(ChoiceNotFound) <==>
            nodeId in nodes && forall j :: 0 <= j < |nodes[nodeId].options| ==> nodes[nodeId].options[j].id != choiceId)
      && (outcome == Failed(RequirementsNotMet) <==>
            nodeId in nodes && FindChoice(nodes[nodeId].options, choiceId) != -1
            && !CheckRequirements(st, nodes[nodeId].options[FindChoice(nodes[nodeId].options, choiceId)].reqs))
      && (outcome == Succeeded <==>
            nodeId in nodes && FindChoice(nodes[nodeId].options, choiceId) != -1
            && CheckRequirements(st, nodes[nodeId].options[FindChoice(nodes[nodeId].options, choiceId)].reqs))
      && (outcome == Succeeded ==>
            var c := nodes[nodeId].options[FindChoice(nodes[nodeId].options, choiceId)];
            && c.id == choiceId && c in AvailableChoices(st, nodes[nodeId].options)
            && st' == AfterChoice(st, c, nodes) && node' == NextNode(nodeId, c))
  {
    if nodeId in nodes {
      var options := nodes[nodeId].options;
      var i := FindChoice(options, choiceId);
      if i != -1 && CheckRequirements(st, options[i].reqs) {
        AvailableChoicesExact(st, options, options[i]);
      }
    }
  }

  class CaseEngine {
    var currentCase: PatientCase
    var currentState: PatientState
    var currentNodeId: string

    /** Starts at the case's start node from a copy of its initial state, and
        applies the start node's entry effects. The case itself is a value, so
        play never changes its initial state. */
    constructor (patientCase: PatientCase)
      ensures currentCase == patientCase && currentNodeId == patientCase.startNodeId
      ensures currentState == ApplyAll(patientCase.initialState, OnEnter(patientCase.nodes, patientCase.startNodeId))
    {
      currentCase := patientCase;
      currentState := patientCase.initialState;
      currentNodeId := patientCase.startNodeId;
      new;
      if currentNodeId in currentCase.nodes {
        ApplyEffects(currentCase.nodes[currentNodeId].onEnter);
      }
    }

    function GetCurrentNode(): Option<NarrativeNode>
      reads this
    {
      if currentNodeId in currentCase.nodes then Some(currentCase.nodes[currentNodeId]) else None
    }

    /** `getAvailableChoices`: nothing when the current node is missing. */
    function GetAvailableChoices(): seq<Choice>
      reads this
    {
      if currentNodeId in currentCase.nodes
      then AvailableChoices(currentState, currentCase.nodes[currentNodeId].options)
      else []
    }

    /** `log`. */
    method Log(message: string)
      modifies this
      ensures currentState == Logged(old(currentState), message)
      ensures currentCase == old(currentCase) && currentNodeId == old(currentNodeId)
    {
      currentState := currentState.(history := currentState.history + [LogLine(currentState.timeElapsed, message)]);
    }

    /** The `switch` of `applyEffects` for one effect. */
    method ApplyEffectCore(e: ActionEffect)
      modifies this
      ensures currentState == EffectCore(old(currentState), e)
      ensures currentCase == old(currentCase) && currentNodeId == old(currentNodeId)
    {
      match e.kind {
        case AddFlag =>
          if Truthy(e.key) && e.key.value !in currentState.flags {
            currentState := currentState.(flags := currentState.flags + [e.key.value]);
            Log(FlagAddedText + e.key.value);
          }
        case RemoveFlag =>
          if Truthy(e.key) {
            currentState := currentState.(flags := Without(currentState.flags, e.key.value));
          }
        case AddItem =>
          if Truthy(e.key) {
            currentState := currentState.(inventory := currentState.inventory + [e.key.value]);
          }
        case ModifyVitals =>
          if Truthy(e.key) && e.value.Some? {
            currentState := currentState.(vitals := currentState.vitals[e.key.value := e.value.value as real]);
            Log(VitalsUpdateText + e.key.value + ArrowText + IntToString(e.value.value));
          }
        case GameOverEffect =>
          Log(GameOverText);
        case ModifyRelationship =>
          if Truthy(e.key) && e.value.Some? {
            var k, v := e.key.value, e.value.value;
            var currentVal := LookupOr0(currentState.relationships, k);
            currentState := currentState.(relationships := currentState.relationships[k := currentVal + v]);
            Log(RelationshipUpdateText + k + " " + (if v > 0 then "+" else "") + IntToString(v));
          }
        case CraftItem =>
          Log(CraftingText + KeyText(e.key));
        case RemoveItem =>
        case Win =>
      }
    }

    /** `applyEffects`: the effects in order, each followed by its
        description. */
    method ApplyEffects(effects: seq<ActionEffect>)
      modifies this
      ensures currentState == ApplyAll(old(currentState), effects)
      ensures currentCase == old(currentCase) && currentNodeId == old(currentNodeId)
    {
      for k := 0 to |effects|
        invariant currentState == ApplyAll(old(currentState), effects[..k])
        invariant currentCase == old(currentCase) && currentNodeId == old(currentNodeId)
      {
        assert effects[..k + 1][..k] == effects[..k];
        var e := effects[k];
        ApplyEffectCore(e);
        if Truthy(e.description) {
          Log(e.description.value);
        }
      }
      assert effects[..|effects|] == effects;
    }

    /** `makeChoice`. */
    method MakeChoice(choiceId: string) returns (outcome: ChoiceOutcome)
      modifies this
      ensures currentCase == old(currentCase)
      ensures (outcome, currentState, currentNodeId)
        == ChoiceStep(currentCase.nodes, old(currentState), old(currentNodeId), choiceId)
    {
      if currentNodeId !in currentCase.nodes {
        return Failed(NodeNotFound);
      }
      var node := currentCase.nodes[currentNodeId];
      var i := FindChoice(node.options, choiceId);
      if i == -1 {
        return Failed(ChoiceNotFound);
      }
      var choice := node.options[i];
      if !CheckRequirements(currentState, choice.reqs) {
        return Failed(RequirementsNotMet);
      }
      ApplyEffects(choice.effects);
      if choice.timeCost.Some? && choice.timeCost.value != 0 {
        currentState := currentState.(timeElapsed := currentState.timeElapsed + choice.timeCost.value);
      }
      if Truthy(choice.nextNodeId) {
        currentNodeId := choice.nextNodeId.value;
        if currentNodeId in currentCase.nodes {
          ApplyEffects(currentCase.nodes[currentNodeId].onEnter);
        }
      }
      return Succeeded;
    }
  }
}
