/** The dialogue store (store/dialogueStore.ts): which dialogue tree is open,
    the current node, the nodes visited and choices made, the queue of internal
    voices waiting to be shown and those already shown, and the typewriter
    flags. Choices gated by a skill are offered locked when the player's level
    is too low.

    The store is the class `Dialogue`, with `State()` giving its fields as one
    value. Node ids are strings looked up in the tree's node record; a missing
    node is an absent key. */
module DialogueStore {
  import opened Common
  import opened Skills
  import InternalVoices

  datatype SkillRequirement = SkillRequirement(skillId: SkillId, minLevel: int)

  /** A choice offered at a node; `isLocked` and `lockReason` are optional, as
      in the source. */
  datatype DialogueChoice = DialogueChoice(
    id: string, text: string, requiresSkill: Option<SkillRequirement>, leadsTo: string,
    isLocked: Option<bool>, lockReason: Option<string>)

  /** A node; absent `choices` and `internalVoices` are empty sequences. */
  datatype DialogueNode = DialogueNode(
    id: string, speaker: string, text: string,
    choices: seq<DialogueChoice>, internalVoices: seq<InternalVoice>)

  datatype DialogueTree = DialogueTree(
    id: string, title: string, startNode: string, nodes: map<string, DialogueNode>)

  datatype ChoiceRecord = ChoiceRecord(nodeId: string, choiceId: string)

  datatype Snapshot = Snapshot(
    isActive: bool, currentTree: Option<DialogueTree>, currentNodeId: Option<string>,
    visitedNodes: seq<string>, choicesMade: seq<ChoiceRecord>,
    pendingVoices: seq<InternalVoice>, displayedVoices: seq<InternalVoice>,
    isTyping: bool, displayedText: string)

  const InitialSnapshot := Snapshot(false, None, None, [], [], [], [], false, "")

  predicate NoDuplicates(s: seq<string>) {
    forall i, j :: 0 <= i < j < |s| ==> s[i] != s[j]
  }

  /** What every action keeps: a dialogue is open exactly when there is a
      tree, there is no current node without a tree, the current node has been
      visited, and no node is listed as visited twice. */
  ghost predicate ValidState(st: Snapshot) {
    (st.isActive <==> st.currentTree.Some?)
    && (st.currentTree.None? ==> st.currentNodeId.None?)
    && (st.currentNodeId.Some? ==> st.currentNodeId.value in st.visitedNodes)
    && NoDuplicates(st.visitedNodes)
  }

  /** `if (!visitedNodes.includes(id)) visitedNodes.push(id)`. */
  function Visit(visited: seq<string>, id: string): (r: seq<string>)
    ensures id in r
    ensures forall x :: x in r <==> x in visited || x == id
    ensures NoDuplicates(visited) ==> NoDuplicates(r)
    ensures |visited| <= |r| <= |visited| + 1 && r[..|visited|] == visited
  {
    if id in visited then visited else visited + [id]
  }

  /** The voices listed at a node, none if there is no such node. */
  function VoicesAt(nodes: map<string, DialogueNode>, id: string): seq<InternalVoice> {
    if id in nodes then nodes[id].internalVoices else []
  }

  /** Moving to a node, as `advanceToNode` and `selectChoice` both do: it
      becomes current and visited, the typewriter restarts, and the node's
      voices join the end of the queue as they are (no re-sort). */
  function EnterNode(st: Snapshot, nodes: map<string, DialogueNode>, id: string): Snapshot {
    st.(currentNodeId := Some(id), visitedNodes := Visit(st.visitedNodes, id),
        isTyping := true, displayedText := "",
        pendingVoices := st.pendingVoices + VoicesAt(nodes, id))
  }

  /** `choices.find(c => c.id === id)`: the first choice with the id, or -1. */
  function FindChoice(choices: seq<DialogueChoice>, id: string): (i: int)
    ensures -1 <= i < |choices|
    ensures i >= 0 ==> choices[i].id == id && forall j :: 0 <= j < i ==> choices[j].id != id
    ensures i == -1 <==> forall j :: 0 <= j < |choices| ==> choices[j].id != id
    decreases |choices|
  {
    if choices == [] then -1
    else if choices[0].id == id then 0
    else
      var k := FindChoice(choices[1..], id);
      if k == -1 then -1 else k + 1
  }

  /** `getCurrentNode`: the node under the current id, if there is a tree, the
      id is a non-empty string and the tree has such a node. */
  function NodeAt(tree: Option<DialogueTree>, nodeId: Option<string>): (r: Option<DialogueNode>)
    ensures r.Some? <==> tree.Some? && Truthy(nodeId) && nodeId.value in tree.value.nodes
    ensures r.Some? ==> r.value == tree.value.nodes[nodeId.value]
  {
    if tree.None? || !Truthy(nodeId) then None
    else if nodeId.value in tree.value.nodes then Some(tree.value.nodes[nodeId.value])
    else None
  }

  /** The text of a lock: `Requires ${skillId} ${minLevel}`. */
  function LockReason(req: SkillRequirement): string {
    "Requires " + SkillKey(req.skillId) + " " + IntToString(req.minLevel)
  }

  /** One choice as `getAvailableChoices` offers it. An ungated choice is
      marked unlocked and keeps whatever lock reason it carried; a gated one
      is locked exactly when the player's level (0 if unknown) is below the
      minimum, and then carries the lock reason, otherwise none. */
  function OfferChoice(c: DialogueChoice, skills: PlayerSkills): (r: DialogueChoice)
    ensures r.id == c.id && r.text == c.text && r.leadsTo == c.leadsTo && r.requiresSkill == c.requiresSkill
    ensures r.isLocked == Some(c.requiresSkill.Some? && Level(skills, c.requiresSkill.value.skillId) < c.requiresSkill.value.minLevel)
    ensures c.requiresSkill.None? ==> r.lockReason == c.lockReason
    ensures c.requiresSkill.Some? ==>
      (r.lockReason.Some? <==> r.isLocked == Some(true))
      && (r.lockReason.Some? ==> r.lockReason.value == LockReason(c.requiresSkill.value))
  {
    if c.requiresSkill.None? then c.(isLocked := Some(false))
    else
      var req := c.requiresSkill.value;
      var locked := Level(skills, req.skillId) < req.minLevel;
      c.(isLocked := Some(locked), lockReason := if locked then Some(LockReason(req)) else None)
  }

  /** The node's choices, one for one and in order, each offered as above. */
  function OfferChoices(choices: seq<DialogueChoice>, skills: PlayerSkills): (r: seq<DialogueChoice>)
    ensures |r| == |choices|
    ensures forall i :: 0 <= i < |r| ==> r[i] == OfferChoice(choices[i], skills)
  {
    seq(|choices|, i requires 0 <= i < |choices| => OfferChoice(choices[i], skills))
  }

  /** A gated choice unlocks once the player reaches its level, and raising a
      skill never locks a choice that was open. */
  lemma OfferChoiceMonotone(c: DialogueChoice, skills: PlayerSkills, s: SkillId, higher: int)
    requires Level(skills, s) <= higher
    ensures OfferChoice(c, skills).isLocked == Some(false) ==> OfferChoice(c, skills[s := higher]).isLocked == Some(false)
  {
  }

  class Dialogue {
    var isActive: bool
    var currentTree: Option<DialogueTree>
    var currentNodeId: Option<string>
    var visitedNodes: seq<string>
    var choicesMade: seq<ChoiceRecord>
    var pendingVoices: seq<InternalVoice>
    var displayedVoices: seq<InternalVoice>
    var isTyping: bool
    var displayedText: string

    function State(): Snapshot
      reads this
    {
      Snapshot(isActive, currentTree, currentNodeId, visitedNodes, choicesMade,
        pendingVoices, displayedVoices, isTyping, displayedText)
    }

    ghost predicate Valid()
      reads this
    {
      ValidState(State())
    }

    constructor ()
      ensures Valid() && State() == InitialSnapshot
    {
      isActive, currentTree, currentNodeId := false, None, None;
      visitedNodes, choicesMade := [], [];
      pendingVoices, displayedVoices := [], [];
      isTyping, displayedText := false, "";
    }

    /** `startDialogue`: open the tree at its start node with fresh history
        and empty voice queues. */
    method StartDialogue(tree: DialogueTree)
      requires Valid()
      modifies this
      ensures Valid()
      ensures State() == Snapshot(true, Some(tree), Some(tree.startNode), [tree.startNode], [], [], [], true, "")
    {
      isActive := true;
      currentTree := Some(tree);
      currentNodeId := Some(tree.startNode);
      visitedNodes := [tree.startNode];
      choicesMade := [];
      pendingVoices := [];
      displayedVoices := [];
      isTyping := true;
      displayedText := "";
    }

    /** `advanceToNode`: ignored unless a tree is open and has the node. */
    method AdvanceToNode(nodeId: string)
      requires Valid()
      modifies this
      ensures Valid()
      ensures old(currentTree).None? || nodeId !in old(currentTree).value.nodes ==> State() == old(State())
      ensures old(currentTree).Some? && nodeId in old(currentTree).value.nodes ==>
        State() == EnterNode(old(State()), old(currentTree).value.nodes, nodeId)
    {
      if currentTree.None? || nodeId !in currentTree.value.nodes {
        return;
      }
      var nodes := currentTree.value.nodes;
      currentNodeId := Some(nodeId);
      visitedNodes := Visit(visitedNodes, nodeId);
      isTyping := true;
      displayedText := "";
      pendingVoices := pendingVoices + nodes[nodeId].internalVoices;
    }

    /** `selectChoice`. Without an open tree and a non-empty current id, or
        with no choice of that id, nothing happens. If the current id names no
        node the source reads `choices` of `undefined` and throws a TypeError:
        `thrown` is then true and the state is unchanged. Otherwise the choice
        is logged and, when its `leadsTo` is non-empty, that node is entered
        whether or not the tree has it. */
    method SelectChoice(choiceId: string) returns (thrown: bool)
      requires Valid()
      modifies this
      ensures Valid()
      ensures thrown <==>
        old(currentTree).Some? && Truthy(old(currentNodeId)) && old(currentNodeId).value !in old(currentTree).value.nodes
      ensures var node := NodeAt(old(currentTree), old(currentNodeId));
        node.None? || FindChoice(node.value.choices, choiceId) == -1 ==> State() == old(State())
      ensures var node := NodeAt(old(currentTree), old(currentNodeId));
        node.Some? && FindChoice(node.value.choices, choiceId) != -1 ==>
          var choice := node.value.choices[FindChoice(node.value.choices, choiceId)];
          var logged := old(State()).(choicesMade := old(choicesMade) + [ChoiceRecord(old(currentNodeId).value, choiceId)]);
          State() == if choice.leadsTo == "" then logged
                     else EnterNode(logged, old(currentTree).value.nodes, choice.leadsTo)
    {
      if currentTree.None? || !Truthy(currentNodeId) {
        return false;
      }
      var nodes := currentTree.value.nodes;
      var nodeId := currentNodeId.value;
      if nodeId !in nodes {
        return true;
      }
      thrown := false;
      var node := nodes[nodeId];
      var i := FindChoice(node.choices, choiceId);
      if i == -1 {
        return;
      }
      choicesMade := choicesMade + [ChoiceRecord(nodeId, choiceId)];
      var choice := node.choices[i];
      if choice.leadsTo != "" {
        currentNodeId := Some(choice.leadsTo);
        visitedNodes := Visit(visitedNodes, choice.leadsTo);
        isTyping := true;
        displayedText := "";
        pendingVoices := pendingVoices + VoicesAt(nodes, choice.leadsTo);
      }
    }

    /** `endDialogue`: closes the tree but keeps the visited nodes and the
        choices made, so `hasVisitedNode` still answers for them. */
    method EndDialogue()
      requires Valid()
      modifies this
      ensures Valid()
      ensures State() == old(State()).(isActive := false, currentTree := None, currentNodeId := None,
        isTyping := false, displayedText := "")
      ensures forall id :: HasVisitedNode(id) == old(HasVisitedNode(id))
    {
      isActive := false;
      currentTree := None;
      currentNodeId := None;
      isTyping := false;
      displayedText := "";
    }

    /** `addInternalVoice`: push, then the stable sort by priority, highest
        first; the queue is then ordered whatever order it was in. */
    method AddInternalVoice(voice: InternalVoice)
      requires Valid()
      modifies this
      ensures Valid()
      ensures State() == old(State()).(pendingVoices := InternalVoices.SortByPriority(old(pendingVoices) + [voice]))
      ensures InternalVoices.SortedByPriority(pendingVoices)
      ensures multiset(pendingVoices) == multiset(old(pendingVoices)) + multiset{voice}
    {
      pendingVoices := InternalVoices.SortByPriority(pendingVoices + [voice]);
      InternalVoices.SortIsSorted(old(pendingVoices) + [voice]);
    }

    /** `displayNextVoice`: None, changing nothing, on an empty queue;
        otherwise the head of the queue moves to the end of the shown voices. */
    method DisplayNextVoice() returns (voice: Option<InternalVoice>)
      requires Valid()
      modifies this
      ensures Valid()
      ensures |pendingVoices| + |displayedVoices| == |old(pendingVoices)| + |old(displayedVoices)|
      ensures old(pendingVoices) == [] ==> voice.None? && State() == old(State())
      ensures old(pendingVoices) != [] ==>
        voice == Some(old(pendingVoices)[0])
        && State() == old(State()).(pendingVoices := old(pendingVoices)[1..],
                                    displayedVoices := old(displayedVoices) + [old(pendingVoices)[0]])
    {
      if |pendingVoices| == 0 {
        return None;
      }
      var v := pendingVoices[0];
      pendingVoices := pendingVoices[1..];
      displayedVoices := displayedVoices + [v];
      return Some(v);
    }

    method ClearVoices()
      requires Valid()
      modifies this
      ensures Valid()
      ensures State() == old(State()).(pendingVoices := [], displayedVoices := [])
    {
      pendingVoices := [];
      displayedVoices := [];
    }

    method SetTyping(typing: bool)
      requires Valid()
      modifies this
      ensures Valid()
      ensures State() == old(State()).(isTyping := typing)
    {
      isTyping := typing;
    }

    method SetDisplayedText(text: string)
      requires Valid()
      modifies this
      ensures Valid()
      ensures State() == old(State()).(displayedText := text)
    {
      displayedText := text;
    }

    /** `getCurrentNode`. */
    function GetCurrentNode(): Option<DialogueNode>
      reads this
    {
      NodeAt(currentTree, currentNodeId)
    }

    /** `getAvailableChoices`: the choices of the node under the current id
        (the empty id when there is none), offered against the player's skills;
        none without a tree or such a node. */
    function GetAvailableChoices(skills: PlayerSkills): seq<DialogueChoice>
      reads this
    {
      if currentTree.None? then []
      else
        var key := if currentNodeId.None? then "" else currentNodeId.value;
        if key in currentTree.value.nodes then OfferChoices(currentTree.value.nodes[key].choices, skills) else []
    }

    function HasVisitedNode(nodeId: string): bool
      reads this
    {
      nodeId in visitedNodes
    }
  }

  /** Choosing an option that leads to a node the tree lacks still moves
      there, after which there is no current node. */
  lemma SelectToMissingNodeLeavesNoNode(st: Snapshot, tree: DialogueTree, target: string)
    requires target != "" && target !in tree.nodes
    ensures NodeAt(Some(tree), EnterNode(st, tree.nodes, target).currentNodeId) == None
    ensures EnterNode(st, tree.nodes, target).pendingVoices == st.pendingVoices
  {
  }
}
