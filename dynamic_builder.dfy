/**
 * The dynamic workflow builder: a workflow context holds a ComfyUI
 * API-format graph (node id -> {class_type, inputs}) and a node counter that
 * only goes up. Nodes are added, wired, re-parameterised and removed in
 * place, and the validator reports every link to a missing node and every
 * negative output index.
 */
module DynamicBuilder {
  import opened Wrappers
  import opened Objects
  import opened JsonValues
  import Text

  /** One node of an API-format workflow: `{class_type, inputs}`. */
  datatype NodeDef = NodeDef(classType: string, inputs: Obj<Json>)

  /** node id -> node definition. */
  type Workflow = Obj<NodeDef>

  /** The error a failed graph edit throws: `Node "<id>" not found`. */
  datatype BuilderError = NodeNotFound(nodeId: string)
  {
    function Message(): string
    {
      "Node \"" + nodeId + "\" not found"
    }
  }

  // ---------------------------------------------------------------- links

  /** An input value the validator reads as a link: a 2-element array `[string, number]`. */
  predicate IsLink(v: Json)
  {
    v.JArr? && |v.items| == 2 && v.items[0].JStr? && v.items[1].JNum?
  }

  /** The value `connectNodes` stores: `[fromNodeId, outputIndex]`. */
  function Link(fromNode: string, outputIndex: real): (v: Json)
    ensures IsLink(v) && LinkTarget(v) == fromNode && LinkIndex(v) == outputIndex
  {
    JArr([JStr(fromNode), JNum(outputIndex)])
  }

  function LinkTarget(v: Json): string
    requires IsLink(v)
  {
    v.items[0].s
  }

  function LinkIndex(v: Json): real
    requires IsLink(v)
  {
    v.items[1].n
  }

  /** `inputs[name]` of node `id`, when both exist. */
  function InputAt(w: Workflow, id: string, name: string): Option<Json>
  {
    match Get(w, id)
    case None => None
    case Some(n) => Get(n.inputs, name)
  }

  function WithInput(n: NodeDef, name: string, v: Json): NodeDef
  {
    n.(inputs := Set(n.inputs, name, v))
  }

  // ----------------------------------------------------------- validation

  datatype ValidationError =
    | DanglingLink(nodeId: string, inputName: string, target: string)
    | NegativeIndex(nodeId: string, inputName: string, index: real)

  datatype ValidationResult = ValidationResult(valid: bool, errors: seq<ValidationError>)

  /** The condition the validator checks on one input value. */
  predicate LinkOk(w: Workflow, v: Json)
  {
    IsLink(v) ==> HasKey(w, LinkTarget(v)) && LinkIndex(v) >= 0.0
  }

  /** Every link in the graph names an existing node and a non-negative output index. */
  predicate AllLinksResolve(w: Workflow)
  {
    forall i, j | 0 <= i < |w| && 0 <= j < |w[i].1.inputs| :: LinkOk(w, w[i].1.inputs[j].1)
  }

  /** The errors one input contributes, in the order the validator pushes them. */
  function InputErrors(w: Workflow, nodeId: string, name: string, v: Json): seq<ValidationError>
  {
    if IsLink(v) then
      (if HasKey(w, LinkTarget(v)) then [] else [DanglingLink(nodeId, name, LinkTarget(v))])
      + (if LinkIndex(v) < 0.0 then [NegativeIndex(nodeId, name, LinkIndex(v))] else [])
    else []
  }

  function NodeErrors(w: Workflow, nodeId: string, inputs: seq<(string, Json)>): seq<ValidationError>
  {
    if inputs == [] then []
    else
      var last := inputs[|inputs| - 1];
      NodeErrors(w, nodeId, inputs[..|inputs| - 1]) + InputErrors(w, nodeId, last.0, last.1)
  }

  function GraphErrors(w: Workflow, nodes: seq<(string, NodeDef)>): seq<ValidationError>
  {
    if nodes == [] then []
    else
      var last := nodes[|nodes| - 1];
      GraphErrors(w, nodes[..|nodes| - 1]) + NodeErrors(w, last.0, last.1.inputs)
  }

  /** The error list of `validateWorkflow`: nodes in order, inputs in order. */
  function Errors(w: Workflow): seq<ValidationError>
  {
    GraphErrors(w, w)
  }

  lemma {:induction false} NodeErrorsEmptyIff(w: Workflow, nodeId: string, inputs: seq<(string, Json)>)
    ensures NodeErrors(w, nodeId, inputs) == [] <==> forall j | 0 <= j < |inputs| :: LinkOk(w, inputs[j].1)
    decreases |inputs|
  {
    if inputs != [] {
      var init := inputs[..|inputs| - 1];
      NodeErrorsEmptyIff(w, nodeId, init);
      assert forall j | 0 <= j < |init| :: init[j] == inputs[j];
    }
  }

  lemma {:induction false} GraphErrorsEmptyIff(w: Workflow, nodes: seq<(string, NodeDef)>)
    ensures GraphErrors(w, nodes) == [] <==>
      forall i, j | 0 <= i < |nodes| && 0 <= j < |nodes[i].1.inputs| :: LinkOk(w, nodes[i].1.inputs[j].1)
    decreases |nodes|
  {
    if nodes != [] {
      var init := nodes[..|nodes| - 1];
      var last := nodes[|nodes| - 1];
      GraphErrorsEmptyIff(w, init);
      NodeErrorsEmptyIff(w, last.0, last.1.inputs);
      assert forall i | 0 <= i < |init| :: init[i] == nodes[i];
    }
  }

  /** `valid` is exactly "every link resolves": no error iff no dangling link and no negative index. */
  lemma ErrorsEmptyIff(w: Workflow)
    ensures Errors(w) == [] <==> AllLinksResolve(w)
  {
    GraphErrorsEmptyIff(w, w);
  }

  lemma {:induction false} InNodeErrorsIntro(w: Workflow, nodeId: string, inputs: seq<(string, Json)>, j: nat, e: ValidationError)
    requires j < |inputs| && e in InputErrors(w, nodeId, inputs[j].0, inputs[j].1)
    ensures e in NodeErrors(w, nodeId, inputs)
    decreases |inputs|
  {
    var init := inputs[..|inputs| - 1];
    if j < |init| {
      assert init[j] == inputs[j];
      InNodeErrorsIntro(w, nodeId, init, j, e);
    }
  }

  lemma {:induction false} InNodeErrorsElim(w: Workflow, nodeId: string, inputs: seq<(string, Json)>, e: ValidationError)
    returns (j: nat)
    requires e in NodeErrors(w, nodeId, inputs)
    ensures j < |inputs| && e in InputErrors(w, nodeId, inputs[j].0, inputs[j].1)
    decreases |inputs|
  {
    var init := inputs[..|inputs| - 1];
    var last := inputs[|inputs| - 1];
    if e in NodeErrors(w, nodeId, init) {
      j := InNodeErrorsElim(w, nodeId, init, e);
      assert init[j] == inputs[j];
    } else {
      j := |inputs| - 1;
    }
  }

  lemma {:induction false} InGraphErrorsIntro(w: Workflow, nodes: seq<(string, NodeDef)>, i: nat, e: ValidationError)
    requires i < |nodes| && e in NodeErrors(w, nodes[i].0, nodes[i].1.inputs)
    ensures e in GraphErrors(w, nodes)
    decreases |nodes|
  {
    var init := nodes[..|nodes| - 1];
    if i < |init| {
      assert init[i] == nodes[i];
      InGraphErrorsIntro(w, init, i, e);
    }
  }

  lemma {:induction false} InGraphErrorsElim(w: Workflow, nodes: seq<(string, NodeDef)>, e: ValidationError)
    returns (i: nat)
    requires e in GraphErrors(w, nodes)
    ensures i < |nodes| && e in NodeErrors(w, nodes[i].0, nodes[i].1.inputs)
    decreases |nodes|
  {
    var init := nodes[..|nodes| - 1];
    if e in GraphErrors(w, init) {
      i := InGraphErrorsElim(w, init, e);
      assert init[i] == nodes[i];
    } else {
      i := |nodes| - 1;
    }
  }

  /** An error names a (node, input) pair: it occurs iff that input of that node produces it. */
  lemma InErrorsAt(w: Workflow, e: ValidationError)
    ensures e in Errors(w) <==>
      InputAt(w, e.nodeId, e.inputName).Some? &&
      e in InputErrors(w, e.nodeId, e.inputName, InputAt(w, e.nodeId, e.inputName).value)
  {
    if e in Errors(w) {
      var i := InGraphErrorsElim(w, w, e);
      var ins := w[i].1.inputs;
      var j := InNodeErrorsElim(w, w[i].0, ins, e);
      assert e.nodeId == w[i].0 && e.inputName == ins[j].0 by {
        assert e in InputErrors(w, w[i].0, ins[j].0, ins[j].1);
      }
      GetAt(w, i);
      GetAt(ins, j);
    }
    var at := InputAt(w, e.nodeId, e.inputName);
    if at.Some? && e in InputErrors(w, e.nodeId, e.inputName, at.value) {
      var i := IndexOf(w, e.nodeId);
      GetAt(w, i);
      var ins := w[i].1.inputs;
      var j := IndexOf(ins, e.inputName);
      GetAt(ins, j);
      InNodeErrorsIntro(w, w[i].0, ins, j, e);
      InGraphErrorsIntro(w, w, i, e);
    }
  }

  /**
   * One error per link to a missing node: `DanglingLink(id, name, t)` is
   * reported iff input `name` of node `id` is a link to `t` and `t` is not a
   * node of the graph.
   */
  lemma DanglingLinkReported(w: Workflow, id: string, name: string, t: string)
    ensures DanglingLink(id, name, t) in Errors(w) <==>
      InputAt(w, id, name).Some? && IsLink(InputAt(w, id, name).value) &&
      LinkTarget(InputAt(w, id, name).value) == t && !HasKey(w, t)
  {
    InErrorsAt(w, DanglingLink(id, name, t));
  }

  /**
   * One error per negative index: `NegativeIndex(id, name, x)` is reported
   * iff input `name` of node `id` is a link whose output index `x` is below 0.
   */
  lemma NegativeIndexReported(w: Workflow, id: string, name: string, x: real)
    ensures NegativeIndex(id, name, x) in Errors(w) <==>
      InputAt(w, id, name).Some? && IsLink(InputAt(w, id, name).value) &&
      LinkIndex(InputAt(w, id, name).value) == x && x < 0.0
  {
    InErrorsAt(w, NegativeIndex(id, name, x));
  }

  /** The body of the inner loop: the pushes for one input value. */
  method PushInputErrors(w: Workflow, nodeId: string, name: string, v: Json, errors: seq<ValidationError>)
    returns (out: seq<ValidationError>)
    ensures out == errors + InputErrors(w, nodeId, name, v)
  {
    out := errors;
    if v.JArr? && |v.items| == 2 && v.items[0].JStr? && v.items[1].JNum? {
      var refNodeId := v.items[0].s;
      var outputIndex := v.items[1].n;
      if !HasKey(w, refNodeId) {
        out := out + [DanglingLink(nodeId, name, refNodeId)];
      }
      if outputIndex < 0.0 {
        out := out + [NegativeIndex(nodeId, name, outputIndex)];
      }
    }
  }

  /** The inner loop of `validateWorkflow`: pushes the errors of one node's inputs, in order. */
  method PushNodeErrors(w: Workflow, nodeId: string, inputs: Obj<Json>, errors: seq<ValidationError>)
    returns (out: seq<ValidationError>)
    ensures out == errors + NodeErrors(w, nodeId, inputs)
  {
    out := errors;
    var j := 0;
    assert inputs[..0] == [];
    while j < |inputs|
      invariant 0 <= j <= |inputs|
      invariant out == errors + NodeErrors(w, nodeId, inputs[..j])
    {
      var (name, v) := inputs[j];
      ghost var done := NodeErrors(w, nodeId, inputs[..j]);
      out := PushInputErrors(w, nodeId, name, v, out);
      assert inputs[..j + 1][..j] == inputs[..j];
      assert NodeErrors(w, nodeId, inputs[..j + 1]) == done + InputErrors(w, nodeId, name, v);
      j := j + 1;
    }
    assert inputs[..j] == inputs;
  }

  /** `validateWorkflow` on a bare graph: every node's inputs in order, valid iff nothing was pushed. */
  method ValidateGraph(w: Workflow) returns (r: ValidationResult)
    ensures r.errors == Errors(w)
    ensures r.valid <==> r.errors == []
    ensures r.valid <==> AllLinksResolve(w)
  {
    var errors: seq<ValidationError> := [];
    var i := 0;
    while i < |w|
      invariant 0 <= i <= |w|
      invariant errors == GraphErrors(w, w[..i])
    {
      var (nodeId, node) := w[i];
      ghost var before := errors;
      errors := PushNodeErrors(w, nodeId, node.inputs, errors);
      assert w[..i + 1][..i] == w[..i];
      assert GraphErrors(w, w[..i + 1]) == before + NodeErrors(w, nodeId, node.inputs);
      i := i + 1;
    }
    assert w[..i] == w;
    ErrorsEmptyIff(w);
    r := ValidationResult(|errors| == 0, errors);
  }

  // -------------------------------------------------------------- context

  class WorkflowContext {
    const id: string
    const createdAt: int
    var workflow: Workflow
    var nodeCounter: nat

    /** `createWorkflow()`'s object: an empty graph, counter 0. */
    constructor (id: string, createdAt: int)
      ensures this.id == id && this.createdAt == createdAt
      ensures workflow == [] && nodeCounter == 0
    {
      this.id := id;
      this.createdAt := createdAt;
      workflow := [];
      nodeCounter := 0;
    }

    /** Every node id was issued by the counter: it is `String(k)` for some `1 <= k <= nodeCounter`. */
    ghost predicate IdsIssued()
      reads this
    {
      forall i | 0 <= i < |workflow| :: exists k: nat | 1 <= k <= nodeCounter :: workflow[i].0 == Text.NatToString(k)
    }

    /** `addNode`: bumps the counter and stores the node under `String(counter)`. */
    method AddNode(classType: string, inputs: Obj<Json>) returns (nodeId: string)
      modifies this
      ensures nodeCounter == old(nodeCounter) + 1
      ensures nodeId == Text.NatToString(nodeCounter)
      ensures Get(workflow, nodeId) == Some(NodeDef(classType, inputs))
      ensures forall k | k != nodeId :: Get(workflow, k) == Get(old(workflow), k)
      ensures workflow == Set(old(workflow), nodeId, NodeDef(classType, inputs))
      ensures old(IdsIssued()) ==> IdsIssued() && !HasKey(old(workflow), nodeId)
    {
      ghost var issued := IdsIssued();
      nodeCounter := nodeCounter + 1;
      nodeId := Text.NatToString(nodeCounter);
      if issued {
        forall i | 0 <= i < |workflow| ensures workflow[i].0 != nodeId {
          var k: nat :| 1 <= k <= nodeCounter - 1 && workflow[i].0 == Text.NatToString(k);
          if workflow[i].0 == nodeId { Text.NatToStringInjective(k, nodeCounter); }
        }
      }
      ghost var before := workflow;
      workflow := Set(workflow, nodeId, NodeDef(classType, inputs));
      if issued {
        assert workflow == before + [(nodeId, NodeDef(classType, inputs))];
        forall i | 0 <= i < |workflow|
          ensures exists k: nat | 1 <= k <= nodeCounter :: workflow[i].0 == Text.NatToString(k)
        {
          if i == |before| {
            assert workflow[i].0 == Text.NatToString(nodeCounter);
          } else {
            assert workflow[i] == before[i];
          }
        }
      }
    }

    /** `connectNodes`: `inputs[inputName] = [fromNode, outputIndex]` on the target node. */
    method ConnectNodes(fromNode: string, outputIndex: real, toNode: string, inputName: string)
      returns (r: Result<(), BuilderError>)
      modifies this
      ensures nodeCounter == old(nodeCounter)
      ensures !HasKey(old(workflow), toNode) ==>
        r == Failure(NodeNotFound(toNode)) && workflow == old(workflow)
      ensures HasKey(old(workflow), toNode) && !HasKey(old(workflow), fromNode) ==>
        r == Failure(NodeNotFound(fromNode)) && workflow == old(workflow)
      ensures HasKey(old(workflow), toNode) && HasKey(old(workflow), fromNode) ==>
        r.Success? &&
        workflow == Set(old(workflow), toNode,
                        WithInput(Get(old(workflow), toNode).value, inputName, Link(fromNode, outputIndex)))
      ensures r.Success? ==>
        InputAt(workflow, toNode, inputName) == Some(Link(fromNode, outputIndex)) &&
        (forall k | k != toNode :: Get(workflow, k) == Get(old(workflow), k)) &&
        (forall n | n != inputName :: InputAt(workflow, toNode, n) == InputAt(old(workflow), toNode, n))
    {
      var toDef := Get(workflow, toNode);
      if toDef.None? {
        return Failure(NodeNotFound(toNode));
      }
      if !HasKey(workflow, fromNode) {
        return Failure(NodeNotFound(fromNode));
      }
      workflow := Set(workflow, toNode, WithInput(toDef.value, inputName, Link(fromNode, outputIndex)));
      r := Success(());
    }

    /** `removeNode`: deletes that key only; links to it elsewhere are left dangling. */
    method RemoveNode(nodeId: string) returns (r: Result<(), BuilderError>)
      modifies this
      ensures nodeCounter == old(nodeCounter)
      ensures !HasKey(old(workflow), nodeId) ==> r == Failure(NodeNotFound(nodeId)) && workflow == old(workflow)
      ensures HasKey(old(workflow), nodeId) ==> r.Success? && workflow == Delete(old(workflow), nodeId)
      ensures !HasKey(workflow, nodeId)
      ensures forall k | k != nodeId :: Get(workflow, k) == Get(old(workflow), k)
      ensures old(IdsIssued()) ==> IdsIssued()
    {
      if !HasKey(workflow, nodeId) {
        return Failure(NodeNotFound(nodeId));
      }
      ghost var before := workflow;
      workflow := Delete(workflow, nodeId);
      forall i | 0 <= i < |workflow| ensures exists j | 0 <= j < |before| :: workflow[i] == before[j] {
        GetAt(workflow, i);
        assert Get(before, workflow[i].0) == Some(workflow[i].1);
      }
      r := Success(());
    }

    /** `setNodeInput`: overwrites `inputs[inputName]`, link or literal alike. */
    method SetNodeInput(nodeId: string, inputName: string, value: Json) returns (r: Result<(), BuilderError>)
      modifies this
      ensures nodeCounter == old(nodeCounter)
      ensures !HasKey(old(workflow), nodeId) ==> r == Failure(NodeNotFound(nodeId)) && workflow == old(workflow)
      ensures HasKey(old(workflow), nodeId) ==>
        r.Success? && workflow == Set(old(workflow), nodeId, WithInput(Get(old(workflow), nodeId).value, inputName, value))
      ensures r.Success? ==>
        InputAt(workflow, nodeId, inputName) == Some(value) &&
        Get(workflow, nodeId).value.classType == Get(old(workflow), nodeId).value.classType &&
        (forall k | k != nodeId :: Get(workflow, k) == Get(old(workflow), k))
    {
      var node := Get(workflow, nodeId);
      if node.None? {
        return Failure(NodeNotFound(nodeId));
      }
      workflow := Set(workflow, nodeId, WithInput(node.value, inputName, value));
      r := Success(());
    }

    /** `getWorkflow`: the graph the context holds. */
    function GetWorkflow(): Workflow
      reads this
    {
      workflow
    }

    /** `validateWorkflow(ctx)`. */
    method Validate() returns (r: ValidationResult)
      ensures r.errors == Errors(workflow)
      ensures r.valid <==> AllLinksResolve(workflow)
    {
      r := ValidateGraph(workflow);
    }
  }

  /** `createWorkflow()`: the id is `wf_` followed by the time/random stamp. */
  method CreateWorkflow(stamp: string, now: int) returns (ctx: WorkflowContext)
    ensures fresh(ctx)
    ensures ctx.id == "wf_" + stamp && Text.StartsWith(ctx.id, "wf_")
    ensures ctx.workflow == [] && ctx.nodeCounter == 0 && ctx.createdAt == now
    ensures ctx.IdsIssued()
  {
    ctx := new WorkflowContext("wf_" + stamp, now);
    assert ("wf_" + stamp)[..3] == "wf_";
  }

  /** On a fresh context the n-th `addNode` returns `String(n)`: here "1" then "2". */
  method FreshContextNumbering(stamp: string, now: int, c1: string, c2: string)
    returns (first: string, second: string, w: Workflow)
    ensures first == "1" && second == "2"
    ensures w == [("1", NodeDef(c1, [])), ("2", NodeDef(c2, []))]
  {
    var ctx := CreateWorkflow(stamp, now);
    first := ctx.AddNode(c1, []);
    second := ctx.AddNode(c2, []);
    w := ctx.GetWorkflow();
    assert Text.NatToString(1) == "1" && Text.NatToString(2) == "2";
  }
}
