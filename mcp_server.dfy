/**
 * The decision logic of the MCP server's tool handlers: the knowledge-base
 * caches with their five-minute lifetime, `check_compatibility`,
 * `suggest_nodes`, and the guards in front of `execute_workflow` and
 * `delete_queue_items`. File contents, `JSON.parse` and the engine's answers
 * are parameters; the tool registration around them is not modelled.
 */
module Server {
  import opened Wrappers
  import opened Objects
  import opened JsonValues
  import opened Catalog
  import opened Text
  import DB = DynamicBuilder
  import CC = ComfyClient
  import Updater

  // -------------------------------------------------------------- caches

  const CACHE_TTL_MS: int := 5 * 60 * 1000

  /** A cached document and the time after which it must be re-read. */
  datatype Cached<T> = Cached(data: T, expires: int)

  /** What `loadBaseNodes` answers when `base-nodes.json` does not exist. */
  const NO_NODES: Obj<NodeDescription> := []
  const EMPTY_BASE_NODES: BaseNodesJson := BaseNodesJson(Some(Metadata(None, None, None)), Some(NO_NODES))

  /** What `loadCompatibility` answers when `node-compatibility.json` does not exist. */
  const EMPTY_COMPAT: CompatData := CompatData(Some(Metadata(None, None, None)), [])

  /**
   * One load through a cache: the cached data while it has not expired;
   * otherwise the file, which is then cached until `now + CACHE_TTL_MS`; and
   * the empty document, not cached, when the file is missing (`file` is
   * `None`).
   */
  function LoadThrough<T>(cache: Option<Cached<T>>, now: int, file: Option<T>, empty: T): (r: (T, Option<Cached<T>>))
    ensures cache.Some? && cache.value.expires > now ==> r == (cache.value.data, cache)
    ensures (cache.None? || cache.value.expires <= now) && file.Some? ==>
      r == (file.value, Some(Cached(file.value, now + CACHE_TTL_MS)))
    ensures (cache.None? || cache.value.expires <= now) && file.None? ==> r == (empty, cache)
  {
    if cache.Some? && cache.value.expires > now then (cache.value.data, cache)
    else if file.None? then (empty, cache)
    else (file.value, Some(Cached(file.value, now + CACHE_TTL_MS)))
  }

  /** After a load that read the file, every load in the next five minutes answers that data without reading again. */
  lemma ReloadServesUntilExpiry<T>(cache: Option<Cached<T>>, now: int, data: T, empty: T,
                                   later: int, laterFile: Option<T>)
    requires cache.None? || cache.value.expires <= now
    requires now <= later < now + CACHE_TTL_MS
    ensures var after := LoadThrough(cache, now, Some(data), empty).1;
      LoadThrough(after, later, laterFile, empty) == (data, after)
  {
  }

  /** A missing file never fills the cache: the next load looks at the file again. */
  lemma MissingFileNotCached<T>(cache: Option<Cached<T>>, now: int, empty: T, later: int, laterFile: T)
    requires cache.None?
    ensures var after := LoadThrough(cache, now, None, empty).1;
      after.None? && LoadThrough(after, later, Some(laterFile), empty).0 == laterFile
  {
  }

  /** The module-level caches of `base-nodes.json` and `node-compatibility.json`. */
  class KnowledgeCache {
    var baseNodesCache: Option<Cached<BaseNodesJson>>
    var compatCache: Option<Cached<CompatData>>

    constructor ()
      ensures baseNodesCache.None? && compatCache.None?
    {
      baseNodesCache := None;
      compatCache := None;
    }

    /** `invalidateBaseNodesCache()`: the next `loadBaseNodes` reads the file. */
    method InvalidateBaseNodesCache()
      modifies this
      ensures baseNodesCache.None? && compatCache == old(compatCache)
    {
      baseNodesCache := None;
    }

    /** `loadBaseNodes()` at time `now`; `file` is the document on disk, `None` when it is missing. */
    method LoadBaseNodes(now: int, file: Option<BaseNodesJson>) returns (data: BaseNodesJson)
      modifies this
      ensures (data, baseNodesCache) == LoadThrough(old(baseNodesCache), now, file, EMPTY_BASE_NODES)
      ensures compatCache == old(compatCache)
    {
      if baseNodesCache.Some? && baseNodesCache.value.expires > now {
        return baseNodesCache.value.data;
      }
      if file.None? {
        return EMPTY_BASE_NODES;
      }
      data := file.value;
      baseNodesCache := Some(Cached(data, now + CACHE_TTL_MS));
    }

    /** `loadCompatibility()` at time `now`. */
    method LoadCompatibility(now: int, file: Option<CompatData>) returns (data: CompatData)
      modifies this
      ensures (data, compatCache) == LoadThrough(old(compatCache), now, file, EMPTY_COMPAT)
      ensures baseNodesCache == old(baseNodesCache)
    {
      if compatCache.Some? && compatCache.value.expires > now {
        return compatCache.value.data;
      }
      if file.None? {
        return EMPTY_COMPAT;
      }
      data := file.value;
      compatCache := Some(Cached(data, now + CACHE_TTL_MS));
    }
  }

  // ------------------------------------------------- check_compatibility

  /** The declared types of a node's required inputs, skipping absent and empty ones (`.filter(Boolean)`). */
  function RequiredInputTypes(specs: seq<(string, InputSpec)>): (r: seq<string>)
    ensures forall t | t in r :: t != ""
    ensures forall i | 0 <= i < |specs| && specs[i].1.typeName.Some? && specs[i].1.typeName.value != "" ::
      specs[i].1.typeName.value in r
    ensures forall t | t in r :: exists i | 0 <= i < |specs| :: specs[i].1.typeName == Some(t)
  {
    if specs == [] then []
    else
      var t := specs[|specs| - 1].1.typeName;
      var init := RequiredInputTypes(specs[..|specs| - 1]);
      assert forall i | 0 <= i < |specs| - 1 :: specs[..|specs| - 1][i] == specs[i];
      if t.Some? && t.value != "" then init + [t.value] else init
  }

  /** `compat.data_types?.[t]?.consumers ?? []`. */
  function ConsumersOf(compat: CompatData, t: string): seq<string>
  {
    match Get(compat.dataTypes, t)
    case None => []
    case Some(e) => e.consumers
  }

  /** An output type connects when the target takes it as a required input and is listed among its consumers. */
  predicate Connects(compat: CompatData, inputTypes: seq<string>, toNode: string, t: string)
  {
    t in inputTypes && toNode in ConsumersOf(compat, t)
  }

  /** The output types that connect, in the order the source node lists them. */
  function MatchedTypes(outTypes: seq<string>, compat: CompatData, inputTypes: seq<string>, toNode: string): seq<string>
  {
    if outTypes == [] then []
    else
      var init := MatchedTypes(outTypes[..|outTypes| - 1], compat, inputTypes, toNode);
      var t := outTypes[|outTypes| - 1];
      if Connects(compat, inputTypes, toNode, t) then init + [t] else init
  }

  /** A type is reported as a match exactly when the source node outputs it and it connects. */
  lemma {:induction false} MatchedTypesIff(outTypes: seq<string>, compat: CompatData, inputTypes: seq<string>,
                                           toNode: string, t: string)
    ensures t in MatchedTypes(outTypes, compat, inputTypes, toNode) <==>
      t in outTypes && Connects(compat, inputTypes, toNode, t)
    decreases |outTypes|
  {
    if outTypes != [] {
      var init := outTypes[..|outTypes| - 1];
      MatchedTypesIff(init, compat, inputTypes, toNode, t);
      assert outTypes == init + [outTypes[|outTypes| - 1]];
    }
  }

  function MatchLine(t: string, fromNode: string, toNode: string): string
  {
    t + " (" + fromNode + " → " + toNode + ")"
  }

  function MatchLines(ts: seq<string>, fromNode: string, toNode: string): (r: seq<string>)
    ensures |r| == |ts| && forall k | 0 <= k < |ts| :: r[k] == MatchLine(ts[k], fromNode, toNode)
  {
    seq(|ts|, k requires 0 <= k < |ts| => MatchLine(ts[k], fromNode, toNode))
  }

  /** The three answers of `check_compatibility`. */
  datatype CompatReport =
    | MissingNode(name: string)
    | Compatible(matches: seq<string>)
    | NoDirectMatch(outTypes: seq<string>, inputTypes: seq<string>)
  {
    function Text(): string
    {
      match this
      case MissingNode(name) => "Missing node: " + name + " not in knowledge base."
      case Compatible(matches) => "Compatible: " + Join(matches, "; ")
      case NoDirectMatch(outs, ins) =>
        "No direct type match found. From node outputs: " + Join(outs, ", ") +
        ". To node consumes: " + Join(ins, ", ") + "."
    }
  }

  /** The `check_compatibility` handler on loaded documents. */
  method CheckCompatibility(base: BaseNodesJson, compat: CompatData, fromNode: string, toNode: string)
    returns (r: CompatReport)
    ensures r.MissingNode? <==> Get(NodesOf(base), fromNode).None? || Get(NodesOf(base), toNode).None?
    ensures r.MissingNode? ==> r.name == if Get(NodesOf(base), fromNode).None? then fromNode else toNode
    ensures !r.MissingNode? ==>
      var outTypes := Get(NodesOf(base), fromNode).value.returnTypes.GetOr([]);
      var inputTypes := RequiredInputTypes(Get(NodesOf(base), toNode).value.requiredInputs.GetOr([]));
      var matched := MatchedTypes(outTypes, compat, inputTypes, toNode);
      (r.Compatible? <==> matched != []) &&
      (r.Compatible? ==> r.matches == MatchLines(matched, fromNode, toNode)) &&
      (r.NoDirectMatch? ==> r.outTypes == outTypes && r.inputTypes == inputTypes)
  {
    var fromDesc := Get(NodesOf(base), fromNode);
    var toDesc := Get(NodesOf(base), toNode);
    if fromDesc.None? || toDesc.None? {
      return MissingNode(if fromDesc.None? then fromNode else toNode);
    }
    var outTypes := fromDesc.value.returnTypes.GetOr([]);
    var inputTypes := RequiredInputTypes(toDesc.value.requiredInputs.GetOr([]));
    var matches: seq<string> := [];
    var i := 0;
    while i < |outTypes|
      invariant 0 <= i <= |outTypes|
      invariant matches == MatchLines(MatchedTypes(outTypes[..i], compat, inputTypes, toNode), fromNode, toNode)
    {
      var outType := outTypes[i];
      assert outTypes[..i + 1][..i] == outTypes[..i];
      if outType in inputTypes && toNode in ConsumersOf(compat, outType) {
        matches := matches + [MatchLine(outType, fromNode, toNode)];
      }
      i := i + 1;
    }
    assert outTypes[..i] == outTypes;
    if |matches| > 0 {
      r := Compatible(matches);
    } else {
      r := NoDirectMatch(outTypes, inputTypes);
    }
  }

  // ------------------------------------------------------- suggest_nodes

  const SUGGEST_LIMIT: nat := 20

  /** The task test: the lower-cased query inside the description, the joined use cases or the display name. */
  predicate MatchesTask(n: NodeDescription, q: string)
  {
    Contains(Lower(n.description.GetOr("")), q) ||
    Contains(Lower(Join(n.useCases.GetOr([]), " ")), q) ||
    Contains(Lower(n.displayName.GetOr("")), q)
  }

  /** Both `suggest_nodes` filters; an absent or empty argument does not filter. */
  predicate Suggested(task: Option<string>, inputType: Option<string>, e: (string, NodeDescription))
  {
    (task.Some? && task.value != "" ==> MatchesTask(e.1, Lower(task.value))) &&
    (inputType.Some? && inputType.value != "" ==> Upper(inputType.value) in e.1.returnTypes.GetOr([]))
  }

  /** Every node of the knowledge base that passes both filters, in file order. */
  function Suggestions(nodes: seq<(string, NodeDescription)>, task: Option<string>, inputType: Option<string>)
    : seq<(string, NodeDescription)>
  {
    if nodes == [] then []
    else
      var rest := Suggestions(nodes[1..], task, inputType);
      if Suggested(task, inputType, nodes[0]) then [nodes[0]] + rest else rest
  }

  /** `filtered.slice(0, 20)`. */
  function SuggestNodes(base: BaseNodesJson, task: Option<string>, inputType: Option<string>)
    : (r: seq<(string, NodeDescription)>)
    ensures |r| <= SUGGEST_LIMIT
  {
    var all := Suggestions(NodesOf(base), task, inputType);
    if |all| <= SUGGEST_LIMIT then all else all[..SUGGEST_LIMIT]
  }

  lemma {:induction false} SuggestionsIff(nodes: seq<(string, NodeDescription)>, task: Option<string>,
                                          inputType: Option<string>, e: (string, NodeDescription))
    ensures e in Suggestions(nodes, task, inputType) <==> e in nodes && Suggested(task, inputType, e)
    decreases |nodes|
  {
    if nodes != [] {
      SuggestionsIff(nodes[1..], task, inputType, e);
      assert nodes == [nodes[0]] + nodes[1..];
    }
  }

  /** Every suggestion is a knowledge-base node that passes both filters. */
  lemma SuggestionIsMatch(base: BaseNodesJson, task: Option<string>, inputType: Option<string>, k: nat)
    requires k < |SuggestNodes(base, task, inputType)|
    ensures var e := SuggestNodes(base, task, inputType)[k];
      e in NodesOf(base) && Suggested(task, inputType, e)
  {
    var all := Suggestions(NodesOf(base), task, inputType);
    var e := SuggestNodes(base, task, inputType)[k];
    assert e == all[k];
    SuggestionsIff(NodesOf(base), task, inputType, e);
  }

  /** When at most twenty nodes match, every matching node is suggested. */
  lemma SuggestionsComplete(base: BaseNodesJson, task: Option<string>, inputType: Option<string>,
                            e: (string, NodeDescription))
    requires |Suggestions(NodesOf(base), task, inputType)| <= SUGGEST_LIMIT
    requires e in NodesOf(base) && Suggested(task, inputType, e)
    ensures e in SuggestNodes(base, task, inputType)
  {
    SuggestionsIff(NodesOf(base), task, inputType, e);
  }

  /** The output-type argument is upper-cased first, so its case does not matter. */
  lemma {:induction false} SuggestTypeIgnoresCase(nodes: seq<(string, NodeDescription)>, task: Option<string>, t: string)
    ensures Suggestions(nodes, task, Some(t)) == Suggestions(nodes, task, Some(Upper(t)))
    decreases |nodes|
  {
    if nodes != [] {
      SuggestTypeIgnoresCase(nodes[1..], task, t);
      UpperIdempotent(t);
    }
  }

  /** One line of the answer: class, display name and the first 80 characters of the description. */
  function SuggestionLine(e: (string, NodeDescription)): string
  {
    var d := e.1.description;
    e.0 + ": " + Updater.Shown(e.1.displayName) + " — " +
    Updater.Shown(if d.Some? then Some(if |d.value| <= 80 then d.value else d.value[..80]) else None)
  }

  // ---------------------------------------------------- execute_workflow

  /** The node a parsed entry describes; `nodeDef.inputs ?? {}` reads only an object's own property. */
  function NodeOf(v: Json): DB.NodeDef
  {
    DB.NodeDef(StrProp(v, "class_type").GetOr(""),
               match Prop(v, "inputs") case None => [] case Some(i) => SpreadOf(i))
  }

  /**
   * The graph the server's `validateWorkflow` walks, or `None` where the walk
   * throws a `TypeError`: on a `null` document, and on a `null` node entry
   * whose `inputs` it reads.
   */
  function AsGraph(parsed: Json): (r: Option<DB.Workflow>)
    ensures r.None? <==> parsed.JNull? || JNull in Values(SpreadOf(parsed))
    ensures r.Some? ==> Keys(r.value) == Keys(SpreadOf(parsed))
  {
    if parsed.JNull? || JNull in Values(SpreadOf(parsed)) then None
    else Some(MapValues(SpreadOf(parsed), NodeOf))
  }

  datatype ExecuteOutcome =
    | NotConfigured
    | InvalidJson
    | ValidatorThrows
    | ValidationFailed(errors: seq<DB.ValidationError>)
    | Queued(promptId: string)
    | SubmitFailed(message: string)
  {
    predicate Submitted()
    {
      Queued? || SubmitFailed?
    }
  }

  /**
   * The `execute_workflow` handler: `configured` is whether `COMFYUI_HOST`
   * is set, `parsed` the result of `JSON.parse` (`None` when it throws) and
   * `submit` what `submitPrompt` answers when it is called.
   */
  method ExecuteWorkflow(configured: bool, parsed: Option<Json>, submit: Result<string, string>)
    returns (r: ExecuteOutcome)
    ensures !configured ==> r == NotConfigured
    ensures configured && parsed.None? ==> r == InvalidJson
    ensures configured && parsed.Some? && AsGraph(parsed.value).None? ==> r == ValidatorThrows
    ensures configured && parsed.Some? && AsGraph(parsed.value).Some? && !DB.AllLinksResolve(AsGraph(parsed.value).value) ==>
      r.ValidationFailed?
    ensures r.ValidationFailed? ==>
      parsed.Some? && AsGraph(parsed.value).Some? &&
      r.errors == DB.Errors(AsGraph(parsed.value).value) && r.errors != []
    ensures r.Submitted() <==>
      configured && parsed.Some? && AsGraph(parsed.value).Some? && DB.AllLinksResolve(AsGraph(parsed.value).value)
    ensures r.Submitted() ==> r == if submit.Success? then Queued(submit.value) else SubmitFailed(submit.error)
  {
    if !configured {
      return NotConfigured;
    }
    if parsed.None? {
      return InvalidJson;
    }
    var graph := AsGraph(parsed.value);
    if graph.None? {
      return ValidatorThrows;
    }
    var validation := DB.ValidateGraph(graph.value);
    if !validation.valid {
      return ValidationFailed(validation.errors);
    }
    if submit.Success? {
      r := Queued(submit.value);
    } else {
      r := SubmitFailed(submit.error);
    }
  }

  // -------------------------------------------------- delete_queue_items

  datatype DeleteOutcome = DeleteNotConfigured | NeedIds | Removed(body: Json) | DeleteFailed(message: string)

  /**
   * The `delete_queue_items` handler: with no ids it answers at once and the
   * engine is never contacted; otherwise it posts the `{delete: ids}` body
   * and `engine` is the engine's answer.
   */
  function DeleteQueueItems(configured: bool, promptIds: seq<string>, engine: Result<(), string>): (r: DeleteOutcome)
    ensures !configured ==> r == DeleteNotConfigured
    ensures configured && promptIds == [] ==> r == NeedIds
    ensures r.Removed? ==> configured && engine.Success? && Some(r.body) == CC.DeleteQueueBody(promptIds)
    ensures configured && promptIds != [] ==> (r.Removed? <==> engine.Success?) && (r.DeleteFailed? <==> engine.Failure?)
  {
    if !configured then DeleteNotConfigured
    else if promptIds == [] then NeedIds
    else if engine.Failure? then DeleteFailed(engine.error)
    else Removed(CC.DeleteQueueBody(promptIds).value)
  }
}
