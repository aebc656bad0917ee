/**
 * The knowledge-base documents and the engine's node catalogue, as the node
 * discovery, the updater, the CLI and the server read them: `base-nodes.json`,
 * `node-compatibility.json` and the `/object_info` answer. Fields the source
 * reads through `?.` or `??` are optional.
 */
module Catalog {
  import opened Wrappers
  import opened Objects
  import opened JsonValues

  /** One declared input of a knowledge-base node: `{type?, default?}`. */
  datatype InputSpec = InputSpec(typeName: Option<string>, default: Option<Json>)

  /** A knowledge-base node description (`NodeDescription`). */
  datatype NodeDescription = NodeDescription(
    displayName: Option<string>,
    category: Option<string>,
    description: Option<string>,
    requiredInputs: Option<Obj<InputSpec>>,
    optionalInputs: Option<Obj<Json>>,
    returnTypes: Option<seq<string>>,
    returnNames: Option<seq<string>>,
    useCases: Option<seq<string>>,
    compatibleOutputs: Option<Obj<seq<string>>>,
    priority: Option<string>)

  datatype Metadata = Metadata(version: Option<string>, lastUpdated: Option<string>, totalNodes: Option<int>)

  /** `base-nodes.json`. */
  datatype BaseNodesJson = BaseNodesJson(metadata: Option<Metadata>, nodes: Option<Obj<NodeDescription>>)

  function NodesOf(base: BaseNodesJson): Obj<NodeDescription>
  {
    base.nodes.GetOr([])
  }

  /** Producers and consumers of one data type in `node-compatibility.json`. */
  datatype TypeEntry = TypeEntry(producers: seq<string>, consumers: seq<string>)

  /** `node-compatibility.json`. */
  datatype CompatData = CompatData(metadata: Option<Metadata>, dataTypes: Obj<TypeEntry>)

  /** One entry of `/object_info` (`ObjectInfoNode`). */
  datatype ObjectInfoNode = ObjectInfoNode(
    required: Option<Obj<Json>>,
    optional: Option<Obj<Json>>,
    output: Option<seq<string>>,
    outputName: Option<seq<string>>,
    category: Option<string>,
    displayName: Option<string>,
    name: Option<string>,
    description: Option<string>)

  type ObjectInfo = Obj<ObjectInfoNode>

  /** `metadata ??= {}` followed by `last_updated = today`. */
  function Stamped(m: Option<Metadata>, today: string): (r: Metadata)
    ensures r.lastUpdated == Some(today)
    ensures m.Some? ==> r.version == m.value.version && r.totalNodes == m.value.totalNodes
    ensures m.None? ==> r.version.None? && r.totalNodes.None?
  {
    match m
    case Some(md) => md.(lastUpdated := Some(today))
    case None => Metadata(None, Some(today), None)
  }
}
