/**
 * The command-line tool's document logic: recognising network errors,
 * `seed` (overwrite from the seed file, or merge it into an existing
 * knowledge base, then refresh the compatibility index from every node) and
 * `sync-manager` (the ComfyUI-Manager list mapped to `custom-nodes.json`).
 * Files are values passed in and returned; the clock is the `today`
 * parameter.
 */
module Cli {
  import opened Wrappers
  import opened Objects
  import opened JsonValues
  import opened Catalog
  import opened Text
  import Updater
  import Scanner
  import CC = ComfyClient
  import Templates

  // --------------------------------------------------------- network errors

  /** The alternatives of the case-insensitive pattern, written in lower case. */
  const NETWORK_ERROR_PATTERNS: seq<string> := ["econnrefused", "enotfound", "etimedout", "fetch failed", "network"]

  /** `isNetworkError`: the message contains one of the alternatives, ignoring case. */
  predicate IsNetworkError(msg: string)
  {
    ContainsAny(Lower(msg), NETWORK_ERROR_PATTERNS)
  }

  /** Upper-casing the message changes nothing. */
  lemma NetworkErrorIgnoresCase(msg: string)
    ensures IsNetworkError(Upper(msg)) <==> IsNetworkError(msg)
  {
    LowerOfUpper(msg);
  }

  /** A refused connection as Node reports it is a network error. */
  lemma RefusedConnectionIsNetworkError()
    ensures IsNetworkError("connect ECONNREFUSED 127.0.0.1:8188")
  {
    var s := "connect ECONNREFUSED 127.0.0.1:8188";
    var m := Lower(s);
    forall k | 0 <= k < 12 ensures m[8 + k] == "econnrefused"[k] {
      assert m[8 + k] == LowerChar(s[8 + k]);
    }
    assert m[8..20] == "econnrefused";
    ContainsAt(m, NETWORK_ERROR_PATTERNS[0], 8);
  }

  // -------------------------------------------------------------- seed merge

  /**
   * The merge loop of `seed`: every seed entry whose key the knowledge base
   * lacks is appended; keys already there keep their description.
   */
  function MergeSeed(base: Obj<NodeDescription>, seed: Obj<NodeDescription>): Obj<NodeDescription>
  {
    if seed == [] then base
    else
      var acc := MergeSeed(base, seed[..|seed| - 1]);
      var e := seed[|seed| - 1];
      if HasKey(acc, e.0) then acc else Set(acc, e.0, e.1)
  }

  /** A key reads from the knowledge base when it had it, and from the seed otherwise. */
  lemma {:induction false} MergeSeedGet(base: Obj<NodeDescription>, seed: Obj<NodeDescription>, k: string)
    ensures Get(MergeSeed(base, seed), k) == if HasKey(base, k) then Get(base, k) else Get(seed, k)
    decreases |seed|
  {
    if seed != [] {
      var init: Obj<NodeDescription> := seed[..|seed| - 1];
      var e := seed[|seed| - 1];
      MergeSeedGet(base, init, k);
      MergeSeedGet(base, init, e.0);
      GetDropLast(seed, k);
      GetDropLast(seed, e.0);
      GetAt(seed, |seed| - 1);
    }
  }

  /** The knowledge base's own entries stay first, in their order, untouched. */
  lemma {:induction false} MergeSeedKeepsBase(base: Obj<NodeDescription>, seed: Obj<NodeDescription>)
    ensures |base| <= |MergeSeed(base, seed)| && MergeSeed(base, seed)[..|base|] == base
    decreases |seed|
  {
    if seed != [] {
      MergeSeedKeepsBase(base, seed[..|seed| - 1]);
    }
  }

  /** How many of `keys` the object lacks. */
  function AbsentCount(keys: seq<string>, o: Obj<NodeDescription>): nat
  {
    if keys == [] then 0
    else AbsentCount(keys[..|keys| - 1], o) + (if HasKey(o, keys[|keys| - 1]) then 0 else 1)
  }

  /** The merge grows the knowledge base by exactly the number of seed keys it lacked. */
  lemma {:induction false} MergeSeedCount(base: Obj<NodeDescription>, seed: Obj<NodeDescription>)
    ensures |MergeSeed(base, seed)| == |base| + AbsentCount(Keys(seed), base)
    decreases |seed|
  {
    if seed != [] {
      var init: Obj<NodeDescription> := seed[..|seed| - 1];
      var e := seed[|seed| - 1];
      MergeSeedCount(base, init);
      assert Keys(seed)[..|seed| - 1] == Keys(init);
      MergeSeedGet(base, init, e.0);
      GetDropLast(seed, e.0);
    }
  }

  /** The loop of `seed` in merge mode, counting what it adds. */
  method MergeSeedLoop(base: Obj<NodeDescription>, seed: Obj<NodeDescription>)
    returns (nodes: Obj<NodeDescription>, added: nat)
    ensures nodes == MergeSeed(base, seed)
    ensures added == AbsentCount(Keys(seed), base) && |nodes| == |base| + added
  {
    nodes := base;
    added := 0;
    var i := 0;
    while i < |seed|
      invariant i <= |seed|
      invariant nodes == MergeSeed(base, seed[..i])
      invariant |nodes| == |base| + added
    {
      var (key, desc) := seed[i];
      assert seed[..i + 1][..i] == seed[..i];
      if !HasKey(nodes, key) {
        nodes := Set(nodes, key, desc);
        added := added + 1;
      }
      i := i + 1;
    }
    assert seed[..i] == seed;
    MergeSeedCount(base, seed);
  }

  /**
   * The loop as written tests `key in base.nodes`, which also holds for the
   * members every object inherits, so a seed node with such a key (say
   * `constructor`) is never added.
   */
  function MergeSeedAsWritten(base: Obj<NodeDescription>, seed: Obj<NodeDescription>): Obj<NodeDescription>
  {
    if seed == [] then base
    else
      var acc := MergeSeedAsWritten(base, seed[..|seed| - 1]);
      var e := seed[|seed| - 1];
      if HasKey(acc, e.0) || e.0 in Templates.OBJECT_PROTOTYPE_MEMBERS then acc else Set(acc, e.0, e.1)
  }

  /** A seed node named `constructor` is lost by the loop as written and kept by the intended merge. */
  lemma InheritedKeySkippedAsWritten(d: NodeDescription)
    ensures var seed: Obj<NodeDescription> := [("constructor", d)];
      MergeSeedAsWritten([], seed) == [] && Get(MergeSeed([], seed), "constructor") == Some(d)
  {
    var seed: Obj<NodeDescription> := [("constructor", d)];
    assert seed[..0] == [];
    MergeSeedGet([], seed, "constructor");
    GetAt(seed, 0);
  }

  // ------------------------------------------------------ compatibility refresh

  /**
   * What the refresh loop leaves: the compatibility file as last written and,
   * when one `updateCompatibility` call threw, its message (the loop stops there).
   */
  datatype RefreshState = RefreshState(written: Option<CompatData>, thrown: Option<string>)

  /** `updateCompatibility` run for every node in order, each run reading what the previous one wrote. */
  function CompatAfterAll(compat: Option<CompatData>, nodes: seq<(string, NodeDescription)>, today: string)
    : (r: RefreshState)
    ensures nodes == [] ==> r == RefreshState(compat, None)
    ensures r.thrown.None? && nodes != [] ==> r.written.Some?
  {
    if nodes == [] then RefreshState(compat, None)
    else
      var before := CompatAfterAll(compat, nodes[..|nodes| - 1], today);
      var last := nodes[|nodes| - 1];
      if before.thrown.Some? then before
      else
        match Updater.UpdatedCompat(before.written, last.0, last.1, today)
        case Success(c) => RefreshState(Some(c), None)
        case Failure(e) => RefreshState(before.written, Some(e))
  }

  /** The refresh runs to the end exactly when no node makes `updateCompatibility` throw. */
  lemma {:induction false} RefreshCompletesIff(compat: Option<CompatData>, nodes: seq<(string, NodeDescription)>,
                                               today: string)
    ensures CompatAfterAll(compat, nodes, today).thrown.None? <==>
      forall i | 0 <= i < |nodes| :: Updater.CompatError(nodes[i].1).None?
    decreases |nodes|
  {
    if nodes != [] {
      var init := nodes[..|nodes| - 1];
      RefreshCompletesIff(compat, init, today);
      assert forall i | 0 <= i < |init| :: init[i] == nodes[i];
    }
  }

  /** Once a call has thrown, no later node is processed: the state is the one the throw left. */
  lemma {:induction false} RefreshStopsAtThrow(compat: Option<CompatData>, nodes: seq<(string, NodeDescription)>,
                                               today: string, k: nat)
    requires k <= |nodes| && CompatAfterAll(compat, nodes[..k], today).thrown.Some?
    ensures CompatAfterAll(compat, nodes, today) == CompatAfterAll(compat, nodes[..k], today)
    decreases |nodes|
  {
    if k < |nodes| {
      var init := nodes[..|nodes| - 1];
      assert init[..k] == nodes[..k];
      RefreshStopsAtThrow(compat, init, today, k);
    } else {
      assert nodes[..k] == nodes;
    }
  }

  /**
   * When node `k` is the first that throws, the file holds what the refresh
   * of the nodes before it wrote, and the message is that node's.
   */
  lemma RefreshFailsAtFirstThrow(compat: Option<CompatData>, nodes: seq<(string, NodeDescription)>,
                                 today: string, k: nat)
    requires k < |nodes| && Updater.CompatError(nodes[k].1).Some?
    requires forall j | 0 <= j < k :: Updater.CompatError(nodes[j].1).None?
    ensures CompatAfterAll(compat, nodes, today) ==
      RefreshState(CompatAfterAll(compat, nodes[..k], today).written, Updater.CompatError(nodes[k].1))
  {
    var pre := nodes[..k + 1];
    assert pre[..k] == nodes[..k];
    assert forall j | 0 <= j < k :: nodes[..k][j] == nodes[j];
    RefreshCompletesIff(compat, nodes[..k], today);
    RefreshStopsAtThrow(compat, nodes, today, k + 1);
  }

  /** After a refresh that did not throw, every node is a producer of each type it returns. */
  lemma {:induction false} RefreshRecordsProducers(compat: Option<CompatData>, nodes: seq<(string, NodeDescription)>,
                                                   today: string, i: nat, t: string)
    requires i < |nodes| && t in Updater.ReturnTypes(nodes[i].1)
    requires CompatAfterAll(compat, nodes, today).thrown.None?
    ensures var e := Get(CompatAfterAll(compat, nodes, today).written.value.dataTypes, t);
      e.Some? && nodes[i].0 in e.value.producers
    decreases |nodes|
  {
    var init := nodes[..|nodes| - 1];
    var last := nodes[|nodes| - 1];
    var before := CompatAfterAll(compat, init, today);
    assert before.thrown.None?;
    var start := before.written.GetOr(Updater.FreshCompat(today));
    var outputs := last.1.compatibleOutputs.GetOr([]);
    if i == |nodes| - 1 {
      Updater.TypesAfterCovers(start.dataTypes, last.0, Updater.ReturnTypes(last.1), outputs, t);
    } else {
      assert nodes[i] == init[i];
      RefreshRecordsProducers(compat, init, today, i, t);
      Updater.TypesAfterExtends(start.dataTypes, last.0, Updater.ReturnTypes(last.1), outputs, t);
      var b := Get(start.dataTypes, t).value;
      var a := Get(CompatAfterAll(compat, nodes, today).written.value.dataTypes, t).value;
      var j :| 0 <= j < |b.producers| && b.producers[j] == nodes[i].0;
      assert a.producers[j] == nodes[i].0;
    }
  }

  /** The refresh loop of `seed`; a throwing call ends it. */
  method RefreshCompatibility(compat: Option<CompatData>, nodes: Obj<NodeDescription>, today: string)
    returns (r: RefreshState)
    ensures r == CompatAfterAll(compat, nodes, today)
  {
    var written := compat;
    var i := 0;
    while i < |nodes|
      invariant i <= |nodes|
      invariant CompatAfterAll(compat, nodes[..i], today) == RefreshState(written, None)
    {
      var (className, desc) := nodes[i];
      assert nodes[..i + 1][..i] == nodes[..i];
      var updated := Updater.UpdateCompatibility(written, className, desc, today);
      if updated.Failure? {
        RefreshStopsAtThrow(compat, nodes, today, i + 1);
        return RefreshState(written, Some(updated.error));
      }
      written := Some(updated.value);
      i := i + 1;
    }
    assert nodes[..i] == nodes;
    r := RefreshState(written, None);
  }

  // -------------------------------------------------------------------- seed

  /** The documents `seed` writes, and the number of merged-in nodes in merge mode. */
  datatype SeedOutcome = SeedOutcome(base: BaseNodesJson, added: Option<nat>, compat: Option<CompatData>)

  /**
   * `RefreshFailed` is the "Seed failed." exit after the knowledge base was
   * written and the refresh threw; `written` is what is on disk by then.
   */
  datatype SeedError =
    | SeedFileMissing
    | SeedCompatFileMissing
    | SeedFailed
    | RefreshFailed(message: string, written: SeedOutcome)

  /** What a `seed` run leaves written, whether it succeeds or its refresh throws. */
  function Written(r: Result<SeedOutcome, SeedError>): Option<SeedOutcome>
  {
    match r
    case Success(o) => Some(o)
    case Failure(RefreshFailed(_, o)) => Some(o)
    case Failure(_) => None
  }

  /** Stamps the metadata with `today` and the node count. */
  function Counted(m: Option<Metadata>, today: string, nodes: Obj<NodeDescription>): (r: Metadata)
    ensures r.lastUpdated == Some(today) && r.totalNodes == Some(|nodes|)
    ensures m.Some? ==> r.version == m.value.version
  {
    Stamped(m, today).(totalNodes := Some(|nodes|))
  }

  /**
   * The `seed` command. `seed` and `seedCompat` are the seed files,
   * `existing` and `compat` the knowledge-base files (each `None` when
   * missing). `--force`, or a missing knowledge base, copies the seed; else
   * the seed is merged in. The compatibility file is copied from the seed on
   * the same condition, and then refreshed from every node.
   */
  method Seed(force: bool, seed: Option<BaseNodesJson>, seedCompat: Option<CompatData>,
              existing: Option<BaseNodesJson>, compat: Option<CompatData>, today: string)
    returns (r: Result<SeedOutcome, SeedError>)
    ensures seed.None? ==> r == Failure(SeedFileMissing)
    ensures seed.Some? && seedCompat.None? ==> r == Failure(SeedCompatFileMissing)
    ensures Written(r).Some? ==>
      var o := Written(r).value;
      o.base.nodes.Some? && o.base.metadata.Some? &&
      o.base.metadata.value.totalNodes == Some(|o.base.nodes.value|) &&
      o.base.metadata.value.lastUpdated == Some(today) &&
      var refresh := CompatAfterAll(if force || compat.None? then seedCompat else compat, o.base.nodes.value, today);
      o.compat == refresh.written &&
      (r.Success? <==> refresh.thrown.None?) &&
      (r.Failure? ==> r.error == RefreshFailed(refresh.thrown.value, o))
    ensures seed.Some? && seedCompat.Some? && (force || existing.None?) ==>
      (Written(r).Some? <==> seed.value.nodes.Some?) && (Written(r).None? ==> r == Failure(SeedFailed)) &&
      (Written(r).Some? ==> Written(r).value.base.nodes == seed.value.nodes && Written(r).value.added.None?)
    ensures seed.Some? && seedCompat.Some? && !force && existing.Some? ==>
      Written(r).Some? &&
      Written(r).value.base.nodes == Some(MergeSeed(NodesOf(existing.value), NodesOf(seed.value))) &&
      Written(r).value.added == Some(AbsentCount(Keys(NodesOf(seed.value)), NodesOf(existing.value)))
  {
    if seed.None? {
      return Failure(SeedFileMissing);
    }
    if seedCompat.None? {
      return Failure(SeedCompatFileMissing);
    }
    var seedData := seed.value;
    var base: BaseNodesJson;
    var added: Option<nat> := None;
    if force || existing.None? {
      if seedData.nodes.None? {
        // `Object.keys(base.nodes)` throws on the missing object.
        return Failure(SeedFailed);
      }
      base := BaseNodesJson(Some(Counted(seedData.metadata, today, seedData.nodes.value)), seedData.nodes);
    } else {
      var b := existing.value;
      var nodes, n := MergeSeedLoop(NodesOf(b), NodesOf(seedData));
      base := BaseNodesJson(Some(Counted(b.metadata, today, nodes)), Some(nodes));
      added := Some(n);
    }
    var c := if force || compat.None? then seedCompat else compat;
    var refresh := RefreshCompatibility(c, base.nodes.value, today);
    var outcome := SeedOutcome(base, added, refresh.written);
    if refresh.thrown.Some? {
      return Failure(RefreshFailed(refresh.thrown.value, outcome));
    }
    r := Success(outcome);
  }

  // ------------------------------------------------------------ sync-manager

  /** One entry of `custom-nodes.json`. */
  datatype CustomPack = CustomPack(name: string, repo: string, author: Option<string>, priority: string,
                                   description: string, keyNodes: seq<string>, useCases: seq<string>)

  datatype PacksMetadata = PacksMetadata(version: string, lastUpdated: string, totalPacks: nat, source: string)

  /** `custom-nodes.json`. */
  datatype CustomNodesJson = CustomNodesJson(metadata: PacksMetadata, packs: seq<CustomPack>)

  const MANAGER_LIST_SOURCE: string := "ComfyUI-Manager custom-node-list"

  /** A Manager entry as a pack, with the defaults for missing fields. */
  function PackOf(c: Scanner.ManagerCustomNode): (p: CustomPack)
    ensures p.name == c.title.GetOr("Unknown") && p.repo == c.reference.GetOr("")
    ensures p.author == c.author && p.description == c.description.GetOr("")
    ensures p.priority == "medium" && p.keyNodes == [] && p.useCases == []
  {
    CustomPack(c.title.GetOr("Unknown"), c.reference.GetOr(""), c.author, "medium",
               c.description.GetOr(""), [], [])
  }

  /**
   * `(list.custom_nodes ?? []).map(...)` on the parsed answer: a missing or
   * `null` list is empty; reading a `null` answer or entry, or mapping
   * anything but an array, throws.
   */
  function ManagerEntries(list: Json): (r: Result<seq<Scanner.ManagerCustomNode>, string>)
    ensures r.Success? <==>
      !list.JNull? && (!Present(Prop(list, "custom_nodes")) ||
                       (Prop(list, "custom_nodes").value.JArr? && JNull !in Prop(list, "custom_nodes").value.items))
    ensures r.Success? && Present(Prop(list, "custom_nodes")) ==>
      var items := Prop(list, "custom_nodes").value.items;
      |r.value| == |items| && forall i | 0 <= i < |items| :: r.value[i] == Scanner.CustomNodeOf(items[i])
    ensures r.Success? && !Present(Prop(list, "custom_nodes")) ==> r.value == []
    ensures list.JNull? ==> r == Failure(NULL_LIST_ERROR)
    ensures !list.JNull? && Present(Prop(list, "custom_nodes")) && !Prop(list, "custom_nodes").value.JArr? ==>
      r == Failure(NOT_MAPPABLE_ERROR)
    ensures var nodes := Prop(list, "custom_nodes");
      !list.JNull? && Present(nodes) && nodes.value.JArr? && JNull in nodes.value.items ==>
        r == Failure(NULL_ENTRY_ERROR)
  {
    if list.JNull? then Failure(NULL_LIST_ERROR)
    else match Prop(list, "custom_nodes")
      case None => Success([])
      case Some(JNull) => Success([])
      case Some(JArr(items)) =>
        if JNull in items then Failure(NULL_ENTRY_ERROR)
        else Success(seq(|items|, i requires 0 <= i < |items| => Scanner.CustomNodeOf(items[i])))
      case Some(_) => Failure(NOT_MAPPABLE_ERROR)
  }

  /** The TypeError reading `custom_nodes` off a `null` answer raises. */
  const NULL_LIST_ERROR: string := "Cannot read properties of null (reading 'custom_nodes')"

  /** The TypeError calling `map` on a `custom_nodes` that is not an array raises. */
  const NOT_MAPPABLE_ERROR: string := "customNodes.map is not a function"

  /** The TypeError reading `title` off a `null` entry raises. */
  const NULL_ENTRY_ERROR: string := "Cannot read properties of null (reading 'title')"

  /** The document `sync-manager` writes: one pack per entry, and their number. */
  function CustomNodesDoc(entries: seq<Scanner.ManagerCustomNode>, today: string): (r: CustomNodesJson)
    ensures |r.packs| == |entries| && r.metadata.totalPacks == |r.packs|
    ensures forall i | 0 <= i < |entries| :: r.packs[i] == PackOf(entries[i])
    ensures r.metadata == PacksMetadata(Updater.INITIAL_VERSION, today, |entries|, MANAGER_LIST_SOURCE)
  {
    var packs := seq(|entries|, i requires 0 <= i < |entries| => PackOf(entries[i]));
    CustomNodesJson(PacksMetadata(Updater.INITIAL_VERSION, today, |packs|, MANAGER_LIST_SOURCE), packs)
  }

  /** How `sync-manager` fails: the list could not be reached, or anything else went wrong. */
  datatype SyncManagerError = ListUnavailable(message: string) | SyncManagerFailed(message: string)

  /** `sync-manager`, given the outcome of the list request. */
  function SyncManager(fetched: Result<CC.HttpResponse, string>, today: string): (r: Result<CustomNodesJson, SyncManagerError>)
    ensures r.Failure? && r.error.ListUnavailable? ==> IsNetworkError(r.error.message)
    ensures r.Failure? && r.error.SyncManagerFailed? ==> !IsNetworkError(r.error.message)
    ensures r.Success? <==>
      Scanner.FetchManagerList(fetched).Success? && ManagerEntries(Scanner.FetchManagerList(fetched).value).Success?
    ensures r.Success? ==>
      r.value == CustomNodesDoc(ManagerEntries(Scanner.FetchManagerList(fetched).value).value, today)
  {
    var failed := (msg: string) => Failure(if IsNetworkError(msg) then ListUnavailable(msg) else SyncManagerFailed(msg));
    match Scanner.FetchManagerList(fetched)
    case Failure(msg) => failed(msg)
    case Success(body) =>
      match ManagerEntries(body)
      case Failure(msg) => failed(msg)
      case Success(entries) => Success(CustomNodesDoc(entries, today))
  }
}
