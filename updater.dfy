/**
 * The knowledge-base updater: the document changes `addNode`,
 * `updateCompatibility` and `generateChangelog` make. A document is the
 * parsed file (absent when the file does not exist); the result is what is
 * written back. `today` stands for the ISO date the source reads from the clock.
 */
module Updater {
  import opened Wrappers
  import opened Objects
  import opened Catalog
  import Text

  const INITIAL_VERSION: string := "1.0.0"

  /** The message of the TypeError that assigning `kb.nodes[className]` raises on a document without `nodes`. */
  function NodesMissingError(className: string): string
  {
    "Cannot set properties of undefined (setting '" + className + "')"
  }

  // ---------------------------------------------------------------- addNode

  /**
   * `addNode(className, description)`: a missing file starts a document with
   * just that node; otherwise the node is assigned and `total_nodes` recounted.
   */
  function AddNode(kb: Option<BaseNodesJson>, className: string, desc: NodeDescription, today: string)
    : (r: Result<BaseNodesJson, string>)
    ensures kb.None? ==>
      r == Success(BaseNodesJson(Some(Metadata(Some(INITIAL_VERSION), Some(today), Some(1))), Some([(className, desc)])))
    ensures kb.Some? && kb.value.nodes.None? ==> r == Failure(NodesMissingError(className))
    ensures kb.Some? && kb.value.nodes.Some? ==>
      r.Success? && r.value.nodes.Some? &&
      Get(r.value.nodes.value, className) == Some(desc) &&
      (forall k | k != className :: Get(r.value.nodes.value, k) == Get(kb.value.nodes.value, k)) &&
      r.value.metadata == Some(Stamped(kb.value.metadata, today).(totalNodes := Some(|r.value.nodes.value|)))
  {
    match kb
    case None =>
      Success(BaseNodesJson(Some(Metadata(Some(INITIAL_VERSION), Some(today), Some(1))), Some([(className, desc)])))
    case Some(data) =>
      match data.nodes
      case None => Failure(NodesMissingError(className))
      case Some(nodes) =>
        var nodes' := Set(nodes, className, desc);
        Success(BaseNodesJson(Some(Stamped(data.metadata, today).(totalNodes := Some(|nodes'|))), Some(nodes')))
  }

  /** `total_nodes` is the number of node keys after every successful `addNode`. */
  predicate CountConsistent(b: BaseNodesJson)
  {
    b.nodes.Some? && b.metadata.Some? && b.metadata.value.totalNodes == Some(|Keys(b.nodes.value)|)
  }

  lemma AddNodeCounts(kb: Option<BaseNodesJson>, className: string, desc: NodeDescription, today: string)
    requires AddNode(kb, className, desc, today).Success?
    ensures CountConsistent(AddNode(kb, className, desc, today).value)
    ensures kb.Some? && HasKey(kb.value.nodes.value, className) ==>
      AddNode(kb, className, desc, today).value.metadata.value.totalNodes == Some(|kb.value.nodes.value|)
    ensures kb.Some? && !HasKey(kb.value.nodes.value, className) ==>
      AddNode(kb, className, desc, today).value.metadata.value.totalNodes == Some(|kb.value.nodes.value| + 1)
  {
    if kb.Some? {
      var nodes := kb.value.nodes.value;
      assert HasKey(nodes, className) ==> |Keys(Set(nodes, className, desc))| == |Keys(nodes)|;
    }
  }

  // --------------------------------------------------- updateCompatibility

  /** `if (!list.includes(x)) list.push(x)`. */
  function AddUnique(xs: seq<string>, x: string): seq<string>
  {
    if x in xs then xs else xs + [x]
  }

  /** Each of `cs`, in order, appended when absent. */
  function AddAllUnique(xs: seq<string>, cs: seq<string>): seq<string>
  {
    if cs == [] then xs else AddUnique(AddAllUnique(xs, cs[..|cs| - 1]), cs[|cs| - 1])
  }

  predicate IsPrefix(a: seq<string>, b: seq<string>)
  {
    |a| <= |b| && b[..|a|] == a
  }

  /** Appending the absent ones keeps the old list as a prefix, adds every one of `cs`, and adds nothing else. */
  lemma {:induction false} AddAllUniqueFacts(xs: seq<string>, cs: seq<string>)
    ensures IsPrefix(xs, AddAllUnique(xs, cs))
    ensures forall c | c in cs :: c in AddAllUnique(xs, cs)
    ensures forall c | c in AddAllUnique(xs, cs) :: c in xs || c in cs
    ensures Text.Distinct(xs) ==> Text.Distinct(AddAllUnique(xs, cs))
    decreases |cs|
  {
    if cs != [] {
      var init := cs[..|cs| - 1];
      AddAllUniqueFacts(xs, init);
      var mid := AddAllUnique(xs, init);
      assert mid[..|xs|] == xs;
      assert AddUnique(mid, cs[|cs| - 1])[..|xs|] == xs;
      assert forall c | c in init :: c in cs;
    }
  }

  function EntryOrEmpty(dt: Obj<TypeEntry>, t: string): TypeEntry
  {
    Get(dt, t).GetOr(TypeEntry([], []))
  }

  /** The entry of one return type after the producer and its consumers are recorded. */
  function UpdatedEntry(e: TypeEntry, nodeClass: string, consumers: seq<string>): TypeEntry
  {
    TypeEntry(AddUnique(e.producers, nodeClass), AddAllUnique(e.consumers, consumers))
  }

  /** `data_types` after the loop body ran for each of `returnTypes`, in order. */
  function TypesAfter(dt: Obj<TypeEntry>, nodeClass: string, returnTypes: seq<string>,
                      compatible: Obj<seq<string>>): Obj<TypeEntry>
  {
    if returnTypes == [] then dt
    else
      var cur := TypesAfter(dt, nodeClass, returnTypes[..|returnTypes| - 1], compatible);
      var t := returnTypes[|returnTypes| - 1];
      Set(cur, t, UpdatedEntry(EntryOrEmpty(cur, t), nodeClass, Get(compatible, t).GetOr([])))
  }

  /** Data types the node does not return are left as they were. */
  lemma {:induction false} TypesAfterUntouched(dt: Obj<TypeEntry>, nodeClass: string, returnTypes: seq<string>,
                                               compatible: Obj<seq<string>>, t: string)
    requires t !in returnTypes
    ensures Get(TypesAfter(dt, nodeClass, returnTypes, compatible), t) == Get(dt, t)
    decreases |returnTypes|
  {
    if returnTypes != [] {
      TypesAfterUntouched(dt, nodeClass, returnTypes[..|returnTypes| - 1], compatible, t);
    }
  }

  /** Entries only grow: an existing entry keeps its producers and consumers as prefixes. */
  lemma {:induction false} TypesAfterExtends(dt: Obj<TypeEntry>, nodeClass: string, returnTypes: seq<string>,
                                             compatible: Obj<seq<string>>, t: string)
    requires Get(dt, t).Some?
    ensures var r := Get(TypesAfter(dt, nodeClass, returnTypes, compatible), t);
      r.Some? && IsPrefix(Get(dt, t).value.producers, r.value.producers) &&
      IsPrefix(Get(dt, t).value.consumers, r.value.consumers)
    decreases |returnTypes|
  {
    if returnTypes != [] {
      var init := returnTypes[..|returnTypes| - 1];
      TypesAfterExtends(dt, nodeClass, init, compatible, t);
      var cur := TypesAfter(dt, nodeClass, init, compatible);
      var last := returnTypes[|returnTypes| - 1];
      if last == t {
        var e := EntryOrEmpty(cur, t);
        AddAllUniqueFacts(e.consumers, Get(compatible, t).GetOr([]));
        assert AddUnique(e.producers, nodeClass)[..|e.producers|] == e.producers;
      }
    }
  }

  /**
   * Every return type has an entry afterwards, the node is among its
   * producers, and every consumer listed for that type is among its consumers.
   */
  lemma {:induction false} TypesAfterCovers(dt: Obj<TypeEntry>, nodeClass: string, returnTypes: seq<string>,
                                            compatible: Obj<seq<string>>, t: string)
    requires t in returnTypes
    ensures var r := Get(TypesAfter(dt, nodeClass, returnTypes, compatible), t);
      r.Some? && nodeClass in r.value.producers &&
      forall c | c in Get(compatible, t).GetOr([]) :: c in r.value.consumers
    decreases |returnTypes|
  {
    var init := returnTypes[..|returnTypes| - 1];
    var cur := TypesAfter(dt, nodeClass, init, compatible);
    var last := returnTypes[|returnTypes| - 1];
    var e := EntryOrEmpty(cur, last);
    if last == t {
      AddAllUniqueFacts(e.consumers, Get(compatible, t).GetOr([]));
    } else {
      assert t in init;
      TypesAfterCovers(dt, nodeClass, init, compatible, t);
      TypesAfterExtends(cur, nodeClass, [last], compatible, t);
      assert TypesAfter(cur, nodeClass, [last], compatible) == TypesAfter(dt, nodeClass, returnTypes, compatible) by {
        assert [last][..0] == [];
      }
      var before := Get(cur, t).value;
      var after := Get(TypesAfter(dt, nodeClass, returnTypes, compatible), t).value;
      assert after.producers[..|before.producers|] == before.producers;
      assert after.consumers[..|before.consumers|] == before.consumers;
      forall c | c in Get(compatible, t).GetOr([]) ensures c in after.consumers {
        var i :| 0 <= i < |before.consumers| && before.consumers[i] == c;
        assert after.consumers[i] == c;
      }
      var i :| 0 <= i < |before.producers| && before.producers[i] == nodeClass;
      assert after.producers[i] == nodeClass;
    }
  }

  predicate EntryDistinct(e: TypeEntry)
  {
    Text.Distinct(e.producers) && Text.Distinct(e.consumers)
  }

  /** No producer and no consumer list ever gains a duplicate, so the node is listed exactly once. */
  lemma {:induction false} TypesAfterDistinct(dt: Obj<TypeEntry>, nodeClass: string, returnTypes: seq<string>,
                                              compatible: Obj<seq<string>>, t: string)
    requires forall k | Get(dt, k).Some? :: EntryDistinct(Get(dt, k).value)
    ensures var r := Get(TypesAfter(dt, nodeClass, returnTypes, compatible), t);
      r.Some? ==> EntryDistinct(r.value)
    decreases |returnTypes|
  {
    if returnTypes != [] {
      var init := returnTypes[..|returnTypes| - 1];
      var cur := TypesAfter(dt, nodeClass, init, compatible);
      var last := returnTypes[|returnTypes| - 1];
      if last == t {
        var e := EntryOrEmpty(cur, t);
        if Get(cur, t).Some? {
          TypesAfterDistinct(dt, nodeClass, init, compatible, t);
        }
        AddAllUniqueFacts(e.consumers, Get(compatible, t).GetOr([]));
        AddAllUniqueFacts(e.producers, [nodeClass]);
        assert AddAllUnique(e.producers, [nodeClass]) == AddUnique(e.producers, nodeClass) by {
          assert [nodeClass][..0] == [];
        }
      } else {
        TypesAfterDistinct(dt, nodeClass, init, compatible, t);
      }
    }
  }

  function ReturnTypes(desc: NodeDescription): seq<string>
  {
    desc.returnTypes.GetOr([])
  }

  /** The TypeError `for (const returnType of desc.return_types)` raises when the list is missing. */
  const RETURN_TYPES_NOT_ITERABLE: string := "desc.return_types is not iterable"

  /** The TypeError reading `desc.compatible_outputs[t]` raises when the object is missing. */
  function OutputsMissingError(t: string): string
  {
    "Cannot read properties of undefined (reading '" + t + "')"
  }

  /**
   * The message `updateCompatibility` throws with on `desc`, if any: a
   * missing `return_types`, or a missing `compatible_outputs` once the first
   * return type is looked up in it.
   */
  function CompatError(desc: NodeDescription): Option<string>
  {
    if desc.returnTypes.None? then Some(RETURN_TYPES_NOT_ITERABLE)
    else if desc.returnTypes.value != [] && desc.compatibleOutputs.None? then
      Some(OutputsMissingError(desc.returnTypes.value[0]))
    else None
  }

  /** The empty document a missing file starts from. */
  function FreshCompat(today: string): CompatData
  {
    CompatData(Some(Metadata(Some(INITIAL_VERSION), Some(today), None)), [])
  }

  /**
   * The document `updateCompatibility` writes (a missing file starts from an
   * empty one), or the message it throws with before writing anything.
   */
  function UpdatedCompat(compat: Option<CompatData>, nodeClass: string, desc: NodeDescription, today: string)
    : (r: Result<CompatData, string>)
    ensures r.Failure? <==> CompatError(desc).Some?
    ensures r.Failure? ==> r.error == CompatError(desc).value
  {
    if CompatError(desc).Some? then Failure(CompatError(desc).value)
    else
      var start := compat.GetOr(FreshCompat(today));
      Success(CompatData(Some(Stamped(start.metadata, today)),
                         TypesAfter(start.dataTypes, nodeClass, ReturnTypes(desc), desc.compatibleOutputs.GetOr([]))))
  }

  /**
   * A successful update stamps the metadata, lists the node as a producer of
   * each type it returns together with that type's consumers, leaves every
   * other type as it was, and adds no duplicate.
   */
  lemma UpdatedCompatRecords(compat: Option<CompatData>, nodeClass: string, desc: NodeDescription, today: string,
                             t: string)
    requires UpdatedCompat(compat, nodeClass, desc, today).Success?
    ensures var r := UpdatedCompat(compat, nodeClass, desc, today).value;
      r.metadata.Some? && r.metadata.value.lastUpdated == Some(today)
    ensures var r := UpdatedCompat(compat, nodeClass, desc, today).value;
      t in ReturnTypes(desc) ==>
        Get(r.dataTypes, t).Some? && nodeClass in Get(r.dataTypes, t).value.producers &&
        forall c | c in Get(desc.compatibleOutputs.GetOr([]), t).GetOr([]) :: c in Get(r.dataTypes, t).value.consumers
    ensures var r := UpdatedCompat(compat, nodeClass, desc, today).value;
      t !in ReturnTypes(desc) ==> Get(r.dataTypes, t) == Get(compat.GetOr(FreshCompat(today)).dataTypes, t)
    ensures var r := UpdatedCompat(compat, nodeClass, desc, today).value;
      var dt := compat.GetOr(FreshCompat(today)).dataTypes;
      (forall k | Get(dt, k).Some? :: EntryDistinct(Get(dt, k).value)) && Get(r.dataTypes, t).Some? ==>
        EntryDistinct(Get(r.dataTypes, t).value)
  {
    var start := compat.GetOr(FreshCompat(today));
    var outputs := desc.compatibleOutputs.GetOr([]);
    if t in ReturnTypes(desc) {
      TypesAfterCovers(start.dataTypes, nodeClass, ReturnTypes(desc), outputs, t);
    } else {
      TypesAfterUntouched(start.dataTypes, nodeClass, ReturnTypes(desc), outputs, t);
    }
    if forall k | Get(start.dataTypes, k).Some? :: EntryDistinct(Get(start.dataTypes, k).value) {
      TypesAfterDistinct(start.dataTypes, nodeClass, ReturnTypes(desc), outputs, t);
    }
  }

  /** The inner loop: each consumer pushed unless already listed. */
  method AppendAbsent(listed: seq<string>, consumers: seq<string>) returns (r: seq<string>)
    ensures r == AddAllUnique(listed, consumers)
  {
    r := listed;
    var j := 0;
    while j < |consumers|
      invariant j <= |consumers|
      invariant r == AddAllUnique(listed, consumers[..j])
    {
      if consumers[j] !in r {
        r := r + [consumers[j]];
      }
      assert consumers[..j + 1][..j] == consumers[..j];
      j := j + 1;
    }
    assert consumers[..j] == consumers;
  }

  /** One pass of the outer loop body, for one return type. */
  method RecordReturnType(dt: Obj<TypeEntry>, nodeClass: string, returnType: string, compatible: Obj<seq<string>>)
    returns (r: Obj<TypeEntry>)
    ensures r == Set(dt, returnType, UpdatedEntry(EntryOrEmpty(dt, returnType), nodeClass,
                                                  Get(compatible, returnType).GetOr([])))
  {
    var entry := EntryOrEmpty(dt, returnType);
    var producers := entry.producers;
    if nodeClass !in producers {
      producers := producers + [nodeClass];
    }
    var consumers := AppendAbsent(entry.consumers, Get(compatible, returnType).GetOr([]));
    r := Set(dt, returnType, TypeEntry(producers, consumers));
  }

  /**
   * `updateCompatibility(nodeClass, desc)`: the nested loops over return
   * types and their consumers. It throws, writing nothing, when the return
   * types are missing, or when they are not empty and `compatible_outputs` is.
   */
  method UpdateCompatibility(compat: Option<CompatData>, nodeClass: string, desc: NodeDescription, today: string)
    returns (r: Result<CompatData, string>)
    ensures r.Failure? <==>
      desc.returnTypes.None? || (desc.returnTypes.value != [] && desc.compatibleOutputs.None?)
    ensures r == UpdatedCompat(compat, nodeClass, desc, today)
  {
    var data := if compat.Some? then compat.value else FreshCompat(today);
    if desc.returnTypes.None? {
      return Failure(RETURN_TYPES_NOT_ITERABLE);
    }
    var types := desc.returnTypes.value;
    var dt := data.dataTypes;
    var i := 0;
    while i < |types|
      invariant i <= |types|
      invariant desc.compatibleOutputs.None? ==> i == 0
      invariant dt == TypesAfter(data.dataTypes, nodeClass, types[..i], desc.compatibleOutputs.GetOr([]))
    {
      if desc.compatibleOutputs.None? {
        assert CompatError(desc) == Some(OutputsMissingError(types[i]));
        return Failure(OutputsMissingError(types[i]));
      }
      dt := RecordReturnType(dt, nodeClass, types[i], desc.compatibleOutputs.value);
      assert types[..i + 1][..i] == types[..i];
      i := i + 1;
    }
    assert types[..i] == types;
    assert CompatError(desc).None?;
    r := Success(CompatData(Some(Stamped(data.metadata, today)), dt));
  }

  // ------------------------------------------------------ generateChangelog

  const CHANGELOG_HEADER: string := "# Changelog\n"

  /** A template-string field: an absent value prints as `undefined`. */
  function Shown(s: Option<string>): string
  {
    s.GetOr("undefined")
  }

  /** One changelog line, `- **<class>** — <name>: <description>`, with an em dash. */
  function ChangelogLine(className: string, desc: NodeDescription): string
  {
    "- **" + className + "** \U{2014} " + Shown(desc.displayName) + ": " + Shown(desc.description)
  }

  /**
   * The line as the template literal is written: the em dash's UTF-8 bytes
   * read back as Windows-1252, the three characters U+00E2 U+20AC U+201D.
   */
  function ChangelogLineAsWritten(className: string, desc: NodeDescription): string
  {
    "- **" + className + "** \U{E2}\U{20AC}\U{201D} " + Shown(desc.displayName) + ": " + Shown(desc.description)
  }

  /** Where the intended line has its em dash, the line as written has `â€”` instead. */
  lemma ChangelogDashGarbled(className: string, desc: NodeDescription)
    ensures var at := |className| + 7;
      ChangelogLine(className, desc)[at] == '\U{2014}' &&
      ChangelogLineAsWritten(className, desc)[at..at + 3] == "\U{E2}\U{20AC}\U{201D}" &&
      ChangelogLineAsWritten(className, desc) != ChangelogLine(className, desc)
  {
    var at := |className| + 7;
    var good := ChangelogLine(className, desc);
    var bad := ChangelogLineAsWritten(className, desc);
    assert good[at] == '\U{2014}';
    assert bad[at] == '\U{E2}';
  }

  function ChangelogLines(newNodes: seq<(string, NodeDescription)>, today: string): (lines: seq<string>)
    ensures |lines| == |newNodes| + 5
    ensures lines[..4] == ["", "## " + today, "", "### Added nodes"] && lines[|lines| - 1] == ""
    ensures forall i | 0 <= i < |newNodes| :: lines[4 + i] == ChangelogLine(newNodes[i].0, newNodes[i].1)
  {
    ["", "## " + today, "", "### Added nodes"]
      + seq(|newNodes|, i requires 0 <= i < |newNodes| => ChangelogLine(newNodes[i].0, newNodes[i].1))
      + [""]
  }

  /** `generateChangelog(newNodes)`: the text written to `CHANGELOG.md`, or nothing for no nodes. */
  function GenerateChangelog(newNodes: seq<(string, NodeDescription)>, existing: Option<string>, today: string)
    : (r: Option<string>)
    ensures r.None? <==> newNodes == []
    ensures r.Some? ==> Text.StartsWith(r.value, existing.GetOr(CHANGELOG_HEADER))
  {
    if newNodes == [] then None
    else
      var prior := existing.GetOr(CHANGELOG_HEADER);
      var text := prior + Text.Join(ChangelogLines(newNodes, today), "\n");
      assert text[..|prior|] == prior;
      Some(text)
  }

  /** Every new node gets its line, after the text that was there already. */
  lemma ChangelogMentionsEach(newNodes: seq<(string, NodeDescription)>, existing: Option<string>,
                              today: string, i: nat)
    requires i < |newNodes|
    ensures var r := GenerateChangelog(newNodes, existing, today);
      r.Some? && Text.Contains(r.value[|existing.GetOr(CHANGELOG_HEADER)|..], ChangelogLine(newNodes[i].0, newNodes[i].1))
  {
    var prior := existing.GetOr(CHANGELOG_HEADER);
    var lines := ChangelogLines(newNodes, today);
    Text.JoinContains(lines, "\n", 4 + i);
    var r := GenerateChangelog(newNodes, existing, today).value;
    assert r[|prior|..] == Text.Join(lines, "\n");
  }
}
