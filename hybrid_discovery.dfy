/**
 * Hybrid node discovery: the engine's live `/object_info` catalogue over the
 * knowledge base. Node lookup prefers the live entry, search merges both with
 * live entries overriding, categories are collected and sorted, and a sync
 * adds to the knowledge base only the live classes it does not know yet.
 * The two loaders are parameters: `fetched` is the outcome of asking the
 * engine, `base` the knowledge base as loaded, `now` the clock.
 */
module Discovery {
  import opened Wrappers
  import opened Objects
  import opened JsonValues
  import opened Catalog
  import Text
  import Updater

  const CACHE_TTL_MS: int := 5 * 60 * 1000
  const UNKNOWN_TYPE: string := "UNKNOWN"
  const UNKNOWN_CATEGORY: string := "unknown"

  datatype Source = Live | Knowledge

  /** `NodeInfo`: the shape both catalogues are normalised to. */
  datatype NodeInfo = NodeInfo(className: string, displayName: string, category: string,
                               description: Option<string>, required: Obj<Json>, optional: Obj<Json>,
                               output: seq<string>, outputName: seq<string>, source: Source)

  // ------------------------------------------------------------ normalising

  /** `normalizeLiveNode(className, raw)`. */
  function NormalizeLiveNode(className: string, raw: ObjectInfoNode): (n: NodeInfo)
    ensures n.className == className && n.source == Live
    ensures n.displayName == (if raw.displayName.Some? then raw.displayName.value
                              else if raw.name.Some? then raw.name.value else className)
    ensures n.category == raw.category.GetOr(UNKNOWN_CATEGORY)
    ensures n.required == raw.required.GetOr([]) && n.optional == raw.optional.GetOr([])
    ensures n.output == raw.output.GetOr([]) && n.outputName == raw.outputName.GetOr([])
  {
    NodeInfo(className,
             if raw.displayName.Some? then raw.displayName.value else raw.name.GetOr(className),
             raw.category.GetOr(UNKNOWN_CATEGORY), raw.description,
             raw.required.GetOr([]), raw.optional.GetOr([]),
             raw.output.GetOr([]), raw.outputName.GetOr([]), Live)
  }

  /** A present, non-null `default`. */
  predicate HasDefault(s: InputSpec)
  {
    s.default.Some? && s.default.value != JNull
  }

  /** A knowledge-base input in the live `[type, config]` shape, or `[]` without a type. */
  function LiveShape(s: InputSpec): (j: Json)
    ensures s.typeName.None? ==> j == JArr([])
    ensures s.typeName.Some? ==> j.JArr? && |j.items| == 2 && j.items[0] == JStr(s.typeName.value)
    ensures s.typeName.Some? && HasDefault(s) ==> j.items[1] == JObj([("default", s.default.value)])
    ensures s.typeName.Some? && !HasDefault(s) ==> j.items[1] == JObj([])
  {
    match s.typeName
    case None => JArr([])
    case Some(t) => JArr([JStr(t), if HasDefault(s) then JObj([("default", s.default.value)]) else JObj([])])
  }

  /** `normalizeKnowledgeNode(className, desc)`. */
  function NormalizeKnowledgeNode(className: string, desc: NodeDescription): (n: NodeInfo)
    ensures n.className == className && n.source == Knowledge
    ensures n.displayName == desc.displayName.GetOr(className)
    ensures n.category == desc.category.GetOr(UNKNOWN_CATEGORY)
    ensures Keys(n.required) == Keys(desc.requiredInputs.GetOr([]))
    ensures n.optional == desc.optionalInputs.GetOr([])
    ensures n.output == desc.returnTypes.GetOr([]) && n.outputName == desc.returnNames.GetOr([])
  {
    NodeInfo(className, desc.displayName.GetOr(className), desc.category.GetOr(UNKNOWN_CATEGORY),
             desc.description, MapValues(desc.requiredInputs.GetOr([]), LiveShape),
             desc.optionalInputs.GetOr([]), desc.returnTypes.GetOr([]), desc.returnNames.GetOr([]), Knowledge)
  }

  /** `inputTypeOf(value)`: the head of a `[type, ...]` array, a plain type string, or `UNKNOWN`. */
  function InputTypeOf(v: Json): (t: string)
    ensures v.JStr? ==> t == v.s
    ensures v.JArr? && |v.items| > 0 && v.items[0].JStr? ==> t == v.items[0].s
    ensures !v.JStr? && !(v.JArr? && |v.items| > 0 && v.items[0].JStr?) ==> t == UNKNOWN_TYPE
  {
    match v
    case JArr(items) => if |items| > 0 && items[0].JStr? then items[0].s else UNKNOWN_TYPE
    case JStr(s) => s
    case _ => UNKNOWN_TYPE
  }

  /** Normalising a knowledge-base node keeps each required input's declared type readable. */
  lemma KnowledgeInputTypes(className: string, desc: NodeDescription, i: nat)
    requires i < |desc.requiredInputs.GetOr([])|
    ensures var spec := desc.requiredInputs.GetOr([])[i].1;
      var n := NormalizeKnowledgeNode(className, desc);
      n.required[i].0 == desc.requiredInputs.GetOr([])[i].0 &&
      InputTypeOf(n.required[i].1) == spec.typeName.GetOr(UNKNOWN_TYPE)
  {
  }

  // ------------------------------------------------------------- matching

  datatype NodeFilters = NodeFilters(category: Option<string>, inputType: Option<string>, outputType: Option<string>)

  /** A filter field that is set and non-empty. */
  predicate Active(f: Option<string>)
  {
    f.Some? && f.value != ""
  }

  /** The input types of a node, required first, then optional. */
  function InputTypes(info: NodeInfo): (ts: seq<string>)
    ensures |ts| == |info.required| + |info.optional|
  {
    seq(|info.required|, i requires 0 <= i < |info.required| => InputTypeOf(info.required[i].1))
      + seq(|info.optional|, i requires 0 <= i < |info.optional| => InputTypeOf(info.optional[i].1))
  }

  predicate SameUpper(a: string, b: string)
  {
    Text.Upper(a) == Text.Upper(b)
  }

  /** `nodeMatchesFilters(info, filters)`. */
  predicate NodeMatchesFilters(info: NodeInfo, filters: Option<NodeFilters>)
  {
    filters.None? ||
    ((!Active(filters.value.category) || info.category == filters.value.category.value) &&
     (!Active(filters.value.inputType) ||
       exists i | 0 <= i < |InputTypes(info)| :: SameUpper(InputTypes(info)[i], filters.value.inputType.value)) &&
     (!Active(filters.value.outputType) ||
       exists i | 0 <= i < |info.output| :: SameUpper(info.output[i], filters.value.outputType.value)))
  }

  /** Absent or empty filters let every node through. */
  lemma EmptyFiltersMatch(info: NodeInfo, filters: Option<NodeFilters>)
    requires filters.Some? ==> !Active(filters.value.category) && !Active(filters.value.inputType)
                               && !Active(filters.value.outputType)
    ensures NodeMatchesFilters(info, filters)
  {
  }

  /** Type filters ignore case: upper-casing a filter value changes nothing. */
  lemma TypeFiltersIgnoreCase(info: NodeInfo, category: Option<string>, inputType: string, outputType: string)
    ensures NodeMatchesFilters(info, Some(NodeFilters(category, Some(inputType), Some(outputType)))) ==
            NodeMatchesFilters(info, Some(NodeFilters(category, Some(Text.Upper(inputType)), Some(Text.Upper(outputType)))))
  {
    Text.UpperIdempotent(inputType);
    Text.UpperIdempotent(outputType);
    assert inputType != "" <==> Text.Upper(inputType) != "";
    assert outputType != "" <==> Text.Upper(outputType) != "";
  }

  /** The lower-cased, trimmed query. */
  function NormalQuery(query: string): string
  {
    Text.Trim(Text.Lower(query))
  }

  /** `nodeMatchesQuery(info, query)`. */
  predicate NodeMatchesQuery(info: NodeInfo, query: string)
  {
    Text.Trim(query) == "" ||
    Text.Contains(Text.Lower(info.className), NormalQuery(query)) ||
    Text.Contains(Text.Lower(info.displayName), NormalQuery(query)) ||
    Text.Contains(Text.Lower(info.description.GetOr("")), NormalQuery(query)) ||
    Text.Contains(Text.Lower(info.category), NormalQuery(query))
  }

  lemma LowerKeepsSpaces(s: string)
    ensures forall i | 0 <= i < |s| :: Text.IsSpace(Text.Lower(s)[i]) == Text.IsSpace(s[i])
  {
  }

  /** A blank query matches every node. */
  lemma BlankQueryMatches(info: NodeInfo, query: string)
    requires forall i | 0 <= i < |query| :: Text.IsSpace(query[i])
    ensures NodeMatchesQuery(info, query)
  {
    Text.TrimEmptyIffBlank(query);
  }

  /** Query matching ignores case. */
  lemma QueryIgnoresCase(info: NodeInfo, query: string)
    ensures NodeMatchesQuery(info, query) == NodeMatchesQuery(info, Text.Lower(query))
  {
    Text.LowerIdempotent(query);
    LowerKeepsSpaces(query);
    Text.TrimEmptyIffBlank(query);
    Text.TrimEmptyIffBlank(Text.Lower(query));
  }

  // ------------------------------------------------------------- lookups

  datatype LiveCache = LiveCache(data: ObjectInfo, expires: int)

  predicate Fresh(cache: Option<LiveCache>, now: int)
  {
    cache.Some? && cache.value.expires > now
  }

  /** What `getLiveObjectInfo` returns: the cache while fresh, else the fetch, `null` on failure. */
  function LiveView(cache: Option<LiveCache>, now: int, fetched: Result<ObjectInfo, string>): (r: Option<ObjectInfo>)
    ensures Fresh(cache, now) ==> r == Some(cache.value.data)
    ensures !Fresh(cache, now) ==> (r.Some? <==> fetched.Success?)
    ensures !Fresh(cache, now) && fetched.Success? ==> r == Some(fetched.value)
  {
    if Fresh(cache, now) then Some(cache.value.data)
    else if fetched.Success? then Some(fetched.value) else None
  }

  /** The cache after `getLiveObjectInfo`: refilled for five minutes after a fetch, unchanged otherwise. */
  function CacheAfter(cache: Option<LiveCache>, now: int, fetched: Result<ObjectInfo, string>): (c: Option<LiveCache>)
    ensures Fresh(cache, now) || fetched.Failure? ==> c == cache
    ensures !Fresh(cache, now) && fetched.Success? ==> c == Some(LiveCache(fetched.value, now + CACHE_TTL_MS))
  {
    if Fresh(cache, now) then cache
    else if fetched.Success? then Some(LiveCache(fetched.value, now + CACHE_TTL_MS)) else cache
  }

  /** A fetched catalogue is served, without fetching, for the next five minutes. */
  lemma RefilledCacheServes(cache: Option<LiveCache>, now: int, data: ObjectInfo, later: int,
                            fetched: Result<ObjectInfo, string>)
    requires !Fresh(cache, now) && now <= later < now + CACHE_TTL_MS
    ensures LiveView(CacheAfter(cache, now, Success(data)), later, fetched) == Some(data)
    ensures CacheAfter(CacheAfter(cache, now, Success(data)), later, fetched) == CacheAfter(cache, now, Success(data))
  {
  }

  /** `getNode(className)`: the live entry, else the knowledge-base one, else `null`. */
  function NodeLookup(live: Option<ObjectInfo>, base: BaseNodesJson, className: string): (r: Option<NodeInfo>)
    ensures r.Some? ==> r.value.className == className
    ensures live.Some? && HasKey(live.value, className) ==>
      r == Some(NormalizeLiveNode(className, Get(live.value, className).value))
    ensures !(live.Some? && HasKey(live.value, className)) ==>
      (r.Some? <==> HasKey(NodesOf(base), className)) &&
      (r.Some? ==> r == Some(NormalizeKnowledgeNode(className, Get(NodesOf(base), className).value)))
  {
    if live.Some? && Get(live.value, className).Some? then
      Some(NormalizeLiveNode(className, Get(live.value, className).value))
    else if Get(NodesOf(base), className).Some? then
      Some(NormalizeKnowledgeNode(className, Get(NodesOf(base), className).value))
    else None
  }

  // --------------------------------------------------------------- search

  function KnowledgeInfos(nodes: Obj<NodeDescription>): (r: Obj<NodeInfo>)
    ensures Keys(r) == Keys(nodes)
    ensures forall i | 0 <= i < |nodes| :: r[i].1 == NormalizeKnowledgeNode(nodes[i].0, nodes[i].1)
  {
    var r := seq(|nodes|, i requires 0 <= i < |nodes| => (nodes[i].0, NormalizeKnowledgeNode(nodes[i].0, nodes[i].1)));
    assert Keys(r) == Keys(nodes);
    r
  }

  function LiveInfos(live: ObjectInfo): (r: Obj<NodeInfo>)
    ensures Keys(r) == Keys(live)
    ensures forall i | 0 <= i < |live| :: r[i].1 == NormalizeLiveNode(live[i].0, live[i].1)
  {
    var r := seq(|live|, i requires 0 <= i < |live| => (live[i].0, NormalizeLiveNode(live[i].0, live[i].1)));
    assert Keys(r) == Keys(live);
    r
  }

  /** The `byClass` map: knowledge-base entries set first, then live entries over them. */
  function Merged(base: BaseNodesJson, live: Option<ObjectInfo>): Obj<NodeInfo>
  {
    Spread(KnowledgeInfos(NodesOf(base)), LiveInfos(live.GetOr([])))
  }

  /** Entry `i`'s key, read back. */
  lemma KeyLookup<V>(o: Obj<V>, i: nat)
    requires i < |o|
    ensures HasKey(o, o[i].0) && Get(o, o[i].0) == Some(o[i].1)
  {
    GetAt(o, i);
  }

  /** The merged entry for a class is the live one when the engine lists it, the knowledge one otherwise. */
  lemma MergedEntry(base: BaseNodesJson, live: Option<ObjectInfo>, k: string)
    ensures live.Some? && HasKey(live.value, k) ==>
      Get(Merged(base, live), k) == Some(NormalizeLiveNode(k, Get(live.value, k).value))
    ensures !(live.Some? && HasKey(live.value, k)) && HasKey(NodesOf(base), k) ==>
      Get(Merged(base, live), k) == Some(NormalizeKnowledgeNode(k, Get(NodesOf(base), k).value))
    ensures !(live.Some? && HasKey(live.value, k)) && !HasKey(NodesOf(base), k) ==>
      Get(Merged(base, live), k).None?
  {
    var kn := KnowledgeInfos(NodesOf(base));
    var li := LiveInfos(live.GetOr([]));
    SpreadGet(kn, li, k);
    HasKeyInKeys(li, k);
    HasKeyInKeys(live.GetOr([]), k);
    HasKeyInKeys(kn, k);
    HasKeyInKeys(NodesOf(base), k);
    if HasKey(li, k) {
      var i := IndexOf(li, k);
      KeyLookup(li, i);
      KeyLookup(live.value, i);
    } else if HasKey(kn, k) {
      var i := IndexOf(kn, k);
      KeyLookup(kn, i);
      KeyLookup(NodesOf(base), i);
    }
  }

  /** Every merged entry is stored under its own class name. */
  lemma MergedNamesKeys(base: BaseNodesJson, live: Option<ObjectInfo>, i: nat)
    requires i < |Merged(base, live)|
    ensures Merged(base, live)[i].1.className == Merged(base, live)[i].0
  {
    var m := Merged(base, live);
    var k := m[i].0;
    KeyLookup(m, i);
    MergedEntry(base, live, k);
  }

  /** `list.filter(p)`. */
  function Filter<T>(list: seq<T>, p: T -> bool): (r: seq<T>)
    ensures forall x | x in r :: x in list && p(x)
    ensures forall x | x in list && p(x) :: x in r
  {
    if list == [] then []
    else
      var rest := Filter(list[1..], p);
      assert forall x | x in list :: x == list[0] || x in list[1..];
      if p(list[0]) then [list[0]] + rest else rest
  }

  /** Filtering keeps order, so a list without repeated keys stays that way. */
  lemma {:induction false} FilterKeepsDistinct<T>(list: seq<T>, p: T -> bool, key: T -> string)
    requires forall i, j | 0 <= i < j < |list| :: key(list[i]) != key(list[j])
    ensures forall i, j | 0 <= i < j < |Filter(list, p)| :: key(Filter(list, p)[i]) != key(Filter(list, p)[j])
    decreases |list|
  {
    if list != [] {
      var rest := Filter(list[1..], p);
      FilterKeepsDistinct(list[1..], p, key);
      if p(list[0]) {
        forall x | x in rest ensures key(x) != key(list[0]) {
          var k :| 0 <= k < |list[1..]| && list[1..][k] == x;
          assert list[k + 1] == x;
        }
        var r := Filter(list, p);
        assert r == [list[0]] + rest;
        forall i, j | 0 <= i < j < |r| ensures key(r[i]) != key(r[j]) {
          if i == 0 {
            assert r[j] == rest[j - 1];
            assert rest[j - 1] in rest;
          } else {
            assert r[i] == rest[i - 1];
            assert r[j] == rest[j - 1];
          }
        }
      }
    }
  }

  /**
   * The `searchNodes` filters: the query one runs only for a non-blank query
   * and the filter one only when filters are given, and neither would drop
   * anything otherwise (`BlankQueryMatches`, `EmptyFiltersMatch`).
   */
  predicate Selected(x: NodeInfo, query: string, filters: Option<NodeFilters>)
  {
    NodeMatchesQuery(x, query) && NodeMatchesFilters(x, filters)
  }

  function SelectedBy(query: string, filters: Option<NodeFilters>): NodeInfo -> bool
  {
    (x: NodeInfo) => Selected(x, query, filters)
  }

  function ClassNameOf(x: NodeInfo): string
  {
    x.className
  }

  /** What `searchNodes(query, filters)` returns, given the live catalogue it saw. */
  function SearchResult(live: Option<ObjectInfo>, base: BaseNodesJson, query: string,
                        filters: Option<NodeFilters>): seq<NodeInfo>
  {
    Filter(Values(Merged(base, live)), SelectedBy(query, filters))
  }

  /** At most one result per class name. */
  lemma SearchOnePerClass(live: Option<ObjectInfo>, base: BaseNodesJson, query: string, filters: Option<NodeFilters>)
    ensures var r := SearchResult(live, base, query, filters);
      forall i, j | 0 <= i < j < |r| :: r[i].className != r[j].className
  {
    var m := Merged(base, live);
    var vs := Values(m);
    forall i | 0 <= i < |vs| ensures ClassNameOf(vs[i]) == m[i].0 {
      MergedNamesKeys(base, live, i);
    }
    FilterKeepsDistinct(vs, SelectedBy(query, filters), ClassNameOf);
  }

  /**
   * Every result is the live entry for its class when the engine lists the
   * class, and the knowledge-base entry otherwise; and every matching class
   * of either catalogue is in the result.
   */
  lemma SearchLiveOverrides(live: Option<ObjectInfo>, base: BaseNodesJson, query: string,
                            filters: Option<NodeFilters>, x: NodeInfo)
    requires x in SearchResult(live, base, query, filters)
    ensures live.Some? && HasKey(live.value, x.className) ==>
      x == NormalizeLiveNode(x.className, Get(live.value, x.className).value)
    ensures !(live.Some? && HasKey(live.value, x.className)) ==>
      HasKey(NodesOf(base), x.className) && x == NormalizeKnowledgeNode(x.className, Get(NodesOf(base), x.className).value)
  {
    var m := Merged(base, live);
    var i :| 0 <= i < |m| && Values(m)[i] == x;
    MergedNamesKeys(base, live, i);
    KeyLookup(m, i);
    MergedEntry(base, live, x.className);
  }

  lemma SearchComplete(live: Option<ObjectInfo>, base: BaseNodesJson, query: string,
                       filters: Option<NodeFilters>, k: string)
    requires Get(Merged(base, live), k).Some?
    requires NodeMatchesQuery(Get(Merged(base, live), k).value, query)
    requires NodeMatchesFilters(Get(Merged(base, live), k).value, filters)
    ensures Get(Merged(base, live), k).value in SearchResult(live, base, query, filters)
  {
    var m := Merged(base, live);
    var i := IndexOf(m, k);
    KeyLookup(m, i);
    assert Values(m)[i] == Get(m, k).value;
  }

  /** Spreading onto an empty object rebuilds the object. */
  lemma {:induction false} SpreadOntoEmpty<V>(o: Obj<V>)
    ensures Spread([], o) == o
    decreases |o|
  {
    if o != [] {
      var init: Obj<V> := o[..|o| - 1];
      SpreadOntoEmpty(init);
      HasKeyInKeys(init, o[|o| - 1].0);
      assert init + [o[|o| - 1]] == o;
    }
  }

  /** The two `byClass.set` loops of `searchNodes`: knowledge-base entries, then live ones. */
  method MergeCatalog(base: BaseNodesJson, live: Option<ObjectInfo>) returns (byClass: Obj<NodeInfo>)
    ensures byClass == Merged(base, live)
  {
    var kn := KnowledgeInfos(NodesOf(base));
    byClass := SetEach([], kn);
    SpreadOntoEmpty(kn);
    byClass := SetEach(byClass, LiveInfos(live.GetOr([])));
  }

  // ----------------------------------------------------------- categories

  /** A non-empty category of a knowledge-base or live node. */
  predicate IsCategory(base: BaseNodesJson, live: Option<ObjectInfo>, c: string)
  {
    c != "" &&
    ((exists i | 0 <= i < |NodesOf(base)| :: NodesOf(base)[i].1.category == Some(c)) ||
     (exists i | 0 <= i < |live.GetOr([])| :: live.GetOr([])[i].1.category == Some(c)))
  }

  /** `set.add(c)`. */
  function SetAdd(cats: seq<string>, c: string): (r: seq<string>)
    requires Text.Distinct(cats)
    ensures Text.Distinct(r) && forall x :: x in r <==> x in cats || x == c
  {
    if c in cats then cats else cats + [c]
  }

  /** `listNodeCategories()`: the two loops filling a cats, then the sort. */
  method CollectCategories(base: BaseNodesJson, live: Option<ObjectInfo>) returns (r: seq<string>)
    ensures Text.Sorted(r) && Text.Distinct(r)
    ensures forall c :: c in r <==> IsCategory(base, live, c)
  {
    var cats: seq<string> := [];
    var nodes := NodesOf(base);
    var i := 0;
    while i < |nodes|
      invariant i <= |nodes| && Text.Distinct(cats)
      invariant forall c :: c in cats <==> c != "" && exists k | 0 <= k < i :: nodes[k].1.category == Some(c)
    {
      var cat := nodes[i].1.category;
      if cat.Some? && cat.value != "" {
        cats := SetAdd(cats, cat.value);
      }
      i := i + 1;
    }
    var entries := live.GetOr([]);
    var j := 0;
    while j < |entries|
      invariant j <= |entries| && Text.Distinct(cats)
      invariant forall c :: c in cats <==>
        c != "" && ((exists k | 0 <= k < |nodes| :: nodes[k].1.category == Some(c)) ||
                    (exists k | 0 <= k < j :: entries[k].1.category == Some(c)))
    {
      var cat := entries[j].1.category;
      if cat.Some? && cat.value != "" {
        cats := SetAdd(cats, cat.value);
      }
      j := j + 1;
    }
    r := Text.SortStrings(cats);
    Text.PermutationDistinct(cats, r);
    assert forall c :: c in r <==> c in cats by {
      forall c ensures c in r <==> c in cats {
        assert c in r <==> c in multiset(r);
        assert c in cats <==> c in multiset(cats);
      }
    }
  }

  /** Sorted without repeats means strictly increasing. */
  lemma CategoriesStrictlyIncreasing(r: seq<string>)
    requires Text.Sorted(r) && Text.Distinct(r)
    ensures forall i, j | 0 <= i < j < |r| :: Text.Lte(r[i], r[j]) && !Text.Lte(r[j], r[i])
  {
    Text.SortedDistinctStrict(r);
  }

  // ----------------------------------------------------------------- sync

  /** `objectInfoToNodeDescription(className, raw)`: a minimal knowledge-base description. */
  function DescriptionOf(className: string, raw: ObjectInfoNode): (d: NodeDescription)
    ensures d.displayName == Some(if raw.displayName.Some? then raw.displayName.value
                                  else if raw.name.Some? then raw.name.value else className)
    ensures d.category == Some(raw.category.GetOr(UNKNOWN_CATEGORY))
    ensures d.description == Some(raw.description.GetOr("Node " + className))
    ensures d.returnTypes == Some(raw.output.GetOr([])) && d.returnNames == Some(raw.outputName.GetOr([]))
    ensures d.compatibleOutputs.Some? && d.compatibleOutputs.value == [] && d.priority == Some("low")
    ensures d.requiredInputs.Some? && Keys(d.requiredInputs.value) == Keys(raw.required.GetOr([]))
    ensures forall i | 0 <= i < |raw.required.GetOr([])| ::
      d.requiredInputs.value[i].1.typeName == Some(InputTypeOf(raw.required.GetOr([])[i].1))
    ensures forall i | 0 <= i < |raw.required.GetOr([])| ::
      d.requiredInputs.value[i].1.default == DefaultOf(raw.required.GetOr([])[i].1)
    ensures d.optionalInputs.Some? && Keys(d.optionalInputs.value) == Keys(raw.optional.GetOr([]))
    ensures forall i | 0 <= i < |raw.optional.GetOr([])| ::
      var v := raw.optional.GetOr([])[i].1;
      d.optionalInputs.value[i].1 ==
        JObj([("type", JStr(InputTypeOf(v)))] + if DefaultOf(v).Some? then [("default", DefaultOf(v).value)] else [])
  {
    NodeDescription(
      Some(if raw.displayName.Some? then raw.displayName.value else raw.name.GetOr(className)),
      Some(raw.category.GetOr(UNKNOWN_CATEGORY)),
      Some(raw.description.GetOr("Node " + className)),
      Some(MapValues(raw.required.GetOr([]), SpecOf)),
      Some(MapValues(raw.optional.GetOr([]), (v: Json) => SpecJson(SpecOf(v)))),
      Some(raw.output.GetOr([])), Some(raw.outputName.GetOr([])),
      Some([]), Some(NoOutputs()), Some("low"))
  }

  function NoOutputs(): Obj<seq<string>>
  {
    []
  }

  /** `value[1].default` when `value` is `[type, {default, ...}, ...]`. */
  function DefaultOf(v: Json): Option<Json>
  {
    if v.JArr? && |v.items| > 1 && v.items[1].JObj? && Get(v.items[1].fields, "default").Some?
    then Get(v.items[1].fields, "default") else None
  }

  function SpecOf(v: Json): InputSpec
  {
    InputSpec(Some(InputTypeOf(v)), DefaultOf(v))
  }

  /** An optional input spec, stored as the JSON object the file holds. */
  function SpecJson(s: InputSpec): Json
  {
    JObj([("type", JStr(s.typeName.GetOr(UNKNOWN_TYPE)))] +
         (if s.default.Some? then [("default", s.default.value)] else []))
  }

  datatype SyncResult = SyncResult(added: seq<string>, skipped: nat, errors: seq<string>)

  /** The state the sync loop threads: its result so far and the two documents. */
  datatype SyncState = SyncState(result: SyncResult, kb: Option<BaseNodesJson>, compat: Option<CompatData>)

  /** One pass of the sync loop over a live class. */
  function SyncStep(s: SyncState, existing: seq<string>, className: string, raw: ObjectInfoNode, today: string)
    : SyncState
  {
    if className in existing then s.(result := s.result.(skipped := s.result.skipped + 1))
    else
      var desc := DescriptionOf(className, raw);
      match Updater.AddNode(s.kb, className, desc, today)
      case Failure(msg) => s.(result := s.result.(errors := s.result.errors + [className + ": " + msg]))
      case Success(kb') =>
        match Updater.UpdatedCompat(s.compat, className, desc, today)
        case Failure(msg) =>
          SyncState(s.result.(errors := s.result.errors + [className + ": " + msg]), Some(kb'), s.compat)
        case Success(c) => SyncState(s.result.(added := s.result.added + [className]), Some(kb'), Some(c))
  }

  function SyncFold(s: SyncState, existing: seq<string>, entries: seq<(string, ObjectInfoNode)>, today: string)
    : SyncState
  {
    if entries == [] then s
    else
      var last := entries[|entries| - 1];
      SyncStep(SyncFold(s, existing, entries[..|entries| - 1], today), existing, last.0, last.1, today)
  }

  const FETCH_FAILED_MESSAGE: string := "Failed to fetch /object_info"

  /** What a rejected fetch threw: an `Error` with its message, or some other value. */
  datatype Thrown = ErrorThrown(message: string) | OtherThrown

  /** `e instanceof Error ? e.message : 'Failed to fetch /object_info'`. */
  function FetchErrorText(t: Thrown): (r: string)
    ensures t.ErrorThrown? ==> r == t.message
    ensures t.OtherThrown? ==> r == FETCH_FAILED_MESSAGE
  {
    match t
    case ErrorThrown(m) => m
    case OtherThrown => FETCH_FAILED_MESSAGE
  }

  /** The classes the engine lists that the knowledge base lacks, in order. */
  function NewClasses(keys: seq<string>, existing: seq<string>): (r: seq<string>)
    ensures forall c | c in r :: c in keys && c !in existing
  {
    if keys == [] then []
    else
      var init := NewClasses(keys[..|keys| - 1], existing);
      var k := keys[|keys| - 1];
      assert forall c | c in keys[..|keys| - 1] :: c in keys;
      if k in existing then init else init + [k]
  }

  /** How many of `keys` are in `existing`. */
  function CountIn(keys: seq<string>, existing: seq<string>): nat
  {
    if keys == [] then 0
    else CountIn(keys[..|keys| - 1], existing) + (if keys[|keys| - 1] in existing then 1 else 0)
  }

  /** One pass skips a known class, and otherwise either adds it or records one error. */
  lemma SyncStepAccounts(mid: SyncState, existing: seq<string>, className: string, raw: ObjectInfoNode, today: string)
    ensures var f := SyncStep(mid, existing, className, raw, today);
      f.result.skipped == mid.result.skipped + (if className in existing then 1 else 0) &&
      (f.result.added == mid.result.added ||
       (className !in existing && f.result.added == mid.result.added + [className])) &&
      |f.result.added| + |f.result.errors| ==
        |mid.result.added| + |mid.result.errors| + (if className in existing then 0 else 1)
  {
  }

  lemma NewClassesStep(keys: seq<string>, existing: seq<string>)
    requires keys != []
    ensures |NewClasses(keys, existing)| ==
      |NewClasses(keys[..|keys| - 1], existing)| + (if keys[|keys| - 1] in existing then 0 else 1)
  {
  }

  lemma KeysInit(entries: seq<(string, ObjectInfoNode)>)
    requires entries != []
    ensures Keys(entries)[..|Keys(entries)| - 1] == Keys(entries[..|entries| - 1])
    ensures Keys(entries)[|Keys(entries)| - 1] == entries[|entries| - 1].0
    ensures forall c | c in Keys(entries[..|entries| - 1]) :: c in Keys(entries)
  {
    assert Keys(entries) == Keys(entries[..|entries| - 1]) + [entries[|entries| - 1].0];
  }

  /** The sync skips and counts every class already known. */
  lemma {:induction false} SyncFoldSkips(s: SyncState, existing: seq<string>,
                                         entries: seq<(string, ObjectInfoNode)>, today: string)
    ensures SyncFold(s, existing, entries, today).result.skipped ==
      s.result.skipped + CountIn(Keys(entries), existing)
    decreases |entries|
  {
    if entries != [] {
      var init := entries[..|entries| - 1];
      var last := entries[|entries| - 1];
      SyncFoldSkips(s, existing, init, today);
      KeysInit(entries);
      SyncStepAccounts(SyncFold(s, existing, init, today), existing, last.0, last.1, today);
    }
  }

  /** Folding one more entry is one more step. */
  lemma SyncFoldSnoc(s: SyncState, existing: seq<string>, entries: seq<(string, ObjectInfoNode)>, i: nat, today: string)
    requires i < |entries|
    ensures SyncFold(s, existing, entries[..i + 1], today) ==
      SyncStep(SyncFold(s, existing, entries[..i], today), existing, entries[i].0, entries[i].1, today)
  {
    assert entries[..i + 1][..i] == entries[..i];
  }

  /** Every element of `t` is one of `keys` and not in `existing`. */
  predicate AllNew(t: seq<string>, keys: seq<string>, existing: seq<string>)
  {
    forall c | c in t :: c in keys && c !in existing
  }

  /** One pass appends at most its own class, and only a new one. */
  lemma SyncStepAddsOnlyNew(mid: SyncState, existing: seq<string>, className: string, raw: ObjectInfoNode, today: string)
    ensures var f := SyncStep(mid, existing, className, raw, today);
      IsPrefixOf(mid.result.added, f.result.added) &&
      AllNew(f.result.added[|mid.result.added|..], [className], existing)
  {
    SyncStepAccounts(mid, existing, className, raw, today);
    var f := SyncStep(mid, existing, className, raw, today);
    if f.result.added != mid.result.added {
      assert f.result.added[|mid.result.added|..] == [className];
    }
  }

  lemma PrefixChain(a: seq<string>, b: seq<string>, c: seq<string>,
                    small: seq<string>, extra: seq<string>, keys: seq<string>, existing: seq<string>)
    requires IsPrefixOf(a, b) && IsPrefixOf(b, c)
    requires AllNew(b[|a|..], small, existing) && AllNew(c[|b|..], extra, existing)
    requires forall x | x in small :: x in keys
    requires forall x | x in extra :: x in keys
    ensures IsPrefixOf(a, c) && AllNew(c[|a|..], keys, existing)
  {
    assert c[..|b|] == b;
    assert c[|a|..] == b[|a|..] + c[|b|..];
  }

  /** The sync only appends to `added`, and only classes it lists that are not already known. */
  lemma {:induction false} SyncFoldAddsOnlyNew(s: SyncState, existing: seq<string>,
                                               entries: seq<(string, ObjectInfoNode)>, today: string)
    ensures var f := SyncFold(s, existing, entries, today);
      IsPrefixOf(s.result.added, f.result.added) &&
      AllNew(f.result.added[|s.result.added|..], Keys(entries), existing)
    decreases |entries|
  {
    if entries == [] {
      assert s.result.added[|s.result.added|..] == [];
    } else {
      var init := entries[..|entries| - 1];
      var last := entries[|entries| - 1];
      SyncFoldAddsOnlyNew(s, existing, init, today);
      KeysInit(entries);
      var mid := SyncFold(s, existing, init, today);
      SyncStepAddsOnlyNew(mid, existing, last.0, last.1, today);
      PrefixChain(s.result.added, mid.result.added, SyncFold(s, existing, entries, today).result.added,
                  Keys(init), [last.0], Keys(entries), existing);
    }
  }

  /** Every class the knowledge base lacks is either added or reported as an error, once. */
  lemma {:induction false} SyncFoldTotals(s: SyncState, existing: seq<string>,
                                          entries: seq<(string, ObjectInfoNode)>, today: string)
    ensures var f := SyncFold(s, existing, entries, today);
      |f.result.added| + |f.result.errors| ==
        |s.result.added| + |s.result.errors| + |NewClasses(Keys(entries), existing)|
    decreases |entries|
  {
    if entries != [] {
      var init := entries[..|entries| - 1];
      var last := entries[|entries| - 1];
      SyncFoldTotals(s, existing, init, today);
      KeysInit(entries);
      NewClassesStep(Keys(entries), existing);
      SyncStepAccounts(SyncFold(s, existing, init, today), existing, last.0, last.1, today);
    }
  }

  predicate IsPrefixOf(a: seq<string>, b: seq<string>)
  {
    |a| <= |b| && b[..|a|] == a
  }

  /** With a knowledge-base file that has a `nodes` object (or none at all), nothing fails and the new classes are exactly the ones added. */
  lemma {:induction false} SyncFoldAddsNew(s: SyncState, existing: seq<string>,
                                           entries: seq<(string, ObjectInfoNode)>, today: string)
    requires s.kb.None? || s.kb.value.nodes.Some?
    ensures var f := SyncFold(s, existing, entries, today);
      (f.kb.None? || f.kb.value.nodes.Some?) && f.result.errors == s.result.errors &&
      f.result.added == s.result.added + NewClasses(Keys(entries), existing)
    decreases |entries|
  {
    if entries != [] {
      var init := entries[..|entries| - 1];
      SyncFoldAddsNew(s, existing, init, today);
      assert Keys(entries)[..|Keys(entries)| - 1] == Keys(init);
    }
  }

  // ---------------------------------------------------------------- class

  /** `HybridNodeDiscovery`, with its live-catalogue cache. */
  class HybridNodeDiscovery {
    var liveCache: Option<LiveCache>

    constructor ()
      ensures liveCache.None?
    {
      liveCache := None;
    }

    /** `invalidateCache()`. */
    method InvalidateCache()
      modifies this
      ensures liveCache.None?
    {
      liveCache := None;
    }

    /** `getLiveObjectInfo()`. */
    method GetLiveObjectInfo(now: int, fetched: Result<ObjectInfo, string>) returns (r: Option<ObjectInfo>)
      modifies this
      ensures r == LiveView(old(liveCache), now, fetched)
      ensures liveCache == CacheAfter(old(liveCache), now, fetched)
    {
      if liveCache.Some? && liveCache.value.expires > now {
        return Some(liveCache.value.data);
      }
      match fetched
      case Success(data) =>
        liveCache := Some(LiveCache(data, now + CACHE_TTL_MS));
        r := Some(data);
      case Failure(_) =>
        r := None;
    }

    /** `getNode(className)`. */
    method GetNode(className: string, now: int, fetched: Result<ObjectInfo, string>, base: BaseNodesJson)
      returns (r: Option<NodeInfo>)
      modifies this
      ensures r == NodeLookup(LiveView(old(liveCache), now, fetched), base, className)
      ensures liveCache == CacheAfter(old(liveCache), now, fetched)
    {
      var live := GetLiveObjectInfo(now, fetched);
      if live.Some? && Get(live.value, className).Some? {
        return Some(NormalizeLiveNode(className, Get(live.value, className).value));
      }
      var desc := Get(NodesOf(base), className);
      if desc.Some? {
        return Some(NormalizeKnowledgeNode(className, desc.value));
      }
      r := None;
    }

    /** `searchNodes(query, filters)`. */
    method SearchNodes(query: string, filters: Option<NodeFilters>, now: int,
                       fetched: Result<ObjectInfo, string>, base: BaseNodesJson)
      returns (r: seq<NodeInfo>)
      modifies this
      ensures r == SearchResult(LiveView(old(liveCache), now, fetched), base, query, filters)
      ensures liveCache == CacheAfter(old(liveCache), now, fetched)
    {
      var live := GetLiveObjectInfo(now, fetched);
      var byClass := MergeCatalog(base, live);
      r := Filter(Values(byClass), SelectedBy(query, filters));
    }

    /** `listNodeCategories()`. */
    method ListNodeCategories(now: int, fetched: Result<ObjectInfo, string>, base: BaseNodesJson)
      returns (r: seq<string>)
      modifies this
      ensures Text.Sorted(r) && Text.Distinct(r)
      ensures forall c :: c in r <==> IsCategory(base, LiveView(old(liveCache), now, fetched), c)
      ensures liveCache == CacheAfter(old(liveCache), now, fetched)
    {
      var live := GetLiveObjectInfo(now, fetched);
      r := CollectCategories(base, live);
    }

    /**
     * `syncToKnowledgeBase()`: `fetched` is a direct `/object_info` request
     * (the cache is not consulted), `base` the loaded knowledge base that
     * decides what exists, and `kb`/`compat` the two files the updater
     * rewrites. A failed fetch reports only the error and keeps the cache.
     */
    method SyncToKnowledgeBase(fetched: Result<ObjectInfo, Thrown>, base: BaseNodesJson,
                               kb: Option<BaseNodesJson>, compat: Option<CompatData>, today: string)
      returns (result: SyncResult, kb': Option<BaseNodesJson>, compat': Option<CompatData>)
      modifies this
      ensures fetched.Failure? ==>
        result == SyncResult([], 0, [FetchErrorText(fetched.error)]) && kb' == kb && compat' == compat &&
        liveCache == old(liveCache)
      ensures fetched.Success? ==>
        SyncState(result, kb', compat') ==
          SyncFold(SyncState(SyncResult([], 0, []), kb, compat), Keys(NodesOf(base)), fetched.value, today) &&
        liveCache.None?
    {
      if fetched.Failure? {
        return SyncResult([], 0, [FetchErrorText(fetched.error)]), kb, compat;
      }
      var live := fetched.value;
      var existing := Keys(NodesOf(base));
      var added: seq<string> := [];
      var skipped: nat := 0;
      var errors: seq<string> := [];
      kb', compat' := kb, compat;
      var i := 0;
      while i < |live|
        invariant i <= |live|
        invariant SyncState(SyncResult(added, skipped, errors), kb', compat') ==
          SyncFold(SyncState(SyncResult([], 0, []), kb, compat), existing, live[..i], today)
      {
        var (className, raw) := live[i];
        ghost var mid := SyncState(SyncResult(added, skipped, errors), kb', compat');
        SyncFoldSnoc(SyncState(SyncResult([], 0, []), kb, compat), existing, live, i, today);
        if className in existing {
          skipped := skipped + 1;
        } else {
          var desc := DescriptionOf(className, raw);
          var written := Updater.AddNode(kb', className, desc, today);
          if written.Failure? {
            errors := errors + [className + ": " + written.error];
          } else {
            kb' := Some(written.value);
            var c := Updater.UpdateCompatibility(compat', className, desc, today);
            // A minimal description lists its return types and an empty
            // `compatible_outputs`, so the updater never throws here.
            assert c.Success?;
            compat' := Some(c.value);
            added := added + [className];
          }
        }
        assert SyncState(SyncResult(added, skipped, errors), kb', compat') == SyncStep(mid, existing, className, raw, today);
        i := i + 1;
      }
      assert live[..i] == live;
      result := SyncResult(added, skipped, errors);
      InvalidateCache();
    }
  }
}
