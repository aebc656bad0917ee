/**
 * The in-memory store of workflow contexts: id -> context, kept in a
 * `Map`, with time-to-live eviction that happens only when `cleanup(now)`
 * is called. A module-level store is created on first use.
 */
module Store {
  import opened Wrappers
  import opened Objects
  import DynamicBuilder

  type Context = DynamicBuilder.WorkflowContext

  /** Thirty minutes. */
  const DEFAULT_TTL_MS: int := 30 * 60 * 1000

  /** `cleanup` keeps a context unless `now - createdAt > ttl`; an age equal to the ttl is kept. */
  predicate Alive(c: Context, now: int, ttl: int)
  {
    now - c.createdAt <= ttl
  }

  /** The entries `cleanup(now)` leaves, in their original order. */
  function Retained(cs: seq<(string, Context)>, now: int, ttl: int): seq<(string, Context)>
  {
    if cs == [] then []
    else
      var init, last := cs[..|cs| - 1], cs[|cs| - 1];
      Retained(init, now, ttl) + (if Alive(last.1, now, ttl) then [last] else [])
  }

  /** Cleanup keeps exactly the live entries and no others. */
  lemma {:induction false} RetainedMembers(cs: seq<(string, Context)>, now: int, ttl: int)
    ensures forall e | e in Retained(cs, now, ttl) :: e in cs && Alive(e.1, now, ttl)
    ensures forall e | e in cs && Alive(e.1, now, ttl) :: e in Retained(cs, now, ttl)
    ensures DistinctKeys(cs) ==> DistinctKeys(Retained(cs, now, ttl))
  {
    if cs != [] {
      var init, last := cs[..|cs| - 1], cs[|cs| - 1];
      RetainedMembers(init, now, ttl);
      var kept := Retained(init, now, ttl);
      assert cs == init + [last];
      if DistinctKeys(cs) {
        forall e | e in kept ensures e.0 != last.0 {
          var k :| 0 <= k < |init| && init[k] == e;
        }
      }
    }
  }

  /** A lookup result as `cleanup(now)` leaves it. */
  function AfterCleanup(c: Option<Context>, now: int, ttl: int): Option<Context>
  {
    if c.Some? && Alive(c.value, now, ttl) then c else None
  }

  /** One iteration of the cleanup walk: entry `i` of the snapshot sits at position `j` and is dropped or kept. */
  lemma CleanupStep(snapshot: seq<(string, Context)>, cur: seq<(string, Context)>, i: nat, j: nat, now: int, ttl: int)
    requires i < |snapshot|
    requires cur == Retained(snapshot[..i], now, ttl) + snapshot[i..]
    requires j == |Retained(snapshot[..i], now, ttl)|
    ensures j < |cur| && cur[j] == snapshot[i]
    ensures !Alive(snapshot[i].1, now, ttl) ==>
      cur[..j] + cur[j + 1..] == Retained(snapshot[..i + 1], now, ttl) + snapshot[i + 1..] &&
      j == |Retained(snapshot[..i + 1], now, ttl)|
    ensures Alive(snapshot[i].1, now, ttl) ==>
      cur == Retained(snapshot[..i + 1], now, ttl) + snapshot[i + 1..] &&
      j + 1 == |Retained(snapshot[..i + 1], now, ttl)|
  {
    assert snapshot[..i + 1][..i] == snapshot[..i];
    var kept := Retained(snapshot[..i], now, ttl);
    assert snapshot[i..] == [snapshot[i]] + snapshot[i + 1..];
    assert cur[..j] == kept && cur[j + 1..] == snapshot[i + 1..];
    if Alive(snapshot[i].1, now, ttl) {
      assert cur == (kept + [snapshot[i]]) + snapshot[i + 1..];
    }
  }

  /** What `get(id)` sees after `cleanup(now)`: the same context if it is alive, nothing otherwise. */
  lemma RetainedLookup(cs: Obj<Context>, now: int, ttl: int, id: string)
    ensures DistinctKeys(Retained(cs, now, ttl))
    ensures var r: Obj<Context> := Retained(cs, now, ttl);
      Get(r, id) == AfterCleanup(Get(cs, id), now, ttl)
  {
    RetainedMembers(cs, now, ttl);
    var r: Obj<Context> := Retained(cs, now, ttl);
    if Get(r, id).Some? {
      var i :| 0 <= i < |r| && r[i] == (id, Get(r, id).value);
      assert r[i] in cs;
      var k :| 0 <= k < |cs| && cs[k] == r[i];
      GetAt(cs, k);
    }
  }

  lemma RetainedLookups(cs: Obj<Context>, r: Obj<Context>, now: int, ttl: int)
    requires r == Retained(cs, now, ttl)
    ensures forall k :: Get(r, k) == AfterCleanup(Get(cs, k), now, ttl)
  {
    forall k ensures Get(r, k) == AfterCleanup(Get(cs, k), now, ttl) {
      RetainedLookup(cs, now, ttl, k);
    }
  }

  class WorkflowStore {
    var contexts: Obj<Context>
    const ttl: int

    /** `new WorkflowStore(ttlMs?)`: empty, with the default ttl when none is given. */
    constructor (ttlMs: Option<int>)
      ensures ttl == ttlMs.GetOr(DEFAULT_TTL_MS)
      ensures contexts == []
    {
      ttl := ttlMs.GetOr(DEFAULT_TTL_MS);
      contexts := [];
    }

    /** `get(id)`: a read; it never evicts. */
    function Lookup(id: string): Option<Context>
      reads this
    {
      Get(contexts, id)
    }

    /** `create()`: a new empty context stored under its own id. */
    method Create(stamp: string, now: int) returns (id: string)
      modifies this
      ensures id == "wf_" + stamp
      ensures Lookup(id).Some? && fresh(Lookup(id).value)
      ensures Lookup(id).value.id == id && Lookup(id).value.createdAt == now
      ensures Lookup(id).value.workflow == [] && Lookup(id).value.nodeCounter == 0
      ensures contexts == Set(old(contexts), id, Lookup(id).value)
      ensures forall k | k != id :: Lookup(k) == old(Lookup(k))
    {
      var ctx := DynamicBuilder.CreateWorkflow(stamp, now);
      contexts := Set(contexts, ctx.id, ctx);
      id := ctx.id;
    }

    /** `update(id, ctx)`: `get(id)` returns ctx afterwards; other ids are untouched. */
    method Update(id: string, ctx: Context)
      modifies this
      ensures contexts == Set(old(contexts), id, ctx)
      ensures Lookup(id) == Some(ctx)
      ensures forall k | k != id :: Lookup(k) == old(Lookup(k))
    {
      contexts := Set(contexts, id, ctx);
    }

    /** `delete(id)`: removes that id only. */
    method Delete(id: string)
      modifies this
      ensures contexts == Objects.Delete(old(contexts), id)
      ensures Lookup(id) == None
      ensures forall k | k != id :: Lookup(k) == old(Lookup(k))
    {
      contexts := Objects.Delete(contexts, id);
    }

    /** `cleanup(now)`: walks the entries and deletes each expired one as it goes. */
    method Cleanup(now: int)
      modifies this
      ensures contexts[..] == Retained(old(contexts), now, ttl)
      ensures forall k :: Lookup(k) == AfterCleanup(old(Lookup(k)), now, ttl)
    {
      var snapshot := contexts;
      var i := 0;
      var j := 0;
      while i < |snapshot|
        invariant 0 <= i <= |snapshot|
        invariant contexts[..] == Retained(snapshot[..i], now, ttl) + snapshot[i..]
        invariant j == |Retained(snapshot[..i], now, ttl)|
      {
        CleanupStep(snapshot, contexts, i, j, now, ttl);
        var (id, ctx) := contexts[j];
        if now - ctx.createdAt > ttl {
          DeleteAt(contexts, j);
          contexts := Objects.Delete(contexts, id);
          assert contexts[..] == Retained(snapshot[..i + 1], now, ttl) + snapshot[i + 1..];
        } else {
          j := j + 1;
        }
        i := i + 1;
      }
      assert snapshot[..i] == snapshot && snapshot[i..] == [];
      RetainedLookups(snapshot, contexts, now, ttl);
    }
  }

  /** The module-level `defaultStore` behind `getWorkflowStore`. */
  class StoreRegistry {
    var defaultStore: WorkflowStore?

    constructor ()
      ensures defaultStore == null
    {
      defaultStore := null;
    }

    /** `getWorkflowStore(ttlMs?)`: creates the store on the first call; later calls return it and ignore `ttlMs`. */
    method GetWorkflowStore(ttlMs: Option<int>) returns (s: WorkflowStore)
      modifies this
      ensures old(defaultStore) != null ==> s == old(defaultStore)
      ensures old(defaultStore) == null ==>
        fresh(s) && s.ttl == ttlMs.GetOr(DEFAULT_TTL_MS) && s.contexts == []
      ensures defaultStore == s
    {
      if defaultStore == null {
        defaultStore := new WorkflowStore(ttlMs);
      }
      s := defaultStore;
    }
  }
}
