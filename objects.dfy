/**
 * JavaScript objects and `Map`s used as dictionaries: an ordered list of
 * (key, value) entries with distinct keys. Enumeration order is insertion
 * order; assigning to an existing key keeps its position, a new key goes
 * last, and deleting removes the entry.
 */
module Objects {
  import opened Wrappers

  predicate DistinctKeys<V>(o: seq<(string, V)>)
  {
    forall i, j | 0 <= i < j < |o| :: o[i].0 != o[j].0
  }

  type Obj<V> = o: seq<(string, V)> | DistinctKeys(o) witness []

  predicate HasKey<V>(o: seq<(string, V)>, k: string)
  {
    exists i | 0 <= i < |o| :: o[i].0 == k
  }

  /** `Object.keys(o)`. */
  function Keys<V>(o: seq<(string, V)>): (ks: seq<string>)
    ensures |ks| == |o|
    ensures forall i | 0 <= i < |o| :: ks[i] == o[i].0
  {
    seq(|o|, i requires 0 <= i < |o| => o[i].0)
  }

  /** `Object.values(o)`. */
  function Values<V>(o: seq<(string, V)>): (vs: seq<V>)
    ensures |vs| == |o|
    ensures forall i | 0 <= i < |o| :: vs[i] == o[i].1
  {
    seq(|o|, i requires 0 <= i < |o| => o[i].1)
  }

  lemma HasKeyInKeys<V>(o: seq<(string, V)>, k: string)
    ensures HasKey(o, k) <==> k in Keys(o)
  {
    if k in Keys(o) {
      var i :| 0 <= i < |o| && Keys(o)[i] == k;
      assert o[i].0 == k;
    }
  }

  function IndexOf<V>(o: seq<(string, V)>, k: string): (i: nat)
    requires HasKey(o, k)
    ensures i < |o| && o[i].0 == k
    ensures forall j | 0 <= j < i :: o[j].0 != k
  {
    if o[0].0 == k then 0
    else
      assert HasKey(o[1..], k) by {
        var j :| 0 <= j < |o| && o[j].0 == k;
        assert o[1..][j - 1].0 == k;
      }
      1 + IndexOf(o[1..], k)
  }

  /** `o[k]`, absent when the key is not there. */
  function Get<V>(o: Obj<V>, k: string): (r: Option<V>)
    ensures r.Some? <==> HasKey(o, k)
    ensures r.Some? ==> exists i | 0 <= i < |o| :: o[i] == (k, r.value)
  {
    if HasKey(o, k) then Some(o[IndexOf(o, k)].1) else None
  }

  lemma GetAt<V>(o: Obj<V>, i: nat)
    requires i < |o|
    ensures Get(o, o[i].0) == Some(o[i].1)
  {
    assert HasKey(o, o[i].0);
  }

  /** `o[k] = v`: replaces in place when the key exists, appends otherwise. */
  function Set<V>(o: Obj<V>, k: string, v: V): (r: Obj<V>)
    ensures Get(r, k) == Some(v)
    ensures forall k' | k' != k :: Get(r, k') == Get(o, k')
    ensures HasKey(o, k) ==> Keys(r) == Keys(o)
    ensures !HasKey(o, k) ==> r == o + [(k, v)]
  {
    if HasKey(o, k) then
      var i := IndexOf(o, k);
      var r := o[i := (k, v)];
      assert Get(r, k) == Some(v) by { GetAt(r, i); }
      forall k' | k' != k ensures Get(r, k') == Get(o, k') {
        if HasKey(o, k') {
          var j := IndexOf(o, k');
          GetAt(o, j);
          GetAt(r, j);
        } else {
          assert !HasKey(r, k');
        }
      }
      r
    else
      var r := o + [(k, v)];
      assert Get(r, k) == Some(v) by { GetAt(r, |o|); }
      forall k' | k' != k ensures Get(r, k') == Get(o, k') {
        if HasKey(o, k') {
          var j := IndexOf(o, k');
          GetAt(o, j);
          GetAt(r, j);
        } else {
          assert !HasKey(r, k');
        }
      }
      r
  }

  /** `delete o[k]`: removes the entry with that key, if any. */
  function Delete<V>(o: Obj<V>, k: string): (r: Obj<V>)
    ensures Get(r, k) == None
    ensures forall k' | k' != k :: Get(r, k') == Get(o, k')
    ensures HasKey(o, k) ==> |r| == |o| - 1
    ensures !HasKey(o, k) ==> r == o
  {
    if HasKey(o, k) then
      var i := IndexOf(o, k);
      var r := o[..i] + o[i + 1..];
      assert !HasKey(r, k);
      forall k' | k' != k ensures Get(r, k') == Get(o, k') {
        if HasKey(o, k') {
          var j := IndexOf(o, k');
          GetAt(o, j);
          if j < i { GetAt(r, j); } else { GetAt(r, j - 1); }
        } else {
          assert !HasKey(r, k');
        }
      }
      r
    else o
  }

  /** Deleting the key of entry `j` removes exactly that entry. */
  lemma DeleteAt<V>(o: Obj<V>, j: nat)
    requires j < |o|
    ensures Delete(o, o[j].0) == o[..j] + o[j + 1..]
  {
    assert HasKey(o, o[j].0);
    assert IndexOf(o, o[j].0) == j;
  }

  /** Dropping the last entry leaves every other key's value as it was, and removes that key. */
  lemma GetDropLast<V>(o: Obj<V>, k: string)
    requires o != []
    ensures var init: Obj<V> := o[..|o| - 1];
      Get(init, k) == if k == o[|o| - 1].0 then None else Get(o, k)
  {
    var init: Obj<V> := o[..|o| - 1];
    if HasKey(o, k) {
      var j := IndexOf(o, k);
      GetAt(o, j);
      if j < |init| {
        assert init[j] == o[j];
        GetAt(init, j);
      }
    }
  }

  /** `{...base, ...over}`: the entries of `over` assigned, in order, onto `base`. */
  function Spread<V>(base: Obj<V>, over: Obj<V>): Obj<V>
  {
    if over == [] then base
    else
      var last := over[|over| - 1];
      Set(Spread(base, over[..|over| - 1]), last.0, last.1)
  }

  /** A key of the spread object reads from `over` when `over` has it, from `base` otherwise. */
  lemma {:induction false} SpreadGet<V>(base: Obj<V>, over: Obj<V>, k: string)
    ensures Get(Spread(base, over), k) == if HasKey(over, k) then Get(over, k) else Get(base, k)
    decreases |over|
  {
    if over != [] {
      var init: Obj<V> := over[..|over| - 1];
      var last := over[|over| - 1];
      SpreadGet(base, init, k);
      GetAt(over, |over| - 1);
      if k != last.0 && HasKey(over, k) {
        var j := IndexOf(over, k);
        GetAt(over, j);
        assert init[j] == over[j];
        GetAt(init, j);
      }
    }
  }

  /** A loop assigning every entry of `over`, in order, onto `start`. */
  method SetEach<V>(start: Obj<V>, over: Obj<V>) returns (r: Obj<V>)
    ensures r == Spread(start, over)
  {
    r := start;
    var i := 0;
    while i < |over|
      invariant i <= |over|
      invariant r == Spread(start, over[..i])
    {
      r := Set(r, over[i].0, over[i].1);
      assert over[..i + 1][..i] == over[..i];
      i := i + 1;
    }
    assert over[..i] == over;
  }

  /** The same keys, in the same order, each value passed through `f`. */
  function MapValues<V, W>(o: Obj<V>, f: V -> W): (r: Obj<W>)
    ensures Keys(r) == Keys(o)
    ensures forall i | 0 <= i < |o| :: r[i] == (o[i].0, f(o[i].1))
  {
    var r := seq(|o|, i requires 0 <= i < |o| => (o[i].0, f(o[i].1)));
    assert Keys(r) == Keys(o);
    r
  }
}
