/**
 * Python's dict with its insertion order: `keys` lists the keys in the order
 * they were first inserted, `m` holds the current value of each.  Assigning an
 * existing key keeps its position; a new key goes to the end.  The dicts of
 * the model map strings to strings.
 */
module PyDict {
  datatype Dict = Dict(keys: seq<string>, m: map<string, string>)

  ghost predicate Valid(d: Dict) {
    (forall i, j :: 0 <= i < j < |d.keys| ==> d.keys[i] != d.keys[j]) &&
    (forall k :: k in d.m <==> k in d.keys)
  }

  function Empty(): (r: Dict)
    ensures Valid(r) && r.m == map[]
  {
    Dict([], map[])
  }

  /** d[k] = v */
  function Put(d: Dict, k: string, v: string): (r: Dict)
    ensures Valid(d) ==> Valid(r)
    ensures r.m == d.m[k := v]
    ensures k in d.m ==> r.keys == d.keys
    ensures k !in d.m ==> r.keys == d.keys + [k]
  {
    if k in d.m then Dict(d.keys, d.m[k := v]) else Dict(d.keys + [k], d.m[k := v])
  }

  /** The keys of a list of items, in order. */
  function Firsts(items: seq<(string, string)>): (r: seq<string>)
    ensures |r| == |items| && forall i :: 0 <= i < |items| ==> r[i] == items[i].0
  {
    seq(|items|, i requires 0 <= i < |items| => items[i].0)
  }

  /** A dict built from (key, value) items in order, as a dict display or comprehension does. */
  function FromItems(items: seq<(string, string)>): Dict
    decreases |items|
  {
    if items == [] then Dict([], map[])
    else
      var d := FromItems(items[..|items| - 1]);
      var k := items[|items| - 1].0;
      var v := items[|items| - 1].1;
      if k in d.m then Dict(d.keys, d.m[k := v]) else Dict(d.keys + [k], d.m[k := v])
  }

  /** FromItems is a sequence of Puts: the dict is valid and has exactly the items' keys. */
  lemma {:induction false} FromItemsValid(items: seq<(string, string)>)
    ensures Valid(FromItems(items))
    ensures forall i :: 0 <= i < |items| ==> items[i].0 in FromItems(items).m
    ensures forall k :: k in FromItems(items).m ==> k in Firsts(items)
    decreases |items|
  {
    if items != [] {
      var n := |items| - 1;
      var prefix := items[..n];
      FromItemsValid(prefix);
      var r := Put(FromItems(prefix), items[n].0, items[n].1);
      assert FromItems(items) == r;
      assert Firsts(items) == Firsts(prefix) + [items[n].0];
      forall i | 0 <= i < n ensures items[i].0 in r.m {
        assert prefix[i] == items[i];
      }
    }
  }

  /** The value a key ends up with is that of its last item. */
  lemma {:induction false} FromItemsLast(items: seq<(string, string)>, i: nat)
    requires i < |items|
    requires forall j :: i < j < |items| ==> items[j].0 != items[i].0
    ensures items[i].0 in FromItems(items).m && FromItems(items).m[items[i].0] == items[i].1
    decreases |items|
  {
    if i < |items| - 1 {
      FromItemsLast(items[..|items| - 1], i);
    }
  }

  /** With distinct keys, the items come out in their own order. */
  lemma {:induction false} FromItemsDistinct(items: seq<(string, string)>)
    requires forall i, j :: 0 <= i < j < |items| ==> items[i].0 != items[j].0
    ensures FromItems(items).keys == Firsts(items)
    ensures forall i :: 0 <= i < |items| ==>
      items[i].0 in FromItems(items).m && FromItems(items).m[items[i].0] == items[i].1
    decreases |items|
  {
    if items != [] {
      var n := |items| - 1;
      var prefix := items[..n];
      FromItemsValid(prefix);
      FromItemsDistinct(prefix);
      var d := FromItems(prefix);
      var k := items[n].0;
      assert k !in Firsts(prefix);
      var r := Put(d, k, items[n].1);
      assert FromItems(items) == r;
      assert Firsts(items) == Firsts(prefix) + [k];
      forall i | 0 <= i < |items|
        ensures items[i].0 in r.m && r.m[items[i].0] == items[i].1
      {
        if i < n {
          assert prefix[i] == items[i];
        }
      }
    }
  }

  /** No two keys share a value. */
  ghost predicate Injective(d: Dict)
    requires Valid(d)
  {
    forall i, j :: 0 <= i < j < |d.keys| ==> d.m[d.keys[i]] != d.m[d.keys[j]]
  }

  /** The items of a dict with key and value swapped, in order. */
  function Swapped(d: Dict): (r: seq<(string, string)>)
    requires Valid(d)
    ensures |r| == |d.keys|
    ensures forall i :: 0 <= i < |d.keys| ==> r[i] == (d.m[d.keys[i]], d.keys[i])
  {
    seq(|d.keys|, i requires 0 <= i < |d.keys| && Valid(d) => (d.m[d.keys[i]], d.keys[i]))
  }

  /** {v: k for k, v in d.items()} */
  function Flip(d: Dict): (r: Dict)
    requires Valid(d)
    ensures Valid(r)
  {
    FromItemsValid(Swapped(d));
    FromItems(Swapped(d))
  }

  /**
   * Every entry of the flipped dict reverses an entry of the dict: the value
   * maps back to the last key that held it; and every value of the dict is a
   * key of the flipped one.
   */
  lemma FlipSound(d: Dict, v: string)
    requires Valid(d)
    ensures v in Flip(d).m <==> exists k :: k in d.m && d.m[k] == v
    ensures v in Flip(d).m ==> Flip(d).m[v] in d.m && d.m[Flip(d).m[v]] == v
  {
    var items := Swapped(d);
    FromItemsValid(items);
    if v in Flip(d).m {
      var i :| 0 <= i < |items| && items[i].0 == v;
      var last := LastWith(items, v, i);
      FromItemsLast(items, last);
    } else {
      forall k | k in d.m ensures d.m[k] != v {
        var i :| 0 <= i < |d.keys| && d.keys[i] == k;
        assert items[i].0 == d.m[k];
      }
    }
  }

  /** The last index at or after i whose item has key v. */
  lemma {:induction false} LastWith(items: seq<(string, string)>, v: string, i: nat) returns (last: nat)
    requires i < |items| && items[i].0 == v
    ensures i <= last < |items| && items[last].0 == v
    ensures forall j :: last < j < |items| ==> items[j].0 != v
    decreases |items| - i
  {
    if exists j :: i < j < |items| && items[j].0 == v {
      var j :| i < j < |items| && items[j].0 == v;
      last := LastWith(items, v, j);
    } else {
      last := i;
    }
  }

  /** Flipping an injective dict lists its values in order, each mapped back to its key; no two of them share a key. */
  lemma FlipInjective(d: Dict)
    requires Valid(d) && Injective(d)
    ensures Flip(d).keys == Firsts(Swapped(d))
    ensures forall i :: 0 <= i < |d.keys| ==> Flip(d).m[d.m[d.keys[i]]] == d.keys[i]
    ensures Injective(Flip(d))
  {
    FromItemsDistinct(Swapped(d));
  }

  /** Flipping an injective dict twice gives it back, order included. */
  lemma FlipFlip(d: Dict)
    requires Valid(d) && Injective(d)
    ensures Flip(Flip(d)) == d
  {
    FlipFlipKeys(d);
    FlipFlipValues(d);
    SameEntries(Flip(Flip(d)), d);
  }

  /** Two valid dicts with the same keys in the same order and the same values are equal. */
  lemma SameEntries(a: Dict, b: Dict)
    requires Valid(a) && Valid(b) && a.keys == b.keys
    requires forall k :: k in b.m ==> k in a.m && a.m[k] == b.m[k]
    ensures a == b
  {
    assert a.m.Keys == b.m.Keys;
  }

  lemma FlipFlipKeys(d: Dict)
    requires Valid(d) && Injective(d)
    ensures Flip(Flip(d)).keys == d.keys
  {
    FlipInjective(d);
    FlipInjective(Flip(d));
  }

  lemma FlipFlipValues(d: Dict)
    requires Valid(d) && Injective(d)
    ensures forall k :: k in d.m ==> k in Flip(Flip(d)).m && Flip(Flip(d)).m[k] == d.m[k]
  {
    forall k | k in d.m ensures k in Flip(Flip(d)).m && Flip(Flip(d)).m[k] == d.m[k] {
      var i :| 0 <= i < |d.keys| && d.keys[i] == k;
      FlipFlipAt(d, i);
    }
  }

  lemma FlipFlipAt(d: Dict, i: nat)
    requires Valid(d) && Injective(d) && i < |d.keys|
    ensures d.keys[i] in Flip(Flip(d)).m && Flip(Flip(d)).m[d.keys[i]] == d.m[d.keys[i]]
  {
    FlipInjective(d);
    var f := Flip(d);
    FlipInjective(f);
    assert f.keys[i] == d.m[d.keys[i]];
  }
}
