/**
 * The check sets the parsers keep beside their output logs: an entry is appended
 * only when its key is not yet in the set, and its key is then added.  A log and
 * a set related that way hold each key at most once.
 */
module Dedup {

  /** Every key of the log is in the check set and no two entries of the log share a key. */
  predicate Tracked<T, K>(log: seq<T>, seen: set<K>, key: T -> K) {
    (forall i :: 0 <= i < |log| ==> key(log[i]) in seen) &&
    (forall i, j :: 0 <= i < j < |log| ==> key(log[i]) != key(log[j]))
  }

  /** The keys of a log. */
  function Keys<T, K>(log: seq<T>, key: T -> K): (r: set<K>)
    ensures forall i :: 0 <= i < |log| ==> key(log[i]) in r
    ensures forall k :: k in r ==> exists i :: 0 <= i < |log| && key(log[i]) == k
  {
    set i | 0 <= i < |log| :: key(log[i])
  }

  /** Appending an entry whose key is new, and recording the key, keeps the pair tracked. */
  lemma AddNew<T, K>(log: seq<T>, seen: set<K>, key: T -> K, x: T)
    requires Tracked(log, seen, key) && key(x) !in seen
    ensures Tracked(log + [x], seen + {key(x)}, key)
  {
    var log' := log + [x];
    forall i, j | 0 <= i < j < |log'| ensures key(log'[i]) != key(log'[j]) {
      if j == |log| {
        assert key(log'[i]) in seen;
      }
    }
  }

  /** Recording more keys keeps the pair tracked. */
  lemma Grow<T, K>(log: seq<T>, seen: set<K>, key: T -> K, more: set<K>)
    requires Tracked(log, seen, key)
    ensures Tracked(log, seen + more, key)
  {
  }

  /** The keys of a log with one more entry. */
  lemma KeysSnoc<T, K>(log: seq<T>, key: T -> K, x: T)
    ensures Keys(log + [x], key) == Keys(log, key) + {key(x)}
  {
    var log' := log + [x];
    forall k | k in Keys(log', key) ensures k in Keys(log, key) + {key(x)} {
      var i :| 0 <= i < |log'| && key(log'[i]) == k;
      if i < |log| {
        assert log'[i] == log[i];
      }
    }
    forall k | k in Keys(log, key) ensures k in Keys(log', key) {
      var i :| 0 <= i < |log| && key(log[i]) == k;
      assert log'[i] == log[i];
    }
    assert log'[|log|] == x;
  }

  /** No key of one log is a key of the other: two logs that share one check set. */
  predicate Apart<T, K(==)>(a: seq<T>, b: seq<T>, key: T -> K) {
    forall i, j :: 0 <= i < |a| && 0 <= j < |b| ==> key(a[i]) != key(b[j])
  }

  /** An entry whose key the shared check set does not hold keeps the two logs apart, on whichever side it is added. */
  lemma ApartAdd<T, K>(a: seq<T>, b: seq<T>, seen: set<K>, key: T -> K, x: T)
    requires Apart(a, b, key) && key(x) !in seen
    requires forall i :: 0 <= i < |a| ==> key(a[i]) in seen
    requires forall j :: 0 <= j < |b| ==> key(b[j]) in seen
    ensures Apart(a + [x], b, key) && Apart(a, b + [x], key)
  {
    var a', b' := a + [x], b + [x];
    forall i, j | 0 <= i < |a'| && 0 <= j < |b| ensures key(a'[i]) != key(b[j]) {
      assert key(b[j]) in seen;
      if i < |a| {
        assert a'[i] == a[i];
      }
    }
    forall i, j | 0 <= i < |a| && 0 <= j < |b'| ensures key(a[i]) != key(b'[j]) {
      assert key(a[i]) in seen;
      if j < |b| {
        assert b'[j] == b[j];
      }
    }
  }

  /** Tracked, and the check set holds nothing but the keys of the log. */
  predicate Recorded<T, K>(log: seq<T>, seen: set<K>, key: T -> K) {
    Tracked(log, seen, key) && seen == Keys(log, key)
  }

  /** Appending an entry whose key is new, and recording the key, keeps the pair recorded. */
  lemma RecordNew<T, K>(log: seq<T>, seen: set<K>, key: T -> K, x: T)
    requires Recorded(log, seen, key) && key(x) !in seen
    ensures Recorded(log + [x], seen + {key(x)}, key)
  {
    AddNew(log, seen, key, x);
    KeysSnoc(log, key, x);
  }

  /** An entry of a log is still there after later appends. */
  lemma InPrefix<T>(a: seq<T>, b: seq<T>, x: T)
    requires a <= b && x in a
    ensures x in b
  {
    var k :| 0 <= k < |a| && a[k] == x;
    assert b[k] == x;
  }
}
