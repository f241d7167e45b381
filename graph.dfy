/**
 * The node and relationship records the parsers hand to the graph loader.
 * A NodeSet is modelled as the append-only sequence of the property maps added
 * to it, a RelationshipSet as the sequence of (start keys, end keys, properties)
 * triples added to it; merging them into the database is not modelled.
 */
module Graph {
  import opened Results

  /** A property value as the parsers produce it. */
  datatype Value =
    | Str(s: string)
    | Int(i: int)
    | Bool(b: bool)
    | StrList(items: seq<string>)
    | Null
    /** A value the model does not interpret (a float score, a uuid). */
    | Opaque(tag: string)

  type Props = map<string, Value>

  /** One call of RelationshipSet.add_relationship(start, end, props). */
  datatype Rel = Rel(start: Props, end: Props, props: Props)

  /** {'sid': s} */
  function SidProps(s: string): (p: Props)
    ensures p.Keys == {"sid"} && p["sid"] == Str(s)
  {
    map["sid" := Str(s)]
  }

  /** The props of a relationship that only records its source. */
  function SourceProps(source: string): (p: Props)
    ensures p.Keys == {"source"} && p["source"] == Str(source)
  {
    map["source" := Str(source)]
  }

  /** A relationship whose two ends are both keyed by sid. */
  function SidRel(a: string, b: string, props: Props): (r: Rel)
    ensures r.start == SidProps(a) && r.end == SidProps(b) && r.props == props
  {
    Rel(SidProps(a), SidProps(b), props)
  }

  /** The sid of a node, or Null when it has none. */
  function SidOf(p: Props): Value {
    if "sid" in p then p["sid"] else Null
  }

  /** The sid of a node as the text the parsers' check sets hold (empty when it has no text sid). */
  function SidText(p: Props): string {
    if "sid" in p && p["sid"].Str? then p["sid"].s else ""
  }

  /** The key a check set holds for a relationship: its two sids concatenated. */
  function ConcatKey(r: Rel): string {
    SidText(r.start) + SidText(r.end)
  }

  /** The sid pair of a relationship. */
  function EndsOf(r: Rel): (Value, Value) {
    (SidOf(r.start), SidOf(r.end))
  }

  /** No two entries of the log share a sid. */
  predicate DistinctSids(log: seq<Props>) {
    forall i, j :: 0 <= i < j < |log| ==> SidOf(log[i]) != SidOf(log[j])
  }

  /** The sids of a node log. */
  function Sids(log: seq<Props>): (r: set<Value>)
    ensures forall i :: 0 <= i < |log| ==> SidOf(log[i]) in r
    ensures forall v :: v in r ==> exists i :: 0 <= i < |log| && SidOf(log[i]) == v
  {
    set i | 0 <= i < |log| :: SidOf(log[i])
  }

  /** Props built from a list of (key, value) pairs in order, a later pair overwriting an earlier one. */
  function FromPairs(ks: seq<string>, vs: seq<Value>): (p: Props)
    requires |ks| == |vs|
    ensures p.Keys == set k | k in ks
    decreases |ks|
  {
    if ks == [] then map[]
    else FromPairs(ks[..|ks| - 1], vs[..|vs| - 1])[ks[|ks| - 1] := vs[|vs| - 1]]
  }

  /** The value FromPairs keeps for a key is that of its last pair. */
  lemma {:induction false} FromPairsLast(ks: seq<string>, vs: seq<Value>, j: nat)
    requires |ks| == |vs| && j < |ks|
    requires forall l :: j < l < |ks| ==> ks[l] != ks[j]
    ensures FromPairs(ks, vs)[ks[j]] == vs[j]
    decreases |ks|
  {
    if j < |ks| - 1 {
      FromPairsLast(ks[..|ks| - 1], vs[..|vs| - 1], j);
    }
  }

  /** Appending to a log in two steps is appending the two parts at once. */
  lemma AppendAssoc<T>(log: seq<T>, a: seq<T>, b: seq<T>)
    ensures log + a + b == log + (a + b)
  {
  }

  /** p.update(attrs), for a dict of string attributes. */
  function Update(p: Props, attrs: map<string, string>): Props {
    map k | k in p.Keys + attrs.Keys :: if k in attrs then Str(attrs[k]) else p[k]
  }
}
