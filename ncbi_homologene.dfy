/**
 * NcbiHomoloGeneParser.run (biomedgraph/parser/ncbi_homologene.py): the rows of
 * homologene.data are grouped by runs of equal first field; when a new group id
 * appears, every unordered pair of the previous group's genes (third field)
 * becomes a HOMOLOG relationship.  The group being collected when the file ends
 * is never flushed.  A Python set's iteration order is modelled as insertion
 * order.
 */
module NcbiHomoloGene {
  import opened Results
  import opened PyStr
  import opened Graph
  import Scan

  /** l.strip().split('\t') */
  function Fields(l: string): seq<string> {
    Split(Strip(l), "\t")
  }

  predicate NoDup(xs: seq<string>) {
    forall i, j :: 0 <= i < j < |xs| ==> xs[i] != xs[j]
  }

  /** set.add(g) on a set kept in insertion order. */
  function AddGene(genes: seq<string>, g: string): (r: seq<string>)
    ensures g in r && forall x :: x in genes ==> x in r
    ensures forall x :: x in r ==> x == g || x in genes
    ensures NoDup(genes) ==> NoDup(r)
  {
    if g in genes then genes else genes + [g]
  }

  /** itertools.combinations(genes, 2), in its order: the first gene with each later one, then the pairs of the rest. */
  function GenePairs(genes: seq<string>): seq<(string, string)>
    decreases |genes|
  {
    if genes == [] then []
    else seq(|genes| - 1, k requires 0 <= k < |genes| - 1 => (genes[0], genes[k + 1])) + GenePairs(genes[1..])
  }

  /** The combinations of the group as HOMOLOG relationships without properties. */
  function Pairs(genes: seq<string>): (r: seq<Rel>)
    ensures |r| == |GenePairs(genes)|
    ensures forall k :: 0 <= k < |r| ==> r[k] == SidRel(GenePairs(genes)[k].0, GenePairs(genes)[k].1, map[])
  {
    var gp := GenePairs(genes);
    seq(|gp|, k requires 0 <= k < |gp| => SidRel(gp[k].0, gp[k].1, map[]))
  }

  /** n genes give n(n-1)/2 pairs. */
  lemma {:induction false} PairsCount(genes: seq<string>)
    ensures 2 * |Pairs(genes)| == |genes| * (|genes| - 1)
    decreases |genes|
  {
    if genes != [] {
      var n := |genes|;
      PairsCount(genes[1..]);
      assert 2 * |GenePairs(genes)| == 2 * (n - 1) + (n - 1) * (n - 2);
      assert 2 * (n - 1) + (n - 1) * (n - 2) == (n - 1) * n;
    }
  }

  /** Every combination i < j of the group is there, from the earlier gene to the later one. */
  lemma {:induction false} GenePairsCover(genes: seq<string>, i: nat, j: nat)
    requires i < j < |genes|
    ensures (genes[i], genes[j]) in GenePairs(genes)
    decreases |genes|
  {
    var tail := genes[1..];
    var p := seq(|genes| - 1, k requires 0 <= k < |genes| - 1 => (genes[0], genes[k + 1]));
    assert GenePairs(genes) == p + GenePairs(tail);
    if i == 0 {
      assert p[j - 1] == (genes[i], genes[j]);
      InLeft((genes[i], genes[j]), p, GenePairs(tail), j - 1);
    } else {
      GenePairsCover(tail, i - 1, j - 1);
      InRight((genes[i], genes[j]), p, GenePairs(tail));
    }
  }

  /** Every combination is a pair i < j of the group. */
  lemma {:induction false} GenePairsOrigin(genes: seq<string>, k: nat) returns (i: nat, j: nat)
    requires k < |GenePairs(genes)|
    ensures i < j < |genes| && GenePairs(genes)[k] == (genes[i], genes[j])
    decreases |genes|
  {
    var tail := genes[1..];
    var p := seq(|genes| - 1, k requires 0 <= k < |genes| - 1 => (genes[0], genes[k + 1]));
    assert GenePairs(genes) == p + GenePairs(tail);
    if k < |p| {
      i, j := 0, k + 1;
    } else {
      var i', j' := GenePairsOrigin(tail, k - |p|);
      i, j := i' + 1, j' + 1;
    }
  }

  /** Every pair i < j of the group is emitted, from the earlier gene to the later one. */
  lemma PairsCover(genes: seq<string>, i: nat, j: nat)
    requires i < j < |genes|
    ensures SidRel(genes[i], genes[j], map[]) in Pairs(genes)
  {
    GenePairsCover(genes, i, j);
    var k :| 0 <= k < |GenePairs(genes)| && GenePairs(genes)[k] == (genes[i], genes[j]);
    assert Pairs(genes)[k] == SidRel(genes[i], genes[j], map[]);
  }

  /** Every pair is a pair i < j of the group, from the earlier gene to the later one. */
  lemma PairsOrigin(genes: seq<string>, r: Rel) returns (i: nat, j: nat)
    requires r in Pairs(genes)
    ensures i < j < |genes| && r == SidRel(genes[i], genes[j], map[])
  {
    var k :| 0 <= k < |Pairs(genes)| && Pairs(genes)[k] == r;
    i, j := GenePairsOrigin(genes, k);
  }

  lemma InLeft<T>(x: T, a: seq<T>, b: seq<T>, k: nat)
    requires k < |a| && a[k] == x
    ensures x in a + b
  {
    assert (a + b)[k] == x;
  }

  lemma InRight<T>(x: T, a: seq<T>, b: seq<T>)
    requires x in b
    ensures x in a + b
  {
    var k :| 0 <= k < |b| && b[k] == x;
    assert (a + b)[|a| + k] == x;
  }

  /** Every pair joins two different genes of the group. */
  lemma PairsOfGroup(genes: seq<string>)
    requires NoDup(genes)
    ensures forall r :: r in Pairs(genes) ==> SidOf(r.start) != SidOf(r.end)
  {
    forall r | r in Pairs(genes) ensures SidOf(r.start) != SidOf(r.end) {
      var i, j := PairsOrigin(genes, r);
      assert SidOf(r.start) == Str(genes[i]) && SidOf(r.end) == Str(genes[j]);
    }
  }

  /** The loop's variables and output: current_group_id, current_group_genes, the HOMOLOG log, and the exception if one was raised. */
  datatype State = State(current: string, genes: seq<string>, rels: seq<Rel>, raised: Option<Error>)

  /** One line of homologene.data, given its fields. */
  function Step(st: State, flds: seq<string>): State {
    if |flds| < 3 then st.(raised := Some(IndexError("flds[2]")))
    else
      var group := flds[0];
      var gene := flds[2];
      var current := if st.current == "" then group else st.current;
      if current == group then st.(current := current, genes := AddGene(st.genes, gene))
      else State(group, [gene], st.rels + Pairs(st.genes), None)
  }

  /** One line of homologene.data. */
  function LineStep(st: State, line: string): State {
    Step(st, Fields(line))
  }

  predicate Raised(st: State) {
    st.raised.Some?
  }

  /** The state after the lines, stopping at the first line that raises. */
  function Homologs(lines: seq<string>): State {
    Scan.Run(State("", [], [], None), lines, LineStep, Raised)
  }

  /** A line of the current group (or the first line) only adds its gene; nothing is emitted. */
  lemma SameGroupEmitsNothing(st: State, line: string)
    requires |Fields(line)| >= 3 && (st.current == "" || st.current == Fields(line)[0])
    ensures Step(st, Fields(line)).rels == st.rels
    ensures Step(st, Fields(line)).genes == AddGene(st.genes, Fields(line)[2])
    ensures Step(st, Fields(line)).current == Fields(line)[0]
  {
  }

  /**
   * The first line of a new group flushes the previous group's pairs, and the
   * collection restarts with that line's gene alone, even if the id was seen
   * in an earlier run.
   */
  lemma NewGroupFlushes(st: State, line: string)
    requires |Fields(line)| >= 3 && st.current != "" && st.current != Fields(line)[0]
    ensures Step(st, Fields(line)) == State(Fields(line)[0], [Fields(line)[2]], st.rels + Pairs(st.genes), None)
  {
  }

  /** The collected group never repeats a gene, and every HOMOLOG joins two different genes. */
  predicate GroupInvariant(st: State) {
    NoDup(st.genes) && forall r :: r in st.rels ==> SidOf(r.start) != SidOf(r.end)
  }

  lemma StepKeepsInvariant(st: State, line: string)
    requires GroupInvariant(st)
    ensures GroupInvariant(LineStep(st, line))
  {
    PairsOfGroup(st.genes);
  }

  /** After any lines, the group invariant holds. */
  lemma HomologsInvariant(lines: seq<string>)
    ensures GroupInvariant(Homologs(lines))
  {
    forall st, line | GroupInvariant(st) && !Raised(st)
      ensures GroupInvariant(LineStep(st, line))
    {
      StepKeepsInvariant(st, line);
    }
    Scan.RunKeeps(State("", [], [], None), lines, LineStep, Raised, GroupInvariant);
  }

  /** A short line raises IndexError and stops the run. */
  lemma ShortLineRaises(lines: seq<string>, line: string)
    requires Homologs(lines).raised.None? && |Fields(line)| < 3
    ensures Homologs(lines + [line]) == Homologs(lines).(raised := Some(IndexError("flds[2]")))
  {
    Scan.RunSnoc(State("", [], [], None), lines, line, LineStep, Raised);
  }

  class NcbiHomoloGeneParser {
    /** The gene_homolog_gene RelationshipSet, as the log of its add_relationship calls. */
    var geneHomologGene: seq<Rel>

    constructor ()
      ensures geneHomologGene == []
    {
      geneHomologGene := [];
    }

    /** The inner loop over itertools.combinations(genes, 2). */
    method EmitPairs(genes: seq<string>)
      modifies this
      ensures geneHomologGene == old(geneHomologGene) + Pairs(genes)
    {
      var pairs := Pairs(genes);
      var k := 0;
      while k < |pairs|
        invariant 0 <= k <= |pairs|
        invariant geneHomologGene == old(geneHomologGene) + pairs[..k]
      {
        geneHomologGene := geneHomologGene + [pairs[k]];
        k := k + 1;
        assert pairs[..k] == pairs[..k - 1] + [pairs[k - 1]];
      }
      assert pairs[..k] == pairs;
    }

    /** The body of run's loop for a line with at least three fields. */
    method Line(ghost st: State, ghost base: seq<Rel>, flds: seq<string>, currentGroupId: string, currentGroupGenes: seq<string>)
      returns (groupIdAfter: string, genesAfter: seq<string>)
      requires |flds| >= 3 && st.raised.None?
      requires currentGroupId == st.current && currentGroupGenes == st.genes
      requires geneHomologGene == base + st.rels
      modifies this
      ensures groupIdAfter == Step(st, flds).current && genesAfter == Step(st, flds).genes
      ensures geneHomologGene == base + Step(st, flds).rels
    {
      ghost var next := Step(st, flds);
      var groupId := flds[0];
      var geneId := flds[2];
      groupIdAfter := currentGroupId;
      if groupIdAfter == "" {
        groupIdAfter := groupId;
      }
      if groupIdAfter == groupId {
        genesAfter := AddGene(currentGroupGenes, geneId);
        assert next == st.(current := groupIdAfter, genes := genesAfter);
      } else {
        assert next == State(groupId, [geneId], st.rels + Pairs(st.genes), None);
        EmitPairs(currentGroupGenes);
        AppendAssoc(base, st.rels, Pairs(st.genes));
        genesAfter := [geneId];
        groupIdAfter := groupId;
      }
    }

    /** run, over the lines of homologene.data. */
    method Run(lines: seq<string>) returns (raised: Option<Error>)
      modifies this
      ensures geneHomologGene == old(geneHomologGene) + Homologs(lines).rels
      ensures raised == Homologs(lines).raised
    {
      var currentGroupId := "";
      var currentGroupGenes: seq<string> := [];
      ghost var start := geneHomologGene;
      var i := 0;
      while i < |lines|
        invariant 0 <= i <= |lines|
        invariant Homologs(lines[..i]).raised.None?
        invariant currentGroupId == Homologs(lines[..i]).current
        invariant currentGroupGenes == Homologs(lines[..i]).genes
        invariant geneHomologGene == start + Homologs(lines[..i]).rels
      {
        ghost var st := Homologs(lines[..i]);
        var flds := Fields(lines[i]);
        Scan.RunNext(State("", [], [], None), lines, i, LineStep, Raised);
        if |flds| < 3 {
          Scan.RunHalted(State("", [], [], None), lines, i + 1, LineStep, Raised);
          return Some(IndexError("flds[2]"));
        }
        currentGroupId, currentGroupGenes := Line(st, start, flds, currentGroupId, currentGroupGenes);
        i := i + 1;
      }
      assert lines[..i] == lines;
      return None;
    }
  }

}
