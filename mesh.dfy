/**
 * The MeSH descriptor parser (biomedgraph/parser/mesh.py).
 *
 * MeshParser.parse_xml walks the descriptor records of the MeSH descriptor
 * file.  Every record gives a MeshDescriptor node; each allowable qualifier a
 * MeshQualifier node (the first time its UI is seen) and Descriptor-ALLOWED-
 * Qualifier; each concept a MeshConcept node (first time) and Descriptor-HAS-
 * Concept; each concept relation Concept-RELATED-Concept; each term of a
 * concept a MeshTerm node (first time) and Concept-HAS-Term.  Three check sets,
 * for the qualifier, concept and term UIs, are shared by the whole file.
 *
 * The XML document is given as a tree of values (the XML reader is not part
 * of this model); the elements the parser reads are fields of the tree.
 */
module Mesh {
  import opened Results
  import opened Graph
  import Scan
  import Dedup

  datatype Qualifier = Qualifier(ui: string, name: string)
  /** A ConceptRelation: its RelationName attribute, Concept1UI and Concept2UI. */
  datatype Relation = Relation(name: string, left: string, right: string)
  /** A Term: TermUI, String and the ConceptPreferredTermYN attribute. */
  datatype Term = Term(ui: string, name: string, preferred: string)
  /** A Concept: the PreferredConceptYN attribute, ConceptUI, ConceptName/String, the optional ScopeNote, its relations and terms. */
  datatype Concept = Concept(preferred: string, ui: string, name: string, scopeNote: Option<string>,
                             relations: seq<Relation>, terms: seq<Term>)
  /** A DescriptorRecord: DescriptorUI, DescriptorName/String, its allowable qualifiers and its concepts. */
  datatype Descriptor = Descriptor(ui: string, name: string, qualifiers: seq<Qualifier>, concepts: seq<Concept>)

  // ---------------------------------------------------------------------------
  // Nodes and relationships

  function DescriptorNode(d: Descriptor): (p: Props)
    ensures p.Keys == {"sid", "name"} && SidText(p) == d.ui && p["name"] == Str(d.name)
  {
    map["sid" := Str(d.ui), "name" := Str(d.name)]
  }

  function QualifierNode(q: Qualifier): (p: Props)
    ensures p.Keys == {"sid", "name"} && SidText(p) == q.ui && p["name"] == Str(q.name)
  {
    map["sid" := Str(q.ui), "name" := Str(q.name)]
  }

  /** The concept node carries a scope_note exactly when the concept has a ScopeNote element. */
  function ConceptNode(c: Concept): (p: Props)
    ensures SidText(p) == c.ui && "name" in p && p["name"] == Str(c.name)
    ensures "scope_note" in p <==> c.scopeNote.Some?
    ensures c.scopeNote.Some? ==> p["scope_note"] == Str(c.scopeNote.value)
    ensures p.Keys <= {"sid", "name", "scope_note"}
  {
    var p := map["sid" := Str(c.ui), "name" := Str(c.name)];
    if c.scopeNote.Some? then p["scope_note" := Str(c.scopeNote.value)] else p
  }

  function TermNode(t: Term): (p: Props)
    ensures p.Keys == {"sid", "name"} && SidText(p) == t.ui && p["name"] == Str(t.name)
  {
    map["sid" := Str(t.ui), "name" := Str(t.name)]
  }

  function AllowedRel(dui: string, q: Qualifier): (r: Rel)
    ensures r == Rel(SidProps(dui), SidProps(q.ui), SourceProps("mesh"))
  {
    SidRel(dui, q.ui, SourceProps("mesh"))
  }

  function HasConceptRel(dui: string, c: Concept): (r: Rel)
    ensures EndsOf(r) == (Str(dui), Str(c.ui)) && r.props == map["preferred" := Str(c.preferred)]
  {
    SidRel(dui, c.ui, map["preferred" := Str(c.preferred)])
  }

  function RelatedRel(rel: Relation): (r: Rel)
    ensures EndsOf(r) == (Str(rel.left), Str(rel.right)) && r.props == map["name" := Str(rel.name)]
  {
    SidRel(rel.left, rel.right, map["name" := Str(rel.name)])
  }

  function HasTermRel(cui: string, t: Term): (r: Rel)
    ensures EndsOf(r) == (Str(cui), Str(t.ui)) && r.props == map["preferred" := Str(t.preferred)]
  {
    SidRel(cui, t.ui, map["preferred" := Str(t.preferred)])
  }

  // ---------------------------------------------------------------------------
  // The walk

  datatype MeshChecks = MeshChecks(qualifier: set<string>, concept: set<string>, term: set<string>)

  datatype MeshState = MeshState(
    descriptors: seq<Props>, qualifiers: seq<Props>, concepts: seq<Props>, terms: seq<Props>,
    allowed: seq<Rel>, hasConcept: seq<Rel>, hasTerm: seq<Rel>, related: seq<Rel>,
    checks: MeshChecks)

  /** A qualifier: its node unless its UI is in check_qualifier, then ALLOWED in any case. */
  function QualifierStep(dui: string, st: MeshState, q: Qualifier): MeshState {
    var s := if q.ui in st.checks.qualifier then st
      else st.(qualifiers := st.qualifiers + [QualifierNode(q)], checks := st.checks.(qualifier := st.checks.qualifier + {q.ui}));
    s.(allowed := s.allowed + [AllowedRel(dui, q)])
  }

  function QualifierStepFor(dui: string): (MeshState, Qualifier) -> MeshState {
    (st: MeshState, q: Qualifier) => QualifierStep(dui, st, q)
  }

  function RelatedStep(st: MeshState, rel: Relation): MeshState {
    st.(related := st.related + [RelatedRel(rel)])
  }

  /** A term: its node unless its UI is in check_terms, then Concept-HAS-Term in any case. */
  function TermStep(cui: string, st: MeshState, t: Term): MeshState {
    var s := if t.ui in st.checks.term then st
      else st.(terms := st.terms + [TermNode(t)], checks := st.checks.(term := st.checks.term + {t.ui}));
    s.(hasTerm := s.hasTerm + [HasTermRel(cui, t)])
  }

  function TermStepFor(cui: string): (MeshState, Term) -> MeshState {
    (st: MeshState, t: Term) => TermStep(cui, st, t)
  }

  /** A concept: its node unless its UI is in check_concepts, Descriptor-HAS-Concept, its relations, its terms. */
  function ConceptStep(dui: string, st: MeshState, c: Concept): MeshState {
    var s1 := if c.ui in st.checks.concept then st
      else st.(concepts := st.concepts + [ConceptNode(c)], checks := st.checks.(concept := st.checks.concept + {c.ui}));
    var s2 := s1.(hasConcept := s1.hasConcept + [HasConceptRel(dui, c)]);
    var s3 := Scan.Run(s2, c.relations, RelatedStep, Scan.Never);
    Scan.Run(s3, c.terms, TermStepFor(c.ui), Scan.Never)
  }

  function ConceptStepFor(dui: string): (MeshState, Concept) -> MeshState {
    (st: MeshState, c: Concept) => ConceptStep(dui, st, c)
  }

  /** A descriptor record: its node, with no check, then its qualifiers and its concepts. */
  function DescriptorStep(st: MeshState, d: Descriptor): MeshState {
    var s1 := st.(descriptors := st.descriptors + [DescriptorNode(d)]);
    var s2 := Scan.Run(s1, d.qualifiers, QualifierStepFor(d.ui), Scan.Never);
    Scan.Run(s2, d.concepts, ConceptStepFor(d.ui), Scan.Never)
  }

  /** parse_xml over the children of the root, in order. */
  function ParseXml(start: MeshState, ds: seq<Descriptor>): MeshState {
    Scan.Run(start, ds, DescriptorStep, Scan.Never)
  }

  function NoChecks(): MeshChecks {
    MeshChecks({}, {}, {})
  }

  // ---------------------------------------------------------------------------
  // The relationship and descriptor logs: one entry per occurrence, in order

  function DescriptorPiece(d: Descriptor): seq<Props> {
    [DescriptorNode(d)]
  }

  function AllowedPiece(dui: string): Qualifier -> seq<Rel> {
    (q: Qualifier) => [AllowedRel(dui, q)]
  }

  function HasConceptPiece(dui: string): Concept -> seq<Rel> {
    (c: Concept) => [HasConceptRel(dui, c)]
  }

  function RelatedPiece(rel: Relation): seq<Rel> {
    [RelatedRel(rel)]
  }

  function HasTermPiece(cui: string): Term -> seq<Rel> {
    (t: Term) => [HasTermRel(cui, t)]
  }

  /** The ALLOWED of a descriptor: one per allowable qualifier, in order. */
  function AllowedOf(d: Descriptor): seq<Rel> {
    Scan.Flat(d.qualifiers, AllowedPiece(d.ui))
  }

  /** The Descriptor-HAS-Concept of a descriptor: one per concept, in order. */
  function HasConceptOf(d: Descriptor): seq<Rel> {
    Scan.Flat(d.concepts, HasConceptPiece(d.ui))
  }

  function ConceptRelated(c: Concept): seq<Rel> {
    Scan.Flat(c.relations, RelatedPiece)
  }

  /** The RELATED of a descriptor: one per concept relation of each of its concepts, in order. */
  function RelatedOf(d: Descriptor): seq<Rel> {
    Scan.Flat(d.concepts, ConceptRelated)
  }

  function ConceptHasTerm(c: Concept): seq<Rel> {
    Scan.Flat(c.terms, HasTermPiece(c.ui))
  }

  /** The Concept-HAS-Term of a descriptor: one per term of each of its concepts, in order. */
  function HasTermOf(d: Descriptor): seq<Rel> {
    Scan.Flat(d.concepts, ConceptHasTerm)
  }

  /** One ALLOWED per allowable qualifier, from the descriptor to the qualifier, with source 'mesh'. */
  lemma AllowedOfEach(d: Descriptor)
    ensures |AllowedOf(d)| == |d.qualifiers|
    ensures forall i :: 0 <= i < |d.qualifiers| ==> AllowedOf(d)[i] == AllowedRel(d.ui, d.qualifiers[i])
  {
    Scan.FlatOnes(d.qualifiers, AllowedPiece(d.ui));
  }

  /** One Descriptor-HAS-Concept per concept, carrying its PreferredConceptYN. */
  lemma HasConceptOfEach(d: Descriptor)
    ensures |HasConceptOf(d)| == |d.concepts|
    ensures forall i :: 0 <= i < |d.concepts| ==> HasConceptOf(d)[i] == HasConceptRel(d.ui, d.concepts[i])
  {
    Scan.FlatOnes(d.concepts, HasConceptPiece(d.ui));
  }

  /** One RELATED per concept relation, from Concept1UI to Concept2UI, named by RelationName. */
  lemma ConceptRelatedEach(c: Concept)
    ensures |ConceptRelated(c)| == |c.relations|
    ensures forall i :: 0 <= i < |c.relations| ==> ConceptRelated(c)[i] == RelatedRel(c.relations[i])
  {
    Scan.FlatOnes(c.relations, RelatedPiece);
  }

  /** One Concept-HAS-Term per term, carrying its ConceptPreferredTermYN. */
  lemma ConceptHasTermEach(c: Concept)
    ensures |ConceptHasTerm(c)| == |c.terms|
    ensures forall i :: 0 <= i < |c.terms| ==> ConceptHasTerm(c)[i] == HasTermRel(c.ui, c.terms[i])
  {
    Scan.FlatOnes(c.terms, HasTermPiece(c.ui));
  }

  /** The relations of a concept append their RELATED and change nothing else. */
  lemma {:induction false} RelationsLog(st: MeshState, rels: seq<Relation>)
    ensures Scan.Run(st, rels, RelatedStep, Scan.Never) == st.(related := st.related + Scan.Flat(rels, RelatedPiece))
    decreases |rels|
  {
    if rels != [] {
      var n := |rels| - 1;
      RelationsLog(st, rels[..n]);
      assert st.related + Scan.Flat(rels[..n], RelatedPiece) + RelatedPiece(rels[n])
          == st.related + (Scan.Flat(rels[..n], RelatedPiece) + RelatedPiece(rels[n]));
    }
  }

  /** The terms of a concept append their Concept-HAS-Term and touch no other relationship log. */
  lemma TermsLog(st: MeshState, c: Concept)
    ensures var after := Scan.Run(st, c.terms, TermStepFor(c.ui), Scan.Never);
      after.hasTerm == st.hasTerm + ConceptHasTerm(c) &&
      after.descriptors == st.descriptors && after.allowed == st.allowed &&
      after.hasConcept == st.hasConcept && after.related == st.related
  {
    Scan.RunLog(st, c.terms, TermStepFor(c.ui), Scan.Never, (s: MeshState) => s.hasTerm, HasTermPiece(c.ui));
    Scan.RunKeeps(st, c.terms, TermStepFor(c.ui), Scan.Never,
      (s: MeshState) => s.descriptors == st.descriptors && s.allowed == st.allowed && s.hasConcept == st.hasConcept && s.related == st.related);
  }

  /** The logs a concept appends to: one HAS, its relations, its terms' HAS; the descriptor and ALLOWED logs stay. */
  lemma ConceptStepLogs(dui: string, st: MeshState, c: Concept)
    ensures var after := ConceptStep(dui, st, c);
      after.descriptors == st.descriptors && after.allowed == st.allowed &&
      after.hasConcept == st.hasConcept + [HasConceptRel(dui, c)] &&
      after.related == st.related + ConceptRelated(c) &&
      after.hasTerm == st.hasTerm + ConceptHasTerm(c)
  {
    var s1 := if c.ui in st.checks.concept then st
      else st.(concepts := st.concepts + [ConceptNode(c)], checks := st.checks.(concept := st.checks.concept + {c.ui}));
    var s2 := s1.(hasConcept := s1.hasConcept + [HasConceptRel(dui, c)]);
    RelationsLog(s2, c.relations);
    var s3 := Scan.Run(s2, c.relations, RelatedStep, Scan.Never);
    TermsLog(s3, c);
  }

  /** The logs a descriptor appends to: its node, its ALLOWED, its HAS, its RELATED and its terms' HAS. */
  lemma DescriptorStepLogs(st: MeshState, d: Descriptor)
    ensures var after := DescriptorStep(st, d);
      after.descriptors == st.descriptors + DescriptorPiece(d) &&
      after.allowed == st.allowed + AllowedOf(d) &&
      after.hasConcept == st.hasConcept + HasConceptOf(d) &&
      after.related == st.related + RelatedOf(d) &&
      after.hasTerm == st.hasTerm + HasTermOf(d)
  {
    var s1 := st.(descriptors := st.descriptors + [DescriptorNode(d)]);
    Scan.RunLog(s1, d.qualifiers, QualifierStepFor(d.ui), Scan.Never, (s: MeshState) => s.allowed, AllowedPiece(d.ui));
    Scan.RunKeeps(s1, d.qualifiers, QualifierStepFor(d.ui), Scan.Never,
      (s: MeshState) => s.descriptors == s1.descriptors && s.hasConcept == s1.hasConcept && s.related == s1.related && s.hasTerm == s1.hasTerm);
    var s2 := Scan.Run(s1, d.qualifiers, QualifierStepFor(d.ui), Scan.Never);
    forall s: MeshState, c: Concept
      ensures ConceptStepFor(d.ui)(s, c).hasConcept == s.hasConcept + HasConceptPiece(d.ui)(c)
      ensures ConceptStepFor(d.ui)(s, c).related == s.related + ConceptRelated(c)
      ensures ConceptStepFor(d.ui)(s, c).hasTerm == s.hasTerm + ConceptHasTerm(c)
      ensures ConceptStepFor(d.ui)(s, c).descriptors == s.descriptors && ConceptStepFor(d.ui)(s, c).allowed == s.allowed
    {
      ConceptStepLogs(d.ui, s, c);
    }
    Scan.RunLog(s2, d.concepts, ConceptStepFor(d.ui), Scan.Never, (s: MeshState) => s.hasConcept, HasConceptPiece(d.ui));
    Scan.RunLog(s2, d.concepts, ConceptStepFor(d.ui), Scan.Never, (s: MeshState) => s.related, ConceptRelated);
    Scan.RunLog(s2, d.concepts, ConceptStepFor(d.ui), Scan.Never, (s: MeshState) => s.hasTerm, ConceptHasTerm);
    Scan.RunKeeps(s2, d.concepts, ConceptStepFor(d.ui), Scan.Never,
      (s: MeshState) => s.descriptors == s2.descriptors && s.allowed == s2.allowed);
  }

  /**
   * Over the whole file every log without a check set gets one entry per
   * occurrence, in document order: one descriptor node per record, and the
   * ALLOWED, HAS and RELATED of every record.
   */
  lemma ParseXmlLogs(start: MeshState, ds: seq<Descriptor>)
    ensures var after := ParseXml(start, ds);
      after.descriptors == start.descriptors + Scan.Flat(ds, DescriptorPiece) &&
      after.allowed == start.allowed + Scan.Flat(ds, AllowedOf) &&
      after.hasConcept == start.hasConcept + Scan.Flat(ds, HasConceptOf) &&
      after.related == start.related + Scan.Flat(ds, RelatedOf) &&
      after.hasTerm == start.hasTerm + Scan.Flat(ds, HasTermOf)
  {
    forall s: MeshState, d: Descriptor
      ensures DescriptorStep(s, d).descriptors == s.descriptors + DescriptorPiece(d)
      ensures DescriptorStep(s, d).allowed == s.allowed + AllowedOf(d)
      ensures DescriptorStep(s, d).hasConcept == s.hasConcept + HasConceptOf(d)
      ensures DescriptorStep(s, d).related == s.related + RelatedOf(d)
      ensures DescriptorStep(s, d).hasTerm == s.hasTerm + HasTermOf(d)
    {
      DescriptorStepLogs(s, d);
    }
    Scan.RunLog(start, ds, DescriptorStep, Scan.Never, (s: MeshState) => s.descriptors, DescriptorPiece);
    Scan.RunLog(start, ds, DescriptorStep, Scan.Never, (s: MeshState) => s.allowed, AllowedOf);
    Scan.RunLog(start, ds, DescriptorStep, Scan.Never, (s: MeshState) => s.hasConcept, HasConceptOf);
    Scan.RunLog(start, ds, DescriptorStep, Scan.Never, (s: MeshState) => s.related, RelatedOf);
    Scan.RunLog(start, ds, DescriptorStep, Scan.Never, (s: MeshState) => s.hasTerm, HasTermOf);
  }

  /** Exactly one descriptor node per descriptor record, the i-th for the i-th record, with no deduplication. */
  lemma DescriptorPerRecord(start: MeshState, ds: seq<Descriptor>)
    ensures var log := ParseXml(start, ds).descriptors;
      |log| == |start.descriptors| + |ds| &&
      log[..|start.descriptors|] == start.descriptors &&
      forall i :: 0 <= i < |ds| ==> log[|start.descriptors| + i] == DescriptorNode(ds[i])
  {
    ParseXmlLogs(start, ds);
    Scan.FlatOnes(ds, DescriptorPiece);
  }

  // ---------------------------------------------------------------------------
  // The node logs: one node per UI

  /**
   * No qualifier, concept or term UI has two nodes, and the check sets hold
   * exactly the UIs of the nodes added.
   */
  ghost predicate MeshInvariant(st: MeshState) {
    Dedup.Recorded(st.qualifiers, st.checks.qualifier, SidText) &&
    Dedup.Recorded(st.concepts, st.checks.concept, SidText) &&
    Dedup.Recorded(st.terms, st.checks.term, SidText)
  }

  lemma QualifierStepKeeps(dui: string, st: MeshState, q: Qualifier)
    requires MeshInvariant(st)
    ensures MeshInvariant(QualifierStep(dui, st, q))
  {
    if q.ui !in st.checks.qualifier {
      Dedup.RecordNew(st.qualifiers, st.checks.qualifier, SidText, QualifierNode(q));
    }
  }

  lemma TermStepKeeps(cui: string, st: MeshState, t: Term)
    requires MeshInvariant(st)
    ensures MeshInvariant(TermStep(cui, st, t))
  {
    if t.ui !in st.checks.term {
      Dedup.RecordNew(st.terms, st.checks.term, SidText, TermNode(t));
    }
  }

  lemma ConceptStepKeeps(dui: string, st: MeshState, c: Concept)
    requires MeshInvariant(st)
    ensures MeshInvariant(ConceptStep(dui, st, c))
  {
    if c.ui !in st.checks.concept {
      Dedup.RecordNew(st.concepts, st.checks.concept, SidText, ConceptNode(c));
    }
    var s1 := if c.ui in st.checks.concept then st
      else st.(concepts := st.concepts + [ConceptNode(c)], checks := st.checks.(concept := st.checks.concept + {c.ui}));
    var s2 := s1.(hasConcept := s1.hasConcept + [HasConceptRel(dui, c)]);
    Scan.RunKeeps(s2, c.relations, RelatedStep, Scan.Never, MeshInvariant);
    var s3 := Scan.Run(s2, c.relations, RelatedStep, Scan.Never);
    forall s: MeshState, t: Term | MeshInvariant(s) && !Scan.Never(s)
      ensures MeshInvariant(TermStepFor(c.ui)(s, t))
    {
      TermStepKeeps(c.ui, s, t);
    }
    Scan.RunKeeps(s3, c.terms, TermStepFor(c.ui), Scan.Never, MeshInvariant);
  }

  lemma DescriptorStepKeeps(st: MeshState, d: Descriptor)
    requires MeshInvariant(st)
    ensures MeshInvariant(DescriptorStep(st, d))
  {
    var s1 := st.(descriptors := st.descriptors + [DescriptorNode(d)]);
    forall s: MeshState, q: Qualifier | MeshInvariant(s) && !Scan.Never(s)
      ensures MeshInvariant(QualifierStepFor(d.ui)(s, q))
    {
      QualifierStepKeeps(d.ui, s, q);
    }
    Scan.RunKeeps(s1, d.qualifiers, QualifierStepFor(d.ui), Scan.Never, MeshInvariant);
    var s2 := Scan.Run(s1, d.qualifiers, QualifierStepFor(d.ui), Scan.Never);
    forall s: MeshState, c: Concept | MeshInvariant(s) && !Scan.Never(s)
      ensures MeshInvariant(ConceptStepFor(d.ui)(s, c))
    {
      ConceptStepKeeps(d.ui, s, c);
    }
    Scan.RunKeeps(s2, d.concepts, ConceptStepFor(d.ui), Scan.Never, MeshInvariant);
  }

  /** From empty logs and check sets: the guarantees of MeshInvariant hold after the whole file. */
  lemma ParseXmlDistinct(ds: seq<Descriptor>)
    ensures MeshInvariant(ParseXml(MeshState([], [], [], [], [], [], [], [], NoChecks()), ds))
  {
    forall s: MeshState, d: Descriptor | MeshInvariant(s) && !Scan.Never(s)
      ensures MeshInvariant(DescriptorStep(s, d))
    {
      DescriptorStepKeeps(s, d);
    }
    Scan.RunKeeps(MeshState([], [], [], [], [], [], [], [], NoChecks()), ds, DescriptorStep, Scan.Never, MeshInvariant);
  }

  /** The check sets only grow. */
  predicate Grows(a: MeshChecks, b: MeshChecks) {
    a.qualifier <= b.qualifier && a.concept <= b.concept && a.term <= b.term
  }

  /** Every UI of a concept is in the check sets. */
  predicate ConceptCovered(ch: MeshChecks, c: Concept) {
    c.ui in ch.concept && forall t :: t in c.terms ==> t.ui in ch.term
  }

  /** Every UI of a descriptor's qualifiers, concepts and terms is in the check sets. */
  predicate Covered(ch: MeshChecks, d: Descriptor) {
    (forall q :: q in d.qualifiers ==> q.ui in ch.qualifier) &&
    (forall c :: c in d.concepts ==> ConceptCovered(ch, c))
  }

  lemma ConceptStepCovers(dui: string, st: MeshState, c: Concept)
    ensures Grows(st.checks, ConceptStep(dui, st, c).checks)
    ensures ConceptCovered(ConceptStep(dui, st, c).checks, c)
  {
    var s1 := if c.ui in st.checks.concept then st
      else st.(concepts := st.concepts + [ConceptNode(c)], checks := st.checks.(concept := st.checks.concept + {c.ui}));
    var s2 := s1.(hasConcept := s1.hasConcept + [HasConceptRel(dui, c)]);
    Scan.RunKeeps(s2, c.relations, RelatedStep, Scan.Never, (s: MeshState) => s.checks == s2.checks);
    var s3 := Scan.Run(s2, c.relations, RelatedStep, Scan.Never);
    Scan.RunKeeps(s3, c.terms, TermStepFor(c.ui), Scan.Never, (s: MeshState) => Grows(s3.checks, s.checks));
    Scan.RunMarks(s3, c.terms, TermStepFor(c.ui), Scan.Never, (s: MeshState, t: Term) => t.ui in s.checks.term);
  }

  lemma DescriptorStepCovers(st: MeshState, d: Descriptor)
    ensures Grows(st.checks, DescriptorStep(st, d).checks)
    ensures Covered(DescriptorStep(st, d).checks, d)
  {
    var s1 := st.(descriptors := st.descriptors + [DescriptorNode(d)]);
    Scan.RunKeeps(s1, d.qualifiers, QualifierStepFor(d.ui), Scan.Never, (s: MeshState) => Grows(s1.checks, s.checks));
    Scan.RunMarks(s1, d.qualifiers, QualifierStepFor(d.ui), Scan.Never, (s: MeshState, q: Qualifier) => q.ui in s.checks.qualifier);
    var s2 := Scan.Run(s1, d.qualifiers, QualifierStepFor(d.ui), Scan.Never);
    forall s: MeshState, c: Concept
      ensures Grows(s.checks, ConceptStepFor(d.ui)(s, c).checks) && ConceptCovered(ConceptStepFor(d.ui)(s, c).checks, c)
    {
      ConceptStepCovers(d.ui, s, c);
    }
    Scan.RunKeeps(s2, d.concepts, ConceptStepFor(d.ui), Scan.Never, (s: MeshState) => Grows(s2.checks, s.checks));
    Scan.RunMarks(s2, d.concepts, ConceptStepFor(d.ui), Scan.Never, (s: MeshState, c: Concept) => ConceptCovered(s.checks, c));
  }

  /**
   * After the whole file every qualifier, concept and term UI that occurs in
   * it is in its check set, and so (with MeshInvariant) has exactly one node.
   */
  lemma ParseXmlCovers(start: MeshState, ds: seq<Descriptor>)
    ensures forall d :: d in ds ==> Covered(ParseXml(start, ds).checks, d)
  {
    forall s: MeshState, d: Descriptor
      ensures Grows(s.checks, DescriptorStep(s, d).checks) && Covered(DescriptorStep(s, d).checks, d)
    {
      DescriptorStepCovers(s, d);
    }
    Scan.RunMarks(start, ds, DescriptorStep, Scan.Never, (s: MeshState, d: Descriptor) => Covered(s.checks, d));
  }

  // ---------------------------------------------------------------------------
  // MeshParser

  class MeshParser {
    var descriptor: seq<Props>
    var qualifier: seq<Props>
    var concept: seq<Props>
    var term: seq<Props>
    var descriptorAllowedQualifier: seq<Rel>
    var descriptorHasConcept: seq<Rel>
    var conceptHasTerm: seq<Rel>
    var conceptRelatedConcept: seq<Rel>

    constructor ()
      ensures descriptor == [] && qualifier == [] && concept == [] && term == []
      ensures descriptorAllowedQualifier == [] && descriptorHasConcept == [] && conceptHasTerm == [] && conceptRelatedConcept == []
    {
      descriptor, qualifier, concept, term := [], [], [], [];
      descriptorAllowedQualifier, descriptorHasConcept, conceptHasTerm, conceptRelatedConcept := [], [], [], [];
    }

    function State(checks: MeshChecks): MeshState
      reads this
    {
      MeshState(descriptor, qualifier, concept, term,
        descriptorAllowedQualifier, descriptorHasConcept, conceptHasTerm, conceptRelatedConcept, checks)
    }

    /** parse_xml over the descriptor records of the file. */
    method ParseXmlRecords(ds: seq<Descriptor>)
      modifies this
      ensures State(NoChecks()) == ParseXml(old(State(NoChecks())), ds).(checks := NoChecks())
    {
      ghost var start := State(NoChecks());
      var checks := NoChecks();
      var i := 0;
      while i < |ds|
        invariant 0 <= i <= |ds|
        invariant Scan.Run(start, ds[..i], DescriptorStep, Scan.Never) == State(checks)
      {
        Scan.RunNext(start, ds, i, DescriptorStep, Scan.Never);
        checks := DescriptorRecord(ds[i], checks);
        i := i + 1;
      }
      Scan.RunAll(start, ds, DescriptorStep, Scan.Never);
    }

    /** The body of the descriptor loop. */
    method DescriptorRecord(d: Descriptor, checks: MeshChecks) returns (checksAfter: MeshChecks)
      modifies this
      ensures State(checksAfter) == DescriptorStep(old(State(checks)), d)
    {
      descriptor := descriptor + [DescriptorNode(d)];
      checksAfter := Qualifiers(d.ui, d.qualifiers, checks);
      checksAfter := Concepts(d.ui, d.concepts, checksAfter);
    }

    method Qualifiers(dui: string, qs: seq<Qualifier>, checks: MeshChecks) returns (checksAfter: MeshChecks)
      modifies this
      ensures State(checksAfter) == Scan.Run(old(State(checks)), qs, QualifierStepFor(dui), Scan.Never)
    {
      ghost var start := State(checks);
      checksAfter := checks;
      var k := 0;
      while k < |qs|
        invariant 0 <= k <= |qs|
        invariant Scan.Run(start, qs[..k], QualifierStepFor(dui), Scan.Never) == State(checksAfter)
      {
        Scan.RunNext(start, qs, k, QualifierStepFor(dui), Scan.Never);
        var q := qs[k];
        if q.ui !in checksAfter.qualifier {
          qualifier := qualifier + [QualifierNode(q)];
          checksAfter := checksAfter.(qualifier := checksAfter.qualifier + {q.ui});
        }
        descriptorAllowedQualifier := descriptorAllowedQualifier + [AllowedRel(dui, q)];
        k := k + 1;
      }
      Scan.RunAll(start, qs, QualifierStepFor(dui), Scan.Never);
    }

    method Concepts(dui: string, cs: seq<Concept>, checks: MeshChecks) returns (checksAfter: MeshChecks)
      modifies this
      ensures State(checksAfter) == Scan.Run(old(State(checks)), cs, ConceptStepFor(dui), Scan.Never)
    {
      ghost var start := State(checks);
      checksAfter := checks;
      var k := 0;
      while k < |cs|
        invariant 0 <= k <= |cs|
        invariant Scan.Run(start, cs[..k], ConceptStepFor(dui), Scan.Never) == State(checksAfter)
      {
        Scan.RunNext(start, cs, k, ConceptStepFor(dui), Scan.Never);
        checksAfter := ConceptEntry(dui, cs[k], checksAfter);
        k := k + 1;
      }
      Scan.RunAll(start, cs, ConceptStepFor(dui), Scan.Never);
    }

    /** The body of the concept loop. */
    method ConceptEntry(dui: string, c: Concept, checks: MeshChecks) returns (checksAfter: MeshChecks)
      modifies this
      ensures State(checksAfter) == ConceptStep(dui, old(State(checks)), c)
    {
      checksAfter := checks;
      if c.ui !in checksAfter.concept {
        concept := concept + [ConceptNode(c)];
        checksAfter := checksAfter.(concept := checksAfter.concept + {c.ui});
      }
      descriptorHasConcept := descriptorHasConcept + [HasConceptRel(dui, c)];
      Relations(c.relations, checksAfter);
      checksAfter := Terms(c.ui, c.terms, checksAfter);
    }

    method Relations(rels: seq<Relation>, checks: MeshChecks)
      modifies this
      ensures State(checks) == Scan.Run(old(State(checks)), rels, RelatedStep, Scan.Never)
    {
      ghost var start := State(checks);
      var k := 0;
      while k < |rels|
        invariant 0 <= k <= |rels|
        invariant Scan.Run(start, rels[..k], RelatedStep, Scan.Never) == State(checks)
      {
        Scan.RunNext(start, rels, k, RelatedStep, Scan.Never);
        conceptRelatedConcept := conceptRelatedConcept + [RelatedRel(rels[k])];
        k := k + 1;
      }
      Scan.RunAll(start, rels, RelatedStep, Scan.Never);
    }

    method Terms(cui: string, ts: seq<Term>, checks: MeshChecks) returns (checksAfter: MeshChecks)
      modifies this
      ensures State(checksAfter) == Scan.Run(old(State(checks)), ts, TermStepFor(cui), Scan.Never)
    {
      ghost var start := State(checks);
      checksAfter := checks;
      var k := 0;
      while k < |ts|
        invariant 0 <= k <= |ts|
        invariant Scan.Run(start, ts[..k], TermStepFor(cui), Scan.Never) == State(checksAfter)
      {
        Scan.RunNext(start, ts, k, TermStepFor(cui), Scan.Never);
        var t := ts[k];
        if t.ui !in checksAfter.term {
          term := term + [TermNode(t)];
          checksAfter := checksAfter.(term := checksAfter.term + {t.ui});
        }
        conceptHasTerm := conceptHasTerm + [HasTermRel(cui, t)];
        k := k + 1;
      }
      Scan.RunAll(start, ts, TermStepFor(cui), Scan.Never);
    }
  }
}
