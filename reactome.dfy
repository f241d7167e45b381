/**
 * The Reactome parsers (biomedgraph/parser/reactome.py).
 *
 * ReactomePathwayParser adds one Pathway node per line of
 * ReactomePathways.txt, its taxid being the organism translated by the
 * TaxTranslator (the string 'None' when the organism is unknown), then one
 * Pathway-CHILD-Pathway per line of ReactomePathwaysRelation.txt.
 *
 * ReactomeMappingParser reads the Ensembl mapping file, then the NCBI one, and
 * adds Gene-MEMBER-Pathway for every row whose organism translates to the
 * requested taxid.
 *
 * Both create their TaxTranslator on first use and keep it: `names` stands for
 * names.dmp of the NcbiTaxonomy instance the translator reads.
 */
module Reactome {
  import opened Results
  import opened PyStr
  import opened Graph
  import PyDict
  import Scan
  import opened TaxTranslator

  /** l.strip().split('\t') */
  function ReactomeFields(line: string): (r: seq<string>)
    ensures |r| >= 1
  {
    Split(Strip(line), "\t")
  }

  function Rows(lines: seq<string>): (r: seq<seq<string>>)
    ensures |r| == |lines| && forall k :: 0 <= k < |lines| ==> r[k] == ReactomeFields(lines[k])
  {
    seq(|lines|, k requires 0 <= k < |lines| => ReactomeFields(lines[k]))
  }

  /** The field at i, or "" past the end (for the pieces of rows that raise before using it). */
  function Col(flds: seq<string>, i: nat): string {
    if i < |flds| then flds[i] else ""
  }

  /** str(taxtranslator.translate(org)) over the tables t. */
  function TaxidStr(t: Tables, org: string): (r: string)
    ensures Resolve(t, Normalise(org)).Some? ==> r == Resolve(t, Normalise(org)).value
    ensures Resolve(t, Normalise(org)).None? ==> r == "None"
  {
    match Resolve(t, Normalise(org))
    case Some(taxid) => taxid
    case None => "None"
  }

  /** The translation run applies, str(translate(org)), once the translator holds the tables t. */
  function TaxOf(t: Tables): string -> string {
    (org: string) => TaxidStr(t, org)
  }

  /** The translator as the loops see it: the translation, or the error creating it raises. */
  function Translating(tr: Result<Tables>): Result<string -> string> {
    match tr
    case Ok(t) => Ok(TaxOf(t))
    case Err(e) => Err(e)
  }

  /** The organism org as the loops translate it: its taxid string, or the error creating the translator raises. */
  function Translated(tx: Result<string -> string>, org: string): (r: Result<string>)
    ensures tx.Err? <==> r.Err?
    ensures r.Err? ==> r.error == tx.error
    ensures r.Ok? ==> r.value == tx.value(org)
  {
    match tx
    case Ok(tax) => Ok(tax(org))
    case Err(e) => Err(e)
  }

  /** An organism the translator does not know translates to the string 'None'. */
  lemma UnknownOrganism(t: Tables, org: string)
    requires Resolve(t, Normalise(org)).None?
    ensures TaxOf(t)(org) == "None"
  {
  }

  /** A known organism translates to its taxid. */
  lemma KnownOrganism(t: Tables, org: string)
    requires Resolve(t, Normalise(org)).Some?
    ensures TaxOf(t)(org) == Resolve(t, Normalise(org)).value
  {
  }

  // ---------------------------------------------------------------------------
  // ReactomePathwayParser

  /** A line of ReactomePathways.txt as the loop reads it: sid, name and organism, or the field a short line lacks. */
  datatype PathRow = ShortPath(missing: string) | PathRow(sid: string, name: string, org: string)

  /** flds[0], flds[1] and flds[2], or IndexError on a line of fewer than three fields. */
  function ParsePathRow(flds: seq<string>): (r: PathRow)
    ensures r.ShortPath? <==> |flds| < 3
    ensures r.PathRow? ==> r == PathRow(flds[0], flds[1], flds[2])
  {
    if |flds| < 3 then ShortPath(if |flds| < 2 then "flds[1]" else "flds[2]")
    else PathRow(flds[0], flds[1], flds[2])
  }

  function PathRows(lines: seq<string>): (r: seq<PathRow>)
    ensures |r| == |lines| && forall k :: 0 <= k < |lines| ==> r[k] == ParsePathRow(ReactomeFields(lines[k]))
  {
    seq(|lines|, k requires 0 <= k < |lines| => ParsePathRow(ReactomeFields(lines[k])))
  }

  /** The Pathway node of a line of ReactomePathways.txt, its organism translated to taxid. */
  function PathwayNode(taxid: string, source: string, row: PathRow): (p: Props)
    requires row.PathRow?
    ensures p.Keys == {"taxid", "sid", "name", "org", "source"}
    ensures p["sid"] == Str(row.sid) && p["name"] == Str(row.name) && p["org"] == Str(row.org)
    ensures p["source"] == Str(source) && p["taxid"] == Str(taxid)
  {
    map["taxid" := Str(taxid), "sid" := Str(row.sid), "name" := Str(row.name),
        "org" := Str(row.org), "source" := Str(source)]
  }

  /** The CHILD of a line of ReactomePathwaysRelation.txt: from column 1 to column 2. */
  function ChildRel(source: string, flds: seq<string>): Rel {
    Rel(SidProps(Col(flds, 0)), SidProps(Col(flds, 1)), map["source" := Str(source)])
  }

  datatype PathState = PathState(pathways: seq<Props>, children: seq<Rel>, raised: Option<Error>)

  predicate PathRaised(st: PathState) {
    st.raised.Some?
  }

  /**
   * One line of run_pathways: IndexError on a line of fewer than three fields;
   * otherwise the translator is needed (its creation may raise), then the node.
   */
  function PathwayStep(tx: Result<string -> string>, source: string, st: PathState, row: PathRow): PathState {
    if row.ShortPath? then st.(raised := Some(IndexError(row.missing)))
    else match Translated(tx, row.org)
      case Err(e) => st.(raised := Some(e))
      case Ok(taxid) => st.(pathways := st.pathways + [PathwayNode(taxid, source, row)])
  }

  function PathwayStepFor(tx: Result<string -> string>, source: string): (PathState, PathRow) -> PathState {
    (st: PathState, row: PathRow) => PathwayStep(tx, source, st, row)
  }

  /** One line of run_pathway_child: IndexError on a line of one field, otherwise the CHILD. */
  function ChildStep(source: string, st: PathState, flds: seq<string>): PathState {
    if |flds| < 2 then st.(raised := Some(IndexError("flds[1]")))
    else st.(children := st.children + [ChildRel(source, flds)])
  }

  function ChildStepFor(source: string): (PathState, seq<string>) -> PathState {
    (st: PathState, flds: seq<string>) => ChildStep(source, st, flds)
  }

  /** run_pathways over the split lines of ReactomePathways.txt. */
  function PathwaysRun(tx: Result<string -> string>, source: string, start: PathState, rows: seq<PathRow>): PathState {
    Scan.Run(start, rows, PathwayStepFor(tx, source), PathRaised)
  }

  /** run_pathway_child over the split lines of ReactomePathwaysRelation.txt. */
  function ChildRun(source: string, start: PathState, rows: seq<seq<string>>): PathState {
    Scan.Run(start, rows, ChildStepFor(source), PathRaised)
  }

  /** run: run_pathways, then run_pathway_child. */
  function PathwayParserRun(tx: Result<string -> string>, source: string, start: PathState,
                            pathwayRows: seq<PathRow>, relationRows: seq<seq<string>>): PathState {
    var st := PathwaysRun(tx, source, start, pathwayRows);
    if PathRaised(st) then st else ChildRun(source, st, relationRows)
  }

  function ChildrenOf(st: PathState): seq<Rel> {
    st.children
  }

  function PathwaysOf(st: PathState): seq<Props> {
    st.pathways
  }

  function ChildPiece(source: string): seq<string> -> seq<Rel> {
    (flds: seq<string>) => [ChildRel(source, flds)]
  }

  /** The mark of a line run_pathway_child does not raise on: it has two fields. */
  predicate TwoFields(st: PathState, flds: seq<string>) {
    |flds| >= 2
  }

  /**
   * When run_pathway_child does not raise, it added exactly one CHILD per line,
   * the k-th from column 1 to column 2 of line k, with the datasource as source.
   */
  lemma ChildPerLine(source: string, start: PathState, rows: seq<seq<string>>)
    requires !PathRaised(start) && !PathRaised(ChildRun(source, start, rows))
    ensures var r := ChildRun(source, start, rows);
      |r.children| == |start.children| + |rows| &&
      forall k :: 0 <= k < |rows| ==> (|rows[k]| >= 2 &&
        r.children[|start.children| + k] == Rel(SidProps(rows[k][0]), SidProps(rows[k][1]), map["source" := Str(source)]))
  {
    var step := ChildStepFor(source);
    Scan.RunLog(start, rows, step, PathRaised, ChildrenOf, ChildPiece(source));
    Scan.FlatOnes(rows, ChildPiece(source));
    Scan.RunMarks(start, rows, step, PathRaised, TwoFields);
    forall k | 0 <= k < |rows|
      ensures |rows[k]| >= 2
    {
      assert rows[k] in rows;
    }
  }

  function PathwayPiece(tax: string -> string, source: string): PathRow -> seq<Props> {
    (row: PathRow) => if row.PathRow? then [PathwayNode(tax(row.org), source, row)] else []
  }

  /** The mark of a line run_pathways does not raise on: it has three fields. */
  predicate ThreeFields(st: PathState, row: PathRow) {
    row.PathRow?
  }

  lemma PathwaysPerLine(tax: string -> string, source: string, start: PathState, rows: seq<PathRow>)
    requires !PathRaised(start) && !PathRaised(PathwaysRun(Ok(tax), source, start, rows))
    ensures var r := PathwaysRun(Ok(tax), source, start, rows);
      |r.pathways| == |start.pathways| + |rows| &&
      forall k :: 0 <= k < |rows| ==> (rows[k].PathRow? &&
        r.pathways[|start.pathways| + k] == PathwayNode(tax(rows[k].org), source, rows[k]))
  {
    var step := PathwayStepFor(Ok(tax), source);
    Scan.RunLog(start, rows, step, PathRaised, PathwaysOf, PathwayPiece(tax, source));
    Scan.RunMarks(start, rows, step, PathRaised, ThreeFields);
    forall k | 0 <= k < |rows|
      ensures rows[k].PathRow?
    {
      assert rows[k] in rows;
    }
    Scan.FlatOnesIn(rows, PathwayPiece(tax, source));
  }

  /** The mark of a line run_pathways does not raise on: the translator was created. */
  predicate TranslatorMade(tx: Result<string -> string>, st: PathState, row: PathRow) {
    tx.Ok?
  }

  function TranslatorMadeFor(tx: Result<string -> string>): (PathState, PathRow) -> bool {
    (st: PathState, row: PathRow) => TranslatorMade(tx, st, row)
  }

  /** run_pathways gets through a non-empty file only when the translator could be created. */
  lemma PathwaysNeedTranslator(tx: Result<string -> string>, source: string, start: PathState, rows: seq<PathRow>)
    requires !PathRaised(start) && !PathRaised(PathwaysRun(tx, source, start, rows))
    ensures rows != [] ==> tx.Ok?
  {
    Scan.RunMarks(start, rows, PathwayStepFor(tx, source), PathRaised, TranslatorMadeFor(tx));
    if rows != [] {
      assert rows[0] in rows;
    }
  }

  /** run adds the pathways first and the CHILD relationships only after all of them. */
  lemma PathwayParserOrder(tx: Result<string -> string>, source: string, start: PathState,
                           pathwayRows: seq<PathRow>, relationRows: seq<seq<string>>)
    requires !PathRaised(start) && !PathRaised(PathwayParserRun(tx, source, start, pathwayRows, relationRows))
    ensures var r := PathwayParserRun(tx, source, start, pathwayRows, relationRows);
      r.pathways == PathwaysRun(tx, source, start, pathwayRows).pathways &&
      r.children == start.children + Scan.Flat(relationRows, ChildPiece(source))
  {
    var mid := PathwaysRun(tx, source, start, pathwayRows);
    Scan.RunKeeps(start, pathwayRows, PathwayStepFor(tx, source), PathRaised,
                  (s: PathState) => s.children == start.children);
    var childStep := ChildStepFor(source);
    Scan.RunKeeps(mid, relationRows, childStep, PathRaised,
                  (s: PathState) => s.pathways == mid.pathways);
    Scan.RunLog(mid, relationRows, childStep, PathRaised, ChildrenOf, ChildPiece(source));
  }

  class ReactomePathwayParser {
    /** names.dmp of the NcbiTaxonomy instance. */
    const names: seq<string>
    /** The name of the Reactome datasource. */
    const source: string
    /** What creating the TaxTranslator gives. */
    ghost const tr: Result<Tables>

    var pathways: seq<Props>
    var pathwayChildPathway: seq<Rel>
    /** _taxtranslator: None until first use. */
    var taxtranslator: Translator?

    /** The translator, once created, holds the tables of names.dmp and a sound cache. */
    ghost predicate Ready()
      reads this`taxtranslator, taxtranslator
    {
      tr == Initial(names) &&
      (taxtranslator != null ==>
         tr.Ok? && taxtranslator.Tabs() == tr.value && taxtranslator.Valid() && taxtranslator.CacheSound())
    }

    constructor (names: seq<string>, source: string)
      ensures this.names == names && this.source == source
      ensures pathways == [] && pathwayChildPathway == [] && taxtranslator == null && Ready()
    {
      this.names := names;
      this.source := source;
      tr := Initial(names);
      pathways, pathwayChildPathway := [], [];
      taxtranslator := null;
    }

    function State(raised: Option<Error>): PathState
      reads this`pathways, this`pathwayChildPathway
    {
      PathState(pathways, pathwayChildPathway, raised)
    }

    /** str(self.taxtranslator.translate(org)), creating the translator on first use. */
    method TranslateOrg(org: string) returns (r: Result<string>)
      requires Ready()
      modifies this`taxtranslator, taxtranslator
      ensures Ready()
      ensures old(taxtranslator) != null ==> taxtranslator == old(taxtranslator)
      ensures old(taxtranslator) == null && taxtranslator != null ==> fresh(taxtranslator)
      ensures r == Translated(Translating(tr), org)
    {
      var translator := Taxtranslator();
      if translator.Err? {
        return Err(translator.error);
      }
      var found := translator.value.Translate(org);
      r := Ok(if found.Some? then found.value else "None");
    }

    /** The taxtranslator property: created on first use, the same object afterwards. */
    method Taxtranslator() returns (r: Result<Translator>)
      requires Ready()
      modifies this`taxtranslator
      ensures Ready()
      ensures old(taxtranslator) != null ==> r == Ok(old(taxtranslator)) && taxtranslator == old(taxtranslator)
      ensures tr.Err? ==> r == Err(tr.error) && taxtranslator == null
      ensures tr.Ok? ==> r == Ok(taxtranslator) && taxtranslator != null
      ensures old(taxtranslator) == null && taxtranslator != null ==> fresh(taxtranslator)
    {
      if taxtranslator != null {
        return Ok(taxtranslator);
      }
      r := Translator.Create(names);
      if r.Ok? {
        taxtranslator := r.value;
      }
    }

    /** run over ReactomePathways.txt and ReactomePathwaysRelation.txt. */
    method Run(pathwayLines: seq<string>, relationLines: seq<string>) returns (raised: Option<Error>)
      requires Ready()
      modifies this, taxtranslator
      ensures Ready()
      ensures old(taxtranslator) != null ==> taxtranslator == old(taxtranslator)
      ensures State(raised) == PathwayParserRun(Translating(tr), source, old(State(None)), PathRows(pathwayLines), Rows(relationLines))
    {
      raised := RunPathways(pathwayLines);
      if raised.None? {
        raised := RunPathwayChild(relationLines);
      }
    }

    /** run_pathway_child */
    method RunPathwayChild(lines: seq<string>) returns (raised: Option<Error>)
      modifies this`pathwayChildPathway
      ensures State(raised) == ChildRun(source, old(State(None)), Rows(lines))
    {
      ghost var start := State(None);
      ghost var rows := Rows(lines);
      var step := ChildStepFor(source);
      for i := 0 to |lines|
        invariant Scan.Run(start, rows[..i], step, PathRaised) == State(None)
      {
        Scan.RunNext(start, rows, i, step, PathRaised);
        var flds := ReactomeFields(lines[i]);
        assert flds == rows[i];
        if |flds| < 2 {
          Scan.RunHalted(start, rows, i + 1, step, PathRaised);
          return Some(IndexError("flds[1]"));
        }
        pathwayChildPathway := pathwayChildPathway + [ChildRel(source, flds)];
      }
      Scan.RunAll(start, rows, step, PathRaised);
      raised := None;
    }

    /** run_pathways */
    method RunPathways(lines: seq<string>) returns (raised: Option<Error>)
      requires Ready()
      modifies this`pathways, this`taxtranslator, taxtranslator
      ensures Ready()
      ensures old(taxtranslator) != null ==> taxtranslator == old(taxtranslator)
      ensures old(taxtranslator) == null && taxtranslator != null ==> fresh(taxtranslator)
      ensures State(raised) == PathwaysRun(Translating(tr), source, old(State(None)), PathRows(lines))
    {
      ghost var start := State(None);
      ghost var rows := PathRows(lines);
      for i := 0 to |lines|
        invariant Ready()
        invariant old(taxtranslator) != null ==> taxtranslator == old(taxtranslator)
        invariant old(taxtranslator) == null && taxtranslator != null ==> fresh(taxtranslator)
        invariant Scan.Run(start, rows[..i], PathwayStepFor(Translating(tr), source), PathRaised) == State(None)
      {
        Scan.RunNext(start, rows, i, PathwayStepFor(Translating(tr), source), PathRaised);
        raised := PathwayLine(ParsePathRow(ReactomeFields(lines[i])));
        if raised.Some? {
          Scan.RunHalted(start, rows, i + 1, PathwayStepFor(Translating(tr), source), PathRaised);
          return;
        }
      }
      Scan.RunAll(start, rows, PathwayStepFor(Translating(tr), source), PathRaised);
      raised := None;
    }

    /** The body of run_pathways' loop. */
    method PathwayLine(row: PathRow) returns (raised: Option<Error>)
      requires Ready()
      modifies this`pathways, this`taxtranslator, taxtranslator
      ensures Ready()
      ensures old(taxtranslator) != null ==> taxtranslator == old(taxtranslator)
      ensures old(taxtranslator) == null && taxtranslator != null ==> fresh(taxtranslator)
      ensures State(raised) == PathwayStep(Translating(tr), source, old(State(None)), row)
    {
      ghost var st := State(None);
      if row.ShortPath? {
        return Some(IndexError(row.missing));
      }
      var translated := TranslateOrg(row.org);
      assert State(None) == st;
      if translated.Err? {
        return Some(translated.error);
      }
      var node := PathwayNode(translated.value, source, row);
      assert PathwayStep(Translating(tr), source, st, row) == st.(pathways := st.pathways + [node]);
      pathways := pathways + [node];
      raised := None;
    }
  }

  // ---------------------------------------------------------------------------
  // ReactomeMappingParser

  /**
   * A mapping row as the loop reads it: the external id, the pathway, the
   * evidence code and the stripped organism, or the first field a short row
   * lacks.
   */
  datatype MapRow = Short(missing: string) | MapRow(externalId: string, reactomeId: string, evidence: string, org: string)

  /** The field run reads first that a short row lacks. */
  function MissingField(flds: seq<string>): string {
    if |flds| < 2 then "flds[1]" else if |flds| < 5 then "flds[4]" else "flds[5]"
  }

  /** flds[0], flds[1], flds[4] and flds[5].strip(), or IndexError on a row of fewer than six fields. */
  function ParseMapRow(flds: seq<string>): (r: MapRow)
    ensures r.Short? <==> |flds| < 6
    ensures r.MapRow? ==> r == MapRow(flds[0], flds[1], flds[4], Strip(flds[5]))
  {
    if |flds| < 6 then Short(MissingField(flds)) else MapRow(flds[0], flds[1], flds[4], Strip(flds[5]))
  }

  function MapRows(lines: seq<string>): (r: seq<MapRow>)
    ensures |r| == |lines| && forall k :: 0 <= k < |lines| ==> r[k] == ParseMapRow(ReactomeFields(lines[k]))
  {
    seq(|lines|, k requires 0 <= k < |lines| => ParseMapRow(ReactomeFields(lines[k])))
  }

  /** The MEMBER of a mapping row: external id to pathway, evidence from column 5. */
  function MemberRel(row: MapRow): Rel
    requires row.MapRow?
  {
    Rel(SidProps(row.externalId), SidProps(row.reactomeId),
        map["source" := Str("reactome"), "evidence" := Str(row.evidence)])
  }

  /** Whether a row maps into the reference taxon. */
  predicate InTaxon(tax: string -> string, ref: string, row: MapRow) {
    row.MapRow? && tax(row.org) == ref
  }

  datatype MapState = MapState(members: seq<Rel>, raised: Option<Error>)

  predicate MapRaised(st: MapState) {
    st.raised.Some?
  }

  /**
   * One mapping row: IndexError on a short row; the translator is needed (its
   * creation may raise); MEMBER when the organism translates to the reference
   * taxid.
   */
  function MappingStep(tx: Result<string -> string>, ref: string, st: MapState, row: MapRow): MapState {
    if row.Short? then st.(raised := Some(IndexError(row.missing)))
    else match tx
      case Err(e) => st.(raised := Some(e))
      case Ok(tax) => if InTaxon(tax, ref, row) then st.(members := st.members + [MemberRel(row)]) else st
  }

  function MappingStepFor(tx: Result<string -> string>, ref: string): (MapState, MapRow) -> MapState {
    (st: MapState, row: MapRow) => MappingStep(tx, ref, st, row)
  }

  /** One mapping file, read into rows. */
  function MappingFileRun(tx: Result<string -> string>, ref: string, start: MapState, rows: seq<MapRow>): MapState {
    Scan.Run(start, rows, MappingStepFor(tx, ref), MapRaised)
  }

  /** run(taxid): the Ensembl mapping file, then the NCBI one. */
  function MappingRun(tx: Result<string -> string>, ref: string, start: MapState,
                      ensemblRows: seq<MapRow>, ncbiRows: seq<MapRow>): MapState {
    var st := MappingFileRun(tx, ref, start, ensemblRows);
    if MapRaised(st) then st else MappingFileRun(tx, ref, st, ncbiRows)
  }

  function MemberPiece(tax: string -> string, ref: string): MapRow -> seq<Rel> {
    (row: MapRow) => if InTaxon(tax, ref, row) then [MemberRel(row)] else []
  }

  function MembersOf(st: MapState): seq<Rel> {
    st.members
  }

  /** Without an error, a mapping file adds the MEMBER of each of its rows in the reference taxon, in order. */
  lemma MappingFileLog(tax: string -> string, ref: string, start: MapState, rows: seq<MapRow>)
    requires !MapRaised(start) && !MapRaised(MappingFileRun(Ok(tax), ref, start, rows))
    ensures MappingFileRun(Ok(tax), ref, start, rows).members == start.members + Scan.Flat(rows, MemberPiece(tax, ref))
  {
    Scan.RunLog(start, rows, MappingStepFor(Ok(tax), ref), MapRaised, MembersOf, MemberPiece(tax, ref));
  }

  /** run adds the MEMBERs of the Ensembl file first, then those of the NCBI file. */
  lemma MappingOrder(tax: string -> string, ref: string, start: MapState,
                     ensemblRows: seq<MapRow>, ncbiRows: seq<MapRow>)
    requires !MapRaised(start) && !MapRaised(MappingRun(Ok(tax), ref, start, ensemblRows, ncbiRows))
    ensures MappingRun(Ok(tax), ref, start, ensemblRows, ncbiRows).members ==
      start.members + Scan.Flat(ensemblRows, MemberPiece(tax, ref)) + Scan.Flat(ncbiRows, MemberPiece(tax, ref))
  {
    var mid := MappingFileRun(Ok(tax), ref, start, ensemblRows);
    MappingFileLog(tax, ref, start, ensemblRows);
    MappingFileLog(tax, ref, mid, ncbiRows);
  }

  /** The mark of a row the mapping loop does not raise on: it has six fields. */
  predicate LongRow(st: MapState, row: MapRow) {
    row.MapRow?
  }

  /** A mapping file read without an error has no short row. */
  lemma MappingNoShortRow(tx: Result<string -> string>, ref: string, start: MapState, rows: seq<MapRow>)
    requires !MapRaised(MappingFileRun(tx, ref, start, rows))
    ensures forall row :: row in rows ==> row.MapRow?
  {
    Scan.RunMarks(start, rows, MappingStepFor(tx, ref), MapRaised, LongRow);
  }

  /** translate strips the organism itself, so stripping it first changes nothing. */
  lemma NormaliseStrip(org: string)
    ensures Normalise(Strip(org)) == Normalise(org)
  {
    var s := Strip(org);
    StripNoSpace(s);
    NormaliseLowerStrip(s);
    NormaliseLowerStrip(org);
  }

  /**
   * With the translator of the tables t, a line gives a MEMBER exactly when it
   * has six fields and its organism resolves to the reference taxid (a real
   * taxid, not the string 'None' of an unknown organism), and nothing otherwise.
   */
  lemma MemberTaxon(t: Tables, ref: string, flds: seq<string>)
    requires ref != "None"
    ensures |MemberPiece(TaxOf(t), ref)(ParseMapRow(flds))| == 1 <==>
      |flds| >= 6 && Resolve(t, Normalise(flds[5])) == Some(ref)
    ensures |MemberPiece(TaxOf(t), ref)(ParseMapRow(flds))| != 1 ==> MemberPiece(TaxOf(t), ref)(ParseMapRow(flds)) == []
  {
    if |flds| >= 6 {
      TaxOfStrip(t, flds[5]);
      TaxOfIs(t, flds[5], ref);
    }
  }

  /** Stripping the organism before translating it changes nothing. */
  lemma TaxOfStrip(t: Tables, org: string)
    ensures TaxOf(t)(Strip(org)) == TaxOf(t)(org)
  {
    NormaliseStrip(org);
  }

  /** An organism translates to a real taxid exactly when it resolves to it. */
  lemma TaxOfIs(t: Tables, org: string, ref: string)
    requires ref != "None"
    ensures TaxOf(t)(org) == ref <==> Resolve(t, Normalise(org)) == Some(ref)
  {
  }

  /** Every MEMBER runs from column 1 to column 2 of its line and carries column 5 as evidence. */
  lemma MemberFields(flds: seq<string>)
    requires |flds| >= 6
    ensures EndsOf(MemberRel(ParseMapRow(flds))) == (Str(flds[0]), Str(flds[1]))
    ensures MemberRel(ParseMapRow(flds)).props == map["source" := Str("reactome"), "evidence" := Str(flds[4])]
  {
  }

  class ReactomeMappingParser {
    /** names.dmp of the NcbiTaxonomy instance. */
    const names: seq<string>
    /** What creating the TaxTranslator gives. */
    ghost const tr: Result<Tables>

    var geneMemberPathway: seq<Rel>
    /** _taxtranslator: None until first use. */
    var taxtranslator: Translator?

    /** The translator, once created, holds the tables of names.dmp and a sound cache. */
    ghost predicate Ready()
      reads this`taxtranslator, taxtranslator
    {
      tr == Initial(names) &&
      (taxtranslator != null ==>
         tr.Ok? && taxtranslator.Tabs() == tr.value && taxtranslator.Valid() && taxtranslator.CacheSound())
    }

    constructor (names: seq<string>)
      ensures this.names == names && geneMemberPathway == [] && taxtranslator == null && Ready()
    {
      this.names := names;
      tr := Initial(names);
      geneMemberPathway := [];
      taxtranslator := null;
    }

    function State(raised: Option<Error>): MapState
      reads this`geneMemberPathway
    {
      MapState(geneMemberPathway, raised)
    }

    /** str(self.taxtranslator.translate(org)), creating the translator on first use. */
    method TranslateOrg(org: string) returns (r: Result<string>)
      requires Ready()
      modifies this`taxtranslator, taxtranslator
      ensures Ready()
      ensures old(taxtranslator) != null ==> taxtranslator == old(taxtranslator)
      ensures old(taxtranslator) == null && taxtranslator != null ==> fresh(taxtranslator)
      ensures r == Translated(Translating(tr), org)
    {
      var translator := Taxtranslator();
      if translator.Err? {
        return Err(translator.error);
      }
      var found := translator.value.Translate(org);
      r := Ok(if found.Some? then found.value else "None");
    }

    /** The taxtranslator property: created on first use, the same object afterwards. */
    method Taxtranslator() returns (r: Result<Translator>)
      requires Ready()
      modifies this`taxtranslator
      ensures Ready()
      ensures old(taxtranslator) != null ==> r == Ok(old(taxtranslator)) && taxtranslator == old(taxtranslator)
      ensures tr.Err? ==> r == Err(tr.error) && taxtranslator == null
      ensures tr.Ok? ==> r == Ok(taxtranslator) && taxtranslator != null
      ensures old(taxtranslator) == null && taxtranslator != null ==> fresh(taxtranslator)
    {
      if taxtranslator != null {
        return Ok(taxtranslator);
      }
      r := Translator.Create(names);
      if r.Ok? {
        taxtranslator := r.value;
      }
    }

    /** run(taxid): the Ensembl mapping file, then the NCBI one. */
    method Run(taxid: string, ensemblLines: seq<string>, ncbiLines: seq<string>) returns (raised: Option<Error>)
      requires Ready()
      modifies this, taxtranslator
      ensures Ready()
      ensures old(taxtranslator) != null ==> taxtranslator == old(taxtranslator)
      ensures State(raised) == MappingRun(Translating(tr), taxid, old(State(None)), MapRows(ensemblLines), MapRows(ncbiLines))
    {
      raised := RunMapping(taxid, ensemblLines);
      if raised.None? {
        raised := RunMapping(taxid, ncbiLines);
      }
    }

    /** run_ensembl_gene_pathway_mapping and run_ncbi_gene_pathway_mapping, which differ only in the file. */
    method RunMapping(referenceTaxid: string, lines: seq<string>) returns (raised: Option<Error>)
      requires Ready()
      modifies this`geneMemberPathway, this`taxtranslator, taxtranslator
      ensures Ready()
      ensures old(taxtranslator) != null ==> taxtranslator == old(taxtranslator)
      ensures old(taxtranslator) == null && taxtranslator != null ==> fresh(taxtranslator)
      ensures State(raised) == MappingFileRun(Translating(tr), referenceTaxid, old(State(None)), MapRows(lines))
    {
      ghost var start := State(None);
      ghost var rows := MapRows(lines);
      for i := 0 to |lines|
        invariant Ready()
        invariant old(taxtranslator) != null ==> taxtranslator == old(taxtranslator)
        invariant old(taxtranslator) == null && taxtranslator != null ==> fresh(taxtranslator)
        invariant Scan.Run(start, rows[..i], MappingStepFor(Translating(tr), referenceTaxid), MapRaised) == State(None)
      {
        Scan.RunNext(start, rows, i, MappingStepFor(Translating(tr), referenceTaxid), MapRaised);
        raised := MappingLine(referenceTaxid, ParseMapRow(ReactomeFields(lines[i])));
        if raised.Some? {
          Scan.RunHalted(start, rows, i + 1, MappingStepFor(Translating(tr), referenceTaxid), MapRaised);
          return;
        }
      }
      Scan.RunAll(start, rows, MappingStepFor(Translating(tr), referenceTaxid), MapRaised);
      raised := None;
    }

    /** The body of the mapping loop. */
    method MappingLine(referenceTaxid: string, row: MapRow) returns (raised: Option<Error>)
      requires Ready()
      modifies this`geneMemberPathway, this`taxtranslator, taxtranslator
      ensures Ready()
      ensures old(taxtranslator) != null ==> taxtranslator == old(taxtranslator)
      ensures old(taxtranslator) == null && taxtranslator != null ==> fresh(taxtranslator)
      ensures State(raised) == MappingStep(Translating(tr), referenceTaxid, old(State(None)), row)
    {
      if row.Short? {
        return Some(IndexError(row.missing));
      }
      var translated := TranslateOrg(row.org);
      if translated.Err? {
        return Some(translated.error);
      }
      var taxid := translated.value;
      if taxid == referenceTaxid {
        geneMemberPathway := geneMemberPathway + [Rel(SidProps(row.externalId), SidProps(row.reactomeId),
                                                      map["source" := Str("reactome"), "evidence" := Str(row.evidence)])];
      }
      raised := None;
    }
  }
}
