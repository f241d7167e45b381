/**
 * The HGNC parser (biomedgraph/parser/hgnc.py).
 *
 * parse_hgnc_complete_file reads hgnc_complete_set.txt: the first line is the
 * header, every later line (stripped, split on tabs) gives one Gene node with
 * sid = field 1 and source = 'hgnc' over the other columns, Gene-MAPS-Gene to
 * the NCBI id (field 19) and to the Ensembl id (field 20) where those are
 * present and not empty, and Gene-MAPS-GeneSymbol (taxid '9606') to the
 * symbol (field 2) when it is not empty.  Nothing is deduplicated.
 *
 * The node properties zip the header with the fields.  As written the header
 * is the unsplit header line, so the keys are its single characters; the
 * model records that (GenePropsAsWritten) and uses the header's tab-separated
 * column names (GeneProps).
 */
module Hgnc {
  import opened Results
  import opened PyStr
  import opened Graph
  import Scan

  /** l.strip().split('\t') */
  function HgncFields(line: string): (r: seq<string>)
    ensures |r| >= 1
  {
    Split(Strip(line), "\t")
  }

  /** flds[18] if len(flds) > 18 else None */
  function NcbiId(flds: seq<string>): (r: Option<string>)
    ensures r.Some? <==> |flds| > 18
    ensures r.Some? ==> r.value == flds[18]
  {
    if |flds| > 18 then Some(flds[18]) else None
  }

  /** flds[19] if len(flds) > 19 else None */
  function EnsemblId(flds: seq<string>): (r: Option<string>)
    ensures r.Some? <==> |flds| > 19
    ensures r.Some? ==> r.value == flds[19]
  {
    if |flds| > 19 then Some(flds[19]) else None
  }

  /** The truth of an optional string: None and '' are false. */
  predicate Truthy(x: Option<string>) {
    x.Some? && x.value != ""
  }

  /** The shorter length, where zip stops. */
  function ZipLength(a: nat, b: nat): nat {
    if a < b then a else b
  }

  /** The fields as string values. */
  function StrValues(flds: seq<string>): (r: seq<Value>)
    ensures |r| == |flds| && forall k :: 0 <= k < |flds| ==> r[k] == Str(flds[k])
  {
    seq(|flds|, k requires 0 <= k < |flds| => Str(flds[k]))
  }

  // ---------------------------------------------------------------------------
  // The props as written and as intended

  /**
   * The node of a data line: dict(zip(names, flds)), which stops at the
   * shorter of the two, then sid = field 1 and source = 'hgnc' set over it.
   */
  function GeneProps(names: seq<string>, flds: seq<string>): (p: Props)
    requires |flds| >= 1
    ensures "sid" in p && p["sid"] == Str(flds[0])
    ensures "source" in p && p["source"] == Str("hgnc")
  {
    var m := ZipLength(|names|, |flds|);
    FromPairs(names[..m], StrValues(flds)[..m])["sid" := Str(flds[0])]["source" := Str("hgnc")]
  }

  /** The keys zip takes from a string: its characters, one by one. */
  function CharKeys(header: string): (r: seq<string>)
    ensures |r| == |header| && forall k :: 0 <= k < |header| ==> r[k] == [header[k]]
  {
    seq(|header|, k requires 0 <= k < |header| => [header[k]])
  }

  /** The node props as written: zip(header, flds) with the header line itself, whose items are characters. */
  function GenePropsAsWritten(header: string, flds: seq<string>): (p: Props)
    requires |flds| >= 1
    ensures "sid" in p && "source" in p
  {
    GeneProps(CharKeys(header), flds)
  }

  /**
   * With the header 'hgnc_id\tsymbol\n' and the fields 'HGNC:5', 'A1BG', the
   * keys are the characters 'h' and 'g', and neither column name is a key.
   */
  lemma GenePropsAsWrittenExample()
    ensures var p := GenePropsAsWritten("hgnc_id\tsymbol\n", ["HGNC:5", "A1BG"]);
      p.Keys == {"h", "g", "sid", "source"} && p["h"] == Str("HGNC:5") && p["g"] == Str("A1BG") &&
      "hgnc_id" !in p && "symbol" !in p
  {
    var ks := CharKeys("hgnc_id\tsymbol\n");
    var vs := StrValues(["HGNC:5", "A1BG"]);
    assert ks[..2] == ["h", "g"];
    assert vs[..2] == [Str("HGNC:5"), Str("A1BG")];
    assert ["h", "g"][..1] == ["h"] && vs[..2][..1] == [Str("HGNC:5")];
    assert FromPairs(["h"], [Str("HGNC:5")]) == map["h" := Str("HGNC:5")];
    assert FromPairs(["h", "g"], [Str("HGNC:5"), Str("A1BG")]) == map["h" := Str("HGNC:5"), "g" := Str("A1BG")];
  }

  /** The column names of the header line: header.strip().split('\t'). */
  function HeaderNames(header: string): (r: seq<string>)
    ensures |r| >= 1
  {
    Split(Strip(header), "\t")
  }

  /**
   * The keys of the node are sid, source and the column names that have a
   * field; a column name other than sid and source that no later column
   * repeats holds its field.
   */
  lemma GenePropsFields(names: seq<string>, flds: seq<string>, j: nat)
    requires |flds| >= 1
    ensures GeneProps(names, flds).Keys ==
      {"sid", "source"} + set k | 0 <= k < ZipLength(|names|, |flds|) :: names[k]
    ensures (j < |names| && j < |flds| && names[j] !in {"sid", "source"} &&
             (forall l :: j < l < |names| && l < |flds| ==> names[l] != names[j])) ==>
      GeneProps(names, flds)[names[j]] == Str(flds[j])
  {
    var m := ZipLength(|names|, |flds|);
    var ks := names[..m];
    assert (set k | k in ks) == set k | 0 <= k < m :: names[k] by {
      forall x | x in ks ensures exists k :: 0 <= k < m && names[k] == x {
        var k :| 0 <= k < |ks| && ks[k] == x;
      }
    }
    if j < |names| && j < |flds| && names[j] !in {"sid", "source"} &&
      (forall l :: j < l < |names| && l < |flds| ==> names[l] != names[j]) {
      FromPairsLast(ks, StrValues(flds)[..m], j);
    }
  }

  // ---------------------------------------------------------------------------
  // The relationships of a line

  /** Gene-MAPS-Gene to the NCBI and the Ensembl id, each only when present and not empty. */
  function GeneMaps(flds: seq<string>): (r: seq<Rel>)
    requires |flds| >= 1
    ensures |r| == (if Truthy(NcbiId(flds)) then 1 else 0) + (if Truthy(EnsemblId(flds)) then 1 else 0)
    ensures forall k :: 0 <= k < |r| ==> r[k].start == SidProps(flds[0]) && r[k].props == SourceProps("hgnc")
    ensures Truthy(NcbiId(flds)) ==> r[0].end == SidProps(flds[18])
    ensures Truthy(EnsemblId(flds)) ==> r[|r| - 1].end == SidProps(flds[19])
  {
    var sid := flds[0];
    var ncbi, ensembl := NcbiId(flds), EnsemblId(flds);
    (if Truthy(ncbi) then [SidRel(sid, ncbi.value, SourceProps("hgnc"))] else []) +
    (if Truthy(ensembl) then [SidRel(sid, ensembl.value, SourceProps("hgnc"))] else [])
  }

  /** The GeneSymbol end {'sid': symbol, 'taxid': '9606'}. */
  function SymbolProps(symbol: string): (p: Props)
    ensures p.Keys == {"sid", "taxid"} && p["sid"] == Str(symbol) && p["taxid"] == Str("9606")
  {
    map["sid" := Str(symbol), "taxid" := Str("9606")]
  }

  /** Gene-MAPS-GeneSymbol, only when the symbol is not empty. */
  function SymbolMaps(flds: seq<string>): (r: seq<Rel>)
    requires |flds| >= 2
    ensures |r| == if flds[1] != "" then 1 else 0
    ensures flds[1] != "" ==> r[0] == Rel(SidProps(flds[0]), SymbolProps(flds[1]), SourceProps("hgnc"))
  {
    if flds[1] != "" then [Rel(SidProps(flds[0]), SymbolProps(flds[1]), SourceProps("hgnc"))] else []
  }

  // ---------------------------------------------------------------------------
  // The file

  datatype HgncState = HgncState(genes: seq<Props>, mapsGene: seq<Rel>, mapsSymbol: seq<Rel>, raised: Option<Error>)

  predicate HgncRaised(st: HgncState) {
    st.raised.Some?
  }

  type Fields = flds: seq<string> | |flds| >= 1 witness [""]

  /** One data line: a line without a second field raises IndexError at flds[1] before anything is added. */
  function HgncStep(names: seq<string>, st: HgncState, flds: Fields): HgncState {
    if |flds| < 2 then st.(raised := Some(IndexError("flds[1]")))
    else HgncState(st.genes + [GeneProps(names, flds)], st.mapsGene + GeneMaps(flds),
                   st.mapsSymbol + SymbolMaps(flds), None)
  }

  function HgncStepFor(names: seq<string>): (HgncState, Fields) -> HgncState {
    (st: HgncState, flds: Fields) => HgncStep(names, st, flds)
  }

  /** The fields of the data lines. */
  function DataRows(lines: seq<string>): (r: seq<Fields>)
    ensures |r| == |lines| && forall k :: 0 <= k < |lines| ==> r[k] == HgncFields(lines[k])
  {
    seq(|lines|, k requires 0 <= k < |lines| => HgncFields(lines[k]))
  }

  /** parse_hgnc_complete_file over the lines of the file: next(f) raises StopIteration on an empty file. */
  function ParseFile(start: HgncState, lines: seq<string>): HgncState {
    if lines == [] then start.(raised := Some(StopIteration))
    else Scan.Run(start, DataRows(lines[1..]), HgncStepFor(HeaderNames(lines[0])), HgncRaised)
  }

  function GenesOf(st: HgncState): seq<Props> {
    st.genes
  }

  function MapsGeneOf(st: HgncState): seq<Rel> {
    st.mapsGene
  }

  function MapsSymbolOf(st: HgncState): seq<Rel> {
    st.mapsSymbol
  }

  function GenePiece(names: seq<string>): Fields -> seq<Props> {
    (flds: Fields) => [GeneProps(names, flds)]
  }

  function GeneMapsPiece(flds: Fields): seq<Rel> {
    GeneMaps(flds)
  }

  function SymbolPiece(flds: Fields): seq<Rel> {
    if |flds| >= 2 then SymbolMaps(flds) else []
  }

  /** When no line raises, the i-th Gene node is the node of the i-th data line: one per line, no deduplication. */
  lemma GenesPerLine(start: HgncState, lines: seq<string>)
    requires lines != [] && !HgncRaised(ParseFile(start, lines))
    ensures var r, rows := ParseFile(start, lines), DataRows(lines[1..]);
      |r.genes| == |start.genes| + |rows| &&
      forall i :: 0 <= i < |rows| ==> r.genes[|start.genes| + i] == GeneProps(HeaderNames(lines[0]), rows[i])
  {
    var names := HeaderNames(lines[0]);
    var rows := DataRows(lines[1..]);
    var step := HgncStepFor(names);
    forall s: HgncState, flds: Fields | !HgncRaised(s) && !HgncRaised(step(s, flds))
      ensures GenesOf(step(s, flds)) == GenesOf(s) + GenePiece(names)(flds)
    {
    }
    Scan.RunLog(start, rows, step, HgncRaised, GenesOf, GenePiece(names));
    Scan.FlatOnes(rows, GenePiece(names));
  }

  /** When no line raises, the Gene-MAPS-Gene log is the concatenated MAPS of the data lines, in order. */
  lemma GeneMapsPerLine(start: HgncState, lines: seq<string>)
    requires lines != [] && !HgncRaised(ParseFile(start, lines))
    ensures ParseFile(start, lines).mapsGene == start.mapsGene + Scan.Flat(DataRows(lines[1..]), GeneMapsPiece)
  {
    var step := HgncStepFor(HeaderNames(lines[0]));
    forall s: HgncState, flds: Fields | !HgncRaised(s) && !HgncRaised(step(s, flds))
      ensures MapsGeneOf(step(s, flds)) == MapsGeneOf(s) + GeneMapsPiece(flds)
    {
    }
    Scan.RunLog(start, DataRows(lines[1..]), step, HgncRaised, MapsGeneOf, GeneMapsPiece);
  }

  /** When no line raises, the Gene-MAPS-GeneSymbol log is the concatenated MAPS of the data lines, in order. */
  lemma SymbolMapsPerLine(start: HgncState, lines: seq<string>)
    requires lines != [] && !HgncRaised(ParseFile(start, lines))
    ensures ParseFile(start, lines).mapsSymbol == start.mapsSymbol + Scan.Flat(DataRows(lines[1..]), SymbolPiece)
  {
    var step := HgncStepFor(HeaderNames(lines[0]));
    forall s: HgncState, flds: Fields | !HgncRaised(s) && !HgncRaised(step(s, flds))
      ensures MapsSymbolOf(step(s, flds)) == MapsSymbolOf(s) + SymbolPiece(flds)
    {
    }
    Scan.RunLog(start, DataRows(lines[1..]), step, HgncRaised, MapsSymbolOf, SymbolPiece);
  }

  /** The mark a step leaves on a row it does not raise on: the row has a second field. */
  predicate LongRow(st: HgncState, flds: Fields) {
    |flds| >= 2
  }

  /** Every data line has at least two fields when the file is read to its end. */
  lemma NoShortLine(start: HgncState, lines: seq<string>)
    requires lines != [] && !HgncRaised(ParseFile(start, lines))
    ensures forall flds :: flds in DataRows(lines[1..]) ==> |flds| >= 2
  {
    var step := HgncStepFor(HeaderNames(lines[0]));
    Scan.RunMarks(start, DataRows(lines[1..]), step, HgncRaised, LongRow);
  }

  class HGNCParser {
    var genes: seq<Props>
    var geneMapsGene: seq<Rel>
    var geneMapsGenesymbol: seq<Rel>

    constructor ()
      ensures genes == [] && geneMapsGene == [] && geneMapsGenesymbol == []
    {
      genes, geneMapsGene, geneMapsGenesymbol := [], [], [];
    }

    function State(raised: Option<Error>): HgncState
      reads this
    {
      HgncState(genes, geneMapsGene, geneMapsGenesymbol, raised)
    }

    /** parse_hgnc_complete_file over the lines of hgnc_complete_set.txt. */
    method ParseHgncCompleteFile(lines: seq<string>) returns (raised: Option<Error>)
      modifies this
      ensures State(raised) == ParseFile(old(State(None)), lines)
    {
      if lines == [] {
        return Some(StopIteration);
      }
      var names := HeaderNames(lines[0]);
      var rest := lines[1..];
      ghost var rows := DataRows(rest);
      ghost var start := State(None);
      for i := 0 to |rest|
        invariant Scan.Run(start, rows[..i], HgncStepFor(names), HgncRaised) == State(None)
      {
        Scan.RunNext(start, rows, i, HgncStepFor(names), HgncRaised);
        raised := Line(names, HgncFields(rest[i]));
        if raised.Some? {
          Scan.RunHalted(start, rows, i + 1, HgncStepFor(names), HgncRaised);
          return;
        }
      }
      Scan.RunAll(start, rows, HgncStepFor(names), HgncRaised);
      raised := None;
    }

    /** The body of the line loop. */
    method Line(names: seq<string>, flds: Fields) returns (raised: Option<Error>)
      modifies this
      ensures State(raised) == HgncStep(names, old(State(None)), flds)
    {
      var sid := flds[0];
      if |flds| < 2 {
        return Some(IndexError("flds[1]"));
      }
      var geneSymbol := flds[1];
      var ncbiId := NcbiId(flds);
      var ensemblId := EnsemblId(flds);
      var allProps := GeneProps(names, flds);
      genes := genes + [allProps];
      var maps := [];
      if ncbiId.Some? && ncbiId.value != "" {
        maps := maps + [SidRel(sid, ncbiId.value, SourceProps("hgnc"))];
      }
      if ensemblId.Some? && ensemblId.value != "" {
        maps := maps + [SidRel(sid, ensemblId.value, SourceProps("hgnc"))];
      }
      assert maps == GeneMaps(flds);
      geneMapsGene := geneMapsGene + maps;
      if geneSymbol != "" {
        geneMapsGenesymbol := geneMapsGenesymbol + [Rel(SidProps(sid), SymbolProps(geneSymbol), SourceProps("hgnc"))];
      }
      raised := None;
    }
  }
}
