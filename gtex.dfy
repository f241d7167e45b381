/**
 * The GTEx parsers (biomedgraph/parser/gtex.py).
 *
 * GtexDataParser reads the gene median TPM table: it drops the first two
 * lines, takes the third as the header, and adds for every data line and every
 * column i >= 2 one Gene-EXPRESSED-GtexDetailedTissue relationship to the
 * header's column name, with the raw field as 'val'.  Lines are split on tabs
 * without stripping.
 *
 * GtexMetadataParser reads the sample attribute table (through pandas, here a
 * sequence of rows mapping column names to values) and adds per row one
 * GtexSample node, the tissue and the detailed tissue (add_unique), the two
 * MEASURES relationships and the tissue-PARENT-detailed tissue relationship.
 */
module Gtex {
  import opened Results
  import opened PyStr
  import opened Graph
  import Scan

  // ---------------------------------------------------------------------------
  // GtexDataParser

  /** line.split('\t'), the line not stripped. */
  function TabSplit(line: string): (r: seq<string>)
    ensures |r| >= 1
  {
    Split(line, "\t")
  }

  /** {'name': n} */
  function NameProps(n: string): (p: Props)
    ensures p.Keys == {"name"} && p["name"] == Str(n)
  {
    map["name" := Str(n)]
  }

  /** One EXPRESSED: gene to detailed tissue, with the raw field as 'val'. */
  function ExpressedRel(gene: string, tissue: string, value: string): Rel {
    Rel(SidProps(gene), NameProps(tissue), map["val" := Str(value)])
  }

  /** The number of columns i >= 2 a line reaches before it runs out of fields or of header names. */
  function Reached(header: seq<string>, flds: seq<string>): nat {
    var m := if |flds| < |header| then |flds| else |header|;
    if m < 2 then 0 else m - 2
  }

  /** The line raises IndexError at header_fields[i] when it has a field i >= 2 beyond the header. */
  predicate Overlong(header: seq<string>, flds: seq<string>) {
    |flds| > 2 && |flds| > |header|
  }

  /**
   * The EXPRESSED of a line, column by column from i = 2: one per field that
   * has a header name, to that name, with the field as value; a line no
   * longer than the header gives one per field from the third on.
   */
  function LineRels(header: seq<string>, flds: seq<string>): (r: seq<Rel>)
    requires |flds| >= 1
    ensures |r| == Reached(header, flds)
    ensures forall k :: 0 <= k < |r| ==> r[k] == ExpressedRel(NoVersion(flds[0]), header[k + 2], flds[k + 2])
    ensures !Overlong(header, flds) ==> |r| == if |flds| < 2 then 0 else |flds| - 2
  {
    var gene := NoVersion(flds[0]);
    seq(Reached(header, flds), k requires 0 <= k < Reached(header, flds) =>
      ExpressedRel(gene, header[k + 2], flds[k + 2]))
  }

  /** The inner loop after the fields flds[..i]: the EXPRESSED of that prefix. */
  lemma LineRelsNext(header: seq<string>, flds: seq<string>, i: nat)
    requires 2 <= i < |flds| && i < |header|
    ensures LineRels(header, flds[..i + 1]) ==
      LineRels(header, flds[..i]) + [ExpressedRel(NoVersion(flds[0]), header[i], flds[i])]
  {
    assert flds[..i + 1][0] == flds[..i][0] == flds[0];
  }

  /** Fields past the end of the header add nothing. */
  lemma LineRelsBeyond(header: seq<string>, flds: seq<string>, i: nat)
    requires 1 <= i <= |flds| && |header| <= i
    ensures LineRels(header, flds[..i]) == LineRels(header, flds)
  {
    assert flds[..i][0] == flds[0];
  }

  datatype DataState = DataState(expressed: seq<Rel>, raised: Option<Error>)

  predicate DataRaised(st: DataState) {
    st.raised.Some?
  }

  type Fields = flds: seq<string> | |flds| >= 1 witness [""]

  /** One data line: its EXPRESSED up to the end of the header, then IndexError if it goes beyond. */
  function DataStep(header: seq<string>, st: DataState, flds: Fields): DataState {
    DataState(st.expressed + LineRels(header, flds),
              if Overlong(header, flds) then Some(IndexError("header_fields[i]")) else None)
  }

  function DataStepFor(header: seq<string>): (DataState, Fields) -> DataState {
    (st: DataState, flds: Fields) => DataStep(header, st, flds)
  }

  function DataRows(lines: seq<string>): (r: seq<Fields>)
    ensures |r| == |lines| && forall k :: 0 <= k < |lines| ==> r[k] == TabSplit(lines[k])
  {
    seq(|lines|, k requires 0 <= k < |lines| => TabSplit(lines[k]))
  }

  /** run over the lines of the file: lines[2:], then lines.pop(0) as the header, which raises on an empty list. */
  function DataRun(start: DataState, lines: seq<string>): DataState {
    if |lines| < 3 then start.(raised := Some(IndexError("pop from empty list")))
    else Scan.Run(start, DataRows(lines[3..]), DataStepFor(TabSplit(lines[2])), DataRaised)
  }

  function ExpressedOf(st: DataState): seq<Rel> {
    st.expressed
  }

  function LinePiece(header: seq<string>): Fields -> seq<Rel> {
    (flds: Fields) => LineRels(header, flds)
  }

  /**
   * The third line is the header and the lines after it are the data: when no
   * line raises, the EXPRESSED log is the EXPRESSED of every data line, in order.
   */
  lemma DataRunLog(start: DataState, lines: seq<string>)
    requires !DataRaised(start) && !DataRaised(DataRun(start, lines))
    ensures |lines| >= 3
    ensures DataRun(start, lines).expressed ==
      start.expressed + Scan.Flat(DataRows(lines[3..]), LinePiece(TabSplit(lines[2])))
  {
    var step := DataStepFor(TabSplit(lines[2]));
    Scan.RunLog(start, DataRows(lines[3..]), step, DataRaised, ExpressedOf, LinePiece(TabSplit(lines[2])));
  }

  /** The mark a step leaves on a line it does not raise on: the line is no longer than the header. */
  predicate WithinHeader(header: seq<string>, st: DataState, flds: Fields) {
    !Overlong(header, flds)
  }

  function WithinHeaderFor(header: seq<string>): (DataState, Fields) -> bool {
    (st: DataState, flds: Fields) => WithinHeader(header, st, flds)
  }

  /** When no line raises, no data line is longer than the header, so each gives one EXPRESSED per field from the third on. */
  lemma DataRunWithinHeader(start: DataState, lines: seq<string>)
    requires !DataRaised(DataRun(start, lines))
    ensures |lines| >= 3
    ensures forall flds :: flds in DataRows(lines[3..]) ==>
      |LineRels(TabSplit(lines[2]), flds)| == if |flds| < 2 then 0 else |flds| - 2
  {
    var header := TabSplit(lines[2]);
    Scan.RunMarks(start, DataRows(lines[3..]), DataStepFor(header), DataRaised, WithinHeaderFor(header));
  }

  class GtexDataParser {
    /** The gene_expressed_tissue RelationshipSet, as the log of its add_relationship calls. */
    var geneExpressedTissue: seq<Rel>

    constructor ()
      ensures geneExpressedTissue == []
    {
      geneExpressedTissue := [];
    }

    function State(raised: Option<Error>): DataState
      reads this
    {
      DataState(geneExpressedTissue, raised)
    }

    /** run over the lines of the gene median TPM file. */
    method Run(lines: seq<string>) returns (raised: Option<Error>)
      modifies this
      ensures State(raised) == DataRun(old(State(None)), lines)
    {
      var rest := if |lines| >= 2 then lines[2..] else [];
      if rest == [] {
        return Some(IndexError("pop from empty list"));
      }
      var headerFields := TabSplit(rest[0]);
      rest := rest[1..];
      assert rest == lines[3..];
      ghost var rows := DataRows(rest);
      ghost var start := State(None);
      for j := 0 to |rest|
        invariant Scan.Run(start, rows[..j], DataStepFor(headerFields), DataRaised) == State(None)
      {
        Scan.RunNext(start, rows, j, DataStepFor(headerFields), DataRaised);
        raised := Line(headerFields, TabSplit(rest[j]));
        if raised.Some? {
          Scan.RunHalted(start, rows, j + 1, DataStepFor(headerFields), DataRaised);
          return;
        }
      }
      Scan.RunAll(start, rows, DataStepFor(headerFields), DataRaised);
      raised := None;
    }

    /** One data line: the enumerate loop over the fields from the third on. */
    method Line(headerFields: seq<string>, flds: Fields) returns (raised: Option<Error>)
      modifies this
      ensures State(raised) == DataStep(headerFields, old(State(None)), flds)
    {
      var geneId := NoVersion(flds[0]);
      if |flds| <= 2 {
        return None;
      }
      for i := 2 to |flds|
        invariant i == 2 || i <= |headerFields|
        invariant geneExpressedTissue == old(geneExpressedTissue) + LineRels(headerFields, flds[..i])
      {
        if i >= |headerFields| {
          LineRelsBeyond(headerFields, flds, i);
          return Some(IndexError("header_fields[i]"));
        }
        LineRelsNext(headerFields, flds, i);
        geneExpressedTissue := geneExpressedTissue + [ExpressedRel(geneId, headerFields[i], flds[i])];
      }
      assert flds[..|flds|] == flds;
      raised := None;
    }
  }

  // ---------------------------------------------------------------------------
  // GtexMetadataParser

  /** The sample attribute columns the sample node copies, after its sid. */
  const SAMPLE_COLUMNS: seq<string> := [
    "SMATSSCR", "SMCENTER", "SMPTHNTS", "SMRIN", "SMTS", "SMTSD", "SMUBRID", "SMTSISCH", "SMTSPAX",
    "SMNABTCH", "SMNABTCHT", "SMNABTCHD", "SMGEBTCH", "SMGEBTCHD", "SMGEBTCHT", "SMAFRZE", "SMGTC",
    "SME2MPRT", "SMCHMPRS", "SMNTRART", "SMNUMGPS", "SMMAPRT", "SMEXNCRT", "SM550NRM", "SMGNSDTC",
    "SMUNMPRT", "SM350NRM", "SMRDLGTH", "SMMNCPB", "SME1MMRT", "SMSFLGTH", "SMESTLBS", "SMMPPD",
    "SMNTERRT", "SMRRNANM", "SMRDTTL", "SMVQCFL", "SMMNCV", "SMTRSCPT", "SMMPPDPR", "SMCGLGTH",
    "SMGAPPCT", "SMUNPDRD", "SMNTRNRT", "SMMPUNRT", "SMEXPEFF", "SMMPPDUN", "SME2MMRT", "SME2ANTI",
    "SMALTALG", "SME2SNSE", "SMMFLGTH", "SME1ANTI", "SMSPLTRD", "SMBSMMRT", "SME1SNSE", "SME1PCTS",
    "SMRRNART", "SME1MPRT", "SMNUM5CD", "SMDPMPRT", "SME2PCTS"]

  /** A row of the sample attribute table: its columns by name. */
  type Row = map<string, Value>
  /** The three columns read before the props: row.SAMPID, row.SMTS and row.SMTSD. */
  const HEAD_COLUMNS: seq<string> := ["SAMPID", "SMTS", "SMTSD"]

  /** The first column a row does not have, where the attribute access raises AttributeError. */
  function FirstMissing(row: Row, cols: seq<string>): (r: Option<string>)
    ensures r.None? <==> forall c :: c in cols ==> c in row
    ensures r.Some? ==> r.value in cols && r.value !in row
    decreases |cols|
  {
    if cols == [] then None
    else if cols[0] !in row then Some(cols[0])
    else FirstMissing(row, cols[1..])
  }

  /** The first column a row is read at and does not have: the head columns first, then the props in order. */
  function MissingColumn(row: Row, cols: seq<string>): (r: Option<string>)
    ensures r.None? <==> "SAMPID" in row && "SMTS" in row && "SMTSD" in row && forall c :: c in cols ==> c in row
    ensures r.Some? ==> r.value !in row
  {
    match FirstMissing(row, HEAD_COLUMNS)
    case Some(c) => Some(c)
    case None => FirstMissing(row, cols)
  }

  /**
   * The props of the sample node: sid = SAMPID, then every listed column
   * under its own name (a later key of the dict display wins).
   */
  function SampleProps(row: Row, cols: seq<string>): (p: Props)
    requires "SAMPID" in row && forall c :: c in cols ==> c in row
    ensures p.Keys == {"sid"} + set c | c in cols
    ensures "sid" !in cols ==> p["sid"] == row["SAMPID"]
    ensures forall c :: c in cols ==> p[c] == row[c]
  {
    map k | k in {"sid"} + (set c | c in cols) :: if k in cols then row[k] else row["SAMPID"]
  }

  datatype MetaState = MetaState(
    samples: seq<Props>, tissues: seq<Props>, detailedTissues: seq<Props>,
    measuresTissue: seq<Rel>, measuresDetailed: seq<Rel>, parent: seq<Rel>, raised: Option<Error>)

  predicate MetaRaised(st: MetaState) {
    st.raised.Some?
  }

  /** {'name': v} for a value of the table. */
  function NameOf(v: Value): Props {
    map["name" := v]
  }

  /**
   * One row, its sample node holding the columns cols: a missing column
   * raises AttributeError before anything is added; otherwise the sample node,
   * the two tissues, the two MEASURES and PARENT.
   */
  function MetaStep(cols: seq<string>, st: MetaState, row: Row): MetaState {
    match MissingColumn(row, cols)
    case Some(c) => st.(raised := Some(AttributeError(c)))
    case None =>
      var sid, tissue, detailed := row["SAMPID"], row["SMTS"], row["SMTSD"];
      MetaState(
        st.samples + [SampleProps(row, cols)],
        st.tissues + [NameOf(tissue)],
        st.detailedTissues + [NameOf(detailed)],
        st.measuresTissue + [Rel(map["sid" := sid], NameOf(tissue), map[])],
        st.measuresDetailed + [Rel(map["sid" := sid], NameOf(detailed), map[])],
        st.parent + [Rel(NameOf(tissue), NameOf(detailed), map[])],
        None)
  }

  function MetaStepFor(cols: seq<string>): (MetaState, Row) -> MetaState {
    (st: MetaState, row: Row) => MetaStep(cols, st, row)
  }

  /** The loop over the rows of the table. */
  function MetaRun(cols: seq<string>, start: MetaState, rows: seq<Row>): MetaState {
    Scan.Run(start, rows, MetaStepFor(cols), MetaRaised)
  }

  function SampleCount(st: MetaState): int {
    |st.samples|
  }

  function MeasuresCount(st: MetaState): int {
    |st.measuresTissue|
  }

  function DetailedCount(st: MetaState): int {
    |st.measuresDetailed|
  }

  function ParentCount(st: MetaState): int {
    |st.parent|
  }

  function OneRow(row: Row): nat {
    1
  }

  /** When no row raises, every row gave exactly one sample node, one MEASURES of each kind and one PARENT. */
  lemma MetaPerRow(cols: seq<string>, start: MetaState, rows: seq<Row>)
    requires !MetaRaised(MetaRun(cols, start, rows))
    ensures var r := MetaRun(cols, start, rows);
      |r.samples| == |start.samples| + |rows| &&
      |r.measuresTissue| == |start.measuresTissue| + |rows| &&
      |r.measuresDetailed| == |start.measuresDetailed| + |rows| &&
      |r.parent| == |start.parent| + |rows|
  {
    var step := MetaStepFor(cols);
    Scan.RunTotal(start, rows, step, MetaRaised, SampleCount, OneRow);
    Scan.RunTotal(start, rows, step, MetaRaised, MeasuresCount, OneRow);
    Scan.RunTotal(start, rows, step, MetaRaised, DetailedCount, OneRow);
    Scan.RunTotal(start, rows, step, MetaRaised, ParentCount, OneRow);
    Scan.TotalOnes(rows, OneRow);
  }

  /**
   * A row raises exactly when it misses a column it is read at, and a row read
   * to the end links its sample to both tissues and the tissue to the detailed tissue.
   */
  lemma MetaRow(cols: seq<string>, st: MetaState, row: Row)
    ensures MetaRaised(MetaStep(cols, st, row)) <==>
      !("SAMPID" in row && "SMTS" in row && "SMTSD" in row && forall c :: c in cols ==> c in row)
    ensures !MetaRaised(MetaStep(cols, st, row)) ==> var r := MetaStep(cols, st, row);
      r.samples == st.samples + [SampleProps(row, cols)] &&
      r.measuresTissue == st.measuresTissue + [Rel(map["sid" := row["SAMPID"]], NameOf(row["SMTS"]), map[])] &&
      r.measuresDetailed == st.measuresDetailed + [Rel(map["sid" := row["SAMPID"]], NameOf(row["SMTSD"]), map[])] &&
      r.parent == st.parent + [Rel(NameOf(row["SMTS"]), NameOf(row["SMTSD"]), map[])]
  {
  }

  class GtexMetadataParser {
    var tissues: seq<Props>
    var detailedTissues: seq<Props>
    var sample: seq<Props>
    var sampleMeasuresTissue: seq<Rel>
    var sampleMeasuresDetailedTissue: seq<Rel>
    var tissueParentDetailedTissue: seq<Rel>

    constructor ()
      ensures tissues == [] && detailedTissues == [] && sample == []
      ensures sampleMeasuresTissue == [] && sampleMeasuresDetailedTissue == [] && tissueParentDetailedTissue == []
    {
      tissues, detailedTissues, sample := [], [], [];
      sampleMeasuresTissue, sampleMeasuresDetailedTissue, tissueParentDetailedTissue := [], [], [];
    }

    function State(raised: Option<Error>): MetaState
      reads this
    {
      MetaState(sample, tissues, detailedTissues, sampleMeasuresTissue, sampleMeasuresDetailedTissue,
                tissueParentDetailedTissue, raised)
    }

    /** run over the rows of the sample attribute table. */
    method Run(rows: seq<Row>) returns (raised: Option<Error>)
      modifies this
      ensures State(raised) == MetaRun(SAMPLE_COLUMNS, old(State(None)), rows)
    {
      raised := Rows(SAMPLE_COLUMNS, rows);
    }

    /** The row loop, its sample nodes holding the columns cols. */
    method Rows(cols: seq<string>, rows: seq<Row>) returns (raised: Option<Error>)
      modifies this
      ensures State(raised) == MetaRun(cols, old(State(None)), rows)
    {
      ghost var start := State(None);
      var step := MetaStepFor(cols);
      for i := 0 to |rows|
        invariant Scan.Run(start, rows[..i], step, MetaRaised) == State(None)
      {
        Scan.RunNext(start, rows, i, step, MetaRaised);
        raised := Row(cols, rows[i]);
        if raised.Some? {
          Scan.RunHalted(start, rows, i + 1, step, MetaRaised);
          return;
        }
      }
      Scan.RunAll(start, rows, step, MetaRaised);
      raised := None;
    }

    /** The body of the row loop. */
    method Row(cols: seq<string>, row: Row) returns (raised: Option<Error>)
      modifies this
      ensures State(raised) == MetaStep(cols, old(State(None)), row)
    {
      var missing := MissingColumn(row, cols);
      if missing.Some? {
        return Some(AttributeError(missing.value));
      }
      var sid, tissueName, detailedTissueName := row["SAMPID"], row["SMTS"], row["SMTSD"];
      var props := SampleProps(row, cols);
      sample := sample + [props];
      tissues := tissues + [NameOf(tissueName)];
      detailedTissues := detailedTissues + [NameOf(detailedTissueName)];
      sampleMeasuresTissue := sampleMeasuresTissue + [Rel(map["sid" := sid], NameOf(tissueName), map[])];
      sampleMeasuresDetailedTissue := sampleMeasuresDetailedTissue + [Rel(map["sid" := sid], NameOf(detailedTissueName), map[])];
      tissueParentDetailedTissue := tissueParentDetailedTissue + [Rel(NameOf(tissueName), NameOf(detailedTissueName), map[])];
      raised := None;
    }
  }
}
