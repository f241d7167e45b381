/**
 * The NCBI Gene parsers (biomedgraph/parser/ncbigene.py).
 *
 * NcbiGeneParser reads gene_info: the header line names the columns, every
 * row of the taxid gives one Gene node per distinct GeneID (its props overlaid
 * with the row zipped to the column names), GeneSymbol nodes for the primary
 * symbol and each synonym (one shared check set, never '-'), one SYNONYM per
 * synonym and one MAPS for the primary symbol and per synonym.
 * NcbiLegacyGeneParser reads gene_history: one legacy node per row of the
 * taxid and a REPLACED_BY when the row names a current gene.
 * NcbiGeneOrthologParser reads gene_orthologs: one ORTHOLOG per row.
 *
 * Each line is split into its fields first; the fields are then applied to
 * the loop's state, and the loop stops at the first row that raises.
 */
module NcbiGene {
  import opened Results
  import opened PyStr
  import opened Graph
  import Scan
  import Dedup

  /** The fields of a line split on a separator: there is always at least one. */
  type Fields = s: seq<string> | |s| >= 1 witness [""]

  /** The gene_info file run reads for a taxid: the species file when there is one, else the full file. */
  function GeneInfoFile(taxid: string): (r: string)
    ensures EndsWith(r, "gene_info.gz")
    ensures taxid in {"9606", "10090"} <==> r != "gene_info.gz"
  {
    if taxid == "9606" then "Homo_sapiens.gene_info.gz"
    else if taxid == "10090" then "Mus_musculus.gene_info.gz"
    else "gene_info.gz"
  }

  // ---------------------------------------------------------------------------
  // The header of gene_info

  /**
   * The column names of the header line: after '#Format:' the names between
   * the first ':' and the next '(' split on whitespace; after '#tax' the line
   * without its '#', stripped and split on tabs; any other header raises
   * AttributeError.
   */
  function HeaderFields(header: string): (r: Result<seq<string>>)
    ensures r.Err? <==> !StartsWith(header, "#Format:") && !StartsWith(header, "#tax")
    ensures r.Err? ==> r.error == AttributeError("File header was reformatted: " + header)
  {
    if StartsWith(header, "#Format:") then
      assert header == "#Format" + ":" + header[8..];
      SplitFirst("#Format", ':', header[8..]);
      Ok(SplitWs(Strip(Split(Split(header, ":")[1], "(")[0])))
    else if StartsWith(header, "#tax") then Ok(Split(Strip(header[1..]), "\t"))
    else Err(AttributeError("File header was reformatted: " + header))
  }

  /** A '#Format:' header gives the whitespace-separated names before its '('. */
  lemma FormatHeader(names: string, comment: string)
    requires ':' !in names && '(' !in names && ':' !in comment
    ensures HeaderFields("#Format:" + names + "(" + comment) == Ok(SplitWs(Strip(names)))
  {
    var rest := names + "(" + comment;
    FormatColon(rest);
    assert "#Format:" + names + "(" + comment == "#Format:" + rest;
    SplitFirst(names, '(', comment);
  }

  /** The text after the colon of '#Format:' is the second piece of the split on ':'. */
  lemma FormatColon(rest: string)
    requires ':' !in rest
    ensures StartsWith("#Format:" + rest, "#Format:") && Split("#Format:" + rest, ":") == ["#Format", rest]
  {
    SplitCharOnce("#Format", rest, ':');
    assert "#Format" + [':'] + rest == "#Format:" + rest;
  }

  /** A '#tax' header gives its tab-separated names, without the '#'. */
  lemma TaxHeader(names: string)
    requires !StartsWith("#tax" + names, "#Format:")
    ensures HeaderFields("#tax" + names) == Ok(Split(Strip("tax" + names), "\t"))
  {
    assert ("#tax" + names)[1..] == "tax" + names;
  }

  // ---------------------------------------------------------------------------
  // zip(header_fields, flds)

  /** dict(zip(ks, vs)): pairs up to the shorter of the two, a later pair overwriting an earlier one. */
  function Zip(ks: seq<string>, vs: seq<string>): map<string, string>
    decreases |ks|
  {
    if ks == [] || vs == [] then map[] else map[ks[0] := vs[0]] + Zip(ks[1..], vs[1..])
  }

  /** The keys of the zip are the names that have a value. */
  lemma {:induction false} ZipKeys(ks: seq<string>, vs: seq<string>, k: string)
    ensures k in Zip(ks, vs) <==> exists i :: 0 <= i < |ks| && i < |vs| && ks[i] == k
    decreases |ks|
  {
    if ks != [] && vs != [] {
      ZipKeys(ks[1..], vs[1..], k);
      if exists i :: 0 <= i < |ks| && i < |vs| && ks[i] == k {
        var i :| 0 <= i < |ks| && i < |vs| && ks[i] == k;
        if i > 0 {
          assert ks[1..][i - 1] == k;
        }
      }
      if exists i :: 0 <= i < |ks| - 1 && i < |vs| - 1 && ks[1..][i] == k {
        var i :| 0 <= i < |ks| - 1 && i < |vs| - 1 && ks[1..][i] == k;
        assert ks[i + 1] == k;
      }
    }
  }

  /** A name keeps the value of its last position. */
  lemma {:induction false} ZipLast(ks: seq<string>, vs: seq<string>, i: nat)
    requires i < |ks| && i < |vs|
    requires forall j :: i < j < |ks| && j < |vs| ==> ks[j] != ks[i]
    ensures ks[i] in Zip(ks, vs) && Zip(ks, vs)[ks[i]] == vs[i]
    decreases |ks|
  {
    if i == 0 {
      ZipKeys(ks[1..], vs[1..], ks[0]);
      forall j | 0 <= j < |ks| - 1 && j < |vs| - 1 ensures ks[1..][j] != ks[0] {
        assert ks[1..][j] == ks[j + 1];
      }
    } else {
      ZipLast(ks[1..], vs[1..], i - 1);
    }
  }

  // ---------------------------------------------------------------------------
  // NcbiGeneParser.parse_gene_info

  /** The props of a Gene node: sid and source, updated with the row zipped to the column names. */
  function GeneNode(header: seq<string>, flds: Fields): Props
    requires |flds| >= 2
  {
    Update(map["sid" := Str(flds[1]), "source" := Str("ncbigene")], Zip(header, flds))
  }

  /** Unless a column is named 'sid', a Gene node's sid is the row's GeneID; every named column with a value is a prop. */
  lemma GeneNodeProps(header: seq<string>, flds: Fields)
    requires |flds| >= 2
    ensures "sid" !in header ==> SidText(GeneNode(header, flds)) == flds[1]
    ensures forall i :: 0 <= i < |header| && i < |flds| ==> header[i] in GeneNode(header, flds)
  {
    if "sid" !in header {
      ZipKeys(header, flds, "sid");
    }
    forall i | 0 <= i < |header| && i < |flds| ensures header[i] in GeneNode(header, flds) {
      ZipKeys(header, flds, header[i]);
    }
  }

  /** {'sid': symbol, 'taxid': taxid}: a primary GeneSymbol node, and the key of a GeneSymbol end. */
  function SymbolRef(symbol: string, taxid: string): (p: Props)
    ensures SidText(p) == symbol
  {
    map["sid" := Str(symbol), "taxid" := Str(taxid)]
  }

  /** A synonym GeneSymbol node. */
  function SynonymNode(symbol: string, taxid: string): (p: Props)
    ensures SidText(p) == symbol
  {
    map["sid" := Str(symbol), "status" := Str("synonym"), "taxid" := Str(taxid)]
  }

  /** The four logs of the parser, its two check sets and the exception if one was raised. */
  datatype GeneInfoState = GeneInfoState(
    genes: seq<Props>, symbols: seq<Props>, synonymRels: seq<Rel>, mapsRels: seq<Rel>,
    checkIds: set<string>, checkSymbols: set<string>, raised: Option<Error>)

  /** A Gene node for a GeneID not seen before. */
  function AddGene(header: seq<string>, st: GeneInfoState, flds: Fields): GeneInfoState
    requires |flds| >= 2
  {
    if flds[1] in st.checkIds then st
    else st.(genes := st.genes + [GeneNode(header, flds)], checkIds := st.checkIds + {flds[1]})
  }

  /** A GeneSymbol node for a symbol not seen before and other than '-'. */
  function AddSymbol(st: GeneInfoState, symbol: string, node: Props): GeneInfoState {
    if symbol !in st.checkSymbols && symbol != "-" then
      st.(symbols := st.symbols + [node], checkSymbols := st.checkSymbols + {symbol})
    else st
  }

  /** One synonym of the inner loop: its SYNONYM to the primary symbol, then its node. */
  function SynonymStep(taxid: string, primary: string, st: GeneInfoState, synonym: string): GeneInfoState {
    var s := st.(synonymRels := st.synonymRels + [Rel(SymbolRef(synonym, taxid), SymbolRef(primary, taxid), SourceProps("ncbigene"))]);
    AddSymbol(s, synonym, SynonymNode(synonym, taxid))
  }

  function SynonymStepFor(taxid: string, primary: string): (GeneInfoState, string) -> GeneInfoState {
    (st: GeneInfoState, synonym: string) => SynonymStep(taxid, primary, st, synonym)
  }

  /** The MAPS from the gene to its primary symbol. */
  function PrimaryMaps(gene: string, primary: string, taxid: string): Rel {
    Rel(SidProps(gene), SymbolRef(primary, taxid), map["source" := Str("ncbigene"), "status" := Str("primary")])
  }

  /** The MAPS from the gene to each synonym, in order. */
  function SynonymMaps(gene: string, taxid: string, synonyms: seq<string>): (r: seq<Rel>)
    ensures |r| == |synonyms|
    ensures forall i :: 0 <= i < |synonyms| ==>
      r[i] == Rel(SidProps(gene), SymbolRef(synonyms[i], taxid), map["source" := Str("ncbigene"), "status" := Str("synonym")])
  {
    seq(|synonyms|, i requires 0 <= i < |synonyms| =>
      Rel(SidProps(gene), SymbolRef(synonyms[i], taxid), map["source" := Str("ncbigene"), "status" := Str("synonym")]))
  }

  /** The symbol part of a row: primary node, the synonym loop, then the MAPS. */
  function SymbolsStage(taxid: string, st: GeneInfoState, gene: string, primary: string, synonyms: seq<string>): GeneInfoState {
    var s2 := AddSymbol(st, primary, SymbolRef(primary, taxid));
    var s3 := Scan.Run(s2, synonyms, SynonymStepFor(taxid, primary), Scan.Never);
    s3.(mapsRels := s3.mapsRels + [PrimaryMaps(gene, primary, taxid)] + SynonymMaps(gene, taxid, synonyms))
  }

  /**
   * One row of gene_info.  Rows of another taxid are skipped.  flds[1] is read
   * and the Gene node added before flds[2] and flds[4] are read, so a row with
   * two to four fields keeps its Gene node and then raises.
   */
  function GeneInfoStep(taxid: string, header: seq<string>, st: GeneInfoState, flds: Fields): GeneInfoState {
    if flds[0] != taxid then st
    else if |flds| < 2 then st.(raised := Some(IndexError("flds[1]")))
    else
      var s1 := AddGene(header, st, flds);
      if |flds| < 3 then s1.(raised := Some(IndexError("flds[2]")))
      else if |flds| < 5 then s1.(raised := Some(IndexError("flds[4]")))
      else SymbolsStage(taxid, s1, flds[1], flds[2], Split(flds[4], "|"))
  }

  function GeneInfoStepFor(taxid: string, header: seq<string>): (GeneInfoState, Fields) -> GeneInfoState {
    (st: GeneInfoState, flds: Fields) => GeneInfoStep(taxid, header, st, flds)
  }

  predicate GeneInfoRaised(st: GeneInfoState) {
    st.raised.Some?
  }

  /** l.rstrip().split('\t') */
  function TabFields(line: string): Fields {
    Split(RStrip(line), "\t")
  }

  /** The fields of every line. */
  function TabRows(lines: seq<string>): (r: seq<Fields>)
    ensures |r| == |lines| && forall i :: 0 <= i < |lines| ==> r[i] == TabFields(lines[i])
  {
    seq(|lines|, i requires 0 <= i < |lines| => TabFields(lines[i]))
  }

  /**
   * parse_gene_info over the lines of the file, from the given logs: next(f)
   * on an empty file raises StopIteration; a header the parser does not know
   * raises AttributeError; otherwise the rows after it are applied in order.
   */
  function GeneInfo(taxid: string, start: GeneInfoState, lines: seq<string>): GeneInfoState {
    if lines == [] then start.(raised := Some(StopIteration))
    else
      match HeaderFields(lines[0])
      case Err(e) => start.(raised := Some(e))
      case Ok(header) => Scan.Run(start, TabRows(lines[1..]), GeneInfoStepFor(taxid, header), GeneInfoRaised)
  }

  /** The logs of the parser before parse_gene_info, with its empty check sets. */
  function GeneInfoStart(genes: seq<Props>, symbols: seq<Props>, synonymRels: seq<Rel>, mapsRels: seq<Rel>): GeneInfoState {
    GeneInfoState(genes, symbols, synonymRels, mapsRels, {}, {}, None)
  }

  /**
   * No two GeneSymbol nodes share a symbol, primary or synonym, and none is
   * '-'; unless a column is named 'sid', no two Gene nodes share a GeneID.
   */
  ghost predicate GeneInfoInvariant(header: seq<string>, st: GeneInfoState) {
    ("sid" !in header ==> Dedup.Tracked(st.genes, st.checkIds, SidText)) &&
    Dedup.Tracked(st.symbols, st.checkSymbols, SidText) &&
    (forall p :: p in st.symbols ==> SidText(p) != "-")
  }

  lemma AddSymbolKeeps(header: seq<string>, st: GeneInfoState, symbol: string, node: Props)
    requires GeneInfoInvariant(header, st) && SidText(node) == symbol
    ensures GeneInfoInvariant(header, AddSymbol(st, symbol, node))
  {
    if symbol !in st.checkSymbols && symbol != "-" {
      Dedup.AddNew(st.symbols, st.checkSymbols, SidText, node);
    }
  }

  lemma SynonymsKeep(taxid: string, header: seq<string>, primary: string, st: GeneInfoState, synonyms: seq<string>)
    requires GeneInfoInvariant(header, st)
    ensures GeneInfoInvariant(header, Scan.Run(st, synonyms, SynonymStepFor(taxid, primary), Scan.Never))
  {
    forall s, synonym | GeneInfoInvariant(header, s) && !Scan.Never(s)
      ensures GeneInfoInvariant(header, SynonymStepFor(taxid, primary)(s, synonym))
    {
      var s' := s.(synonymRels := s.synonymRels + [Rel(SymbolRef(synonym, taxid), SymbolRef(primary, taxid), SourceProps("ncbigene"))]);
      AddSymbolKeeps(header, s', synonym, SynonymNode(synonym, taxid));
    }
    Scan.RunKeeps(st, synonyms, SynonymStepFor(taxid, primary), Scan.Never, s => GeneInfoInvariant(header, s));
  }

  lemma GeneInfoStepKeeps(taxid: string, header: seq<string>, st: GeneInfoState, flds: Fields)
    requires GeneInfoInvariant(header, st)
    ensures GeneInfoInvariant(header, GeneInfoStep(taxid, header, st, flds))
  {
    if flds[0] == taxid && |flds| >= 2 {
      var s1 := AddGene(header, st, flds);
      if flds[1] !in st.checkIds && "sid" !in header {
        GeneNodeProps(header, flds);
        Dedup.AddNew(st.genes, st.checkIds, SidText, GeneNode(header, flds));
      }
      if |flds| >= 5 {
        var primary := flds[2];
        var s2 := AddSymbol(s1, primary, SymbolRef(primary, taxid));
        AddSymbolKeeps(header, s1, primary, SymbolRef(primary, taxid));
        SynonymsKeep(taxid, header, primary, s2, Split(flds[4], "|"));
      }
    }
  }

  /**
   * From empty logs: no GeneSymbol is added twice, whether it was seen as a
   * primary symbol or a synonym, and '-' never is; when no column is named
   * 'sid', no GeneID is added twice.
   */
  lemma GeneInfoDistinct(taxid: string, lines: seq<string>)
    ensures var st := GeneInfo(taxid, GeneInfoStart([], [], [], []), lines);
      lines != [] && HeaderFields(lines[0]).Ok? ==> GeneInfoInvariant(HeaderFields(lines[0]).value, st)
  {
    if lines != [] && HeaderFields(lines[0]).Ok? {
      var header := HeaderFields(lines[0]).value;
      forall st, flds | GeneInfoInvariant(header, st) && !GeneInfoRaised(st)
        ensures GeneInfoInvariant(header, GeneInfoStepFor(taxid, header)(st, flds))
      {
        GeneInfoStepKeeps(taxid, header, st, flds);
      }
      Scan.RunKeeps(GeneInfoStart([], [], [], []), TabRows(lines[1..]), GeneInfoStepFor(taxid, header), GeneInfoRaised,
        st => GeneInfoInvariant(header, st));
    }
  }

  /** The number of synonyms of a row of the taxid; none for any other row. */
  function SynonymCount(taxid: string, flds: Fields): nat {
    if flds[0] == taxid && |flds| >= 5 then |Split(flds[4], "|")| else 0
  }

  /** The number of MAPS of a row of the taxid: the primary one and one per synonym. */
  function MapsCount(taxid: string, flds: Fields): nat {
    if flds[0] == taxid && |flds| >= 5 then 1 + |Split(flds[4], "|")| else 0
  }

  /** The synonym loop adds one SYNONYM per synonym and no MAPS. */
  lemma SynonymsCount(taxid: string, primary: string, st: GeneInfoState, synonyms: seq<string>)
    ensures var s := Scan.Run(st, synonyms, SynonymStepFor(taxid, primary), Scan.Never);
      |s.synonymRels| == |st.synonymRels| + |synonyms| && s.mapsRels == st.mapsRels
  {
    var w := (x: string) => 1;
    Scan.RunTotal(st, synonyms, SynonymStepFor(taxid, primary), Scan.Never, (s: GeneInfoState) => |s.synonymRels|, w);
    Scan.TotalOnes(synonyms, w);
    Scan.RunKeeps(st, synonyms, SynonymStepFor(taxid, primary), Scan.Never, (s: GeneInfoState) => s.mapsRels == st.mapsRels);
  }

  /** A row of the taxid adds one SYNONYM per synonym and one MAPS more; no other row adds any. */
  lemma GeneInfoStepCounts(taxid: string, header: seq<string>, st: GeneInfoState, flds: Fields)
    requires !GeneInfoRaised(GeneInfoStep(taxid, header, st, flds))
    ensures var s := GeneInfoStep(taxid, header, st, flds);
      |s.synonymRels| == |st.synonymRels| + SynonymCount(taxid, flds) &&
      |s.mapsRels| == |st.mapsRels| + MapsCount(taxid, flds)
  {
    if flds[0] == taxid && |flds| >= 5 {
      var s1 := AddGene(header, st, flds);
      var primary := flds[2];
      var s2 := AddSymbol(s1, primary, SymbolRef(primary, taxid));
      SynonymsCount(taxid, primary, s2, Split(flds[4], "|"));
    }
  }

  /**
   * From empty logs, when no row raises: one SYNONYM per '|'-separated
   * synonym of the taxid's rows ('-' included), and one MAPS more per row.
   */
  lemma GeneInfoCounts(taxid: string, lines: seq<string>)
    requires lines != [] && HeaderFields(lines[0]).Ok?
    requires !GeneInfoRaised(GeneInfo(taxid, GeneInfoStart([], [], [], []), lines))
    ensures var st := GeneInfo(taxid, GeneInfoStart([], [], [], []), lines);
      |st.synonymRels| == Scan.Total(TabRows(lines[1..]), flds => SynonymCount(taxid, flds)) &&
      |st.mapsRels| == Scan.Total(TabRows(lines[1..]), flds => MapsCount(taxid, flds))
  {
    var header := HeaderFields(lines[0]).value;
    forall s, flds | !GeneInfoRaised(s) && !GeneInfoRaised(GeneInfoStepFor(taxid, header)(s, flds))
      ensures |GeneInfoStepFor(taxid, header)(s, flds).synonymRels| == |s.synonymRels| + SynonymCount(taxid, flds)
      ensures |GeneInfoStepFor(taxid, header)(s, flds).mapsRels| == |s.mapsRels| + MapsCount(taxid, flds)
    {
      GeneInfoStepCounts(taxid, header, s, flds);
    }
    var rows := TabRows(lines[1..]);
    var start := GeneInfoStart([], [], [], []);
    Scan.RunTotal(start, rows, GeneInfoStepFor(taxid, header), GeneInfoRaised, (s: GeneInfoState) => |s.synonymRels|, flds => SynonymCount(taxid, flds));
    Scan.RunTotal(start, rows, GeneInfoStepFor(taxid, header), GeneInfoRaised, (s: GeneInfoState) => |s.mapsRels|, flds => MapsCount(taxid, flds));
  }

  /** The symbol part of a row adds no Gene node, checks no GeneID and raises nothing. */
  lemma SymbolsKeepGenes(taxid: string, st: GeneInfoState, gene: string, primary: string, synonyms: seq<string>)
    ensures var s := SymbolsStage(taxid, st, gene, primary, synonyms);
      s.genes == st.genes && s.checkIds == st.checkIds && s.raised == st.raised
  {
    var s2 := AddSymbol(st, primary, SymbolRef(primary, taxid));
    Scan.RunKeeps(s2, synonyms, SynonymStepFor(taxid, primary), Scan.Never,
      (s: GeneInfoState) => s.genes == st.genes && s.checkIds == st.checkIds && s.raised == st.raised);
  }

  /** Every GeneID of check_ids is the GeneID of one of the rows of the taxid. */
  ghost predicate IdsFrom(taxid: string, rows: seq<Fields>, st: GeneInfoState) {
    forall id :: id in st.checkIds ==> exists r :: r in rows && |r| >= 2 && r[0] == taxid && r[1] == id
  }

  lemma GeneInfoStepFrom(taxid: string, header: seq<string>, rows: seq<Fields>, st: GeneInfoState, flds: Fields)
    requires flds in rows && IdsFrom(taxid, rows, st)
    ensures IdsFrom(taxid, rows, GeneInfoStep(taxid, header, st, flds))
  {
    if flds[0] == taxid && |flds| >= 5 {
      SymbolsKeepGenes(taxid, AddGene(header, st, flds), flds[1], flds[2], Split(flds[4], "|"));
    }
  }

  /** A row only appends to the Gene log and only adds to check_ids. */
  lemma GeneInfoStepGrows(taxid: string, header: seq<string>, st: GeneInfoState, flds: Fields)
    ensures var s := GeneInfoStep(taxid, header, st, flds);
      st.genes <= s.genes && st.checkIds <= s.checkIds
  {
    if flds[0] == taxid && |flds| >= 5 {
      SymbolsKeepGenes(taxid, AddGene(header, st, flds), flds[1], flds[2], Split(flds[4], "|"));
    }
  }

  /**
   * From empty logs, when no row raises: the first row of the taxid with a
   * GeneID gives that GeneID its Gene node, built from this row and the
   * header.  Unless a column is named 'sid', the node's sid is the GeneID and
   * no other Gene node has it.
   */
  lemma GeneInfoFirstRow(taxid: string, lines: seq<string>, i: nat)
    requires lines != [] && HeaderFields(lines[0]).Ok?
    requires i < |TabRows(lines[1..])| && TabRows(lines[1..])[i][0] == taxid && |TabRows(lines[1..])[i]| >= 2
    requires forall j :: 0 <= j < i && TabRows(lines[1..])[j][0] == taxid && |TabRows(lines[1..])[j]| >= 2 ==>
      TabRows(lines[1..])[j][1] != TabRows(lines[1..])[i][1]
    requires !GeneInfoRaised(GeneInfo(taxid, GeneInfoStart([], [], [], []), lines))
    ensures var st := GeneInfo(taxid, GeneInfoStart([], [], [], []), lines);
      var header, flds := HeaderFields(lines[0]).value, TabRows(lines[1..])[i];
      GeneNode(header, flds) in st.genes &&
      ("sid" !in header ==>
        SidText(GeneNode(header, flds)) == flds[1] &&
        forall p :: p in st.genes && SidText(p) == flds[1] ==> p == GeneNode(header, flds))
  {
    var header := HeaderFields(lines[0]).value;
    var rows := TabRows(lines[1..]);
    var start := GeneInfoStart([], [], [], []);
    assert GeneInfo(taxid, start, lines) == Scan.Run(start, rows, GeneInfoStepFor(taxid, header), GeneInfoRaised);
    RowsFirstRow(taxid, header, rows, i);
    if "sid" !in header {
      GeneNodeProps(header, rows[i]);
      GeneInfoDistinct(taxid, lines);
      GeneInfoUnique(header, GeneInfo(taxid, start, lines), GeneNode(header, rows[i]));
    }
  }

  /** The row loop from empty logs: the first row of the taxid with a GeneID leaves its Gene node in the log. */
  lemma RowsFirstRow(taxid: string, header: seq<string>, rows: seq<Fields>, i: nat)
    requires i < |rows| && rows[i][0] == taxid && |rows[i]| >= 2
    requires forall j :: 0 <= j < i && rows[j][0] == taxid && |rows[j]| >= 2 ==> rows[j][1] != rows[i][1]
    requires !GeneInfoRaised(Scan.Run(GeneInfoStart([], [], [], []), rows, GeneInfoStepFor(taxid, header), GeneInfoRaised))
    ensures GeneNode(header, rows[i]) in Scan.Run(GeneInfoStart([], [], [], []), rows, GeneInfoStepFor(taxid, header), GeneInfoRaised).genes
  {
    var start := GeneInfoStart([], [], [], []);
    var step := GeneInfoStepFor(taxid, header);
    var prev := Scan.Run(start, rows[..i], step, GeneInfoRaised);
    if GeneInfoRaised(prev) {
      Scan.RunHalted(start, rows, i, step, GeneInfoRaised);
      assert false;
    }
    Scan.RunNext(start, rows, i, step, GeneInfoRaised);
    var mid := Scan.Run(start, rows[..i + 1], step, GeneInfoRaised);
    if GeneInfoRaised(mid) {
      Scan.RunHalted(start, rows, i + 1, step, GeneInfoRaised);
      assert false;
    }
    FirstRowNew(taxid, header, rows, i);
    GeneRowAdds(taxid, header, prev, rows[i]);
    Scan.RunSplit(start, rows, i + 1, step, GeneInfoRaised);
    GeneInfoPersist(taxid, header, mid, rows[i + 1..], GeneNode(header, rows[i]));
  }

  /** A row of the taxid whose GeneID is new and whose step raises nothing appends its Gene node. */
  lemma GeneRowAdds(taxid: string, header: seq<string>, st: GeneInfoState, flds: Fields)
    requires flds[0] == taxid && |flds| >= 2 && flds[1] !in st.checkIds
    requires !GeneInfoRaised(GeneInfoStep(taxid, header, st, flds))
    ensures GeneNode(header, flds) in GeneInfoStep(taxid, header, st, flds).genes
  {
    var s1 := AddGene(header, st, flds);
    assert s1.genes == st.genes + [GeneNode(header, flds)];
    assert |flds| >= 5;
    SymbolsKeepGenes(taxid, s1, flds[1], flds[2], Split(flds[4], "|"));
  }

  /** A Gene node stays in the log for the rest of the rows. */
  lemma GeneInfoPersist(taxid: string, header: seq<string>, st: GeneInfoState, rows: seq<Fields>, node: Props)
    requires node in st.genes
    ensures node in Scan.Run(st, rows, GeneInfoStepFor(taxid, header), GeneInfoRaised).genes
  {
    forall s: GeneInfoState, x: Fields | node in s.genes && !GeneInfoRaised(s)
      ensures node in GeneInfoStepFor(taxid, header)(s, x).genes
    {
      GeneInfoStepGrows(taxid, header, s, x);
      Dedup.InPrefix(s.genes, GeneInfoStep(taxid, header, s, x).genes, node);
    }
    Scan.RunKeeps(st, rows, GeneInfoStepFor(taxid, header), GeneInfoRaised, (s: GeneInfoState) => node in s.genes);
  }

  /** Without a 'sid' column, a Gene node is the only one with its sid. */
  lemma GeneInfoUnique(header: seq<string>, st: GeneInfoState, node: Props)
    requires "sid" !in header && GeneInfoInvariant(header, st) && node in st.genes
    ensures forall p :: p in st.genes && SidText(p) == SidText(node) ==> p == node
  {
    forall p | p in st.genes && SidText(p) == SidText(node) ensures p == node {
      var a :| 0 <= a < |st.genes| && st.genes[a] == p;
      var b :| 0 <= b < |st.genes| && st.genes[b] == node;
      assert SidText(st.genes[a]) == SidText(st.genes[b]);
    }
  }

  /** Before the first row of the taxid with a GeneID, check_ids does not hold it. */
  lemma FirstRowNew(taxid: string, header: seq<string>, rows: seq<Fields>, i: nat)
    requires i < |rows| && rows[i][0] == taxid && |rows[i]| >= 2
    requires forall j :: 0 <= j < i && rows[j][0] == taxid && |rows[j]| >= 2 ==> rows[j][1] != rows[i][1]
    ensures rows[i][1] !in Scan.Run(GeneInfoStart([], [], [], []), rows[..i], GeneInfoStepFor(taxid, header), GeneInfoRaised).checkIds
  {
    forall st: GeneInfoState, flds: Fields | flds in rows[..i] && IdsFrom(taxid, rows[..i], st) && !GeneInfoRaised(st)
      ensures IdsFrom(taxid, rows[..i], GeneInfoStepFor(taxid, header)(st, flds))
    {
      GeneInfoStepFrom(taxid, header, rows[..i], st, flds);
    }
    var start := GeneInfoStart([], [], [], []);
    Scan.RunKeepsIn(start, rows[..i], GeneInfoStepFor(taxid, header), GeneInfoRaised, (st: GeneInfoState) => IdsFrom(taxid, rows[..i], st));
    var prev := Scan.Run(start, rows[..i], GeneInfoStepFor(taxid, header), GeneInfoRaised);
    forall r | r in rows[..i] && |r| >= 2 && r[0] == taxid ensures r[1] != rows[i][1] {
      var j :| 0 <= j < i && rows[..i][j] == r;
      assert rows[j] == r;
    }
  }

  /** The first row of the taxid carrying the GeneID of row i. */
  lemma FirstGeneRow(taxid: string, rows: seq<Fields>, i: nat) returns (j: nat)
    requires i < |rows| && rows[i][0] == taxid && |rows[i]| >= 2
    ensures j <= i && rows[j][0] == taxid && |rows[j]| >= 2 && rows[j][1] == rows[i][1]
    ensures forall k :: 0 <= k < j && rows[k][0] == taxid && |rows[k]| >= 2 ==> rows[k][1] != rows[i][1]
  {
    j := 0;
    while !(rows[j][0] == taxid && |rows[j]| >= 2 && rows[j][1] == rows[i][1])
      invariant j <= i
      invariant forall k :: 0 <= k < j && rows[k][0] == taxid && |rows[k]| >= 2 ==> rows[k][1] != rows[i][1]
      decreases i - j
    {
      j := j + 1;
    }
  }

  /**
   * From empty logs, when no row raises and no column is named 'sid': the
   * GeneID of every row of the taxid is the sid of a Gene node, the one built
   * from the first row of the taxid with that GeneID.
   */
  lemma GeneInfoCovers(taxid: string, lines: seq<string>, i: nat)
    requires lines != [] && HeaderFields(lines[0]).Ok? && "sid" !in HeaderFields(lines[0]).value
    requires i < |TabRows(lines[1..])| && TabRows(lines[1..])[i][0] == taxid && |TabRows(lines[1..])[i]| >= 2
    requires !GeneInfoRaised(GeneInfo(taxid, GeneInfoStart([], [], [], []), lines))
    ensures var st := GeneInfo(taxid, GeneInfoStart([], [], [], []), lines);
      TabRows(lines[1..])[i][1] in Dedup.Keys(st.genes, SidText) &&
      exists j :: 0 <= j <= i && |TabRows(lines[1..])[j]| >= 2 && TabRows(lines[1..])[j][1] == TabRows(lines[1..])[i][1] &&
        GeneNode(HeaderFields(lines[0]).value, TabRows(lines[1..])[j]) in st.genes
  {
    var header := HeaderFields(lines[0]).value;
    var rows := TabRows(lines[1..]);
    var j := FirstGeneRow(taxid, rows, i);
    GeneInfoFirstRow(taxid, lines, j);
    var st := GeneInfo(taxid, GeneInfoStart([], [], [], []), lines);
    var node := GeneNode(header, rows[j]);
    assert node in st.genes && SidText(node) == rows[i][1];
    var b :| 0 <= b < |st.genes| && st.genes[b] == node;
    assert SidText(st.genes[b]) in Dedup.Keys(st.genes, SidText);
  }

  class NcbiGeneParser {
    var genes: seq<Props>
    var genesymbols: seq<Props>
    var genesymbolSynonymGenesymbol: seq<Rel>
    var geneMapsGenesymbol: seq<Rel>

    constructor ()
      ensures genes == [] && genesymbols == [] && genesymbolSynonymGenesymbol == [] && geneMapsGenesymbol == []
    {
      genes, genesymbols := [], [];
      genesymbolSynonymGenesymbol, geneMapsGenesymbol := [], [];
    }

    function State(checkIds: set<string>, checkSymbols: set<string>, raised: Option<Error>): GeneInfoState
      reads this
    {
      GeneInfoState(genes, genesymbols, genesymbolSynonymGenesymbol, geneMapsGenesymbol, checkIds, checkSymbols, raised)
    }

    /** parse_gene_info over the lines of the file. */
    method ParseGeneInfo(taxid: string, lines: seq<string>) returns (raised: Option<Error>)
      modifies this
      ensures State({}, {}, None).(checkIds := {}, checkSymbols := {}, raised := raised)
           == GeneInfo(taxid, old(State({}, {}, None)), lines).(checkIds := {}, checkSymbols := {})
    {
      ghost var start := State({}, {}, None);
      if lines == [] {
        return Some(StopIteration);
      }
      var header := HeaderFields(lines[0]);
      if header.Err? {
        return Some(header.error);
      }
      var headerFields := header.value;
      var rest := lines[1..];
      ghost var rows := TabRows(rest);
      var checkIds: set<string> := {};
      var checkSymbols: set<string> := {};
      var i := 0;
      while i < |rest|
        invariant 0 <= i <= |rest|
        invariant Scan.Run(start, rows[..i], GeneInfoStepFor(taxid, headerFields), GeneInfoRaised) == State(checkIds, checkSymbols, None)
      {
        Scan.RunNext(start, rows, i, GeneInfoStepFor(taxid, headerFields), GeneInfoRaised);
        var flds := TabFields(rest[i]);
        checkIds, checkSymbols, raised := Row(taxid, headerFields, flds, checkIds, checkSymbols);
        if raised.Some? {
          Scan.RunHalted(start, rows, i + 1, GeneInfoStepFor(taxid, headerFields), GeneInfoRaised);
          return;
        }
        i := i + 1;
      }
      Scan.RunAll(start, rows, GeneInfoStepFor(taxid, headerFields), GeneInfoRaised);
      raised := None;
    }

    /** The body of the row loop. */
    method Row(taxid: string, header: seq<string>, flds: Fields, checkIds: set<string>, checkSymbols: set<string>)
      returns (idsAfter: set<string>, symbolsAfter: set<string>, raised: Option<Error>)
      modifies this
      ensures State(idsAfter, symbolsAfter, raised) == GeneInfoStep(taxid, header, old(State(checkIds, checkSymbols, None)), flds)
    {
      idsAfter, symbolsAfter, raised := checkIds, checkSymbols, None;
      if flds[0] != taxid {
        return;
      }
      if |flds| < 2 {
        return checkIds, checkSymbols, Some(IndexError("flds[1]"));
      }
      var geneId := flds[1];
      if geneId !in checkIds {
        genes := genes + [GeneNode(header, flds)];
        idsAfter := checkIds + {geneId};
      }
      if |flds| < 3 {
        return idsAfter, checkSymbols, Some(IndexError("flds[2]"));
      }
      if |flds| < 5 {
        return idsAfter, checkSymbols, Some(IndexError("flds[4]"));
      }
      ghost var s1 := State(idsAfter, checkSymbols, None);
      var primary := flds[2];
      var synonyms := Split(flds[4], "|");
      if primary !in checkSymbols && primary != "-" {
        symbolsAfter := checkSymbols + {primary};
        genesymbols := genesymbols + [SymbolRef(primary, taxid)];
      }
      symbolsAfter := Synonyms(taxid, primary, synonyms, idsAfter, symbolsAfter);
      MapsForRow(taxid, geneId, primary, synonyms);
    }

    /** The loop over the synonyms of a row. */
    method Synonyms(taxid: string, primary: string, synonyms: seq<string>, checkIds: set<string>, checkSymbols: set<string>)
      returns (symbolsAfter: set<string>)
      modifies this
      ensures State(checkIds, symbolsAfter, None) == Scan.Run(old(State(checkIds, checkSymbols, None)), synonyms, SynonymStepFor(taxid, primary), Scan.Never)
    {
      ghost var start := State(checkIds, checkSymbols, None);
      symbolsAfter := checkSymbols;
      var k := 0;
      while k < |synonyms|
        invariant 0 <= k <= |synonyms|
        invariant Scan.Run(start, synonyms[..k], SynonymStepFor(taxid, primary), Scan.Never) == State(checkIds, symbolsAfter, None)
      {
        Scan.RunNext(start, synonyms, k, SynonymStepFor(taxid, primary), Scan.Never);
        var synonym := synonyms[k];
        genesymbolSynonymGenesymbol := genesymbolSynonymGenesymbol + [Rel(SymbolRef(synonym, taxid), SymbolRef(primary, taxid), SourceProps("ncbigene"))];
        if synonym !in symbolsAfter && synonym != "-" {
          symbolsAfter := symbolsAfter + {synonym};
          genesymbols := genesymbols + [SynonymNode(synonym, taxid)];
        }
        k := k + 1;
      }
      Scan.RunAll(start, synonyms, SynonymStepFor(taxid, primary), Scan.Never);
    }

    /** The primary MAPS, then the loop of synonym MAPS. */
    method MapsForRow(taxid: string, gene: string, primary: string, synonyms: seq<string>)
      modifies this
      ensures geneMapsGenesymbol == old(geneMapsGenesymbol) + [PrimaryMaps(gene, primary, taxid)] + SynonymMaps(gene, taxid, synonyms)
      ensures genes == old(genes) && genesymbols == old(genesymbols) && genesymbolSynonymGenesymbol == old(genesymbolSynonymGenesymbol)
    {
      geneMapsGenesymbol := geneMapsGenesymbol + [PrimaryMaps(gene, primary, taxid)];
      ghost var base := geneMapsGenesymbol;
      var k := 0;
      while k < |synonyms|
        invariant 0 <= k <= |synonyms|
        invariant geneMapsGenesymbol == base + SynonymMaps(gene, taxid, synonyms[..k])
        invariant genes == old(genes) && genesymbols == old(genesymbols) && genesymbolSynonymGenesymbol == old(genesymbolSynonymGenesymbol)
      {
        assert SynonymMaps(gene, taxid, synonyms[..k + 1]) == SynonymMaps(gene, taxid, synonyms[..k]) + SynonymMaps(gene, taxid, [synonyms[k]]);
        geneMapsGenesymbol := geneMapsGenesymbol + SynonymMaps(gene, taxid, [synonyms[k]]);
        k := k + 1;
      }
      assert synonyms[..k] == synonyms;
    }
  }

  // ---------------------------------------------------------------------------
  // NcbiLegacyGeneParser

  /** The fields of a gene_history row of the taxid. */
  datatype LegacyEntry = LegacyEntry(newId: string, discontinuedId: string, symbol: string, date: string)

  /**
   * A gene_history row, l.strip().split('\t'): nothing for another taxid; the
   * IndexError of the first missing field read, flds[1] to flds[4].
   */
  function LegacyFields(taxid: string, flds: Fields): Result<Option<LegacyEntry>> {
    if flds[0] != taxid then Ok(None)
    else if |flds| < 2 then Err(IndexError("flds[1]"))
    else if |flds| < 3 then Err(IndexError("flds[2]"))
    else if |flds| < 4 then Err(IndexError("flds[3]"))
    else if |flds| < 5 then Err(IndexError("flds[4]"))
    else Ok(Some(LegacyEntry(flds[1], flds[2], flds[3], flds[4])))
  }

  /** The legacy NodeSet and the REPLACED_BY RelationshipSet, and the exception if one was raised. */
  datatype LegacyState = LegacyState(legacyGenes: seq<Props>, replacedBy: seq<Rel>, raised: Option<Error>)

  /** The legacy node of a row. */
  function LegacyNode(e: LegacyEntry): Props {
    map["sid" := Str(e.discontinuedId), "date" := Str(e.date), "symbol" := Str(e.symbol)]
  }

  /** The effect of a gene_history row: its legacy node, and REPLACED_BY to the new GeneID unless that is '-'. */
  function ApplyLegacy(st: LegacyState, pr: Result<Option<LegacyEntry>>): LegacyState {
    match pr
    case Err(e) => st.(raised := Some(e))
    case Ok(None) => st
    case Ok(Some(e)) =>
      var s := st.(legacyGenes := st.legacyGenes + [LegacyNode(e)]);
      if e.newId != "-" then s.(replacedBy := s.replacedBy + [SidRel(e.discontinuedId, e.newId, map[])]) else s
  }

  predicate LegacyRaised(st: LegacyState) {
    st.raised.Some?
  }

  /** l.strip().split('\t') */
  function StrippedTabFields(line: string): Fields {
    Split(Strip(line), "\t")
  }

  /** Every line, read. */
  function ParseLegacy(taxid: string, lines: seq<string>): (r: seq<Result<Option<LegacyEntry>>>)
    ensures |r| == |lines| && forall i :: 0 <= i < |lines| ==> r[i] == LegacyFields(taxid, StrippedTabFields(lines[i]))
  {
    seq(|lines|, i requires 0 <= i < |lines| => LegacyFields(taxid, StrippedTabFields(lines[i])))
  }

  /** run over the lines of gene_history, from the given logs: the header is skipped with next(f). */
  function Legacy(taxid: string, start: LegacyState, lines: seq<string>): LegacyState {
    if lines == [] then start.(raised := Some(StopIteration))
    else Scan.Run(start, ParseLegacy(taxid, lines[1..]), ApplyLegacy, LegacyRaised)
  }

  /** A row that counts: one of the taxid with all five fields. */
  function LegacyWeight(pr: Result<Option<LegacyEntry>>): nat {
    if pr.Ok? && pr.value.Some? then 1 else 0
  }

  /** A row of the taxid adds exactly one legacy node, and REPLACED_BY exactly when its new GeneID is not '-'. */
  lemma ApplyLegacyEntry(st: LegacyState, e: LegacyEntry)
    ensures var s := ApplyLegacy(st, Ok(Some(e)));
      s.legacyGenes == st.legacyGenes + [LegacyNode(e)] && SidText(LegacyNode(e)) == e.discontinuedId &&
      (e.newId != "-" <==> |s.replacedBy| == |st.replacedBy| + 1) &&
      (e.newId == "-" <==> s.replacedBy == st.replacedBy)
  {
  }

  /** From empty logs, when no row raises: exactly one legacy node per row of the taxid after the header. */
  lemma LegacyCount(taxid: string, lines: seq<string>)
    requires !LegacyRaised(Legacy(taxid, LegacyState([], [], None), lines))
    ensures |Legacy(taxid, LegacyState([], [], None), lines).legacyGenes| == Scan.Total(ParseLegacy(taxid, lines[1..]), LegacyWeight)
  {
    Scan.RunTotal(LegacyState([], [], None), ParseLegacy(taxid, lines[1..]), ApplyLegacy, LegacyRaised,
      (s: LegacyState) => |s.legacyGenes|, LegacyWeight);
  }

  /** No REPLACED_BY points at '-', the mark of a GeneID with no current gene. */
  lemma LegacyReplacedByCurrent(taxid: string, start: LegacyState, lines: seq<string>)
    requires forall r :: r in start.replacedBy ==> SidText(r.end) != "-"
    ensures forall r :: r in Legacy(taxid, start, lines).replacedBy ==> SidText(r.end) != "-"
  {
    if lines != [] {
      forall st: LegacyState, pr: Result<Option<LegacyEntry>> | (forall r :: r in st.replacedBy ==> SidText(r.end) != "-") && !LegacyRaised(st)
        ensures forall r :: r in ApplyLegacy(st, pr).replacedBy ==> SidText(r.end) != "-"
      {
        if pr.Ok? && pr.value.Some? {
          ApplyLegacyEntry(st, pr.value.value);
        }
      }
      Scan.RunKeeps(start, ParseLegacy(taxid, lines[1..]), ApplyLegacy, LegacyRaised,
        (s: LegacyState) => forall r :: r in s.replacedBy ==> SidText(r.end) != "-");
    }
  }

  class NcbiLegacyGeneParser {
    var legacyGenes: seq<Props>
    var legacyGeneNowGene: seq<Rel>

    constructor ()
      ensures legacyGenes == [] && legacyGeneNowGene == []
    {
      legacyGenes, legacyGeneNowGene := [], [];
    }

    /** run over the lines of gene_history. */
    method Run(taxid: string, lines: seq<string>) returns (raised: Option<Error>)
      modifies this
      ensures LegacyState(legacyGenes, legacyGeneNowGene, raised) == Legacy(taxid, old(LegacyState(legacyGenes, legacyGeneNowGene, None)), lines)
    {
      if lines == [] {
        return Some(StopIteration);
      }
      var rest := lines[1..];
      ghost var ps := ParseLegacy(taxid, rest);
      ghost var start := LegacyState(legacyGenes, legacyGeneNowGene, None);
      var i := 0;
      while i < |rest|
        invariant 0 <= i <= |rest|
        invariant Scan.Run(start, ps[..i], ApplyLegacy, LegacyRaised) == LegacyState(legacyGenes, legacyGeneNowGene, None)
      {
        Scan.RunNext(start, ps, i, ApplyLegacy, LegacyRaised);
        var row := LegacyFields(taxid, StrippedTabFields(rest[i]));
        if row.Err? {
          Scan.RunHalted(start, ps, i + 1, ApplyLegacy, LegacyRaised);
          return Some(row.error);
        }
        if row.value.Some? {
          LegacyLine(row.value.value);
        }
        i := i + 1;
      }
      Scan.RunAll(start, ps, ApplyLegacy, LegacyRaised);
      raised := None;
    }

    /** The body of the loop for a row of the taxid: its legacy node, and REPLACED_BY unless the new GeneID is '-'. */
    method LegacyLine(e: LegacyEntry)
      modifies this
      ensures LegacyState(legacyGenes, legacyGeneNowGene, None) ==
        ApplyLegacy(old(LegacyState(legacyGenes, legacyGeneNowGene, None)), Ok(Some(e)))
    {
      legacyGenes := legacyGenes + [LegacyNode(e)];
      if e.newId != "-" {
        legacyGeneNowGene := legacyGeneNowGene + [SidRel(e.discontinuedId, e.newId, map[])];
      }
    }
  }

  // ---------------------------------------------------------------------------
  // NcbiGeneOrthologParser

  /** A gene_orthologs row, l.strip().split(): the GeneIDs of fields 2 and 5, with no taxid filter. */
  function OrthologFields(flds: seq<string>): Result<(string, string)> {
    if |flds| < 2 then Err(IndexError("flds[1]"))
    else if |flds| < 5 then Err(IndexError("flds[4]"))
    else Ok((flds[1], flds[4]))
  }

  datatype OrthologState = OrthologState(geneOrthologGene: seq<Rel>, raised: Option<Error>)

  function ApplyOrtholog(st: OrthologState, pr: Result<(string, string)>): OrthologState {
    match pr
    case Err(e) => st.(raised := Some(e))
    case Ok((g1, g2)) => st.(geneOrthologGene := st.geneOrthologGene + [SidRel(g1, g2, map[])])
  }

  predicate OrthologRaised(st: OrthologState) {
    st.raised.Some?
  }

  function ParseOrthologs(lines: seq<string>): (r: seq<Result<(string, string)>>)
    ensures |r| == |lines| && forall i :: 0 <= i < |lines| ==> r[i] == OrthologFields(SplitWs(Strip(lines[i])))
  {
    seq(|lines|, i requires 0 <= i < |lines| => OrthologFields(SplitWs(Strip(lines[i]))))
  }

  /** run over the lines of gene_orthologs, from the given log: the header is skipped with next(f). */
  function Orthologs(start: OrthologState, lines: seq<string>): OrthologState {
    if lines == [] then start.(raised := Some(StopIteration))
    else Scan.Run(start, ParseOrthologs(lines[1..]), ApplyOrtholog, OrthologRaised)
  }

  /** From an empty log, when no row raises: exactly one ORTHOLOG per line after the header. */
  lemma OrthologsCount(lines: seq<string>)
    requires !OrthologRaised(Orthologs(OrthologState([], None), lines))
    ensures |Orthologs(OrthologState([], None), lines).geneOrthologGene| == |lines| - 1
  {
    var ps := ParseOrthologs(lines[1..]);
    forall s: OrthologState, pr: Result<(string, string)> | !OrthologRaised(s) && !OrthologRaised(ApplyOrtholog(s, pr))
      ensures |ApplyOrtholog(s, pr).geneOrthologGene| == |s.geneOrthologGene| + OneRow(pr)
    {
    }
    Scan.RunTotal(OrthologState([], None), ps, ApplyOrtholog, OrthologRaised, (s: OrthologState) => |s.geneOrthologGene|, OneRow);
    Scan.TotalOnes(ps, OneRow);
  }

  function OneRow(pr: Result<(string, string)>): nat {
    1
  }

  /** An ORTHOLOG joins the second field of its row to the fifth. */
  lemma OrthologEnds(line: string)
    requires OrthologFields(SplitWs(Strip(line))).Ok?
    ensures var flds := SplitWs(Strip(line));
      ApplyOrtholog(OrthologState([], None), OrthologFields(flds)).geneOrthologGene == [SidRel(flds[1], flds[4], map[])]
  {
  }

  class NcbiGeneOrthologParser {
    var geneOrthologGene: seq<Rel>

    constructor ()
      ensures geneOrthologGene == []
    {
      geneOrthologGene := [];
    }

    /** run over the lines of gene_orthologs. */
    method Run(lines: seq<string>) returns (raised: Option<Error>)
      modifies this
      ensures OrthologState(geneOrthologGene, raised) == Orthologs(old(OrthologState(geneOrthologGene, None)), lines)
    {
      if lines == [] {
        return Some(StopIteration);
      }
      var rest := lines[1..];
      ghost var ps := ParseOrthologs(rest);
      ghost var start := OrthologState(geneOrthologGene, None);
      var i := 0;
      while i < |rest|
        invariant 0 <= i <= |rest|
        invariant Scan.Run(start, ps[..i], ApplyOrtholog, OrthologRaised) == OrthologState(geneOrthologGene, None)
      {
        Scan.RunNext(start, ps, i, ApplyOrtholog, OrthologRaised);
        var row := OrthologFields(SplitWs(Strip(rest[i])));
        if row.Err? {
          Scan.RunHalted(start, ps, i + 1, ApplyOrtholog, OrthologRaised);
          return Some(row.error);
        }
        var (g1, g2) := row.value;
        geneOrthologGene := geneOrthologGene + [SidRel(g1, g2, map[])];
        i := i + 1;
      }
      Scan.RunAll(start, ps, ApplyOrtholog, OrthologRaised);
      raised := None;
    }
  }
}
