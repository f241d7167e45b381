/**
 * The RefSeq parsers (biomedgraph/parser/refseq.py).
 *
 * RefseqEntityParser reads the sequence catalog (one sequence per line:
 * taxid, organism, accession.version, taxonomy, status, length) and emits one
 * Transcript node per NM/NR/XM/XR accession and one Protein node per NP/XP
 * accession of the taxid, each at most once.  RefseqCodesParser reads
 * accession2geneid (taxid, gene, transcript.version, protein.version) and
 * emits Gene-CODES-Transcript and Transcript-CODES-Protein relationships, each
 * at most once per concatenated id pair; a protein 'na' gives none.
 *
 * Each line is read into a row value first (a pure function of the line) and
 * the row is then applied to the loop's state; the loop stops at the first
 * row that raises.
 */
module RefseqParser {
  import opened Results
  import opened PyStr
  import opened Graph
  import Scan
  import Dedup

  // ---------------------------------------------------------------------------
  // RefseqEntityParser

  /** The fields of a catalog line that are used: the accession split from its version, status and length. */
  datatype CatalogEntry = CatalogEntry(acc: string, version: string, status: string, length: string)

  predicate TranscriptAcc(acc: string) {
    StartsWith(acc, "NM") || StartsWith(acc, "NR") || StartsWith(acc, "XM") || StartsWith(acc, "XR")
  }

  predicate ProteinAcc(acc: string) {
    StartsWith(acc, "NP") || StartsWith(acc, "XP")
  }

  /**
   * The fields of a catalog line, l.rstrip().split('\t'): nothing for a line
   * with fewer than six fields or of another taxid; the ValueError of
   * `refseq_acc, version = flds[2].split('.')` when the third field does not
   * hold exactly one '.'.
   */
  function CatalogFields(taxid: string, flds: seq<string>): Result<Option<CatalogEntry>> {
    if |flds| < 6 || flds[0] != taxid then Ok(None)
    else
      var parts := Split(flds[2], ".");
      if |parts| < 2 then Err(ValueError("not enough values to unpack (expected 2, got 1)"))
      else if |parts| > 2 then Err(ValueError("too many values to unpack (expected 2)"))
      else Ok(Some(CatalogEntry(parts[0], parts[1], flds[4], flds[5])))
  }

  function CatalogRow(taxid: string, line: string): Result<Option<CatalogEntry>> {
    CatalogFields(taxid, Split(RStrip(line), "\t"))
  }

  /**
   * Short lines and lines of another taxid give nothing; a line of the taxid
   * raises exactly when its third field does not hold one '.'; otherwise the
   * accession and the version are the two sides of that '.', and the third
   * field is accession '.' version.
   */
  lemma CatalogFieldsSpec(taxid: string, flds: seq<string>)
    ensures var r := CatalogFields(taxid, flds);
      ((|flds| < 6 || flds[0] != taxid) ==> r == Ok(None)) &&
      (r.Err? <==> |flds| >= 6 && flds[0] == taxid && |Split(flds[2], ".")| != 2) &&
      (r.Ok? && r.value.Some? ==>
        |flds| >= 6 && flds[0] == taxid &&
        flds[2] == r.value.value.acc + "." + r.value.value.version &&
        '.' !in r.value.value.acc && '.' !in r.value.value.version &&
        r.value.value.status == flds[4] && r.value.value.length == flds[5])
  {
    if |flds| >= 6 && flds[0] == taxid && |Split(flds[2], ".")| == 2 {
      var parts := Split(flds[2], ".");
      JoinSplit(flds[2], ".");
      assert Join(parts, ".") == parts[0] + "." + parts[1];
      SplitCharPieces(flds[2], '.');
      assert parts[0] in parts && parts[1] in parts;
    }
  }

  /** The props of a Transcript or Protein node. */
  function CatalogNode(source: string, taxid: string, e: CatalogEntry): (p: Props)
    ensures SidText(p) == e.acc
  {
    map["sid" := Str(e.acc), "version" := Str(e.version), "status" := Str(e.status),
        "length" := Str(e.length), "source" := Str(source), "taxid" := Str(taxid)]
  }

  /** The two node logs, the check sets of run, and the exception if one was raised. */
  datatype CatalogState = CatalogState(
    transcripts: seq<Props>, proteins: seq<Props>,
    checkTranscripts: set<string>, checkProteins: set<string>, raised: Option<Error>)

  /** The transcript branch of the loop body. */
  function AddTranscript(source: string, taxid: string, st: CatalogState, e: CatalogEntry): CatalogState {
    if TranscriptAcc(e.acc) && e.acc !in st.checkTranscripts then
      st.(transcripts := st.transcripts + [CatalogNode(source, taxid, e)],
          checkTranscripts := st.checkTranscripts + {e.acc})
    else st
  }

  /** The protein branch of the loop body. */
  function AddProtein(source: string, taxid: string, st: CatalogState, e: CatalogEntry): CatalogState {
    if ProteinAcc(e.acc) && e.acc !in st.checkProteins then
      st.(proteins := st.proteins + [CatalogNode(source, taxid, e)],
          checkProteins := st.checkProteins + {e.acc})
    else st
  }

  /** The effect of a catalog row on the loop's state. */
  function ApplyCatalog(source: string, taxid: string, st: CatalogState, pr: Result<Option<CatalogEntry>>): CatalogState {
    match pr
    case Err(e) => st.(raised := Some(e))
    case Ok(None) => st
    case Ok(Some(e)) => AddProtein(source, taxid, AddTranscript(source, taxid, st, e), e)
  }

  function ApplyCatalogFor(source: string, taxid: string): (CatalogState, Result<Option<CatalogEntry>>) -> CatalogState {
    (st, pr) => ApplyCatalog(source, taxid, st, pr)
  }

  predicate CatalogRaised(st: CatalogState) {
    st.raised.Some?
  }

  /** Every line of the catalog, read. */
  function ParseCatalog(taxid: string, lines: seq<string>): (r: seq<Result<Option<CatalogEntry>>>)
    ensures |r| == |lines| && forall i :: 0 <= i < |lines| ==> r[i] == CatalogRow(taxid, lines[i])
  {
    seq(|lines|, i requires 0 <= i < |lines| => CatalogRow(taxid, lines[i]))
  }

  /** The logs and the exception after run's loop over the catalog lines, from the given logs. */
  function Catalog(source: string, taxid: string, transcripts: seq<Props>, proteins: seq<Props>, lines: seq<string>): CatalogState {
    Scan.Run(CatalogState(transcripts, proteins, {}, {}, None), ParseCatalog(taxid, lines), ApplyCatalogFor(source, taxid), CatalogRaised)
  }

  /**
   * Each log holds an accession at most once; its Transcript nodes have a
   * transcript prefix and its Protein nodes a protein prefix, all of the taxid.
   */
  ghost predicate CatalogInvariant(taxid: string, st: CatalogState) {
    Dedup.Tracked(st.transcripts, st.checkTranscripts, SidText) &&
    Dedup.Tracked(st.proteins, st.checkProteins, SidText) &&
    (forall p :: p in st.transcripts ==> TranscriptAcc(SidText(p)) && "taxid" in p && p["taxid"] == Str(taxid)) &&
    (forall p :: p in st.proteins ==> ProteinAcc(SidText(p)) && "taxid" in p && p["taxid"] == Str(taxid))
  }

  lemma AddTranscriptKeeps(source: string, taxid: string, st: CatalogState, e: CatalogEntry)
    requires CatalogInvariant(taxid, st)
    ensures CatalogInvariant(taxid, AddTranscript(source, taxid, st, e))
  {
    if TranscriptAcc(e.acc) && e.acc !in st.checkTranscripts {
      Dedup.AddNew(st.transcripts, st.checkTranscripts, SidText, CatalogNode(source, taxid, e));
    }
  }

  lemma AddProteinKeeps(source: string, taxid: string, st: CatalogState, e: CatalogEntry)
    requires CatalogInvariant(taxid, st)
    ensures CatalogInvariant(taxid, AddProtein(source, taxid, st, e))
  {
    if ProteinAcc(e.acc) && e.acc !in st.checkProteins {
      Dedup.AddNew(st.proteins, st.checkProteins, SidText, CatalogNode(source, taxid, e));
    }
  }

  lemma ApplyCatalogKeeps(source: string, taxid: string, st: CatalogState, pr: Result<Option<CatalogEntry>>)
    requires CatalogInvariant(taxid, st)
    ensures CatalogInvariant(taxid, ApplyCatalog(source, taxid, st, pr))
  {
    if pr.Ok? && pr.value.Some? {
      var e := pr.value.value;
      AddTranscriptKeeps(source, taxid, st, e);
      AddProteinKeeps(source, taxid, AddTranscript(source, taxid, st, e), e);
    }
  }

  /**
   * From empty logs: no accession is listed twice in either NodeSet, every
   * Transcript accession starts with NM, NR, XM or XR, every Protein accession
   * with NP or XP, and every node carries the taxid.
   */
  lemma CatalogNodes(source: string, taxid: string, lines: seq<string>)
    ensures CatalogInvariant(taxid, Catalog(source, taxid, [], [], lines))
  {
    forall st, pr | CatalogInvariant(taxid, st) && !CatalogRaised(st)
      ensures CatalogInvariant(taxid, ApplyCatalogFor(source, taxid)(st, pr))
    {
      ApplyCatalogKeeps(source, taxid, st, pr);
    }
    Scan.RunKeeps(CatalogState([], [], {}, {}, None), ParseCatalog(taxid, lines), ApplyCatalogFor(source, taxid), CatalogRaised,
      st => CatalogInvariant(taxid, st));
  }

  /** A transcript row adds its node exactly when its accession is new, and a protein row likewise. */
  lemma CatalogEntryAdded(source: string, taxid: string, st: CatalogState, e: CatalogEntry)
    ensures var r := ApplyCatalog(source, taxid, st, Ok(Some(e)));
      (TranscriptAcc(e.acc) && e.acc !in st.checkTranscripts ==>
        r.transcripts == st.transcripts + [CatalogNode(source, taxid, e)]) &&
      (ProteinAcc(e.acc) && e.acc !in st.checkProteins ==>
        r.proteins == st.proteins + [CatalogNode(source, taxid, e)]) &&
      (!TranscriptAcc(e.acc) && !ProteinAcc(e.acc) ==> r == st)
  {
    assert TranscriptAcc(e.acc) ==> |e.acc| >= 2 && e.acc[1] in {'M', 'R'};
    assert ProteinAcc(e.acc) ==> |e.acc| >= 2 && e.acc[1] == 'P';
  }

  class RefseqEntityParser {
    var transcripts: seq<Props>
    var proteins: seq<Props>

    constructor ()
      ensures transcripts == [] && proteins == []
    {
      transcripts, proteins := [], [];
    }

    /** run's loop over the lines of the catalog file; `source` is the datasource name. */
    method Run(source: string, taxid: string, lines: seq<string>) returns (raised: Option<Error>)
      modifies this
      ensures var c := Catalog(source, taxid, old(transcripts), old(proteins), lines);
        transcripts == c.transcripts && proteins == c.proteins && raised == c.raised
    {
      ghost var ps := ParseCatalog(taxid, lines);
      ghost var start := CatalogState(transcripts, proteins, {}, {}, None);
      var checkTranscripts: set<string> := {};
      var checkProteins: set<string> := {};
      var i := 0;
      while i < |lines|
        invariant 0 <= i <= |lines|
        invariant Scan.Run(start, ps[..i], ApplyCatalogFor(source, taxid), CatalogRaised)
               == CatalogState(transcripts, proteins, checkTranscripts, checkProteins, None)
      {
        Scan.RunNext(start, ps, i, ApplyCatalogFor(source, taxid), CatalogRaised);
        var row := CatalogRow(taxid, lines[i]);
        checkTranscripts, checkProteins, raised := Line(source, taxid, row, checkTranscripts, checkProteins);
        if raised.Some? {
          Scan.RunHalted(start, ps, i + 1, ApplyCatalogFor(source, taxid), CatalogRaised);
          return;
        }
        i := i + 1;
      }
      Scan.RunAll(start, ps, ApplyCatalogFor(source, taxid), CatalogRaised);
      raised := None;
    }

    /** The body of run's loop for a line once read. */
    method Line(source: string, taxid: string, row: Result<Option<CatalogEntry>>, checkTranscripts: set<string>, checkProteins: set<string>)
      returns (transcriptsAfter: set<string>, proteinsAfter: set<string>, raised: Option<Error>)
      modifies this
      ensures CatalogState(transcripts, proteins, transcriptsAfter, proteinsAfter, raised)
           == ApplyCatalog(source, taxid, CatalogState(old(transcripts), old(proteins), checkTranscripts, checkProteins, None), row)
    {
      transcriptsAfter, proteinsAfter, raised := checkTranscripts, checkProteins, None;
      if row.Err? {
        return checkTranscripts, checkProteins, Some(row.error);
      }
      if row.value.Some? {
        var e := row.value.value;
        if TranscriptAcc(e.acc) && e.acc !in checkTranscripts {
          transcripts := transcripts + [CatalogNode(source, taxid, e)];
          transcriptsAfter := checkTranscripts + {e.acc};
        }
        if ProteinAcc(e.acc) && e.acc !in checkProteins {
          proteins := proteins + [CatalogNode(source, taxid, e)];
          proteinsAfter := checkProteins + {e.acc};
        }
      }
    }
  }

  // ---------------------------------------------------------------------------
  // RefseqCodesParser

  /** The ids of an accession2geneid line, versions removed. */
  datatype CodesEntry = CodesEntry(gene: string, transcript: string, protein: string)

  /**
   * The fields of an accession2geneid line, l.strip().split('\t'): the four
   * fields are read before the taxid is compared, so a short line raises
   * IndexError whatever its taxid; a line of another taxid gives nothing.
   */
  function CodesFields(taxid: string, flds: seq<string>): (r: Result<Option<CodesEntry>>)
    requires |flds| >= 1
  {
    if |flds| < 2 then Err(IndexError("flds[1]"))
    else if |flds| < 3 then Err(IndexError("flds[2]"))
    else if |flds| < 4 then Err(IndexError("flds[3]"))
    else if flds[0] != taxid then Ok(None)
    else Ok(Some(CodesEntry(flds[1], NoVersion(flds[2]), NoVersion(flds[3]))))
  }

  function CodesRow(taxid: string, line: string): Result<Option<CodesEntry>> {
    CodesFields(taxid, Split(Strip(line), "\t"))
  }

  /** A line raises exactly when it has fewer than four fields; only lines of the taxid give ids, without their versions. */
  lemma CodesFieldsSpec(taxid: string, flds: seq<string>)
    requires |flds| >= 1
    ensures var r := CodesFields(taxid, flds);
      (r.Err? <==> |flds| < 4) &&
      (r.Ok? && r.value.Some? <==> |flds| >= 4 && flds[0] == taxid) &&
      (r.Ok? && r.value.Some? ==>
        r.value.value.gene == flds[1] &&
        r.value.value.transcript == NoVersion(flds[2]) && r.value.value.protein == NoVersion(flds[3]) &&
        '.' !in r.value.value.transcript && '.' !in r.value.value.protein)
  {
  }

  /** {'source': datasource_name, 'taxid': taxid} */
  function CodesProps(source: string, taxid: string): (p: Props)
    ensures p.Keys == {"source", "taxid"} && p["source"] == Str(source) && p["taxid"] == Str(taxid)
  {
    map["source" := Str(source), "taxid" := Str(taxid)]
  }

  /** The two relationship logs, the check sets of run, and the exception if one was raised. */
  datatype CodesState = CodesState(
    geneCodesTranscript: seq<Rel>, transcriptCodesProtein: seq<Rel>,
    checkGeneTranscript: set<string>, checkTranscriptProtein: set<string>, raised: Option<Error>)

  /** Gene-CODES-Transcript, once per gene_id + transcript_id. */
  function AddGeneTranscript(source: string, taxid: string, st: CodesState, e: CodesEntry): CodesState {
    if e.gene + e.transcript in st.checkGeneTranscript then st
    else st.(geneCodesTranscript := st.geneCodesTranscript + [SidRel(e.gene, e.transcript, CodesProps(source, taxid))],
             checkGeneTranscript := st.checkGeneTranscript + {e.gene + e.transcript})
  }

  /** Transcript-CODES-Protein, unless the protein is 'na', once per transcript_id + protein_id. */
  function AddTranscriptProtein(source: string, taxid: string, st: CodesState, e: CodesEntry): CodesState {
    if e.protein == "na" || e.transcript + e.protein in st.checkTranscriptProtein then st
    else st.(transcriptCodesProtein := st.transcriptCodesProtein + [SidRel(e.transcript, e.protein, CodesProps(source, taxid))],
             checkTranscriptProtein := st.checkTranscriptProtein + {e.transcript + e.protein})
  }

  /** The effect of an accession2geneid row on the loop's state. */
  function ApplyCodes(source: string, taxid: string, st: CodesState, pr: Result<Option<CodesEntry>>): CodesState {
    match pr
    case Err(e) => st.(raised := Some(e))
    case Ok(None) => st
    case Ok(Some(e)) => AddTranscriptProtein(source, taxid, AddGeneTranscript(source, taxid, st, e), e)
  }

  function ApplyCodesFor(source: string, taxid: string): (CodesState, Result<Option<CodesEntry>>) -> CodesState {
    (st, pr) => ApplyCodes(source, taxid, st, pr)
  }

  predicate CodesRaised(st: CodesState) {
    st.raised.Some?
  }

  /** Every line of accession2geneid, read. */
  function ParseCodes(taxid: string, lines: seq<string>): (r: seq<Result<Option<CodesEntry>>>)
    ensures |r| == |lines| && forall i :: 0 <= i < |lines| ==> r[i] == CodesRow(taxid, lines[i])
  {
    seq(|lines|, i requires 0 <= i < |lines| => CodesRow(taxid, lines[i]))
  }

  /** The logs and the exception after run's loop over the lines, from the given logs. */
  function Codes(source: string, taxid: string, gt: seq<Rel>, tp: seq<Rel>, lines: seq<string>): CodesState {
    Scan.Run(CodesState(gt, tp, {}, {}, None), ParseCodes(taxid, lines), ApplyCodesFor(source, taxid), CodesRaised)
  }

  /**
   * Each log holds a concatenated id pair at most once; no id carries a
   * version; no protein is 'na'; every relationship has the source and taxid
   * props.
   */
  ghost predicate CodesInvariant(source: string, taxid: string, st: CodesState) {
    Dedup.Tracked(st.geneCodesTranscript, st.checkGeneTranscript, ConcatKey) &&
    Dedup.Tracked(st.transcriptCodesProtein, st.checkTranscriptProtein, ConcatKey) &&
    (forall r :: r in st.geneCodesTranscript ==> '.' !in SidText(r.end) && r.props == CodesProps(source, taxid)) &&
    (forall r :: r in st.transcriptCodesProtein ==>
      '.' !in SidText(r.start) && '.' !in SidText(r.end) && SidText(r.end) != "na" && r.props == CodesProps(source, taxid))
  }

  /** The ids of a row carry no version. */
  predicate Unversioned(pr: Result<Option<CodesEntry>>) {
    pr.Ok? && pr.value.Some? ==> '.' !in pr.value.value.transcript && '.' !in pr.value.value.protein
  }

  lemma AddGeneTranscriptKeeps(source: string, taxid: string, st: CodesState, e: CodesEntry)
    requires CodesInvariant(source, taxid, st) && '.' !in e.transcript
    ensures CodesInvariant(source, taxid, AddGeneTranscript(source, taxid, st, e))
  {
    if e.gene + e.transcript !in st.checkGeneTranscript {
      var r := SidRel(e.gene, e.transcript, CodesProps(source, taxid));
      assert ConcatKey(r) == e.gene + e.transcript;
      Dedup.AddNew(st.geneCodesTranscript, st.checkGeneTranscript, ConcatKey, r);
    }
  }

  lemma AddTranscriptProteinKeeps(source: string, taxid: string, st: CodesState, e: CodesEntry)
    requires CodesInvariant(source, taxid, st) && '.' !in e.transcript && '.' !in e.protein
    ensures CodesInvariant(source, taxid, AddTranscriptProtein(source, taxid, st, e))
  {
    if e.protein != "na" && e.transcript + e.protein !in st.checkTranscriptProtein {
      var r := SidRel(e.transcript, e.protein, CodesProps(source, taxid));
      assert ConcatKey(r) == e.transcript + e.protein;
      Dedup.AddNew(st.transcriptCodesProtein, st.checkTranscriptProtein, ConcatKey, r);
    }
  }

  lemma ApplyCodesKeeps(source: string, taxid: string, st: CodesState, pr: Result<Option<CodesEntry>>)
    requires CodesInvariant(source, taxid, st) && Unversioned(pr)
    ensures CodesInvariant(source, taxid, ApplyCodes(source, taxid, st, pr))
  {
    if pr.Ok? && pr.value.Some? {
      var e := pr.value.value;
      AddGeneTranscriptKeeps(source, taxid, st, e);
      AddTranscriptProteinKeeps(source, taxid, AddGeneTranscript(source, taxid, st, e), e);
    }
  }

  lemma CodesRowsUnversioned(taxid: string, lines: seq<string>)
    ensures forall pr :: pr in ParseCodes(taxid, lines) ==> Unversioned(pr)
  {
    var ps := ParseCodes(taxid, lines);
    forall pr | pr in ps ensures Unversioned(pr) {
      var i :| 0 <= i < |ps| && ps[i] == pr;
      var flds := Split(Strip(lines[i]), "\t");
      CodesFieldsSpec(taxid, flds);
    }
  }

  /**
   * From empty logs: no Gene-CODES-Transcript repeats its gene_id +
   * transcript_id, no Transcript-CODES-Protein repeats its transcript_id +
   * protein_id, no transcript or protein id keeps a version, no protein is
   * 'na', and every relationship carries the source and the taxid.
   */
  lemma CodesRelationships(source: string, taxid: string, lines: seq<string>)
    ensures CodesInvariant(source, taxid, Codes(source, taxid, [], [], lines))
  {
    var ps := ParseCodes(taxid, lines);
    CodesRowsUnversioned(taxid, lines);
    forall st, pr | pr in ps && CodesInvariant(source, taxid, st) && !CodesRaised(st)
      ensures CodesInvariant(source, taxid, ApplyCodesFor(source, taxid)(st, pr))
    {
      ApplyCodesKeeps(source, taxid, st, pr);
    }
    Scan.RunKeepsIn(CodesState([], [], {}, {}, None), ps, ApplyCodesFor(source, taxid), CodesRaised,
      st => CodesInvariant(source, taxid, st));
  }

  class RefseqCodesParser {
    var geneCodesTranscript: seq<Rel>
    var transcriptCodesProtein: seq<Rel>

    constructor ()
      ensures geneCodesTranscript == [] && transcriptCodesProtein == []
    {
      geneCodesTranscript, transcriptCodesProtein := [], [];
    }

    /** run's loop over the lines of accession2geneid; `source` is the datasource name. */
    method Run(source: string, taxid: string, lines: seq<string>) returns (raised: Option<Error>)
      modifies this
      ensures var c := Codes(source, taxid, old(geneCodesTranscript), old(transcriptCodesProtein), lines);
        geneCodesTranscript == c.geneCodesTranscript && transcriptCodesProtein == c.transcriptCodesProtein &&
        raised == c.raised
    {
      ghost var ps := ParseCodes(taxid, lines);
      ghost var start := CodesState(geneCodesTranscript, transcriptCodesProtein, {}, {}, None);
      var checkGeneTranscript: set<string> := {};
      var checkTranscriptProtein: set<string> := {};
      var i := 0;
      while i < |lines|
        invariant 0 <= i <= |lines|
        invariant Scan.Run(start, ps[..i], ApplyCodesFor(source, taxid), CodesRaised)
               == CodesState(geneCodesTranscript, transcriptCodesProtein, checkGeneTranscript, checkTranscriptProtein, None)
      {
        Scan.RunNext(start, ps, i, ApplyCodesFor(source, taxid), CodesRaised);
        var row := CodesRow(taxid, lines[i]);
        checkGeneTranscript, checkTranscriptProtein, raised := Line(source, taxid, row, checkGeneTranscript, checkTranscriptProtein);
        if raised.Some? {
          Scan.RunHalted(start, ps, i + 1, ApplyCodesFor(source, taxid), CodesRaised);
          return;
        }
        i := i + 1;
      }
      Scan.RunAll(start, ps, ApplyCodesFor(source, taxid), CodesRaised);
      raised := None;
    }

    /** The body of run's loop for a line once read. */
    method Line(source: string, taxid: string, row: Result<Option<CodesEntry>>, checkGeneTranscript: set<string>, checkTranscriptProtein: set<string>)
      returns (gtAfter: set<string>, tpAfter: set<string>, raised: Option<Error>)
      modifies this
      ensures CodesState(geneCodesTranscript, transcriptCodesProtein, gtAfter, tpAfter, raised)
           == ApplyCodes(source, taxid, CodesState(old(geneCodesTranscript), old(transcriptCodesProtein), checkGeneTranscript, checkTranscriptProtein, None), row)
    {
      gtAfter, tpAfter, raised := checkGeneTranscript, checkTranscriptProtein, None;
      if row.Err? {
        return checkGeneTranscript, checkTranscriptProtein, Some(row.error);
      }
      if row.value.Some? {
        var e := row.value.value;
        if e.gene + e.transcript !in checkGeneTranscript {
          geneCodesTranscript := geneCodesTranscript + [SidRel(e.gene, e.transcript, CodesProps(source, taxid))];
          gtAfter := checkGeneTranscript + {e.gene + e.transcript};
        }
        if e.protein != "na" {
          if e.transcript + e.protein !in checkTranscriptProtein {
            transcriptCodesProtein := transcriptCodesProtein + [SidRel(e.transcript, e.protein, CodesProps(source, taxid))];
            tpAfter := checkTranscriptProtein + {e.transcript + e.protein};
          }
        }
      }
    }
  }
}
