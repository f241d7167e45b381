/**
 * The LNCipedia parser (biomedgraph/parser/lncipedia.py).
 *
 * LncipediaParser walks the records of the LNCipedia GFF annotation.  Each
 * 'lnc_RNA' record names a gene and a transcript; exon records repeat them and
 * are ignored.  The parser emits Gene and Transcript nodes, Gene-CODES-Transcript
 * and, for every gene or transcript alias with its version removed, a MAPS to
 * the gene or transcript.  One check set serves all of them: it holds the ids
 * of the nodes and the unordered pairs (frozensets) of the relationships, so an
 * id seen in any role is never added as a node again and a pair joined by any
 * relationship is never joined again.
 *
 * A record is given as a value (the GFF reader is not part of this model): its
 * type column and its attribute dictionary as the dictionary's items in order.
 */
module Lncipedia {
  import opened Results
  import opened PyStr
  import opened Graph
  import Scan
  import Dedup

  /** The items of a dictionary: no key occurs twice. */
  predicate DistinctKeys(items: seq<(string, string)>) {
    forall i, j :: 0 <= i < j < |items| ==> items[i].0 != items[j].0
  }

  type Attributes = items: seq<(string, string)> | DistinctKeys(items) witness []

  datatype LncRecord = LncRecord(kind: string, attributes: Attributes)

  /** r.attributes[key]: the value of the item with that key, KeyError when there is none. */
  function Get(items: seq<(string, string)>, key: string): (v: Result<string>)
    ensures v.Ok? <==> exists i :: 0 <= i < |items| && items[i].0 == key
    ensures v.Ok? ==> exists i :: 0 <= i < |items| && items[i] == (key, v.value)
    ensures v.Err? ==> v.error == KeyError(key)
    decreases |items|
  {
    if items == [] then Err(KeyError(key))
    else if items[0].0 == key then Ok(items[0].1)
    else
      var v := Get(items[1..], key);
      assert forall i :: 0 <= i < |items| - 1 ==> items[1..][i] == items[i + 1];
      v
  }

  // ---------------------------------------------------------------------------
  // The shared check set

  /** What check_ids holds: an id, or the frozenset of the two ends of a relationship. */
  datatype CheckKey = Id(id: string) | Pair(ids: set<string>)

  function NodeKey(p: Props): CheckKey {
    Id(SidText(p))
  }

  function RelKey(r: Rel): CheckKey {
    Pair({SidText(r.start), SidText(r.end)})
  }

  /** The five logs of the parser, its check set and the exception if one was raised. */
  datatype LncState = LncState(
    genes: seq<Props>, transcripts: seq<Props>, geneCodesTranscripts: seq<Rel>,
    geneMapsGene: seq<Rel>, transcriptMapsTranscript: seq<Rel>,
    check: set<CheckKey>, raised: Option<Error>)

  /** {'sid': id, 'source': source}, the props of a Gene or Transcript node. */
  function IdNode(id: string, source: string): (p: Props)
    ensures SidText(p) == id
  {
    map["sid" := Str(id), "source" := Str(source)]
  }

  /** The relationship between two sids, and its check key. */
  function PairRel(a: string, b: string, props: Props): (r: Rel)
    ensures r == SidRel(a, b, props) && RelKey(r) == Pair({a, b})
  {
    SidRel(a, b, props)
  }

  /** The Gene node, unless its id is in the check set. */
  function AddGene(source: string, st: LncState, geneId: string): LncState {
    if Id(geneId) in st.check then st
    else st.(genes := st.genes + [IdNode(geneId, source)], check := st.check + {Id(geneId)})
  }

  /** The Transcript node, unless its id is in the check set. */
  function AddTranscript(source: string, st: LncState, transcriptId: string): LncState {
    if Id(transcriptId) in st.check then st
    else st.(transcripts := st.transcripts + [IdNode(transcriptId, source)], check := st.check + {Id(transcriptId)})
  }

  /** Gene-CODES-Transcript, unless the pair is in the check set. */
  function AddCodes(st: LncState, geneId: string, transcriptId: string): LncState {
    if Pair({geneId, transcriptId}) in st.check then st
    else st.(geneCodesTranscripts := st.geneCodesTranscripts + [PairRel(geneId, transcriptId, map[])],
             check := st.check + {Pair({geneId, transcriptId})})
  }

  /** Gene-MAPS-Gene to an alias, unless the alias is the gene itself or the pair is in the check set. */
  function AddGeneMaps(source: string, st: LncState, geneId: string, ref: string): LncState {
    if geneId == ref || Pair({geneId, ref}) in st.check then st
    else st.(geneMapsGene := st.geneMapsGene + [PairRel(geneId, ref, SourceProps(source))],
             check := st.check + {Pair({geneId, ref})})
  }

  /** Transcript-MAPS-Transcript to an alias, unless the alias is the transcript itself or the pair is in the check set. */
  function AddTranscriptMaps(source: string, st: LncState, transcriptId: string, ref: string): LncState {
    if transcriptId == ref || Pair({transcriptId, ref}) in st.check then st
    else st.(transcriptMapsTranscript := st.transcriptMapsTranscript + [PairRel(transcriptId, ref, SourceProps(source))],
             check := st.check + {Pair({transcriptId, ref})})
  }

  /** One attribute of a record: a gene alias maps to the gene, a transcript alias to the transcript. */
  function AliasStep(source: string, geneId: string, transcriptId: string, st: LncState, item: (string, string)): LncState {
    var s1 := if StartsWith(item.0, "gene_alias") then AddGeneMaps(source, st, geneId, NoVersion(item.1)) else st;
    if StartsWith(item.0, "transcript_alias") then AddTranscriptMaps(source, s1, transcriptId, NoVersion(item.1)) else s1
  }

  function AliasStepFor(source: string, geneId: string, transcriptId: string): (LncState, (string, string)) -> LncState {
    (st: LncState, item: (string, string)) => AliasStep(source, geneId, transcriptId, st, item)
  }

  /** The alias loop over the items of a record. */
  function Aliases(source: string, geneId: string, transcriptId: string, st: LncState, items: seq<(string, string)>): LncState {
    Scan.Run(st, items, AliasStepFor(source, geneId, transcriptId), Scan.Never)
  }

  /**
   * One record.  Records of another type change nothing; in an 'lnc_RNA'
   * record, gene_id is read and its node added before transcript_id is read,
   * so a record without transcript_id keeps its Gene node and raises KeyError.
   */
  function LncStep(source: string, st: LncState, r: LncRecord): LncState {
    if r.kind != "lnc_RNA" then st
    else
      match Get(r.attributes, "gene_id")
      case Err(e) => st.(raised := Some(e))
      case Ok(geneId) =>
        var s1 := AddGene(source, st, geneId);
        match Get(r.attributes, "transcript_id")
        case Err(e) => s1.(raised := Some(e))
        case Ok(transcriptId) =>
          var s2 := AddCodes(AddTranscript(source, s1, transcriptId), geneId, transcriptId);
          Aliases(source, geneId, transcriptId, s2, r.attributes)
  }

  function LncStepFor(source: string): (LncState, LncRecord) -> LncState {
    (st: LncState, r: LncRecord) => LncStep(source, st, r)
  }

  predicate LncRaised(st: LncState) {
    st.raised.Some?
  }

  /** run over the records of the annotation, from the given logs and check set. */
  function LncipediaRun(source: string, start: LncState, records: seq<LncRecord>): LncState {
    Scan.Run(start, records, LncStepFor(source), LncRaised)
  }

  /** The parser's empty logs and check set. */
  function LncStart(): LncState {
    LncState([], [], [], [], [], {}, None)
  }

  // ---------------------------------------------------------------------------
  // Only 'lnc_RNA' records count

  /** The 'lnc_RNA' records, in order. */
  function LncOnly(records: seq<LncRecord>): (r: seq<LncRecord>)
    ensures forall x :: x in r ==> x in records && x.kind == "lnc_RNA"
    decreases |records|
  {
    if records == [] then []
    else
      var n := |records| - 1;
      var prefix := LncOnly(records[..n]);
      assert forall x :: x in records[..n] ==> x in records;
      if records[n].kind == "lnc_RNA" then prefix + [records[n]] else prefix
  }

  /** Exon and other records emit nothing: the run over the records is the run over their 'lnc_RNA' records. */
  lemma {:induction false} OnlyLncRecords(source: string, start: LncState, records: seq<LncRecord>)
    ensures LncipediaRun(source, start, records) == LncipediaRun(source, start, LncOnly(records))
    decreases |records|
  {
    if records != [] {
      var n := |records| - 1;
      OnlyLncRecords(source, start, records[..n]);
      if records[n].kind == "lnc_RNA" {
        Scan.RunSnoc(start, LncOnly(records[..n]), records[n], LncStepFor(source), LncRaised);
      }
    }
  }

  // ---------------------------------------------------------------------------
  // The check set and the logs

  /** The keys of every log. */
  function LogKeys(st: LncState): set<CheckKey> {
    Dedup.Keys(st.genes, NodeKey) + Dedup.Keys(st.transcripts, NodeKey) +
    Dedup.Keys(st.geneCodesTranscripts, RelKey) + Dedup.Keys(st.geneMapsGene, RelKey) +
    Dedup.Keys(st.transcriptMapsTranscript, RelKey)
  }

  /**
   * The check set holds exactly the keys of the logs; no log holds a key twice
   * and no two logs share one: a Transcript node never has a Gene node's id,
   * and CODES and the two kinds of MAPS never join the same pair.  No MAPS is
   * a self-loop and no MAPS target keeps a version.
   */
  ghost predicate LncInvariant(st: LncState) {
    st.check == LogKeys(st) &&
    Dedup.Tracked(st.genes, st.check, NodeKey) && Dedup.Tracked(st.transcripts, st.check, NodeKey) &&
    Dedup.Tracked(st.geneCodesTranscripts, st.check, RelKey) && Dedup.Tracked(st.geneMapsGene, st.check, RelKey) &&
    Dedup.Tracked(st.transcriptMapsTranscript, st.check, RelKey) &&
    Dedup.Apart(st.genes, st.transcripts, NodeKey) &&
    Dedup.Apart(st.geneCodesTranscripts, st.geneMapsGene, RelKey) &&
    Dedup.Apart(st.geneCodesTranscripts, st.transcriptMapsTranscript, RelKey) &&
    Dedup.Apart(st.geneMapsGene, st.transcriptMapsTranscript, RelKey) &&
    MapsClean(st.geneMapsGene) && MapsClean(st.transcriptMapsTranscript)
  }

  /** Every MAPS joins two different sids, and its target has no version. */
  predicate MapsClean(rels: seq<Rel>) {
    forall r :: r in rels ==> SidText(r.start) != SidText(r.end) && '.' !in SidText(r.end)
  }

  lemma AddGeneKeeps(source: string, st: LncState, geneId: string)
    requires LncInvariant(st)
    ensures LncInvariant(AddGene(source, st, geneId))
  {
    if Id(geneId) !in st.check {
      var node := IdNode(geneId, source);
      Dedup.AddNew(st.genes, st.check, NodeKey, node);
      Dedup.ApartAdd(st.genes, st.transcripts, st.check, NodeKey, node);
      Dedup.KeysSnoc(st.genes, NodeKey, node);
    }
  }

  lemma AddTranscriptKeeps(source: string, st: LncState, transcriptId: string)
    requires LncInvariant(st)
    ensures LncInvariant(AddTranscript(source, st, transcriptId))
  {
    if Id(transcriptId) !in st.check {
      var node := IdNode(transcriptId, source);
      Dedup.AddNew(st.transcripts, st.check, NodeKey, node);
      Dedup.ApartAdd(st.genes, st.transcripts, st.check, NodeKey, node);
      Dedup.KeysSnoc(st.transcripts, NodeKey, node);
    }
  }

  lemma AddCodesKeeps(st: LncState, geneId: string, transcriptId: string)
    requires LncInvariant(st)
    ensures LncInvariant(AddCodes(st, geneId, transcriptId))
  {
    if Pair({geneId, transcriptId}) !in st.check {
      var rel := PairRel(geneId, transcriptId, map[]);
      Dedup.AddNew(st.geneCodesTranscripts, st.check, RelKey, rel);
      Dedup.ApartAdd(st.geneCodesTranscripts, st.geneMapsGene, st.check, RelKey, rel);
      Dedup.ApartAdd(st.geneCodesTranscripts, st.transcriptMapsTranscript, st.check, RelKey, rel);
      Dedup.KeysSnoc(st.geneCodesTranscripts, RelKey, rel);
    }
  }

  lemma AddGeneMapsKeeps(source: string, st: LncState, geneId: string, ref: string)
    requires LncInvariant(st) && '.' !in ref
    ensures LncInvariant(AddGeneMaps(source, st, geneId, ref))
  {
    if geneId != ref && Pair({geneId, ref}) !in st.check {
      var rel := PairRel(geneId, ref, SourceProps(source));
      Dedup.AddNew(st.geneMapsGene, st.check, RelKey, rel);
      Dedup.ApartAdd(st.geneCodesTranscripts, st.geneMapsGene, st.check, RelKey, rel);
      Dedup.ApartAdd(st.geneMapsGene, st.transcriptMapsTranscript, st.check, RelKey, rel);
      Dedup.KeysSnoc(st.geneMapsGene, RelKey, rel);
    }
  }

  lemma AddTranscriptMapsKeeps(source: string, st: LncState, transcriptId: string, ref: string)
    requires LncInvariant(st) && '.' !in ref
    ensures LncInvariant(AddTranscriptMaps(source, st, transcriptId, ref))
  {
    if transcriptId != ref && Pair({transcriptId, ref}) !in st.check {
      var rel := PairRel(transcriptId, ref, SourceProps(source));
      Dedup.AddNew(st.transcriptMapsTranscript, st.check, RelKey, rel);
      Dedup.ApartAdd(st.geneCodesTranscripts, st.transcriptMapsTranscript, st.check, RelKey, rel);
      Dedup.ApartAdd(st.geneMapsGene, st.transcriptMapsTranscript, st.check, RelKey, rel);
      Dedup.KeysSnoc(st.transcriptMapsTranscript, RelKey, rel);
    }
  }

  lemma AliasStepKeeps(source: string, geneId: string, transcriptId: string, st: LncState, item: (string, string))
    requires LncInvariant(st)
    ensures LncInvariant(AliasStep(source, geneId, transcriptId, st, item))
  {
    var ref := NoVersion(item.1);
    var s1 := if StartsWith(item.0, "gene_alias") then AddGeneMaps(source, st, geneId, ref) else st;
    AddGeneMapsKeeps(source, st, geneId, ref);
    AddTranscriptMapsKeeps(source, s1, transcriptId, ref);
  }

  lemma AliasesKeep(source: string, geneId: string, transcriptId: string, st: LncState, items: seq<(string, string)>)
    requires LncInvariant(st)
    ensures LncInvariant(Aliases(source, geneId, transcriptId, st, items))
  {
    forall s: LncState, item: (string, string) | LncInvariant(s) && !Scan.Never(s)
      ensures LncInvariant(AliasStepFor(source, geneId, transcriptId)(s, item))
    {
      AliasStepKeeps(source, geneId, transcriptId, s, item);
    }
    Scan.RunKeeps(st, items, AliasStepFor(source, geneId, transcriptId), Scan.Never, LncInvariant);
  }

  lemma LncStepKeeps(source: string, st: LncState, r: LncRecord)
    requires LncInvariant(st)
    ensures LncInvariant(LncStep(source, st, r))
  {
    if r.kind == "lnc_RNA" && Get(r.attributes, "gene_id").Ok? {
      var geneId := Get(r.attributes, "gene_id").value;
      AddGeneKeeps(source, st, geneId);
      var s1 := AddGene(source, st, geneId);
      if Get(r.attributes, "transcript_id").Ok? {
        var transcriptId := Get(r.attributes, "transcript_id").value;
        AddTranscriptKeeps(source, s1, transcriptId);
        var s2 := AddTranscript(source, s1, transcriptId);
        AddCodesKeeps(s2, geneId, transcriptId);
        AliasesKeep(source, geneId, transcriptId, AddCodes(s2, geneId, transcriptId), r.attributes);
      }
    }
  }

  /**
   * From empty logs: the check set holds exactly the keys of the logs; no id
   * becomes a node twice, as a gene or as a transcript; no unordered pair is
   * joined twice, by CODES or by either MAPS; no MAPS is a self-loop or points
   * at a versioned id.
   */
  lemma LncipediaDistinct(source: string, records: seq<LncRecord>)
    ensures LncInvariant(LncipediaRun(source, LncStart(), records))
  {
    forall st: LncState, r: LncRecord | LncInvariant(st) && !LncRaised(st)
      ensures LncInvariant(LncStepFor(source)(st, r))
    {
      LncStepKeeps(source, st, r);
    }
    Scan.RunKeeps(LncStart(), records, LncStepFor(source), LncRaised, LncInvariant);
  }

  // ---------------------------------------------------------------------------
  // Every lnc_RNA record is covered

  /** The alias loop only adds to the check set. */
  lemma AliasesGrow(source: string, geneId: string, transcriptId: string, st: LncState, items: seq<(string, string)>)
    ensures st.check <= Aliases(source, geneId, transcriptId, st, items).check
  {
    forall s: LncState, item: (string, string) | st.check <= s.check && !Scan.Never(s)
      ensures st.check <= AliasStepFor(source, geneId, transcriptId)(s, item).check
    {
      var ref := NoVersion(item.1);
      var s1 := if StartsWith(item.0, "gene_alias") then AddGeneMaps(source, s, geneId, ref) else s;
      assert s.check <= s1.check;
    }
    Scan.RunKeeps(st, items, AliasStepFor(source, geneId, transcriptId), Scan.Never, (s: LncState) => st.check <= s.check);
  }

  /** The check set only grows. */
  lemma LncStepGrows(source: string, st: LncState, r: LncRecord)
    ensures st.check <= LncStep(source, st, r).check
  {
    if r.kind == "lnc_RNA" && Get(r.attributes, "gene_id").Ok? && Get(r.attributes, "transcript_id").Ok? {
      var geneId := Get(r.attributes, "gene_id").value;
      var transcriptId := Get(r.attributes, "transcript_id").value;
      var s2 := AddCodes(AddTranscript(source, AddGene(source, st, geneId), transcriptId), geneId, transcriptId);
      AliasesGrow(source, geneId, transcriptId, s2, r.attributes);
    }
  }

  /** After an 'lnc_RNA' record that did not raise, its gene id, transcript id and their pair are checked. */
  lemma LncStepChecks(source: string, st: LncState, r: LncRecord)
    requires r.kind == "lnc_RNA" && !LncRaised(LncStep(source, st, r))
    ensures Get(r.attributes, "gene_id").Ok? && Get(r.attributes, "transcript_id").Ok?
    ensures var g, t := Get(r.attributes, "gene_id").value, Get(r.attributes, "transcript_id").value;
      {Id(g), Id(t), Pair({g, t})} <= LncStep(source, st, r).check
  {
    var geneId := Get(r.attributes, "gene_id").value;
    var transcriptId := Get(r.attributes, "transcript_id").value;
    var s2 := AddCodes(AddTranscript(source, AddGene(source, st, geneId), transcriptId), geneId, transcriptId);
    AliasesGrow(source, geneId, transcriptId, s2, r.attributes);
  }

  /**
   * From empty logs, when no record raises: the gene id and the transcript id
   * of every 'lnc_RNA' record are the sid of a Gene or a Transcript node, and
   * some CODES or MAPS joins the two.
   */
  lemma LncipediaCovers(source: string, records: seq<LncRecord>, i: nat)
    requires i < |records| && records[i].kind == "lnc_RNA"
    requires !LncRaised(LncipediaRun(source, LncStart(), records))
    ensures Get(records[i].attributes, "gene_id").Ok? && Get(records[i].attributes, "transcript_id").Ok?
    ensures var st := LncipediaRun(source, LncStart(), records);
      var g, t := Get(records[i].attributes, "gene_id").value, Get(records[i].attributes, "transcript_id").value;
      Id(g) in Dedup.Keys(st.genes, NodeKey) + Dedup.Keys(st.transcripts, NodeKey) &&
      Id(t) in Dedup.Keys(st.genes, NodeKey) + Dedup.Keys(st.transcripts, NodeKey) &&
      Pair({g, t}) in Dedup.Keys(st.geneCodesTranscripts, RelKey) + Dedup.Keys(st.geneMapsGene, RelKey) + Dedup.Keys(st.transcriptMapsTranscript, RelKey)
  {
    var step := LncStepFor(source);
    var start := LncStart();
    var prev := Scan.Run(start, records[..i], step, LncRaised);
    if LncRaised(prev) {
      Scan.RunHalted(start, records, i, step, LncRaised);
      assert false;
    }
    Scan.RunNext(start, records, i, step, LncRaised);
    var mid := Scan.Run(start, records[..i + 1], step, LncRaised);
    if LncRaised(mid) {
      Scan.RunHalted(start, records, i + 1, step, LncRaised);
      assert false;
    }
    LncStepChecks(source, prev, records[i]);
    Scan.RunSplit(start, records, i + 1, step, LncRaised);
    forall s: LncState, r: LncRecord | mid.check <= s.check && !LncRaised(s)
      ensures mid.check <= step(s, r).check
    {
      LncStepGrows(source, s, r);
    }
    Scan.RunKeeps(mid, records[i + 1..], step, LncRaised, (s: LncState) => mid.check <= s.check);
    LncipediaDistinct(source, records);
    var g, t := Get(records[i].attributes, "gene_id").value, Get(records[i].attributes, "transcript_id").value;
    var st := LncipediaRun(source, LncStart(), records);
    CheckedIsLogged(st, Id(g));
    CheckedIsLogged(st, Id(t));
    CheckedIsLogged(st, Pair({g, t}));
  }

  /** A checked id is the sid of a node; a checked pair is joined by a relationship. */
  lemma CheckedIsLogged(st: LncState, k: CheckKey)
    requires LncInvariant(st) && k in st.check
    ensures k.Id? ==> k in Dedup.Keys(st.genes, NodeKey) + Dedup.Keys(st.transcripts, NodeKey)
    ensures k.Pair? ==> k in Dedup.Keys(st.geneCodesTranscripts, RelKey) + Dedup.Keys(st.geneMapsGene, RelKey) + Dedup.Keys(st.transcriptMapsTranscript, RelKey)
  {
    assert k in LogKeys(st);
  }

  // ---------------------------------------------------------------------------
  // LncipediaParser

  class LncipediaParser {
    var genes: seq<Props>
    var transcripts: seq<Props>
    var geneCodesTranscripts: seq<Rel>
    var geneMapsGene: seq<Rel>
    var transcriptMapsTranscript: seq<Rel>

    constructor ()
      ensures genes == [] && transcripts == [] && geneCodesTranscripts == [] && geneMapsGene == [] && transcriptMapsTranscript == []
    {
      genes, transcripts := [], [];
      geneCodesTranscripts, geneMapsGene, transcriptMapsTranscript := [], [], [];
    }

    function State(check: set<CheckKey>, raised: Option<Error>): LncState
      reads this
    {
      LncState(genes, transcripts, geneCodesTranscripts, geneMapsGene, transcriptMapsTranscript, check, raised)
    }

    /** run over the records of the annotation, with a fresh check set. */
    method Run(source: string, records: seq<LncRecord>) returns (raised: Option<Error>)
      modifies this
      ensures State({}, raised) == LncipediaRun(source, old(State({}, None)), records).(check := {})
    {
      ghost var start := State({}, None);
      var check: set<CheckKey> := {};
      var i := 0;
      while i < |records|
        invariant 0 <= i <= |records|
        invariant Scan.Run(start, records[..i], LncStepFor(source), LncRaised) == State(check, None)
      {
        Scan.RunNext(start, records, i, LncStepFor(source), LncRaised);
        check, raised := Record(source, records[i], check);
        if raised.Some? {
          Scan.RunHalted(start, records, i + 1, LncStepFor(source), LncRaised);
          return;
        }
        i := i + 1;
      }
      Scan.RunAll(start, records, LncStepFor(source), LncRaised);
      raised := None;
    }

    /** The body of the record loop. */
    method Record(source: string, r: LncRecord, check: set<CheckKey>) returns (checkAfter: set<CheckKey>, raised: Option<Error>)
      modifies this
      ensures State(checkAfter, raised) == LncStep(source, old(State(check, None)), r)
    {
      checkAfter, raised := check, None;
      if r.kind != "lnc_RNA" {
        return;
      }
      var gene := Get(r.attributes, "gene_id");
      if gene.Err? {
        return check, Some(gene.error);
      }
      var geneId := gene.value;
      if Id(geneId) !in checkAfter {
        genes := genes + [IdNode(geneId, source)];
        checkAfter := checkAfter + {Id(geneId)};
      }
      var transcript := Get(r.attributes, "transcript_id");
      if transcript.Err? {
        return checkAfter, Some(transcript.error);
      }
      var transcriptId := transcript.value;
      if Id(transcriptId) !in checkAfter {
        transcripts := transcripts + [IdNode(transcriptId, source)];
        checkAfter := checkAfter + {Id(transcriptId)};
      }
      if Pair({geneId, transcriptId}) !in checkAfter {
        geneCodesTranscripts := geneCodesTranscripts + [PairRel(geneId, transcriptId, map[])];
        checkAfter := checkAfter + {Pair({geneId, transcriptId})};
      }
      checkAfter := AliasLoop(source, geneId, transcriptId, r.attributes, checkAfter);
    }

    /** The loop over the attribute items of a record. */
    method AliasLoop(source: string, geneId: string, transcriptId: string, items: seq<(string, string)>, check: set<CheckKey>)
      returns (checkAfter: set<CheckKey>)
      modifies this
      ensures State(checkAfter, None) == Aliases(source, geneId, transcriptId, old(State(check, None)), items)
    {
      ghost var start := State(check, None);
      checkAfter := check;
      var k := 0;
      while k < |items|
        invariant 0 <= k <= |items|
        invariant Scan.Run(start, items[..k], AliasStepFor(source, geneId, transcriptId), Scan.Never) == State(checkAfter, None)
      {
        Scan.RunNext(start, items, k, AliasStepFor(source, geneId, transcriptId), Scan.Never);
        var (key, v) := items[k];
        if StartsWith(key, "gene_alias") {
          var ref := NoVersion(v);
          if geneId != ref && Pair({geneId, ref}) !in checkAfter {
            geneMapsGene := geneMapsGene + [PairRel(geneId, ref, SourceProps(source))];
            checkAfter := checkAfter + {Pair({geneId, ref})};
          }
        }
        if StartsWith(key, "transcript_alias") {
          var ref := NoVersion(v);
          if transcriptId != ref && Pair({transcriptId, ref}) !in checkAfter {
            transcriptMapsTranscript := transcriptMapsTranscript + [PairRel(transcriptId, ref, SourceProps(source))];
            checkAfter := checkAfter + {Pair({transcriptId, ref})};
          }
        }
        k := k + 1;
      }
      Scan.RunAll(start, items, AliasStepFor(source, geneId, transcriptId), Scan.Never);
    }
  }
}
