/**
 * The Ensembl parsers (biomedgraph/parser/ensembl.py).
 *
 * EnsemblEntityParser walks the records of a GTF annotation and emits one Gene,
 * Transcript and Protein node per distinct id and the Gene-CODES-Transcript and
 * Transcript-CODES-Protein relationships, each deduplicated by a check set.
 * EnsemblLocusParser emits one Locus node per record.  EnsemblMappingParser
 * reads the entrez, refseq and uniprot TSV mappings and emits MAPS
 * relationships, deduplicated by the unordered pair of their ends.
 *
 * A GTF record is given as a value (the GTF reader is not part of this model):
 * its fixed columns and its attribute dictionary.  Reading a missing attribute
 * raises KeyError, as indexing a Python dict does.
 */
module EnsemblParser {
  import opened Results
  import opened PyStr
  import opened Graph
  import Scan
  import Dedup

  datatype GffRecord = GffRecord(
    chr: string, source: string, kind: string, start: int, end: int,
    score: string, strand: string, frame: string, attributes: map<string, string>)

  /** r.attributes[key] */
  function Attr(r: GffRecord, key: string): (v: Result<string>)
    ensures v.Ok? <==> key in r.attributes
    ensures v.Ok? ==> v.value == r.attributes[key]
    ensures v.Err? ==> v.error == KeyError(key)
  {
    if key in r.attributes then Ok(r.attributes[key]) else Err(KeyError(key))
  }

  // ---------------------------------------------------------------------------
  // EnsemblEntityParser

  /** {'sid': gene_id, 'name': gene_name, 'taxid': taxid} */
  function GeneNode(geneId: string, name: string, taxid: string): (p: Props)
    ensures SidText(p) == geneId
  {
    map["sid" := Str(geneId), "name" := Str(name), "taxid" := Str(taxid)]
  }

  /** {'sid': id, 'taxid': taxid}, the props of a Transcript or Protein node. */
  function IdNode(id: string, taxid: string): (p: Props)
    ensures SidText(p) == id
  {
    map["sid" := Str(id), "taxid" := Str(taxid)]
  }

  /** The five NodeSet/RelationshipSet logs of the parser. */
  datatype EntityLogs = EntityLogs(
    genes: seq<Props>, transcripts: seq<Props>, proteins: seq<Props>,
    geneCodesTranscript: seq<Rel>, transcriptCodesProtein: seq<Rel>)

  /** The five check sets of run. */
  datatype EntityChecks = EntityChecks(
    geneIds: set<string>, transcriptIds: set<string>, proteinIds: set<string>,
    geneTranscriptRels: set<string>, transcriptProteinRels: set<string>)

  datatype EntityState = EntityState(logs: EntityLogs, checks: EntityChecks, raised: Option<Error>)

  /** The gene node, added the first time its gene_id is seen. */
  function GeneStage(taxid: string, st: EntityState, r: GffRecord): EntityState {
    match Attr(r, "gene_id")
    case Err(e) => st.(raised := Some(e))
    case Ok(geneId) =>
      if geneId in st.checks.geneIds then st
      else
        match Attr(r, "gene_name")
        case Err(e) => st.(raised := Some(e))
        case Ok(name) =>
          st.(logs := st.logs.(genes := st.logs.genes + [GeneNode(geneId, name, taxid)]),
              checks := st.checks.(geneIds := st.checks.geneIds + {geneId}))
  }

  /** The transcript node of a 'transcript' record, added the first time its id is seen. */
  function TranscriptStage(taxid: string, st: EntityState, r: GffRecord): EntityState {
    if r.kind != "transcript" then st
    else
      match Attr(r, "transcript_id")
      case Err(e) => st.(raised := Some(e))
      case Ok(id) =>
        if id in st.checks.transcriptIds then st
        else
          st.(logs := st.logs.(transcripts := st.logs.transcripts + [IdNode(id, taxid)]),
              checks := st.checks.(transcriptIds := st.checks.transcriptIds + {id}))
  }

  /** The protein node of a 'CDS' record, added the first time its id is seen. */
  function ProteinStage(taxid: string, st: EntityState, r: GffRecord): EntityState {
    if r.kind != "CDS" then st
    else
      match Attr(r, "protein_id")
      case Err(e) => st.(raised := Some(e))
      case Ok(id) =>
        if id in st.checks.proteinIds then st
        else
          st.(logs := st.logs.(proteins := st.logs.proteins + [IdNode(id, taxid)]),
              checks := st.checks.(proteinIds := st.checks.proteinIds + {id}))
  }

  /** Gene-CODES-Transcript of a 'transcript' record, keyed by gene_id + transcript_id. */
  function GeneTranscriptStage(st: EntityState, r: GffRecord): EntityState {
    if r.kind != "transcript" then st
    else
      match Attr(r, "transcript_id")
      case Err(e) => st.(raised := Some(e))
      case Ok(tid) =>
        match Attr(r, "gene_id")
        case Err(e) => st.(raised := Some(e))
        case Ok(gid) =>
          if gid + tid in st.checks.geneTranscriptRels then st
          else
            st.(logs := st.logs.(geneCodesTranscript := st.logs.geneCodesTranscript + [SidRel(gid, tid, map[])]),
                checks := st.checks.(geneTranscriptRels := st.checks.geneTranscriptRels + {gid + tid}))
  }

  /** Transcript-CODES-Protein of a 'CDS' record, keyed by transcript_id + protein_id. */
  function TranscriptProteinStage(st: EntityState, r: GffRecord): EntityState {
    if r.kind != "CDS" then st
    else
      match Attr(r, "protein_id")
      case Err(e) => st.(raised := Some(e))
      case Ok(pid) =>
        match Attr(r, "transcript_id")
        case Err(e) => st.(raised := Some(e))
        case Ok(tid) =>
          if tid + pid in st.checks.transcriptProteinRels then st
          else
            st.(logs := st.logs.(transcriptCodesProtein := st.logs.transcriptCodesProtein + [SidRel(tid, pid, map[])]),
                checks := st.checks.(transcriptProteinRels := st.checks.transcriptProteinRels + {tid + pid}))
  }

  /** One record of the GTF file: the five stages in the order of the loop body, stopping at a KeyError. */
  function EntityStep(taxid: string, st: EntityState, r: GffRecord): EntityState {
    var s1 := GeneStage(taxid, st, r);
    if s1.raised.Some? then s1
    else
      var s2 := TranscriptStage(taxid, s1, r);
      if s2.raised.Some? then s2
      else
        var s3 := ProteinStage(taxid, s2, r);
        if s3.raised.Some? then s3
        else
          var s4 := GeneTranscriptStage(s3, r);
          if s4.raised.Some? then s4 else TranscriptProteinStage(s4, r)
  }

  function EntityStepFor(taxid: string): (EntityState, GffRecord) -> EntityState {
    (st, r) => EntityStep(taxid, st, r)
  }

  predicate EntityRaised(st: EntityState) {
    st.raised.Some?
  }

  /** The state before the loop: the parser's logs and empty check sets. */
  function EntityStart(logs: EntityLogs): EntityState {
    EntityState(logs, EntityChecks({}, {}, {}, {}, {}), None)
  }

  /** The logs and the exception after run's loop over the records, from the given logs. */
  function Entities(taxid: string, logs: EntityLogs, records: seq<GffRecord>): EntityState {
    Scan.Run(EntityStart(logs), records, EntityStepFor(taxid), EntityRaised)
  }

  /**
   * Every log holds each of its keys at most once, and its check set holds
   * exactly the keys of the log: a node's sid, a relationship's concatenated sids.
   */
  ghost predicate EntityTracked(st: EntityState) {
    Dedup.Recorded(st.logs.genes, st.checks.geneIds, SidText) &&
    Dedup.Recorded(st.logs.transcripts, st.checks.transcriptIds, SidText) &&
    Dedup.Recorded(st.logs.proteins, st.checks.proteinIds, SidText) &&
    Dedup.Recorded(st.logs.geneCodesTranscript, st.checks.geneTranscriptRels, ConcatKey) &&
    Dedup.Recorded(st.logs.transcriptCodesProtein, st.checks.transcriptProteinRels, ConcatKey)
  }

  lemma EntityStepTracked(taxid: string, st: EntityState, r: GffRecord)
    requires EntityTracked(st)
    ensures EntityTracked(EntityStep(taxid, st, r))
  {
    var s1 := GeneStage(taxid, st, r);
    GeneStageTracked(taxid, st, r);
    var s2 := TranscriptStage(taxid, s1, r);
    TranscriptStageTracked(taxid, s1, r);
    var s3 := ProteinStage(taxid, s2, r);
    ProteinStageTracked(taxid, s2, r);
    var s4 := GeneTranscriptStage(s3, r);
    GeneTranscriptStageTracked(s3, r);
    TranscriptProteinStageTracked(s4, r);
  }

  lemma GeneStageTracked(taxid: string, st: EntityState, r: GffRecord)
    requires EntityTracked(st)
    ensures EntityTracked(GeneStage(taxid, st, r))
  {
    if "gene_id" in r.attributes && "gene_name" in r.attributes && r.attributes["gene_id"] !in st.checks.geneIds {
      Dedup.RecordNew(st.logs.genes, st.checks.geneIds, SidText, GeneNode(r.attributes["gene_id"], r.attributes["gene_name"], taxid));
    }
  }

  lemma TranscriptStageTracked(taxid: string, st: EntityState, r: GffRecord)
    requires EntityTracked(st)
    ensures EntityTracked(TranscriptStage(taxid, st, r))
  {
    if r.kind == "transcript" && "transcript_id" in r.attributes && r.attributes["transcript_id"] !in st.checks.transcriptIds {
      Dedup.RecordNew(st.logs.transcripts, st.checks.transcriptIds, SidText, IdNode(r.attributes["transcript_id"], taxid));
    }
  }

  lemma ProteinStageTracked(taxid: string, st: EntityState, r: GffRecord)
    requires EntityTracked(st)
    ensures EntityTracked(ProteinStage(taxid, st, r))
  {
    if r.kind == "CDS" && "protein_id" in r.attributes && r.attributes["protein_id"] !in st.checks.proteinIds {
      Dedup.RecordNew(st.logs.proteins, st.checks.proteinIds, SidText, IdNode(r.attributes["protein_id"], taxid));
    }
  }

  lemma GeneTranscriptStageTracked(st: EntityState, r: GffRecord)
    requires EntityTracked(st)
    ensures EntityTracked(GeneTranscriptStage(st, r))
  {
    if r.kind == "transcript" && "transcript_id" in r.attributes && "gene_id" in r.attributes {
      var gid := r.attributes["gene_id"];
      var tid := r.attributes["transcript_id"];
      if gid + tid !in st.checks.geneTranscriptRels {
        Dedup.RecordNew(st.logs.geneCodesTranscript, st.checks.geneTranscriptRels, ConcatKey, SidRel(gid, tid, map[]));
      }
    }
  }

  lemma TranscriptProteinStageTracked(st: EntityState, r: GffRecord)
    requires EntityTracked(st)
    ensures EntityTracked(TranscriptProteinStage(st, r))
  {
    if r.kind == "CDS" && "transcript_id" in r.attributes && "protein_id" in r.attributes {
      var tid := r.attributes["transcript_id"];
      var pid := r.attributes["protein_id"];
      if tid + pid !in st.checks.transcriptProteinRels {
        Dedup.RecordNew(st.logs.transcriptCodesProtein, st.checks.transcriptProteinRels, ConcatKey, SidRel(tid, pid, map[]));
      }
    }
  }

  /**
   * From empty logs, no two Gene, Transcript or Protein nodes share a sid,
   * and no two CODES relationships share their concatenated key.
   */
  lemma EntitiesDistinct(taxid: string, records: seq<GffRecord>)
    ensures var st := Entities(taxid, EntityLogs([], [], [], [], []), records);
      EntityTracked(st) &&
      (forall i, j :: 0 <= i < j < |st.logs.genes| ==> SidText(st.logs.genes[i]) != SidText(st.logs.genes[j])) &&
      (forall i, j :: 0 <= i < j < |st.logs.transcripts| ==> SidText(st.logs.transcripts[i]) != SidText(st.logs.transcripts[j])) &&
      (forall i, j :: 0 <= i < j < |st.logs.proteins| ==> SidText(st.logs.proteins[i]) != SidText(st.logs.proteins[j]))
  {
    forall st: EntityState, r: GffRecord | EntityTracked(st) && !EntityRaised(st)
      ensures EntityTracked(EntityStepFor(taxid)(st, r))
    {
      EntityStepTracked(taxid, st, r);
    }
    Scan.RunKeeps(EntityStart(EntityLogs([], [], [], [], [])), records, EntityStepFor(taxid), EntityRaised, EntityTracked);
  }

  /**
   * Every node comes from a record of the file: a Gene node from a record with
   * that gene_id and gene_name, a Transcript node only from a 'transcript'
   * record and a Protein node only from a 'CDS' record, with that id.
   */
  ghost predicate EntitiesFrom(taxid: string, records: seq<GffRecord>, st: EntityState) {
    (forall p :: p in st.logs.genes ==>
      exists r :: r in records && "gene_id" in r.attributes && "gene_name" in r.attributes &&
        p == GeneNode(r.attributes["gene_id"], r.attributes["gene_name"], taxid)) &&
    (forall p :: p in st.logs.transcripts ==>
      exists r :: r in records && r.kind == "transcript" && "transcript_id" in r.attributes &&
        p == IdNode(r.attributes["transcript_id"], taxid)) &&
    (forall p :: p in st.logs.proteins ==>
      exists r :: r in records && r.kind == "CDS" && "protein_id" in r.attributes &&
        p == IdNode(r.attributes["protein_id"], taxid))
  }

  lemma EntityStepFrom(taxid: string, records: seq<GffRecord>, st: EntityState, r: GffRecord)
    requires r in records && EntitiesFrom(taxid, records, st)
    ensures EntitiesFrom(taxid, records, EntityStep(taxid, st, r))
  {
    var s1 := GeneStage(taxid, st, r);
    GeneStageFrom(taxid, records, st, r);
    var s2 := TranscriptStage(taxid, s1, r);
    TranscriptStageFrom(taxid, records, s1, r);
    var s3 := ProteinStage(taxid, s2, r);
    ProteinStageFrom(taxid, records, s2, r);
    var s4 := GeneTranscriptStage(s3, r);
    assert s4.logs.genes == s3.logs.genes && s4.logs.transcripts == s3.logs.transcripts && s4.logs.proteins == s3.logs.proteins;
    var s5 := TranscriptProteinStage(s4, r);
    assert s5.logs.genes == s4.logs.genes && s5.logs.transcripts == s4.logs.transcripts && s5.logs.proteins == s4.logs.proteins;
  }

  lemma GeneStageFrom(taxid: string, records: seq<GffRecord>, st: EntityState, r: GffRecord)
    requires r in records && EntitiesFrom(taxid, records, st)
    ensures EntitiesFrom(taxid, records, GeneStage(taxid, st, r))
  {
    var s := GeneStage(taxid, st, r);
    assert s.logs.transcripts == st.logs.transcripts && s.logs.proteins == st.logs.proteins;
    forall p | p in s.logs.genes
      ensures exists r :: r in records && "gene_id" in r.attributes && "gene_name" in r.attributes &&
                       p == GeneNode(r.attributes["gene_id"], r.attributes["gene_name"], taxid)
    {
      if p !in st.logs.genes {
        assert p == GeneNode(r.attributes["gene_id"], r.attributes["gene_name"], taxid);
      }
    }
  }

  lemma TranscriptStageFrom(taxid: string, records: seq<GffRecord>, st: EntityState, r: GffRecord)
    requires r in records && EntitiesFrom(taxid, records, st)
    ensures EntitiesFrom(taxid, records, TranscriptStage(taxid, st, r))
  {
    var s := TranscriptStage(taxid, st, r);
    assert s.logs.genes == st.logs.genes && s.logs.proteins == st.logs.proteins;
    forall p | p in s.logs.transcripts
      ensures exists r :: r in records && r.kind == "transcript" && "transcript_id" in r.attributes &&
                       p == IdNode(r.attributes["transcript_id"], taxid)
    {
      if p !in st.logs.transcripts {
        assert p == IdNode(r.attributes["transcript_id"], taxid);
      }
    }
  }

  lemma ProteinStageFrom(taxid: string, records: seq<GffRecord>, st: EntityState, r: GffRecord)
    requires r in records && EntitiesFrom(taxid, records, st)
    ensures EntitiesFrom(taxid, records, ProteinStage(taxid, st, r))
  {
    var s := ProteinStage(taxid, st, r);
    assert s.logs.genes == st.logs.genes && s.logs.transcripts == st.logs.transcripts;
    forall p | p in s.logs.proteins
      ensures exists r :: r in records && r.kind == "CDS" && "protein_id" in r.attributes &&
                       p == IdNode(r.attributes["protein_id"], taxid)
    {
      if p !in st.logs.proteins {
        assert p == IdNode(r.attributes["protein_id"], taxid);
      }
    }
  }

  /** From empty logs, every node comes from a record of the kind that carries its id. */
  lemma EntitiesOrigin(taxid: string, records: seq<GffRecord>)
    ensures EntitiesFrom(taxid, records, Entities(taxid, EntityLogs([], [], [], [], []), records))
  {
    forall st: EntityState, r: GffRecord | r in records && EntitiesFrom(taxid, records, st) && !EntityRaised(st)
      ensures EntitiesFrom(taxid, records, EntityStepFor(taxid)(st, r))
    {
      EntityStepFrom(taxid, records, st, r);
    }
    Scan.RunKeepsIn(EntityStart(EntityLogs([], [], [], [], [])), records, EntityStepFor(taxid), EntityRaised,
      st => EntitiesFrom(taxid, records, st));
  }

  /** A later state of the loop: the check sets have only grown and the logs have only been appended to. */
  ghost predicate EntityGrows(a: EntityState, b: EntityState) {
    a.checks.geneIds <= b.checks.geneIds && a.checks.transcriptIds <= b.checks.transcriptIds &&
    a.checks.proteinIds <= b.checks.proteinIds && a.checks.geneTranscriptRels <= b.checks.geneTranscriptRels &&
    a.checks.transcriptProteinRels <= b.checks.transcriptProteinRels &&
    a.logs.genes <= b.logs.genes
  }

  lemma EntityStepGrows(taxid: string, st: EntityState, r: GffRecord)
    ensures EntityGrows(st, EntityStep(taxid, st, r))
  {
    var s1 := GeneStage(taxid, st, r);
    var s2 := TranscriptStage(taxid, s1, r);
    var s3 := ProteinStage(taxid, s2, r);
    var s4 := GeneTranscriptStage(s3, r);
    assert EntityGrows(st, s1) && EntityGrows(s1, s2) && EntityGrows(s2, s3) && EntityGrows(s3, s4);
    assert EntityGrows(s4, TranscriptProteinStage(s4, r));
  }

  /**
   * The check sets hold the ids of a record: its gene_id, its transcript_id
   * and gene_id + transcript_id for a 'transcript' record, its protein_id and
   * transcript_id + protein_id for a 'CDS' record.
   */
  ghost predicate EntityChecked(st: EntityState, r: GffRecord) {
    "gene_id" in r.attributes && r.attributes["gene_id"] in st.checks.geneIds &&
    (r.kind == "transcript" ==>
      "transcript_id" in r.attributes && r.attributes["transcript_id"] in st.checks.transcriptIds &&
      r.attributes["gene_id"] + r.attributes["transcript_id"] in st.checks.geneTranscriptRels) &&
    (r.kind == "CDS" ==>
      "protein_id" in r.attributes && "transcript_id" in r.attributes && r.attributes["protein_id"] in st.checks.proteinIds &&
      r.attributes["transcript_id"] + r.attributes["protein_id"] in st.checks.transcriptProteinRels)
  }

  /** A record whose step raises nothing leaves its ids checked. */
  lemma EntityStepChecks(taxid: string, st: EntityState, r: GffRecord)
    requires !EntityRaised(EntityStep(taxid, st, r))
    ensures EntityChecked(EntityStep(taxid, st, r), r)
  {
    var s1 := GeneStage(taxid, st, r);
    var s2 := TranscriptStage(taxid, s1, r);
    var s3 := ProteinStage(taxid, s2, r);
    var s4 := GeneTranscriptStage(s3, r);
    var s5 := TranscriptProteinStage(s4, r);
    assert !EntityRaised(s1) && !EntityRaised(s2) && !EntityRaised(s3) && !EntityRaised(s4);
    assert EntityGrows(s1, s2) && EntityGrows(s2, s3) && EntityGrows(s3, s4) && EntityGrows(s4, s5);
  }

  /**
   * From empty logs, when no record raises: the gene_id of every record is
   * the sid of a Gene node; the transcript_id of every 'transcript' record is
   * the sid of a Transcript node, joined to its gene by a Gene-CODES-Transcript;
   * the protein_id of every 'CDS' record is the sid of a Protein node, joined
   * to its transcript by a Transcript-CODES-Protein.
   */
  lemma EntitiesCover(taxid: string, records: seq<GffRecord>)
    requires !EntityRaised(Entities(taxid, EntityLogs([], [], [], [], []), records))
    ensures var st := Entities(taxid, EntityLogs([], [], [], [], []), records);
      forall r :: r in records ==>
        "gene_id" in r.attributes && r.attributes["gene_id"] in Dedup.Keys(st.logs.genes, SidText) &&
        (r.kind == "transcript" ==>
          "transcript_id" in r.attributes && r.attributes["transcript_id"] in Dedup.Keys(st.logs.transcripts, SidText) &&
          r.attributes["gene_id"] + r.attributes["transcript_id"] in Dedup.Keys(st.logs.geneCodesTranscript, ConcatKey)) &&
        (r.kind == "CDS" ==>
          "protein_id" in r.attributes && "transcript_id" in r.attributes &&
          r.attributes["protein_id"] in Dedup.Keys(st.logs.proteins, SidText) &&
          r.attributes["transcript_id"] + r.attributes["protein_id"] in Dedup.Keys(st.logs.transcriptCodesProtein, ConcatKey))
  {
    var start := EntityStart(EntityLogs([], [], [], [], []));
    forall s: EntityState, r: GffRecord | !EntityRaised(s) && !EntityRaised(EntityStepFor(taxid)(s, r))
      ensures EntityChecked(EntityStepFor(taxid)(s, r), r)
    {
      EntityStepChecks(taxid, s, r);
    }
    forall s: EntityState, r: GffRecord, x: GffRecord | !EntityRaised(s) && !EntityRaised(EntityStepFor(taxid)(s, r)) && EntityChecked(s, x)
      ensures EntityChecked(EntityStepFor(taxid)(s, r), x)
    {
      EntityStepGrows(taxid, s, r);
    }
    Scan.RunMarks(start, records, EntityStepFor(taxid), EntityRaised, EntityChecked);
    EntitiesDistinct(taxid, records);
  }

  /**
   * From empty logs, when no record raises: the Gene node of a gene_id takes
   * its name from the first record naming that gene_id, and it is the only
   * Gene node with that sid.
   */
  lemma EntitiesFirstGene(taxid: string, records: seq<GffRecord>, i: nat)
    requires i < |records| && "gene_id" in records[i].attributes
    requires forall j :: 0 <= j < i && "gene_id" in records[j].attributes ==>
      records[j].attributes["gene_id"] != records[i].attributes["gene_id"]
    requires !EntityRaised(Entities(taxid, EntityLogs([], [], [], [], []), records))
    ensures "gene_name" in records[i].attributes
    ensures var st := Entities(taxid, EntityLogs([], [], [], [], []), records);
      var node := GeneNode(records[i].attributes["gene_id"], records[i].attributes["gene_name"], taxid);
      node in st.logs.genes && forall p :: p in st.logs.genes && SidText(p) == records[i].attributes["gene_id"] ==> p == node
  {
    var empty := EntityLogs([], [], [], [], []);
    var start := EntityStart(empty);
    var step := EntityStepFor(taxid);
    var r := records[i];
    var g := r.attributes["gene_id"];
    var prev := Scan.Run(start, records[..i], step, EntityRaised);
    if EntityRaised(prev) {
      Scan.RunHalted(start, records, i, step, EntityRaised);
      assert false;
    }
    Scan.RunNext(start, records, i, step, EntityRaised);
    var mid := Scan.Run(start, records[..i + 1], step, EntityRaised);
    if EntityRaised(mid) {
      Scan.RunHalted(start, records, i + 1, step, EntityRaised);
      assert false;
    }
    FirstGeneNew(taxid, records, i);
    var node := GeneNode(g, r.attributes["gene_name"], taxid);
    GeneStepAdds(taxid, prev, r);
    Scan.RunSplit(start, records, i + 1, step, EntityRaised);
    GenesPersist(taxid, mid, records[i + 1..], node);
    EntitiesDistinct(taxid, records);
    GeneUnique(Entities(taxid, empty, records), node);
  }

  /** A record whose gene_id is new and whose step raises nothing appends its Gene node. */
  lemma GeneStepAdds(taxid: string, st: EntityState, r: GffRecord)
    requires "gene_id" in r.attributes && r.attributes["gene_id"] !in st.checks.geneIds
    requires !EntityRaised(EntityStep(taxid, st, r))
    ensures "gene_name" in r.attributes
    ensures GeneNode(r.attributes["gene_id"], r.attributes["gene_name"], taxid) in EntityStep(taxid, st, r).logs.genes
  {
    var s1 := GeneStage(taxid, st, r);
    assert !EntityRaised(s1);
    var node := GeneNode(r.attributes["gene_id"], r.attributes["gene_name"], taxid);
    assert s1.logs.genes == st.logs.genes + [node];
    var s2 := TranscriptStage(taxid, s1, r);
    var s3 := ProteinStage(taxid, s2, r);
    var s4 := GeneTranscriptStage(s3, r);
    assert s4.logs.genes == s3.logs.genes == s2.logs.genes == s1.logs.genes;
    assert node in s1.logs.genes;
  }

  /** A Gene node stays in the log for the rest of the loop. */
  lemma GenesPersist(taxid: string, st: EntityState, records: seq<GffRecord>, node: Props)
    requires node in st.logs.genes
    ensures node in Scan.Run(st, records, EntityStepFor(taxid), EntityRaised).logs.genes
  {
    forall s: EntityState, x: GffRecord | node in s.logs.genes && !EntityRaised(s)
      ensures node in EntityStepFor(taxid)(s, x).logs.genes
    {
      EntityStepGrows(taxid, s, x);
      Dedup.InPrefix(s.logs.genes, EntityStep(taxid, s, x).logs.genes, node);
    }
    Scan.RunKeeps(st, records, EntityStepFor(taxid), EntityRaised, (s: EntityState) => node in s.logs.genes);
  }

  /** In a tracked state a Gene node is the only one with its sid. */
  lemma GeneUnique(st: EntityState, node: Props)
    requires EntityTracked(st) && node in st.logs.genes
    ensures forall p :: p in st.logs.genes && SidText(p) == SidText(node) ==> p == node
  {
    forall p | p in st.logs.genes && SidText(p) == SidText(node) ensures p == node {
      var a :| 0 <= a < |st.logs.genes| && st.logs.genes[a] == p;
      var b :| 0 <= b < |st.logs.genes| && st.logs.genes[b] == node;
      assert SidText(st.logs.genes[a]) == SidText(st.logs.genes[b]);
    }
  }

  /** Before the first record naming a gene_id, no Gene node has that sid. */
  lemma FirstGeneNew(taxid: string, records: seq<GffRecord>, i: nat)
    requires i < |records| && "gene_id" in records[i].attributes
    requires forall j :: 0 <= j < i && "gene_id" in records[j].attributes ==>
      records[j].attributes["gene_id"] != records[i].attributes["gene_id"]
    ensures records[i].attributes["gene_id"] !in Entities(taxid, EntityLogs([], [], [], [], []), records[..i]).checks.geneIds
  {
    var g := records[i].attributes["gene_id"];
    var prev := Entities(taxid, EntityLogs([], [], [], [], []), records[..i]);
    EntitiesDistinct(taxid, records[..i]);
    EntitiesOrigin(taxid, records[..i]);
    forall p | p in prev.logs.genes ensures SidText(p) != g {
      var r' :| r' in records[..i] && "gene_id" in r'.attributes && "gene_name" in r'.attributes &&
        p == GeneNode(r'.attributes["gene_id"], r'.attributes["gene_name"], taxid);
      var j :| 0 <= j < i && records[..i][j] == r';
      assert records[j] == r';
    }
    forall k | 0 <= k < |prev.logs.genes| ensures SidText(prev.logs.genes[k]) != g {
      assert prev.logs.genes[k] in prev.logs.genes;
    }
  }

  class EnsemblEntityParser {
    var genes: seq<Props>
    var transcripts: seq<Props>
    var proteins: seq<Props>
    var geneCodesTranscript: seq<Rel>
    var transcriptCodesProtein: seq<Rel>

    constructor ()
      ensures Logs() == EntityLogs([], [], [], [], [])
    {
      genes, transcripts, proteins := [], [], [];
      geneCodesTranscript, transcriptCodesProtein := [], [];
    }

    function Logs(): EntityLogs
      reads this
    {
      EntityLogs(genes, transcripts, proteins, geneCodesTranscript, transcriptCodesProtein)
    }

    /** run's loop over the records of the GTF file. */
    method Run(taxid: string, records: seq<GffRecord>) returns (raised: Option<Error>)
      modifies this
      ensures Logs() == Entities(taxid, old(Logs()), records).logs
      ensures raised == Entities(taxid, old(Logs()), records).raised
    {
      ghost var start := EntityStart(Logs());
      var checks := EntityChecks({}, {}, {}, {}, {});
      var i := 0;
      while i < |records|
        invariant 0 <= i <= |records|
        invariant Scan.Run(start, records[..i], EntityStepFor(taxid), EntityRaised) == EntityState(Logs(), checks, None)
      {
        Scan.RunNext(start, records, i, EntityStepFor(taxid), EntityRaised);
        checks, raised := Record(taxid, records[i], checks);
        if raised.Some? {
          Scan.RunHalted(start, records, i + 1, EntityStepFor(taxid), EntityRaised);
          return;
        }
        i := i + 1;
      }
      Scan.RunAll(start, records, EntityStepFor(taxid), EntityRaised);
      return None;
    }

    /** The body of run's loop for one record. */
    method Record(taxid: string, r: GffRecord, checks: EntityChecks) returns (checksAfter: EntityChecks, raised: Option<Error>)
      modifies this
      ensures EntityState(Logs(), checksAfter, raised) == EntityStep(taxid, EntityState(old(Logs()), checks, None), r)
    {
      checksAfter, raised := AddGene(taxid, r, checks);
      if raised.Some? { return; }
      checksAfter, raised := AddTranscript(taxid, r, checksAfter);
      if raised.Some? { return; }
      checksAfter, raised := AddProtein(taxid, r, checksAfter);
      if raised.Some? { return; }
      checksAfter, raised := AddGeneTranscript(r, checksAfter);
      if raised.Some? { return; }
      checksAfter, raised := AddTranscriptProtein(r, checksAfter);
    }

    method AddGene(taxid: string, r: GffRecord, checks: EntityChecks) returns (checksAfter: EntityChecks, raised: Option<Error>)
      modifies this
      ensures EntityState(Logs(), checksAfter, raised) == GeneStage(taxid, EntityState(old(Logs()), checks, None), r)
    {
      checksAfter, raised := checks, None;
      if "gene_id" !in r.attributes {
        return checks, Some(KeyError("gene_id"));
      }
      var geneId := r.attributes["gene_id"];
      if geneId !in checks.geneIds {
        if "gene_name" !in r.attributes {
          return checks, Some(KeyError("gene_name"));
        }
        genes := genes + [GeneNode(geneId, r.attributes["gene_name"], taxid)];
        checksAfter := checks.(geneIds := checks.geneIds + {geneId});
      }
    }

    method AddTranscript(taxid: string, r: GffRecord, checks: EntityChecks) returns (checksAfter: EntityChecks, raised: Option<Error>)
      modifies this
      ensures EntityState(Logs(), checksAfter, raised) == TranscriptStage(taxid, EntityState(old(Logs()), checks, None), r)
    {
      checksAfter, raised := checks, None;
      if r.kind == "transcript" {
        if "transcript_id" !in r.attributes {
          return checks, Some(KeyError("transcript_id"));
        }
        var id := r.attributes["transcript_id"];
        if id !in checks.transcriptIds {
          transcripts := transcripts + [IdNode(id, taxid)];
          checksAfter := checks.(transcriptIds := checks.transcriptIds + {id});
        }
      }
    }

    method AddProtein(taxid: string, r: GffRecord, checks: EntityChecks) returns (checksAfter: EntityChecks, raised: Option<Error>)
      modifies this
      ensures EntityState(Logs(), checksAfter, raised) == ProteinStage(taxid, EntityState(old(Logs()), checks, None), r)
    {
      checksAfter, raised := checks, None;
      if r.kind == "CDS" {
        if "protein_id" !in r.attributes {
          return checks, Some(KeyError("protein_id"));
        }
        var id := r.attributes["protein_id"];
        if id !in checks.proteinIds {
          proteins := proteins + [IdNode(id, taxid)];
          checksAfter := checks.(proteinIds := checks.proteinIds + {id});
        }
      }
    }

    method AddGeneTranscript(r: GffRecord, checks: EntityChecks) returns (checksAfter: EntityChecks, raised: Option<Error>)
      modifies this
      ensures EntityState(Logs(), checksAfter, raised) == GeneTranscriptStage(EntityState(old(Logs()), checks, None), r)
    {
      checksAfter, raised := checks, None;
      if r.kind == "transcript" {
        if "transcript_id" !in r.attributes {
          return checks, Some(KeyError("transcript_id"));
        }
        if "gene_id" !in r.attributes {
          return checks, Some(KeyError("gene_id"));
        }
        var tid := r.attributes["transcript_id"];
        var gid := r.attributes["gene_id"];
        if gid + tid !in checks.geneTranscriptRels {
          geneCodesTranscript := geneCodesTranscript + [SidRel(gid, tid, map[])];
          checksAfter := checks.(geneTranscriptRels := checks.geneTranscriptRels + {gid + tid});
        }
      }
    }

    method AddTranscriptProtein(r: GffRecord, checks: EntityChecks) returns (checksAfter: EntityChecks, raised: Option<Error>)
      modifies this
      ensures EntityState(Logs(), checksAfter, raised) == TranscriptProteinStage(EntityState(old(Logs()), checks, None), r)
    {
      checksAfter, raised := checks, None;
      if r.kind == "CDS" {
        if "protein_id" !in r.attributes {
          return checks, Some(KeyError("protein_id"));
        }
        if "transcript_id" !in r.attributes {
          return checks, Some(KeyError("transcript_id"));
        }
        var pid := r.attributes["protein_id"];
        var tid := r.attributes["transcript_id"];
        if tid + pid !in checks.transcriptProteinRels {
          transcriptCodesProtein := transcriptCodesProtein + [SidRel(tid, pid, map[])];
          checksAfter := checks.(transcriptProteinRels := checks.transcriptProteinRels + {tid + pid});
        }
      }
    }
  }

  // ---------------------------------------------------------------------------
  // EnsemblLocusParser

  /** The fixed properties of a Locus node; the uuid4() value is not modelled. */
  function LocusFixed(taxid: string, r: GffRecord): Props {
    map["chr" := Str(r.chr), "annotation_source" := Str(r.source), "start" := Int(r.start),
        "end" := Int(r.end), "type" := Str(r.kind), "score" := Str(r.score), "strand" := Str(r.strand),
        "frame" := Str(r.frame), "taxid" := Str(taxid), "ref" := Str("h38"), "uuid" := Opaque("uuid4")]
  }

  /** The props of the Locus node of a record: the fixed ones, updated with its attributes. */
  function LocusProps(taxid: string, r: GffRecord): Props {
    Update(LocusFixed(taxid, r), r.attributes)
  }

  /** The Locus nodes of the records, one per record and in order. */
  function LocusNodes(taxid: string, records: seq<GffRecord>): (r: seq<Props>)
    ensures |r| == |records|
    ensures forall i :: 0 <= i < |records| ==> r[i] == LocusProps(taxid, records[i])
  {
    seq(|records|, i requires 0 <= i < |records| => LocusProps(taxid, records[i]))
  }

  /**
   * A Locus node holds every attribute of its record, which wins over a fixed
   * field of the same name; a fixed field the attributes do not name keeps its
   * value; and the node has no other property.
   */
  lemma LocusAttributesWin(taxid: string, r: GffRecord)
    ensures LocusProps(taxid, r).Keys == LocusFixed(taxid, r).Keys + r.attributes.Keys
    ensures forall k :: k in r.attributes ==> LocusProps(taxid, r)[k] == Str(r.attributes[k])
    ensures forall k :: k in LocusFixed(taxid, r) && k !in r.attributes ==>
      LocusProps(taxid, r)[k] == LocusFixed(taxid, r)[k]
    ensures "start" !in r.attributes ==> LocusProps(taxid, r)["start"] == Int(r.start)
    ensures "ref" !in r.attributes ==> LocusProps(taxid, r)["ref"] == Str("h38")
  {
    var f := LocusFixed(taxid, r);
    assert "start" in f && "ref" in f;
  }

  class EnsemblLocusParser {
    var locus: seq<Props>

    constructor ()
      ensures locus == []
    {
      locus := [];
    }

    /** run's loop: one Locus node per record. */
    method Run(taxid: string, records: seq<GffRecord>)
      modifies this
      ensures locus == old(locus) + LocusNodes(taxid, records)
    {
      var i := 0;
      while i < |records|
        invariant 0 <= i <= |records|
        invariant locus == old(locus) + LocusNodes(taxid, records[..i])
      {
        var r := records[i];
        var props := LocusFixed(taxid, r);
        props := Update(props, r.attributes);
        assert LocusNodes(taxid, records[..i + 1]) == LocusNodes(taxid, records[..i]) + [props];
        locus := locus + [props];
        i := i + 1;
      }
      assert records[..i] == records;
    }
  }

  // ---------------------------------------------------------------------------
  // EnsemblMappingParser

  /** Which of the three TSV mappings a row belongs to; protein rows carry self.taxid. */
  datatype MapKind = GeneMap | TranscriptMap | ProteinMap(taxid: string)

  /** A relationship log with the frozenset check set of its loop. */
  datatype MapState = MapState(rels: seq<Rel>, seen: set<set<string>>, raised: Option<Error>)

  /** Add a MAPS relationship unless its unordered pair was seen. */
  function AddPair(st: MapState, a: string, b: string, props: Props): MapState {
    if {a, b} in st.seen then st
    else st.(rels := st.rels + [SidRel(a, b, props)], seen := st.seen + {{a, b}})
  }

  /**
   * The fields of one row of a mapping TSV (l.strip().split()): the pair of
   * ids to join and the props, nothing for a refseq row whose xref is not a
   * transcript, or the IndexError of a short row.
   */
  function RowPair(kind: MapKind, line: string): Result<Option<(string, string, Props)>> {
    RowFields(kind, SplitWs(Strip(line)))
  }

  function RowFields(kind: MapKind, flds: seq<string>): Result<Option<(string, string, Props)>> {
    match kind
    case GeneMap =>
      if |flds| < 1 then Err(IndexError("flds[0]"))
      else if |flds| < 4 then Err(IndexError("flds[3]"))
      else Ok(Some((flds[0], flds[3], map[])))
    case TranscriptMap =>
      if |flds| < 2 then Err(IndexError("flds[1]"))
      else if |flds| < 4 then Err(IndexError("flds[3]"))
      else
        var xref := flds[3];
        if |xref| < 2 then Err(IndexError("xref_id[1]"))
        else if xref[1] == 'M' || xref[1] == 'R' then Ok(Some((flds[1], xref, map[])))
        else Ok(None)
    case ProteinMap(taxid) =>
      if |flds| < 3 then Err(IndexError("flds[2]"))
      else if |flds| < 4 then Err(IndexError("flds[3]"))
      else Ok(Some((flds[2], flds[3], map["taxid" := Str(taxid)])))
  }

  /** The effect of a parsed row on the loop's state. */
  function ApplyPair(st: MapState, pr: Result<Option<(string, string, Props)>>): MapState {
    match pr
    case Err(e) => st.(raised := Some(e))
    case Ok(None) => st
    case Ok(Some((a, b, props))) => AddPair(st, a, b, props)
  }

  predicate MapRaised(st: MapState) {
    st.raised.Some?
  }

  /** lines[1:] */
  function SkipHeader(lines: seq<string>): (r: seq<string>)
    ensures |lines| > 0 ==> r == lines[1..]
    ensures |lines| == 0 ==> r == []
  {
    if lines == [] then [] else lines[1..]
  }

  /**
   * Every row read by its kind.  Reading a row has no effect, so reading them
   * all first and then applying them in order, stopping at the first error,
   * is the loop that reads and applies each row in turn.
   */
  function ParseRows(kind: MapKind, rows: seq<string>): (r: seq<Result<Option<(string, string, Props)>>>)
    ensures |r| == |rows| && forall i :: 0 <= i < |rows| ==> r[i] == RowPair(kind, rows[i])
  {
    seq(|rows|, i requires 0 <= i < |rows| => RowPair(kind, rows[i]))
  }

  /** The log and the exception after a run_* loop over the lines of its TSV file, from the given log. */
  function Mapping(kind: MapKind, rels: seq<Rel>, lines: seq<string>): MapState {
    Scan.Run(MapState(rels, {}, None), ParseRows(kind, SkipHeader(lines)), ApplyPair, MapRaised)
  }

  /** The frozenset of a relationship's two sids. */
  function PairKey(r: Rel): set<string> {
    {SidText(r.start), SidText(r.end)}
  }

  ghost predicate MapTracked(st: MapState) {
    Dedup.Tracked(st.rels, st.seen, PairKey)
  }

  lemma ApplyTracked(st: MapState, pr: Result<Option<(string, string, Props)>>)
    requires MapTracked(st)
    ensures MapTracked(ApplyPair(st, pr))
  {
    if pr.Ok? && pr.value.Some? {
      var (a, b, props) := pr.value.value;
      if {a, b} !in st.seen {
        assert PairKey(SidRel(a, b, props)) == {a, b};
        Dedup.AddNew(st.rels, st.seen, PairKey, SidRel(a, b, props));
      }
    }
  }

  /**
   * From an empty log, no two MAPS relationships join the same two ids, in
   * either direction.
   */
  lemma MappingPairsDistinct(kind: MapKind, lines: seq<string>)
    ensures var rels := Mapping(kind, [], lines).rels;
      forall i, j :: 0 <= i < j < |rels| ==> PairKey(rels[i]) != PairKey(rels[j])
  {
    forall st: MapState, pr | MapTracked(st) && !MapRaised(st)
      ensures MapTracked(ApplyPair(st, pr))
    {
      ApplyTracked(st, pr);
    }
    Scan.RunKeeps(MapState([], {}, None), ParseRows(kind, SkipHeader(lines)), ApplyPair, MapRaised, MapTracked);
  }

  /** A pair and its reverse give one relationship: the second adds nothing. */
  lemma ReversedPairIgnored(st: MapState, a: string, b: string, p: Props, q: Props)
    ensures AddPair(AddPair(st, a, b, p), b, a, q) == AddPair(st, a, b, p)
  {
    assert {b, a} == {a, b};
  }

  /** Every refseq mapping targets an id whose second character is 'M' or 'R'. */
  ghost predicate RefseqTargets(st: MapState) {
    forall r :: r in st.rels ==> |SidText(r.end)| >= 2 && SidText(r.end)[1] in {'M', 'R'}
  }

  /** A parsed row that, if it yields a pair, targets an id whose second character is 'M' or 'R'. */
  predicate RefseqRow(pr: Result<Option<(string, string, Props)>>) {
    pr.Ok? && pr.value.Some? ==> |pr.value.value.1| >= 2 && pr.value.value.1[1] in {'M', 'R'}
  }

  lemma TranscriptFieldsFiltered(flds: seq<string>)
    ensures RefseqRow(RowFields(TranscriptMap, flds))
  {
  }

  lemma ProteinFieldsTagged(taxid: string, flds: seq<string>)
    ensures var pr := RowFields(ProteinMap(taxid), flds);
      pr.Ok? && pr.value.Some? ==> pr.value.value.2 == map["taxid" := Str(taxid)]
  {
  }

  /** Every row of the refseq mapping is filtered on the second character of its xref. */
  lemma TranscriptRowsFiltered(rows: seq<string>)
    ensures forall pr :: pr in ParseRows(TranscriptMap, rows) ==> RefseqRow(pr)
  {
    var ps := ParseRows(TranscriptMap, rows);
    forall pr | pr in ps ensures RefseqRow(pr) {
      var i :| 0 <= i < |ps| && ps[i] == pr;
      TranscriptFieldsFiltered(SplitWs(Strip(rows[i])));
    }
  }

  lemma ApplyRefseq(st: MapState, pr: Result<Option<(string, string, Props)>>)
    requires RefseqTargets(st) && RefseqRow(pr)
    ensures RefseqTargets(ApplyPair(st, pr))
  {
    if pr.Ok? && pr.value.Some? {
      var (a, b, props) := pr.value.value;
      assert SidText(SidRel(a, b, props).end) == b;
    }
  }

  lemma TranscriptMappingFiltered(lines: seq<string>)
    ensures RefseqTargets(Mapping(TranscriptMap, [], lines))
  {
    var ps := ParseRows(TranscriptMap, SkipHeader(lines));
    TranscriptRowsFiltered(SkipHeader(lines));
    forall st: MapState, pr | pr in ps && RefseqTargets(st) && !MapRaised(st)
      ensures RefseqTargets(ApplyPair(st, pr))
    {
      ApplyRefseq(st, pr);
    }
    Scan.RunKeepsIn(MapState([], {}, None), ps, ApplyPair, MapRaised, RefseqTargets);
  }

  /** Every protein mapping carries the parser's taxid. */
  ghost predicate TaxidTagged(taxid: string, st: MapState) {
    forall r :: r in st.rels ==> r.props == map["taxid" := Str(taxid)]
  }

  /** Every row of the uniprot mapping that yields a pair carries the taxid. */
  lemma ProteinRowsTagged(taxid: string, rows: seq<string>)
    ensures forall pr :: pr in ParseRows(ProteinMap(taxid), rows) && pr.Ok? && pr.value.Some? ==>
      pr.value.value.2 == map["taxid" := Str(taxid)]
  {
    var ps := ParseRows(ProteinMap(taxid), rows);
    forall pr | pr in ps && pr.Ok? && pr.value.Some? ensures pr.value.value.2 == map["taxid" := Str(taxid)] {
      var i :| 0 <= i < |ps| && ps[i] == pr;
      ProteinFieldsTagged(taxid, SplitWs(Strip(rows[i])));
    }
  }

  lemma ProteinMappingTagged(taxid: string, lines: seq<string>)
    ensures TaxidTagged(taxid, Mapping(ProteinMap(taxid), [], lines))
  {
    var ps := ParseRows(ProteinMap(taxid), SkipHeader(lines));
    ProteinRowsTagged(taxid, SkipHeader(lines));
    forall st: MapState, pr | pr in ps && TaxidTagged(taxid, st) && !MapRaised(st)
      ensures TaxidTagged(taxid, ApplyPair(st, pr))
    {
    }
    Scan.RunKeepsIn(MapState([], {}, None), ps, ApplyPair, MapRaised, st => TaxidTagged(taxid, st));
  }

  /** A run_* loop over the lines of its TSV file, on the log it appends to; the header line is skipped. */
  method MapRows(kind: MapKind, rels: seq<Rel>, lines: seq<string>) returns (relsAfter: seq<Rel>, raised: Option<Error>)
    ensures relsAfter == Mapping(kind, rels, lines).rels && raised == Mapping(kind, rels, lines).raised
  {
    var rows := SkipHeader(lines);
    ghost var ps := ParseRows(kind, rows);
    ghost var start := MapState(rels, {}, None);
    var checkRels: set<set<string>> := {};
    relsAfter := rels;
    var i := 0;
    while i < |rows|
      invariant 0 <= i <= |rows|
      invariant Scan.Run(start, ps[..i], ApplyPair, MapRaised) == MapState(relsAfter, checkRels, None)
    {
      Scan.RunNext(start, ps, i, ApplyPair, MapRaised);
      var pair := RowPair(kind, rows[i]);
      relsAfter, checkRels, raised := MapRowStep(pair, relsAfter, checkRels);
      if raised.Some? {
        Scan.RunHalted(start, ps, i + 1, ApplyPair, MapRaised);
        return;
      }
      i := i + 1;
    }
    Scan.RunAll(start, ps, ApplyPair, MapRaised);
    raised := None;
  }

  /** The body of a run_* loop for a row once read. */
  method MapRowStep(pair: Result<Option<(string, string, Props)>>, rels: seq<Rel>, checkRels: set<set<string>>)
    returns (relsAfter: seq<Rel>, checksAfter: set<set<string>>, raised: Option<Error>)
    ensures MapState(relsAfter, checksAfter, raised) == ApplyPair(MapState(rels, checkRels, None), pair)
  {
    relsAfter, checksAfter, raised := rels, checkRels, None;
    if pair.Err? {
      return rels, checkRels, Some(pair.error);
    }
    if pair.value.Some? {
      var (a, b, props) := pair.value.value;
      if {a, b} !in checkRels {
        relsAfter := rels + [SidRel(a, b, props)];
        checksAfter := checkRels + {{a, b}};
      }
    }
  }

  class EnsemblMappingParser {
    /** self.taxid, the mounted argument. */
    var taxid: string
    var geneMapsGene: seq<Rel>
    var transcriptMapsTranscript: seq<Rel>
    var proteinMapsProtein: seq<Rel>

    constructor (taxid: string)
      ensures this.taxid == taxid && geneMapsGene == [] && transcriptMapsTranscript == [] && proteinMapsProtein == []
    {
      this.taxid := taxid;
      geneMapsGene, transcriptMapsTranscript, proteinMapsProtein := [], [], [];
    }

    /**
     * run: the entrez (gene), refseq (transcript) and uniprot (protein)
     * mappings, in that order; an exception stops the later ones.
     */
    method Run(entrezLines: seq<string>, refseqLines: seq<string>, uniprotLines: seq<string>) returns (raised: Option<Error>)
      modifies this
      ensures var g := Mapping(GeneMap, old(geneMapsGene), entrezLines);
        var t := Mapping(TranscriptMap, old(transcriptMapsTranscript), refseqLines);
        var p := Mapping(ProteinMap(taxid), old(proteinMapsProtein), uniprotLines);
        geneMapsGene == g.rels &&
        (g.raised.Some? ==>
           raised == g.raised && transcriptMapsTranscript == old(transcriptMapsTranscript) &&
           proteinMapsProtein == old(proteinMapsProtein)) &&
        (g.raised.None? ==> transcriptMapsTranscript == t.rels) &&
        (g.raised.None? && t.raised.Some? ==>
           raised == t.raised && proteinMapsProtein == old(proteinMapsProtein)) &&
        (g.raised.None? && t.raised.None? ==> proteinMapsProtein == p.rels && raised == p.raised)
      ensures taxid == old(taxid)
    {
      geneMapsGene, raised := MapRows(GeneMap, geneMapsGene, entrezLines);
      if raised.Some? { return; }
      transcriptMapsTranscript, raised := MapRows(TranscriptMap, transcriptMapsTranscript, refseqLines);
      if raised.Some? { return; }
      proteinMapsProtein, raised := MapRows(ProteinMap(taxid), proteinMapsProtein, uniprotLines);
    }
  }
}
