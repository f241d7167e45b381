/**
 * The UniProt knowledgebase parser (biomedgraph/parser/uniprot.py).
 *
 * UniprotKnowledgebaseParser reads the records of the knowledgebase files of
 * a species (Swiss-Prot, then TrEMBL).  A record of the species gives a
 * Protein node for its primary accession, named after the 'Full=' name of its
 * description, and one for every secondary accession; PRIMARY joins the
 * primary accession to each secondary one.  Its RefSeq cross-references,
 * without their version, give Transcript-CODES-Protein (NM/NR/XM/XR ids) or
 * Protein-MAPS-Protein (NP/XP ids) to every accession of the record, its
 * Ensembl cross-references a CODES from the transcript and a MAPS to the
 * protein for every accession.  Four check sets, shared by all files, keep
 * the nodes and the relationships from being added twice.
 *
 * A record is given as a value (the EMBL reader is not part of this model):
 * its OS line, its list of accessions, its DE text and its DR entries, each a
 * database name and a list of ids.
 *
 * As written, PRIMARY ends at {'sid': secondary}, the whole list of secondary
 * accessions, and every secondary accession adds that same relationship
 * (PrimaryRelAsWritten, SecondaryStepAsWritten, SecondariesAsWritten).  The
 * record step and the parser's run use the intended end, the secondary
 * accession of the iteration (PrimaryRel).
 */
module Uniprot {
  import opened Results
  import opened PyStr
  import opened Graph
  import Scan
  import Dedup

  /** TAXID_OS_NAME[taxid]: the OS name of the two supported species; KeyError for any other taxid. */
  function OsName(taxid: string): (r: Result<string>)
    ensures r.Ok? <==> taxid in {"9606", "10090"}
    ensures r.Err? ==> r.error == KeyError(taxid)
    ensures taxid == "9606" ==> r == Ok("Human")
    ensures taxid == "10090" ==> r == Ok("Mouse")
  {
    if taxid == "9606" then Ok("Human")
    else if taxid == "10090" then Ok("Mouse")
    else Err(KeyError(taxid))
  }

  datatype UniprotRecord = UniprotRecord(os: string, ac: seq<string>, de: string, dr: seq<(string, seq<string>)>)

  /** [x[1] for x in dr if x[0] == db]: the id lists of the cross-references to one database, in order. */
  function DbRefs(dr: seq<(string, seq<string>)>, db: string): (r: seq<seq<string>>)
    ensures forall m :: m in r ==> (db, m) in dr
    ensures forall i :: 0 <= i < |dr| && dr[i].0 == db ==> dr[i].1 in r
    decreases |dr|
  {
    if dr == [] then []
    else
      var n := |dr| - 1;
      var prefix := DbRefs(dr[..n], db);
      assert forall x :: x in dr[..n] ==> x in dr;
      assert forall i :: 0 <= i < n ==> dr[..n][i] == dr[i];
      if dr[n].0 == db then prefix + [dr[n].1] else prefix
  }

  /**
   * desc.split(';')[0].split('Full=')[1]: the recommended name, the text after
   * the first 'Full=' of the part of DE before its first ';'.  Without a 'Full='
   * there the indexing raises IndexError.
   */
  function RecName(de: string): (r: Result<string>)
    ensures r.Err? <==> !Contains(Split(de, ";")[0], "Full=")
    ensures r.Err? ==> r.error == IndexError("split('Full=')[1]")
    ensures r.Ok? ==> ';' !in r.value
  {
    var first := Split(de, ";")[0];
    var parts := Split(first, "Full=");
    SplitContains(first, "Full=");
    if |parts| < 2 then Err(IndexError("split('Full=')[1]"))
    else
      SplitCharPieces(de, ';');
      assert first in Split(de, ";");
      SplitFromAbsent(first, "Full=", [], ';');
      assert parts[1] in parts;
      Ok(parts[1])
  }

  // ---------------------------------------------------------------------------
  // Nodes and relationships

  /** The props of the Protein node of a primary accession. */
  function PrimaryNode(acc: string, name: string, desc: string, taxid: string): (p: Props)
    ensures SidOf(p) == Str(acc)
  {
    map["sid" := Str(acc), "name" := Str(name), "desc" := Str(desc), "category" := Str("primary"), "taxid" := Str(taxid)]
  }

  /** The props of the Protein node of a secondary accession. */
  function SecondaryNode(acc: string, taxid: string): (p: Props)
    ensures SidOf(p) == Str(acc)
  {
    map["sid" := Str(acc), "category" := Str("secondary"), "taxid" := Str(taxid)]
  }

  /**
   * Protein-PRIMARY-Protein as the source adds it: the end reference is
   * {'sid': secondary}, the whole list of secondary accessions, not the
   * accession of the iteration.
   */
  function PrimaryRelAsWritten(primary: string, secondary: seq<string>): Rel {
    Rel(SidProps(primary), map["sid" := StrList(secondary)], map[])
  }

  /**
   * The end of PRIMARY as written matches no Protein node: every Protein node
   * has a string sid, the end a list.
   */
  lemma PrimaryAsWrittenMatchesNoProtein(primary: string, secondary: seq<string>, acc: string, name: string, desc: string, taxid: string)
    ensures SidOf(PrimaryRelAsWritten(primary, secondary).end) != SidOf(PrimaryNode(acc, name, desc, taxid))
    ensures SidOf(PrimaryRelAsWritten(primary, secondary).end) != SidOf(SecondaryNode(acc, taxid))
  {
  }

  /** Protein-PRIMARY-Protein as intended: from the primary accession to the secondary accession of the iteration. */
  function PrimaryRel(primary: string, acc: string): (r: Rel)
    ensures SidOf(r.start) == Str(primary) && SidOf(r.end) == Str(acc) && r.props == map[]
    ensures PairKey(r) == {primary, acc}
  {
    SidRel(primary, acc, map[])
  }

  /** The key of check_p_p_p: the unordered pair of the two accessions. */
  function PairKey(r: Rel): set<string> {
    {SidText(r.start), SidText(r.end)}
  }

  /** The four check sets of run. */
  datatype UniChecks = UniChecks(
    protein: set<string>, proteinPrimaryProtein: set<set<string>>,
    transcriptCodesProtein: set<string>, proteinMapsProtein: set<string>)

  /** The four logs of the parser, its check sets and the exception if one was raised. */
  datatype UniState = UniState(
    proteins: seq<Props>, proteinPrimaryProtein: seq<Rel>, transcriptCodesProtein: seq<Rel>,
    proteinMapsProtein: seq<Rel>, checks: UniChecks, raised: Option<Error>)

  predicate UniRaised(st: UniState) {
    st.raised.Some?
  }

  /** A Protein node, unless its accession is in check_protein. */
  function AddProtein(st: UniState, acc: string, node: Props): UniState {
    if acc in st.checks.protein then st
    else st.(proteins := st.proteins + [node], checks := st.checks.(protein := st.checks.protein + {acc}))
  }

  /** CODES, unless its key is in check_t_c_p. */
  function AddCodes(st: UniState, key: string, rel: Rel): UniState {
    if key in st.checks.transcriptCodesProtein then st
    else st.(transcriptCodesProtein := st.transcriptCodesProtein + [rel],
             checks := st.checks.(transcriptCodesProtein := st.checks.transcriptCodesProtein + {key}))
  }

  /** MAPS, unless its key is in check_p_m_p. */
  function AddMaps(st: UniState, key: string, rel: Rel): UniState {
    if key in st.checks.proteinMapsProtein then st
    else st.(proteinMapsProtein := st.proteinMapsProtein + [rel],
             checks := st.checks.(proteinMapsProtein := st.checks.proteinMapsProtein + {key}))
  }

  /** One secondary accession: its node, then PRIMARY unless the pair is in check_p_p_p. */
  function SecondaryStep(taxid: string, primary: string, st: UniState, acc: string): UniState {
    var s := AddProtein(st, acc, SecondaryNode(acc, taxid));
    if {primary, acc} in s.checks.proteinPrimaryProtein then s
    else s.(proteinPrimaryProtein := s.proteinPrimaryProtein + [PrimaryRel(primary, acc)],
            checks := s.checks.(proteinPrimaryProtein := s.checks.proteinPrimaryProtein + {{primary, acc}}))
  }

  function SecondaryStepFor(taxid: string, primary: string): (UniState, string) -> UniState {
    (st: UniState, acc: string) => SecondaryStep(taxid, primary, st, acc)
  }

  /**
   * One secondary accession as the loop is written: its node, then PRIMARY
   * unless the pair is in check_p_p_p, but ending at the whole list of
   * secondary accessions.
   */
  function SecondaryStepAsWritten(taxid: string, primary: string, secondary: seq<string>, st: UniState, acc: string): UniState {
    var s := AddProtein(st, acc, SecondaryNode(acc, taxid));
    if {primary, acc} in s.checks.proteinPrimaryProtein then s
    else s.(proteinPrimaryProtein := s.proteinPrimaryProtein + [PrimaryRelAsWritten(primary, secondary)],
            checks := s.checks.(proteinPrimaryProtein := s.checks.proteinPrimaryProtein + {{primary, acc}}))
  }

  function SecondaryStepAsWrittenFor(taxid: string, primary: string, secondary: seq<string>): (UniState, string) -> UniState {
    (st: UniState, acc: string) => SecondaryStepAsWritten(taxid, primary, secondary, st, acc)
  }

  /** Transcript-CODES-Protein from a RefSeq transcript to one accession, keyed refseq_id + acc. */
  function RefseqCodesStep(source: string, ref: string, st: UniState, acc: string): UniState {
    AddCodes(st, ref + acc, Rel(SidProps(ref), SidProps(acc), SourceProps(source)))
  }

  function RefseqCodesStepFor(source: string, ref: string): (UniState, string) -> UniState {
    (st: UniState, acc: string) => RefseqCodesStep(source, ref, st, acc)
  }

  /** Protein-MAPS-Protein from one accession to a RefSeq protein, keyed acc + refseq_id. */
  function RefseqMapsStep(ref: string, st: UniState, acc: string): UniState {
    AddMaps(st, acc + ref, SidRel(acc, ref, map[]))
  }

  function RefseqMapsStepFor(ref: string): (UniState, string) -> UniState {
    (st: UniState, acc: string) => RefseqMapsStep(ref, st, acc)
  }

  /**
   * One RefSeq id, without its version: a second letter M or R gives CODES to
   * every accession, P gives MAPS from every accession, any other nothing; an
   * id shorter than two characters raises IndexError.
   */
  function RefseqIdStep(source: string, accs: seq<string>, st: UniState, id: string): UniState {
    var ref := NoVersion(id);
    if |ref| < 2 then st.(raised := Some(IndexError("refseq_id[1]")))
    else if ref[1] == 'M' || ref[1] == 'R' then Scan.Run(st, accs, RefseqCodesStepFor(source, ref), Scan.Never)
    else if ref[1] == 'P' then Scan.Run(st, accs, RefseqMapsStepFor(ref), Scan.Never)
    else st
  }

  function RefseqIdStepFor(source: string, accs: seq<string>): (UniState, string) -> UniState {
    (st: UniState, id: string) => RefseqIdStep(source, accs, st, id)
  }

  /** The ids of one RefSeq cross-reference. */
  function RefseqRefStep(source: string, accs: seq<string>, st: UniState, ids: seq<string>): UniState {
    Scan.Run(st, ids, RefseqIdStepFor(source, accs), UniRaised)
  }

  function RefseqRefStepFor(source: string, accs: seq<string>): (UniState, seq<string>) -> UniState {
    (st: UniState, ids: seq<string>) => RefseqRefStep(source, accs, st, ids)
  }

  /** One accession against an Ensembl cross-reference: CODES keyed transcript + acc, MAPS keyed protein + acc. */
  function EnsemblAccStep(transcript: string, protein: string, st: UniState, acc: string): UniState {
    var s := AddCodes(st, transcript + acc, SidRel(transcript, acc, map[]));
    AddMaps(s, protein + acc, SidRel(acc, protein, map[]))
  }

  function EnsemblAccStepFor(transcript: string, protein: string): (UniState, string) -> UniState {
    (st: UniState, acc: string) => EnsemblAccStep(transcript, protein, st, acc)
  }

  /** One Ensembl cross-reference: its first id is the transcript, its second the protein. */
  function EnsemblRefStep(accs: seq<string>, st: UniState, ids: seq<string>): UniState {
    if |ids| < 1 then st.(raised := Some(IndexError("map[0]")))
    else if |ids| < 2 then st.(raised := Some(IndexError("map[1]")))
    else Scan.Run(st, accs, EnsemblAccStepFor(ids[0], ids[1]), Scan.Never)
  }

  function EnsemblRefStepFor(accs: seq<string>): (UniState, seq<string>) -> UniState {
    (st: UniState, ids: seq<string>) => EnsemblRefStep(accs, st, ids)
  }

  /**
   * One record.  Records whose OS does not contain the species name change
   * nothing.  An empty accession list or a DE without a 'Full=' name raises
   * before anything is added.
   */
  function RecordStep(taxid: string, os: string, source: string, st: UniState, rec: UniprotRecord): UniState {
    if !Contains(rec.os, os) then st
    else if rec.ac == [] then st.(raised := Some(IndexError("acc_list[0]")))
    else
      match RecName(rec.de)
      case Err(e) => st.(raised := Some(e))
      case Ok(name) =>
        var primary := rec.ac[0];
        var s1 := AddProtein(st, primary, PrimaryNode(primary, name, rec.de, taxid));
        var s2 := Scan.Run(s1, rec.ac[1..], SecondaryStepFor(taxid, primary), Scan.Never);
        var s3 := Scan.Run(s2, DbRefs(rec.dr, "RefSeq"), RefseqRefStepFor(source, rec.ac), UniRaised);
        if UniRaised(s3) then s3
        else Scan.Run(s3, DbRefs(rec.dr, "Ensembl"), EnsemblRefStepFor(rec.ac), UniRaised)
  }

  function RecordStepFor(taxid: string, os: string, source: string): (UniState, UniprotRecord) -> UniState {
    (st: UniState, rec: UniprotRecord) => RecordStep(taxid, os, source, st, rec)
  }

  /** The records of one knowledgebase file. */
  function FileStep(taxid: string, os: string, source: string, st: UniState, records: seq<UniprotRecord>): UniState {
    Scan.Run(st, records, RecordStepFor(taxid, os, source), UniRaised)
  }

  function FileStepFor(taxid: string, os: string, source: string): (UniState, seq<UniprotRecord>) -> UniState {
    (st: UniState, records: seq<UniprotRecord>) => FileStep(taxid, os, source, st, records)
  }

  /** run: the taxid must have an OS name; then the files in order, sharing the check sets. */
  function Knowledgebase(taxid: string, source: string, start: UniState, files: seq<seq<UniprotRecord>>): UniState {
    match OsName(taxid)
    case Err(e) => start.(raised := Some(e))
    case Ok(os) => Scan.Run(start, files, FileStepFor(taxid, os, source), UniRaised)
  }

  function NoChecks(): UniChecks {
    UniChecks({}, {}, {}, {})
  }

  // ---------------------------------------------------------------------------
  // What the check sets guarantee

  /**
   * No accession becomes a Protein node twice and no pair of accessions is
   * joined by PRIMARY twice; no CODES key (transcript id + accession) is used
   * twice; every MAPS added recorded a key not recorded before, so
   * check_p_m_p has exactly one key per MAPS.  The check sets of the nodes,
   * PRIMARY and CODES hold nothing but the keys of their logs.
   */
  ghost predicate UniInvariant(st: UniState) {
    Dedup.Recorded(st.proteins, st.checks.protein, SidText) &&
    Dedup.Recorded(st.proteinPrimaryProtein, st.checks.proteinPrimaryProtein, PairKey) &&
    Dedup.Recorded(st.transcriptCodesProtein, st.checks.transcriptCodesProtein, ConcatKey) &&
    |st.checks.proteinMapsProtein| == |st.proteinMapsProtein|
  }

  lemma AddProteinKeeps(st: UniState, acc: string, node: Props)
    requires UniInvariant(st) && SidText(node) == acc
    ensures UniInvariant(AddProtein(st, acc, node))
  {
    if acc !in st.checks.protein {
      Dedup.RecordNew(st.proteins, st.checks.protein, SidText, node);
    }
  }

  lemma AddCodesKeeps(st: UniState, key: string, rel: Rel)
    requires UniInvariant(st) && ConcatKey(rel) == key
    ensures UniInvariant(AddCodes(st, key, rel))
  {
    if key !in st.checks.transcriptCodesProtein {
      Dedup.RecordNew(st.transcriptCodesProtein, st.checks.transcriptCodesProtein, ConcatKey, rel);
    }
  }

  lemma AddMapsKeeps(st: UniState, key: string, rel: Rel)
    requires UniInvariant(st)
    ensures UniInvariant(AddMaps(st, key, rel))
  {
  }

  lemma SecondaryStepKeeps(taxid: string, primary: string, st: UniState, acc: string)
    requires UniInvariant(st)
    ensures UniInvariant(SecondaryStep(taxid, primary, st, acc))
  {
    AddProteinKeeps(st, acc, SecondaryNode(acc, taxid));
    var s := AddProtein(st, acc, SecondaryNode(acc, taxid));
    if {primary, acc} !in s.checks.proteinPrimaryProtein {
      Dedup.RecordNew(s.proteinPrimaryProtein, s.checks.proteinPrimaryProtein, PairKey, PrimaryRel(primary, acc));
    }
  }

  lemma RefseqIdStepKeeps(source: string, accs: seq<string>, st: UniState, id: string)
    requires UniInvariant(st)
    ensures UniInvariant(RefseqIdStep(source, accs, st, id))
  {
    var ref := NoVersion(id);
    forall s: UniState, acc: string | UniInvariant(s) && !Scan.Never(s)
      ensures UniInvariant(RefseqCodesStepFor(source, ref)(s, acc))
      ensures UniInvariant(RefseqMapsStepFor(ref)(s, acc))
    {
      AddCodesKeeps(s, ref + acc, Rel(SidProps(ref), SidProps(acc), SourceProps(source)));
      AddMapsKeeps(s, acc + ref, SidRel(acc, ref, map[]));
    }
    Scan.RunKeeps(st, accs, RefseqCodesStepFor(source, ref), Scan.Never, UniInvariant);
    Scan.RunKeeps(st, accs, RefseqMapsStepFor(ref), Scan.Never, UniInvariant);
  }

  lemma RefseqRefStepKeeps(source: string, accs: seq<string>, st: UniState, ids: seq<string>)
    requires UniInvariant(st)
    ensures UniInvariant(RefseqRefStep(source, accs, st, ids))
  {
    forall s: UniState, id: string | UniInvariant(s) && !UniRaised(s)
      ensures UniInvariant(RefseqIdStepFor(source, accs)(s, id))
    {
      RefseqIdStepKeeps(source, accs, s, id);
    }
    Scan.RunKeeps(st, ids, RefseqIdStepFor(source, accs), UniRaised, UniInvariant);
  }

  lemma EnsemblRefStepKeeps(accs: seq<string>, st: UniState, ids: seq<string>)
    requires UniInvariant(st)
    ensures UniInvariant(EnsemblRefStep(accs, st, ids))
  {
    if |ids| >= 2 {
      forall s: UniState, acc: string | UniInvariant(s) && !Scan.Never(s)
        ensures UniInvariant(EnsemblAccStepFor(ids[0], ids[1])(s, acc))
      {
        AddCodesKeeps(s, ids[0] + acc, SidRel(ids[0], acc, map[]));
        var s1 := AddCodes(s, ids[0] + acc, SidRel(ids[0], acc, map[]));
        AddMapsKeeps(s1, ids[1] + acc, SidRel(acc, ids[1], map[]));
      }
      Scan.RunKeeps(st, accs, EnsemblAccStepFor(ids[0], ids[1]), Scan.Never, UniInvariant);
    }
  }

  lemma RecordStepKeeps(taxid: string, os: string, source: string, st: UniState, rec: UniprotRecord)
    requires UniInvariant(st)
    ensures UniInvariant(RecordStep(taxid, os, source, st, rec))
  {
    if Contains(rec.os, os) && rec.ac != [] && RecName(rec.de).Ok? {
      var primary := rec.ac[0];
      var node := PrimaryNode(primary, RecName(rec.de).value, rec.de, taxid);
      AddProteinKeeps(st, primary, node);
      var s1 := AddProtein(st, primary, node);
      forall s: UniState, acc: string | UniInvariant(s) && !Scan.Never(s)
        ensures UniInvariant(SecondaryStepFor(taxid, primary)(s, acc))
      {
        SecondaryStepKeeps(taxid, primary, s, acc);
      }
      Scan.RunKeeps(s1, rec.ac[1..], SecondaryStepFor(taxid, primary), Scan.Never, UniInvariant);
      var s2 := Scan.Run(s1, rec.ac[1..], SecondaryStepFor(taxid, primary), Scan.Never);
      forall s: UniState, ids: seq<string> | UniInvariant(s) && !UniRaised(s)
        ensures UniInvariant(RefseqRefStepFor(source, rec.ac)(s, ids))
        ensures UniInvariant(EnsemblRefStepFor(rec.ac)(s, ids))
      {
        RefseqRefStepKeeps(source, rec.ac, s, ids);
        EnsemblRefStepKeeps(rec.ac, s, ids);
      }
      Scan.RunKeeps(s2, DbRefs(rec.dr, "RefSeq"), RefseqRefStepFor(source, rec.ac), UniRaised, UniInvariant);
      var s3 := Scan.Run(s2, DbRefs(rec.dr, "RefSeq"), RefseqRefStepFor(source, rec.ac), UniRaised);
      Scan.RunKeeps(s3, DbRefs(rec.dr, "Ensembl"), EnsemblRefStepFor(rec.ac), UniRaised, UniInvariant);
    }
  }

  /** From empty logs and check sets, over any files: the guarantees of UniInvariant hold. */
  lemma KnowledgebaseDistinct(taxid: string, source: string, files: seq<seq<UniprotRecord>>)
    ensures UniInvariant(Knowledgebase(taxid, source, UniState([], [], [], [], NoChecks(), None), files))
  {
    var start := UniState([], [], [], [], NoChecks(), None);
    if OsName(taxid).Ok? {
      var os := OsName(taxid).value;
      forall s: UniState, records: seq<UniprotRecord> | UniInvariant(s) && !UniRaised(s)
        ensures UniInvariant(FileStepFor(taxid, os, source)(s, records))
      {
        forall s': UniState, rec: UniprotRecord | UniInvariant(s') && !UniRaised(s')
          ensures UniInvariant(RecordStepFor(taxid, os, source)(s', rec))
        {
          RecordStepKeeps(taxid, os, source, s', rec);
        }
        Scan.RunKeeps(s, records, RecordStepFor(taxid, os, source), UniRaised, UniInvariant);
      }
      Scan.RunKeeps(start, files, FileStepFor(taxid, os, source), UniRaised, UniInvariant);
    }
  }

  // ---------------------------------------------------------------------------
  // What a record adds

  /**
   * A RefSeq id that does not raise loses its version; an NM/NR/XM/XR id is
   * then keyed in check_t_c_p with every accession of the record, an NP/XP id
   * in check_p_m_p, and any other id changes nothing.
   */
  lemma RefseqIdCovers(source: string, accs: seq<string>, st: UniState, id: string)
    requires !UniRaised(st) && !UniRaised(RefseqIdStep(source, accs, st, id))
    ensures var ref, after := NoVersion(id), RefseqIdStep(source, accs, st, id);
      '.' !in ref && |ref| >= 2 &&
      (ref[1] in {'M', 'R'} ==> forall acc :: acc in accs ==> ref + acc in after.checks.transcriptCodesProtein) &&
      (ref[1] == 'P' ==> forall acc :: acc in accs ==> acc + ref in after.checks.proteinMapsProtein) &&
      (ref[1] !in {'M', 'R', 'P'} ==> after == st)
  {
    var ref := NoVersion(id);
    if ref[1] == 'M' || ref[1] == 'R' {
      Scan.RunMarks(st, accs, RefseqCodesStepFor(source, ref), Scan.Never,
        (s: UniState, acc: string) => ref + acc in s.checks.transcriptCodesProtein);
    } else if ref[1] == 'P' {
      Scan.RunMarks(st, accs, RefseqMapsStepFor(ref), Scan.Never,
        (s: UniState, acc: string) => acc + ref in s.checks.proteinMapsProtein);
    }
  }

  /** An Ensembl cross-reference that does not raise keys its transcript and its protein with every accession of the record. */
  lemma EnsemblRefCovers(accs: seq<string>, st: UniState, ids: seq<string>)
    requires !UniRaised(st) && !UniRaised(EnsemblRefStep(accs, st, ids))
    ensures |ids| >= 2
    ensures var after := EnsemblRefStep(accs, st, ids);
      forall acc :: acc in accs ==>
        ids[0] + acc in after.checks.transcriptCodesProtein && ids[1] + acc in after.checks.proteinMapsProtein
  {
    Scan.RunMarks(st, accs, EnsemblAccStepFor(ids[0], ids[1]), Scan.Never,
      (s: UniState, acc: string) => ids[0] + acc in s.checks.transcriptCodesProtein && ids[1] + acc in s.checks.proteinMapsProtein);
  }

  /**
   * A record of the species that does not raise leaves its primary and every
   * secondary accession in check_protein, and every pair of its primary and a
   * secondary accession in check_p_p_p.
   */
  lemma RecordCovers(taxid: string, os: string, source: string, st: UniState, rec: UniprotRecord)
    requires Contains(rec.os, os) && !UniRaised(st) && !UniRaised(RecordStep(taxid, os, source, st, rec))
    ensures rec.ac != [] && RecName(rec.de).Ok?
    ensures var after := RecordStep(taxid, os, source, st, rec);
      rec.ac[0] in after.checks.protein &&
      forall acc :: acc in rec.ac[1..] ==>
        acc in after.checks.protein && {rec.ac[0], acc} in after.checks.proteinPrimaryProtein
  {
    var primary := rec.ac[0];
    var s1 := AddProtein(st, primary, PrimaryNode(primary, RecName(rec.de).value, rec.de, taxid));
    SecondariesCover(taxid, primary, s1, rec.ac[1..]);
    var s2 := Scan.Run(s1, rec.ac[1..], SecondaryStepFor(taxid, primary), Scan.Never);
    var same := (s: UniState) => s.checks.protein == s2.checks.protein && s.checks.proteinPrimaryProtein == s2.checks.proteinPrimaryProtein;
    forall s: UniState, ids: seq<string> | same(s) && !UniRaised(s)
      ensures same(RefseqRefStepFor(source, rec.ac)(s, ids)) && same(EnsemblRefStepFor(rec.ac)(s, ids))
    {
      RefseqRefSame(source, rec.ac, s, ids);
      EnsemblRefSame(rec.ac, s, ids);
    }
    Scan.RunKeeps(s2, DbRefs(rec.dr, "RefSeq"), RefseqRefStepFor(source, rec.ac), UniRaised, same);
    var s3 := Scan.Run(s2, DbRefs(rec.dr, "RefSeq"), RefseqRefStepFor(source, rec.ac), UniRaised);
    Scan.RunKeeps(s3, DbRefs(rec.dr, "Ensembl"), EnsemblRefStepFor(rec.ac), UniRaised, same);
  }

  /** The secondary accessions of a record are all in check_protein afterwards, each paired with the primary one in check_p_p_p. */
  lemma SecondariesCover(taxid: string, primary: string, st: UniState, accs: seq<string>)
    ensures var after := Scan.Run(st, accs, SecondaryStepFor(taxid, primary), Scan.Never);
      (primary in st.checks.protein ==> primary in after.checks.protein) &&
      forall acc :: acc in accs ==> acc in after.checks.protein && {primary, acc} in after.checks.proteinPrimaryProtein
  {
    Scan.RunMarks(st, accs, SecondaryStepFor(taxid, primary), Scan.Never,
      (s: UniState, acc: string) => acc in s.checks.protein && {primary, acc} in s.checks.proteinPrimaryProtein);
    if primary in st.checks.protein {
      Scan.RunKeeps(st, accs, SecondaryStepFor(taxid, primary), Scan.Never, (s: UniState) => primary in s.checks.protein);
    }
  }

  /** The pairs of check_p_p_p for a primary accession and its secondary accessions. */
  function PairsWith(primary: string, accs: seq<string>): set<set<string>> {
    set acc | acc in accs :: {primary, acc}
  }

  /**
   * The secondary loop as written: over distinct accessions whose pairs with
   * the primary one are not yet checked, it appends one PRIMARY per
   * accession, every one the same relationship ending at the whole list, and
   * checks exactly their pairs.
   */
  lemma {:induction false} SecondariesAsWritten(taxid: string, primary: string, secondary: seq<string>, st: UniState, accs: seq<string>)
    requires forall a, b :: 0 <= a < b < |accs| ==> accs[a] != accs[b]
    requires forall acc :: acc in accs ==> {primary, acc} !in st.checks.proteinPrimaryProtein
    ensures var after := Scan.Run(st, accs, SecondaryStepAsWrittenFor(taxid, primary, secondary), Scan.Never);
      after.proteinPrimaryProtein == st.proteinPrimaryProtein + seq(|accs|, k => PrimaryRelAsWritten(primary, secondary)) &&
      after.checks.proteinPrimaryProtein == st.checks.proteinPrimaryProtein + PairsWith(primary, accs)
    decreases |accs|
  {
    if accs != [] {
      var n := |accs| - 1;
      var step := SecondaryStepAsWrittenFor(taxid, primary, secondary);
      var rel := PrimaryRelAsWritten(primary, secondary);
      var prev := Scan.Run(st, accs[..n], step, Scan.Never);
      var acc := accs[n];
      assert prev.proteinPrimaryProtein == st.proteinPrimaryProtein + seq(n, k => rel) &&
             prev.checks.proteinPrimaryProtein == st.checks.proteinPrimaryProtein + PairsWith(primary, accs[..n]) by {
        assert forall acc :: acc in accs[..n] ==> acc in accs;
        SecondariesAsWritten(taxid, primary, secondary, st, accs[..n]);
      }
      assert {primary, acc} !in prev.checks.proteinPrimaryProtein by {
        NewPair(primary, accs);
      }
      var after := Scan.Run(st, accs, step, Scan.Never);
      assert after == SecondaryStepAsWritten(taxid, primary, secondary, prev, acc);
      SecondaryAsWrittenAdds(taxid, primary, secondary, prev, acc);
      assert after.proteinPrimaryProtein == st.proteinPrimaryProtein + seq(n + 1, k => rel) by {
        assert seq(n + 1, k => rel) == seq(n, k => rel) + [rel];
      }
      assert after.checks.proteinPrimaryProtein == st.checks.proteinPrimaryProtein + PairsWith(primary, accs) by {
        PairsWithLast(primary, accs);
      }
    }
  }

  lemma PairsWithLast(primary: string, accs: seq<string>)
    requires accs != []
    ensures PairsWith(primary, accs) == PairsWith(primary, accs[..|accs| - 1]) + {{primary, accs[|accs| - 1]}}
  {
    assert accs == accs[..|accs| - 1] + [accs[|accs| - 1]];
  }

  /** The last of distinct accessions makes a pair the earlier ones do not. */
  lemma NewPair(primary: string, accs: seq<string>)
    requires accs != [] && forall a, b :: 0 <= a < b < |accs| ==> accs[a] != accs[b]
    ensures {primary, accs[|accs| - 1]} !in PairsWith(primary, accs[..|accs| - 1])
  {
    var n := |accs| - 1;
    forall a | a in accs[..n] ensures {primary, a} != {primary, accs[n]} {
      var j :| 0 <= j < n && accs[..n][j] == a;
      assert accs[j] != accs[n];
      assert a in {primary, a};
    }
  }

  /** One accession whose pair is not yet checked: one more PRIMARY as written, and its pair checked. */
  lemma SecondaryAsWrittenAdds(taxid: string, primary: string, secondary: seq<string>, st: UniState, acc: string)
    requires {primary, acc} !in st.checks.proteinPrimaryProtein
    ensures var after := SecondaryStepAsWritten(taxid, primary, secondary, st, acc);
      after.proteinPrimaryProtein == st.proteinPrimaryProtein + [PrimaryRelAsWritten(primary, secondary)] &&
      after.checks.proteinPrimaryProtein == st.checks.proteinPrimaryProtein + {{primary, acc}}
  {
  }

  /**
   * The first record of a run with primary accession P1 and secondary
   * accessions Q1 and Q2 adds two PRIMARY relationships as written, the same
   * one twice, and it ends at neither Q1 nor Q2.
   */
  lemma PrimaryAsWrittenExample(taxid: string)
    ensures var st := UniState([], [], [], [], NoChecks(), None);
      var after := Scan.Run(st, ["Q1", "Q2"], SecondaryStepAsWrittenFor(taxid, "P1", ["Q1", "Q2"]), Scan.Never);
      |after.proteinPrimaryProtein| == 2 && after.proteinPrimaryProtein[0] == after.proteinPrimaryProtein[1] &&
      SidOf(after.proteinPrimaryProtein[0].end) !in {Str("Q1"), Str("Q2")}
  {
    var st := UniState([], [], [], [], NoChecks(), None);
    SecondariesAsWritten(taxid, "P1", ["Q1", "Q2"], st, ["Q1", "Q2"]);
  }

  /** The cross-reference loops touch neither the Protein nodes nor PRIMARY. */
  lemma RefseqRefSame(source: string, accs: seq<string>, st: UniState, ids: seq<string>)
    ensures var after := RefseqRefStep(source, accs, st, ids);
      after.proteins == st.proteins &&
      after.checks.protein == st.checks.protein && after.checks.proteinPrimaryProtein == st.checks.proteinPrimaryProtein
  {
    var same := (s: UniState) => s.proteins == st.proteins &&
      s.checks.protein == st.checks.protein && s.checks.proteinPrimaryProtein == st.checks.proteinPrimaryProtein;
    forall s: UniState, id: string | same(s) && !UniRaised(s)
      ensures same(RefseqIdStepFor(source, accs)(s, id))
    {
      var ref := NoVersion(id);
      Scan.RunKeeps(s, accs, RefseqCodesStepFor(source, ref), Scan.Never, same);
      Scan.RunKeeps(s, accs, RefseqMapsStepFor(ref), Scan.Never, same);
    }
    Scan.RunKeeps(st, ids, RefseqIdStepFor(source, accs), UniRaised, same);
  }

  lemma EnsemblRefSame(accs: seq<string>, st: UniState, ids: seq<string>)
    ensures var after := EnsemblRefStep(accs, st, ids);
      after.proteins == st.proteins &&
      after.checks.protein == st.checks.protein && after.checks.proteinPrimaryProtein == st.checks.proteinPrimaryProtein
  {
    if |ids| >= 2 {
      Scan.RunKeeps(st, accs, EnsemblAccStepFor(ids[0], ids[1]), Scan.Never,
        (s: UniState) => s.proteins == st.proteins &&
          s.checks.protein == st.checks.protein && s.checks.proteinPrimaryProtein == st.checks.proteinPrimaryProtein);
    }
  }

  // ---------------------------------------------------------------------------
  // Which node an accession keeps

  /**
   * The node the role of an accession in one record gives: the primary
   * accession's node, named after the record's 'Full=' name, or a secondary
   * accession's node.  None for an accession the record does not list, for a
   * record of another species and for a record whose step raises.
   */
  function RoleIn(taxid: string, os: string, rec: UniprotRecord, a: string): (r: Option<Props>)
    ensures r.Some? ==> SidText(r.value) == a
    ensures r.Some? <==> Contains(rec.os, os) && a in rec.ac && RecName(rec.de).Ok?
  {
    if !Contains(rec.os, os) || rec.ac == [] || RecName(rec.de).Err? then None
    else if a == rec.ac[0] then Some(PrimaryNode(a, RecName(rec.de).value, rec.de, taxid))
    else if a in rec.ac[1..] then Some(SecondaryNode(a, taxid))
    else
      assert rec.ac == [rec.ac[0]] + rec.ac[1..];
      None
  }

  /** The node of an accession's role in the first of the records, in order, that gives it one. */
  function FirstRole(taxid: string, os: string, records: seq<UniprotRecord>, a: string): (r: Option<Props>)
    ensures r.Some? ==> SidText(r.value) == a
    decreases |records|
  {
    if records == [] then None
    else
      var first := FirstRole(taxid, os, records[..|records| - 1], a);
      if first.Some? then first else RoleIn(taxid, os, records[|records| - 1], a)
  }

  /** When no record gives an accession a role, it has no first role. */
  lemma {:induction false} FirstRoleNone(taxid: string, os: string, records: seq<UniprotRecord>, a: string)
    requires forall j :: 0 <= j < |records| ==> RoleIn(taxid, os, records[j], a).None?
    ensures FirstRole(taxid, os, records, a).None?
    decreases |records|
  {
    if records != [] {
      var n := |records| - 1;
      assert forall j :: 0 <= j < n ==> records[..n][j] == records[j];
      FirstRoleNone(taxid, os, records[..n], a);
    }
  }

  /** The first role of an accession is its role in the first record that gives it one. */
  lemma {:induction false} FirstRoleAt(taxid: string, os: string, records: seq<UniprotRecord>, a: string, i: nat)
    requires i < |records| && RoleIn(taxid, os, records[i], a).Some?
    requires forall j :: 0 <= j < i ==> RoleIn(taxid, os, records[j], a).None?
    ensures FirstRole(taxid, os, records, a) == RoleIn(taxid, os, records[i], a)
    decreases |records|
  {
    var n := |records| - 1;
    assert forall j :: 0 <= j < n ==> records[..n][j] == records[j];
    if i == n {
      FirstRoleNone(taxid, os, records[..n], a);
    } else {
      FirstRoleAt(taxid, os, records[..n], a, i);
    }
  }

  /**
   * An accession that an earlier record of the species lists as a secondary
   * one keeps its secondary node when a later record names it primary.
   */
  lemma SecondaryRoleWins(taxid: string, os: string, rec1: UniprotRecord, rec2: UniprotRecord, a: string)
    requires Contains(rec1.os, os) && RecName(rec1.de).Ok? && rec1.ac != [] && rec1.ac[0] != a && a in rec1.ac[1..]
    requires Contains(rec2.os, os) && RecName(rec2.de).Ok? && rec2.ac != [] && rec2.ac[0] == a
    ensures FirstRole(taxid, os, [rec1, rec2], a) == Some(SecondaryNode(a, taxid))
    ensures RoleIn(taxid, os, rec2, a) == Some(PrimaryNode(a, RecName(rec2.de).value, rec2.de, taxid))
  {
    FirstRoleAt(taxid, os, [rec1, rec2], a, 0);
  }

  /**
   * The Protein nodes and check_protein after records in order: an accession
   * is checked exactly when it has a first role, the node of its first role is
   * in the log, and every node of the log is the node of its accession's
   * first role.
   */
  ghost predicate FirstRoles(taxid: string, os: string, done: seq<UniprotRecord>, st: UniState) {
    (forall a :: a in st.checks.protein <==> FirstRole(taxid, os, done, a).Some?) &&
    (forall a :: FirstRole(taxid, os, done, a).Some? ==> FirstRole(taxid, os, done, a).value in st.proteins) &&
    (forall p :: p in st.proteins ==> FirstRole(taxid, os, done, SidText(p)) == Some(p))
  }

  /**
   * Part of the secondary loop from st: the earlier log is a prefix of the
   * log and the earlier check set is kept; a newly checked accession is one of
   * the loop's and has its secondary node; a newly logged node is the
   * secondary node of an accession of the loop that st had not checked.
   */
  ghost predicate SecondariesFrom(taxid: string, st: UniState, accs: seq<string>, s: UniState) {
    st.proteins <= s.proteins && st.checks.protein <= s.checks.protein &&
    (forall a :: a in s.checks.protein && a !in st.checks.protein ==> a in accs && SecondaryNode(a, taxid) in s.proteins) &&
    (forall p :: p in s.proteins && p !in st.proteins ==>
      SidText(p) in accs && SidText(p) !in st.checks.protein && p == SecondaryNode(SidText(p), taxid))
  }

  /** The secondary loop adds the secondary node of every accession it checks, and no other node. */
  lemma SecondariesRoles(taxid: string, primary: string, st: UniState, accs: seq<string>)
    ensures SecondariesFrom(taxid, st, accs, Scan.Run(st, accs, SecondaryStepFor(taxid, primary), Scan.Never))
  {
    forall s: UniState, acc: string | acc in accs && SecondariesFrom(taxid, st, accs, s) && !Scan.Never(s)
      ensures SecondariesFrom(taxid, st, accs, SecondaryStepFor(taxid, primary)(s, acc))
    {
      var node := SecondaryNode(acc, taxid);
      var after := SecondaryStep(taxid, primary, s, acc);
      if acc !in s.checks.protein {
        assert after.proteins == s.proteins + [node] && after.checks.protein == s.checks.protein + {acc};
        assert s.proteins <= after.proteins;
        forall a | a in after.checks.protein && a !in st.checks.protein
          ensures a in accs && node in after.proteins && SecondaryNode(a, taxid) in after.proteins
        {
          if a != acc {
            Dedup.InPrefix(s.proteins, after.proteins, SecondaryNode(a, taxid));
          }
        }
      } else {
        assert after.proteins == s.proteins && after.checks.protein == s.checks.protein;
      }
    }
    Scan.RunKeepsIn(st, accs, SecondaryStepFor(taxid, primary), Scan.Never, (s: UniState) => SecondariesFrom(taxid, st, accs, s));
  }

  /** The cross-reference loops of a record leave the Protein nodes and check_protein as they are. */
  lemma RefsKeepProteins(source: string, rec: UniprotRecord, s2: UniState)
    ensures var s3 := Scan.Run(s2, DbRefs(rec.dr, "RefSeq"), RefseqRefStepFor(source, rec.ac), UniRaised);
      var s4 := if UniRaised(s3) then s3 else Scan.Run(s3, DbRefs(rec.dr, "Ensembl"), EnsemblRefStepFor(rec.ac), UniRaised);
      s4.proteins == s2.proteins && s4.checks.protein == s2.checks.protein
  {
    var same := (s: UniState) => s.proteins == s2.proteins && s.checks.protein == s2.checks.protein;
    forall s: UniState, ids: seq<string> | same(s) && !UniRaised(s)
      ensures same(RefseqRefStepFor(source, rec.ac)(s, ids)) && same(EnsemblRefStepFor(rec.ac)(s, ids))
    {
      RefseqRefSame(source, rec.ac, s, ids);
      EnsemblRefSame(rec.ac, s, ids);
    }
    Scan.RunKeeps(s2, DbRefs(rec.dr, "RefSeq"), RefseqRefStepFor(source, rec.ac), UniRaised, same);
    var s3 := Scan.Run(s2, DbRefs(rec.dr, "RefSeq"), RefseqRefStepFor(source, rec.ac), UniRaised);
    Scan.RunKeeps(s3, DbRefs(rec.dr, "Ensembl"), EnsemblRefStepFor(rec.ac), UniRaised, same);
  }

  /**
   * One record that does not raise, after earlier records: an unchecked
   * primary accession appends its primary node, an unchecked secondary one
   * its secondary node and a checked one nothing, so the nodes stay those of
   * the first roles; the log only grows at its end.
   */
  lemma RecordRoles(taxid: string, os: string, source: string, done: seq<UniprotRecord>, st: UniState, rec: UniprotRecord)
    requires FirstRoles(taxid, os, done, st) && !UniRaised(st)
    requires !UniRaised(RecordStep(taxid, os, source, st, rec))
    ensures FirstRoles(taxid, os, done + [rec], RecordStep(taxid, os, source, st, rec))
    ensures st.proteins <= RecordStep(taxid, os, source, st, rec).proteins
  {
    var all := done + [rec];
    assert all[..|all| - 1] == done && all[|all| - 1] == rec;
    if Contains(rec.os, os) {
      var primary := rec.ac[0];
      var node := PrimaryNode(primary, RecName(rec.de).value, rec.de, taxid);
      var s1 := AddProtein(st, primary, node);
      var s2 := Scan.Run(s1, rec.ac[1..], SecondaryStepFor(taxid, primary), Scan.Never);
      RefsKeepProteins(source, rec, s2);
      SecondariesRoles(taxid, primary, s1, rec.ac[1..]);
      SecondariesCover(taxid, primary, s1, rec.ac[1..]);
      RecordRolesWith(taxid, os, done, st, rec, s2);
    } else {
      forall a ensures FirstRole(taxid, os, all, a) == FirstRole(taxid, os, done, a) {
      }
    }
  }

  /** RecordRoles once the record's secondary loop has run, from st to s2. */
  lemma RecordRolesWith(taxid: string, os: string, done: seq<UniprotRecord>, st: UniState, rec: UniprotRecord, s2: UniState)
    requires FirstRoles(taxid, os, done, st)
    requires Contains(rec.os, os) && rec.ac != [] && RecName(rec.de).Ok?
    requires var s1 := AddProtein(st, rec.ac[0], PrimaryNode(rec.ac[0], RecName(rec.de).value, rec.de, taxid));
      SecondariesFrom(taxid, s1, rec.ac[1..], s2) && forall acc :: acc in rec.ac[1..] ==> acc in s2.checks.protein
    ensures FirstRoles(taxid, os, done + [rec], s2)
    ensures st.proteins <= s2.proteins
  {
    var all := done + [rec];
    assert all[..|all| - 1] == done && all[|all| - 1] == rec;
    var primary := rec.ac[0];
    var node := PrimaryNode(primary, RecName(rec.de).value, rec.de, taxid);
    var s1 := AddProtein(st, primary, node);
    assert st.proteins <= s1.proteins;
    assert rec.ac == [primary] + rec.ac[1..];
    forall a ensures a in s2.checks.protein <==> FirstRole(taxid, os, all, a).Some? {
    }
    forall a | FirstRole(taxid, os, all, a).Some? ensures FirstRole(taxid, os, all, a).value in s2.proteins {
      if FirstRole(taxid, os, done, a).Some? {
        Dedup.InPrefix(st.proteins, s2.proteins, FirstRole(taxid, os, done, a).value);
      } else if a == primary {
        Dedup.InPrefix(s1.proteins, s2.proteins, node);
      }
    }
    forall p | p in s2.proteins ensures FirstRole(taxid, os, all, SidText(p)) == Some(p) {
      if p in st.proteins {
      } else if p in s1.proteins {
        assert p == node;
      } else {
        assert SidText(p) != primary;
      }
    }
  }

  /** The records of a file, in order, keep the nodes those of the first roles. */
  lemma {:induction false} FileRoles(taxid: string, os: string, source: string, done: seq<UniprotRecord>, st: UniState, records: seq<UniprotRecord>)
    requires FirstRoles(taxid, os, done, st) && !UniRaised(st)
    requires !UniRaised(FileStep(taxid, os, source, st, records))
    ensures FirstRoles(taxid, os, done + records, FileStep(taxid, os, source, st, records))
    decreases |records|
  {
    if records == [] {
      assert done + records == done;
    } else {
      var n := |records| - 1;
      var step := RecordStepFor(taxid, os, source);
      var prev := Scan.Run(st, records[..n], step, UniRaised);
      FileRoles(taxid, os, source, done, st, records[..n]);
      Scan.RunNext(st, records, n, step, UniRaised);
      assert records[..n + 1] == records;
      RecordRoles(taxid, os, source, done + records[..n], prev, records[n]);
      assert done + records[..n] + [records[n]] == done + records;
    }
  }

  function Whole(records: seq<UniprotRecord>): seq<UniprotRecord> {
    records
  }

  /** The records of all the files, in order. */
  function AllRecords(files: seq<seq<UniprotRecord>>): seq<UniprotRecord> {
    Scan.Flat(files, Whole)
  }

  /** The files in order, from empty logs, keep the nodes those of the first roles. */
  lemma {:induction false} FilesRoles(taxid: string, os: string, source: string, files: seq<seq<UniprotRecord>>)
    requires !UniRaised(Scan.Run(UniState([], [], [], [], NoChecks(), None), files, FileStepFor(taxid, os, source), UniRaised))
    ensures FirstRoles(taxid, os, AllRecords(files),
      Scan.Run(UniState([], [], [], [], NoChecks(), None), files, FileStepFor(taxid, os, source), UniRaised))
    decreases |files|
  {
    var start := UniState([], [], [], [], NoChecks(), None);
    if files != [] {
      var n := |files| - 1;
      var step := FileStepFor(taxid, os, source);
      var prev := Scan.Run(start, files[..n], step, UniRaised);
      FilesRoles(taxid, os, source, files[..n]);
      Scan.RunNext(start, files, n, step, UniRaised);
      assert files[..n + 1] == files;
      Scan.FlatNext(files, Whole, n);
      FileRoles(taxid, os, source, AllRecords(files[..n]), prev, files[n]);
    }
  }

  /**
   * From empty logs, when the run does not raise: the Protein node of an
   * accession is the node of its role (primary, with name and description,
   * or secondary) in the first record of the species, across the files in
   * order, that lists it, and no other node has its sid; an accession that no
   * record of the species lists has no node.
   */
  lemma KnowledgebaseFirstRole(taxid: string, source: string, files: seq<seq<UniprotRecord>>, a: string)
    requires !UniRaised(Knowledgebase(taxid, source, UniState([], [], [], [], NoChecks(), None), files))
    ensures OsName(taxid).Ok?
    ensures var st := Knowledgebase(taxid, source, UniState([], [], [], [], NoChecks(), None), files);
      var first := FirstRole(taxid, OsName(taxid).value, AllRecords(files), a);
      (first.Some? ==> first.value in st.proteins) &&
      forall p :: p in st.proteins && SidText(p) == a ==> first == Some(p)
  {
    FilesRoles(taxid, OsName(taxid).value, source, files);
  }

  // ---------------------------------------------------------------------------
  // UniprotKnowledgebaseParser

  class UniprotKnowledgebaseParser {
    var proteins: seq<Props>
    var proteinPrimaryProtein: seq<Rel>
    var transcriptCodesProtein: seq<Rel>
    var proteinMapsProtein: seq<Rel>

    constructor ()
      ensures proteins == [] && proteinPrimaryProtein == [] && transcriptCodesProtein == [] && proteinMapsProtein == []
    {
      proteins, proteinPrimaryProtein := [], [];
      transcriptCodesProtein, proteinMapsProtein := [], [];
    }

    function State(checks: UniChecks, raised: Option<Error>): UniState
      reads this
    {
      UniState(proteins, proteinPrimaryProtein, transcriptCodesProtein, proteinMapsProtein, checks, raised)
    }

    /** run over the records of the knowledgebase files of the taxid, in order. */
    method Run(taxid: string, source: string, files: seq<seq<UniprotRecord>>) returns (raised: Option<Error>)
      modifies this
      ensures State(NoChecks(), raised) == Knowledgebase(taxid, source, old(State(NoChecks(), None)), files).(checks := NoChecks())
    {
      var os := OsName(taxid);
      if os.Err? {
        return Some(os.error);
      }
      ghost var start := State(NoChecks(), None);
      var checks := NoChecks();
      var i := 0;
      while i < |files|
        invariant 0 <= i <= |files|
        invariant Scan.Run(start, files[..i], FileStepFor(taxid, os.value, source), UniRaised) == State(checks, None)
      {
        Scan.RunNext(start, files, i, FileStepFor(taxid, os.value, source), UniRaised);
        checks, raised := KbFile(taxid, os.value, source, files[i], checks);
        if raised.Some? {
          Scan.RunHalted(start, files, i + 1, FileStepFor(taxid, os.value, source), UniRaised);
          return;
        }
        i := i + 1;
      }
      Scan.RunAll(start, files, FileStepFor(taxid, os.value, source), UniRaised);
      raised := None;
    }

    /** The records of one file. */
    method KbFile(taxid: string, os: string, source: string, records: seq<UniprotRecord>, checks: UniChecks)
      returns (checksAfter: UniChecks, raised: Option<Error>)
      modifies this
      ensures State(checksAfter, raised) == FileStep(taxid, os, source, old(State(checks, None)), records)
    {
      ghost var start := State(checks, None);
      checksAfter := checks;
      var i := 0;
      while i < |records|
        invariant 0 <= i <= |records|
        invariant Scan.Run(start, records[..i], RecordStepFor(taxid, os, source), UniRaised) == State(checksAfter, None)
      {
        Scan.RunNext(start, records, i, RecordStepFor(taxid, os, source), UniRaised);
        checksAfter, raised := Record(taxid, os, source, records[i], checksAfter);
        if raised.Some? {
          Scan.RunHalted(start, records, i + 1, RecordStepFor(taxid, os, source), UniRaised);
          return;
        }
        i := i + 1;
      }
      Scan.RunAll(start, records, RecordStepFor(taxid, os, source), UniRaised);
      raised := None;
    }

    /** The body of the record loop. */
    method Record(taxid: string, os: string, source: string, rec: UniprotRecord, checks: UniChecks)
      returns (checksAfter: UniChecks, raised: Option<Error>)
      modifies this
      ensures State(checksAfter, raised) == RecordStep(taxid, os, source, old(State(checks, None)), rec)
    {
      checksAfter, raised := checks, None;
      if !Contains(rec.os, os) {
        return;
      }
      if rec.ac == [] {
        return checks, Some(IndexError("acc_list[0]"));
      }
      var name := RecName(rec.de);
      if name.Err? {
        return checks, Some(name.error);
      }
      var primary := rec.ac[0];
      if primary !in checksAfter.protein {
        proteins := proteins + [PrimaryNode(primary, name.value, rec.de, taxid)];
        checksAfter := checksAfter.(protein := checksAfter.protein + {primary});
      }
      checksAfter := Secondaries(taxid, primary, rec.ac[1..], checksAfter);
      checksAfter, raised := RefseqRefs(source, rec.ac, DbRefs(rec.dr, "RefSeq"), checksAfter);
      if raised.Some? {
        return;
      }
      checksAfter, raised := EnsemblRefs(rec.ac, DbRefs(rec.dr, "Ensembl"), checksAfter);
    }

    /** The loop over the secondary accessions. */
    method Secondaries(taxid: string, primary: string, accs: seq<string>, checks: UniChecks) returns (checksAfter: UniChecks)
      modifies this
      ensures State(checksAfter, None) == Scan.Run(old(State(checks, None)), accs, SecondaryStepFor(taxid, primary), Scan.Never)
    {
      ghost var start := State(checks, None);
      checksAfter := checks;
      var k := 0;
      while k < |accs|
        invariant 0 <= k <= |accs|
        invariant Scan.Run(start, accs[..k], SecondaryStepFor(taxid, primary), Scan.Never) == State(checksAfter, None)
      {
        Scan.RunNext(start, accs, k, SecondaryStepFor(taxid, primary), Scan.Never);
        var acc := accs[k];
        if acc !in checksAfter.protein {
          proteins := proteins + [SecondaryNode(acc, taxid)];
          checksAfter := checksAfter.(protein := checksAfter.protein + {acc});
        }
        if {primary, acc} !in checksAfter.proteinPrimaryProtein {
          proteinPrimaryProtein := proteinPrimaryProtein + [PrimaryRel(primary, acc)];
          checksAfter := checksAfter.(proteinPrimaryProtein := checksAfter.proteinPrimaryProtein + {{primary, acc}});
        }
        k := k + 1;
      }
      Scan.RunAll(start, accs, SecondaryStepFor(taxid, primary), Scan.Never);
    }

    /** The loop over the RefSeq cross-references. */
    method RefseqRefs(source: string, accs: seq<string>, refs: seq<seq<string>>, checks: UniChecks)
      returns (checksAfter: UniChecks, raised: Option<Error>)
      modifies this
      ensures State(checksAfter, raised) == Scan.Run(old(State(checks, None)), refs, RefseqRefStepFor(source, accs), UniRaised)
    {
      ghost var start := State(checks, None);
      checksAfter := checks;
      var k := 0;
      while k < |refs|
        invariant 0 <= k <= |refs|
        invariant Scan.Run(start, refs[..k], RefseqRefStepFor(source, accs), UniRaised) == State(checksAfter, None)
      {
        Scan.RunNext(start, refs, k, RefseqRefStepFor(source, accs), UniRaised);
        checksAfter, raised := RefseqIds(source, accs, refs[k], checksAfter);
        if raised.Some? {
          Scan.RunHalted(start, refs, k + 1, RefseqRefStepFor(source, accs), UniRaised);
          return;
        }
        k := k + 1;
      }
      Scan.RunAll(start, refs, RefseqRefStepFor(source, accs), UniRaised);
      raised := None;
    }

    /** The loop over the ids of one RefSeq cross-reference. */
    method RefseqIds(source: string, accs: seq<string>, ids: seq<string>, checks: UniChecks)
      returns (checksAfter: UniChecks, raised: Option<Error>)
      modifies this
      ensures State(checksAfter, raised) == RefseqRefStep(source, accs, old(State(checks, None)), ids)
    {
      ghost var start := State(checks, None);
      checksAfter := checks;
      var k := 0;
      while k < |ids|
        invariant 0 <= k <= |ids|
        invariant Scan.Run(start, ids[..k], RefseqIdStepFor(source, accs), UniRaised) == State(checksAfter, None)
      {
        Scan.RunNext(start, ids, k, RefseqIdStepFor(source, accs), UniRaised);
        var ref := NoVersion(ids[k]);
        if |ref| < 2 {
          Scan.RunHalted(start, ids, k + 1, RefseqIdStepFor(source, accs), UniRaised);
          return checksAfter, Some(IndexError("refseq_id[1]"));
        }
        if ref[1] == 'M' || ref[1] == 'R' {
          checksAfter := RefseqCodes(source, ref, accs, checksAfter);
        }
        if ref[1] == 'P' {
          checksAfter := RefseqMaps(ref, accs, checksAfter);
        }
        k := k + 1;
      }
      Scan.RunAll(start, ids, RefseqIdStepFor(source, accs), UniRaised);
      raised := None;
    }

    /** CODES from a RefSeq transcript to every accession. */
    method RefseqCodes(source: string, ref: string, accs: seq<string>, checks: UniChecks) returns (checksAfter: UniChecks)
      modifies this
      ensures State(checksAfter, None) == Scan.Run(old(State(checks, None)), accs, RefseqCodesStepFor(source, ref), Scan.Never)
    {
      ghost var start := State(checks, None);
      checksAfter := checks;
      var k := 0;
      while k < |accs|
        invariant 0 <= k <= |accs|
        invariant Scan.Run(start, accs[..k], RefseqCodesStepFor(source, ref), Scan.Never) == State(checksAfter, None)
      {
        Scan.RunNext(start, accs, k, RefseqCodesStepFor(source, ref), Scan.Never);
        var acc := accs[k];
        if ref + acc !in checksAfter.transcriptCodesProtein {
          transcriptCodesProtein := transcriptCodesProtein + [Rel(SidProps(ref), SidProps(acc), SourceProps(source))];
          checksAfter := checksAfter.(transcriptCodesProtein := checksAfter.transcriptCodesProtein + {ref + acc});
        }
        k := k + 1;
      }
      Scan.RunAll(start, accs, RefseqCodesStepFor(source, ref), Scan.Never);
    }

    /** MAPS from every accession to a RefSeq protein. */
    method RefseqMaps(ref: string, accs: seq<string>, checks: UniChecks) returns (checksAfter: UniChecks)
      modifies this
      ensures State(checksAfter, None) == Scan.Run(old(State(checks, None)), accs, RefseqMapsStepFor(ref), Scan.Never)
    {
      ghost var start := State(checks, None);
      checksAfter := checks;
      var k := 0;
      while k < |accs|
        invariant 0 <= k <= |accs|
        invariant Scan.Run(start, accs[..k], RefseqMapsStepFor(ref), Scan.Never) == State(checksAfter, None)
      {
        Scan.RunNext(start, accs, k, RefseqMapsStepFor(ref), Scan.Never);
        var acc := accs[k];
        if acc + ref !in checksAfter.proteinMapsProtein {
          proteinMapsProtein := proteinMapsProtein + [SidRel(acc, ref, map[])];
          checksAfter := checksAfter.(proteinMapsProtein := checksAfter.proteinMapsProtein + {acc + ref});
        }
        k := k + 1;
      }
      Scan.RunAll(start, accs, RefseqMapsStepFor(ref), Scan.Never);
    }

    /** The loop over the Ensembl cross-references. */
    method EnsemblRefs(accs: seq<string>, refs: seq<seq<string>>, checks: UniChecks)
      returns (checksAfter: UniChecks, raised: Option<Error>)
      modifies this
      ensures State(checksAfter, raised) == Scan.Run(old(State(checks, None)), refs, EnsemblRefStepFor(accs), UniRaised)
    {
      ghost var start := State(checks, None);
      checksAfter := checks;
      var k := 0;
      while k < |refs|
        invariant 0 <= k <= |refs|
        invariant Scan.Run(start, refs[..k], EnsemblRefStepFor(accs), UniRaised) == State(checksAfter, None)
      {
        Scan.RunNext(start, refs, k, EnsemblRefStepFor(accs), UniRaised);
        var ids := refs[k];
        if |ids| < 2 {
          Scan.RunHalted(start, refs, k + 1, EnsemblRefStepFor(accs), UniRaised);
          return checksAfter, Some(IndexError(if |ids| < 1 then "map[0]" else "map[1]"));
        }
        checksAfter := EnsemblAccs(ids[0], ids[1], accs, checksAfter);
        k := k + 1;
      }
      Scan.RunAll(start, refs, EnsemblRefStepFor(accs), UniRaised);
      raised := None;
    }

    /** CODES from the Ensembl transcript to every accession and MAPS from every accession to the Ensembl protein. */
    method EnsemblAccs(transcript: string, protein: string, accs: seq<string>, checks: UniChecks) returns (checksAfter: UniChecks)
      modifies this
      ensures State(checksAfter, None) == Scan.Run(old(State(checks, None)), accs, EnsemblAccStepFor(transcript, protein), Scan.Never)
    {
      ghost var start := State(checks, None);
      checksAfter := checks;
      var k := 0;
      while k < |accs|
        invariant 0 <= k <= |accs|
        invariant Scan.Run(start, accs[..k], EnsemblAccStepFor(transcript, protein), Scan.Never) == State(checksAfter, None)
      {
        Scan.RunNext(start, accs, k, EnsemblAccStepFor(transcript, protein), Scan.Never);
        var acc := accs[k];
        if transcript + acc !in checksAfter.transcriptCodesProtein {
          transcriptCodesProtein := transcriptCodesProtein + [SidRel(transcript, acc, map[])];
          checksAfter := checksAfter.(transcriptCodesProtein := checksAfter.transcriptCodesProtein + {transcript + acc});
        }
        if protein + acc !in checksAfter.proteinMapsProtein {
          proteinMapsProtein := proteinMapsProtein + [SidRel(acc, protein, map[])];
          checksAfter := checksAfter.(proteinMapsProtein := checksAfter.proteinMapsProtein + {protein + acc});
        }
        k := k + 1;
      }
      Scan.RunAll(start, accs, EnsemblAccStepFor(transcript, protein), Scan.Never);
    }
  }
}
