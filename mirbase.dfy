/**
 * The miRBase parser (biomedgraph/parser/mirbase.py).
 *
 * MirbaseParser reads the miRBase database tables: mature miRNAs become Mirna
 * nodes, precursor miRNAs (joined with the species table for their taxonomy
 * id) become PrecursorMirna nodes, and the precursor/mature mapping table
 * becomes PRE relationships.  The mapping table refers to the other two tables
 * by their primary keys, which the parser first turns into two dictionaries
 * from primary key to miRBase accession.
 *
 * The tables are given as rows already read (pandas is not part of this
 * model); a primary key is kept as the text of its cell.
 */
module Mirbase {
  import opened Results
  import opened Graph
  import Scan

  /** A row of mirna_mature.txt.gz: its primary key and the columns the parser reads. */
  datatype MatureRow = MatureRow(key: string, name: string, mirAcc: string, evidence: string)

  /** A row of mirna.txt.gz; comment is None when its cell is empty. */
  datatype PreRow = PreRow(key: string, mirAcc: string, mirId: string, desc: string, sequence: string,
                           comment: Option<string>, organismKey: string)

  /** A row of mirna_species.txt.gz, by its primary key. */
  datatype OrgRow = OrgRow(taxonId: int)

  /** A row of mirna_pre_mature.txt.gz: two primary keys and the position of the mature sequence. */
  datatype MapRow = MapRow(preDbid: string, matureDbid: string, start: int, end: int)

  /** The tables run reads. The species table is indexed by its primary key. */
  datatype Tables = Tables(mature: seq<MatureRow>, pre: seq<PreRow>, orgs: map<string, OrgRow>, mapping: seq<MapRow>)

  // ---------------------------------------------------------------------------
  // Mirna nodes

  /** The Mirna node of a mature row: its accession as sid, its name and its evidence. */
  function MatureNode(row: MatureRow): (p: Props)
    ensures p.Keys == {"sid", "name", "evidence"}
    ensures p["sid"] == Str(row.mirAcc) && p["name"] == Str(row.name) && p["evidence"] == Str(row.evidence)
  {
    map["sid" := Str(row.mirAcc), "name" := Str(row.name), "evidence" := Str(row.evidence)]
  }

  function MaturePiece(row: MatureRow): seq<Props> {
    [MatureNode(row)]
  }

  /** The Mirna nodes get_mature_mirnas adds for the rows of mirna_mature.txt.gz. */
  function MatureNodes(rows: seq<MatureRow>): seq<Props> {
    Scan.Flat(rows, MaturePiece)
  }

  /** Exactly one Mirna node per mature row, the k-th from row k. */
  lemma MatureNodePerRow(rows: seq<MatureRow>)
    ensures |MatureNodes(rows)| == |rows|
    ensures forall k :: 0 <= k < |rows| ==> MatureNodes(rows)[k] == MatureNode(rows[k])
  {
    Scan.FlatOnes(rows, MaturePiece);
  }

  // ---------------------------------------------------------------------------
  // PrecursorMirna nodes

  /** str(comment): an empty cell is read as NaN, whose text is 'nan'. */
  function CommentText(c: Option<string>): (r: string)
    ensures c.Some? ==> r == c.value
    ensures c.None? ==> r == "nan"
  {
    if c.Some? then c.value else "nan"
  }

  /** The PrecursorMirna node of a precursor row joined with the row of its organism. */
  function PreNode(row: PreRow, org: OrgRow): (p: Props)
    ensures p.Keys == {"sid", "name", "desc", "sequence", "taxid", "comment"}
    ensures p["sid"] == Str(row.mirAcc) && p["name"] == Str(row.mirId)
    ensures p["desc"] == Str(row.desc) && p["sequence"] == Str(row.sequence)
    ensures p["taxid"] == Int(org.taxonId) && p["comment"] == Str(CommentText(row.comment))
  {
    map["sid" := Str(row.mirAcc), "name" := Str(row.mirId), "desc" := Str(row.desc),
        "sequence" := Str(row.sequence), "taxid" := Int(org.taxonId), "comment" := Str(CommentText(row.comment))]
  }

  /**
   * The rows the inner join of mirna.txt.gz with the species table gives for a
   * precursor row: one when its organism is listed, none otherwise.
   */
  function PrePiece(orgs: map<string, OrgRow>): PreRow -> seq<Props> {
    (row: PreRow) => if row.organismKey in orgs then [PreNode(row, orgs[row.organismKey])] else []
  }

  /** The PrecursorMirna nodes get_pre_mirnas adds. */
  function PreNodes(rows: seq<PreRow>, orgs: map<string, OrgRow>): seq<Props> {
    Scan.Flat(rows, PrePiece(orgs))
  }

  /**
   * A PrecursorMirna node is added for a precursor row exactly when its
   * organism is listed, with the taxonomy id of that organism, and no other
   * node is added.
   */
  lemma {:induction false} PreNodesJoin(rows: seq<PreRow>, orgs: map<string, OrgRow>)
    ensures forall p :: p in PreNodes(rows, orgs) <==>
      exists row :: row in rows && row.organismKey in orgs && p == PreNode(row, orgs[row.organismKey])
    decreases |rows|
  {
    if rows != [] {
      var n := |rows| - 1;
      PreNodesJoin(rows[..n], orgs);
      assert rows == rows[..n] + [rows[n]];
      forall p | p in PreNodes(rows, orgs)
        ensures exists row :: row in rows && row.organismKey in orgs && p == PreNode(row, orgs[row.organismKey])
      {
        if p !in PreNodes(rows[..n], orgs) {
          assert p in PrePiece(orgs)(rows[n]);
          assert rows[n] in rows;
        } else {
          var row :| row in rows[..n] && row.organismKey in orgs && p == PreNode(row, orgs[row.organismKey]);
          assert row in rows;
        }
      }
      forall p, row | row in rows && row.organismKey in orgs && p == PreNode(row, orgs[row.organismKey])
        ensures p in PreNodes(rows, orgs)
      {
        if row != rows[n] {
          assert row in rows[..n];
        }
      }
    }
  }

  /** A precursor row whose organism is not listed adds nothing. */
  lemma PreNodeUnlisted(rows: seq<PreRow>, row: PreRow, orgs: map<string, OrgRow>)
    requires row.organismKey !in orgs
    ensures PreNodes(rows + [row], orgs) == PreNodes(rows, orgs)
  {
    assert (rows + [row])[..|rows|] == rows;
  }

  // ---------------------------------------------------------------------------
  // Primary key -> accession dictionaries

  /** The dictionary built by assigning d[key] = acc for each pair in turn. */
  function KeyMap(pairs: seq<(string, string)>): map<string, string>
    decreases |pairs|
  {
    if pairs == [] then map[]
    else KeyMap(pairs[..|pairs| - 1])[pairs[|pairs| - 1].0 := pairs[|pairs| - 1].1]
  }

  /** (Index, mir_acc) of every row of mirna.txt.gz. */
  function PreKeys(rows: seq<PreRow>): (r: seq<(string, string)>)
    ensures |r| == |rows| && forall k :: 0 <= k < |rows| ==> r[k] == (rows[k].key, rows[k].mirAcc)
  {
    seq(|rows|, k requires 0 <= k < |rows| => (rows[k].key, rows[k].mirAcc))
  }

  /** (Index, mir_acc) of every row of mirna_mature.txt.gz. */
  function MatureKeys(rows: seq<MatureRow>): (r: seq<(string, string)>)
    ensures |r| == |rows| && forall k :: 0 <= k < |rows| ==> r[k] == (rows[k].key, rows[k].mirAcc)
  {
    seq(|rows|, k requires 0 <= k < |rows| => (rows[k].key, rows[k].mirAcc))
  }

  /** Every key of a row is in the dictionary. */
  lemma {:induction false} KeyMapHas(pairs: seq<(string, string)>, i: nat)
    requires i < |pairs|
    ensures pairs[i].0 in KeyMap(pairs)
    decreases |pairs|
  {
    var n := |pairs| - 1;
    if i < n {
      KeyMapHas(pairs[..n], i);
    }
  }

  /**
   * A key of the dictionary comes from a row, and maps to the accession of the
   * last row with that key: a later row overwrites an earlier one.
   */
  lemma {:induction false} KeyMapLast(pairs: seq<(string, string)>, key: string) returns (i: nat)
    requires key in KeyMap(pairs)
    ensures i < |pairs| && pairs[i].0 == key && KeyMap(pairs)[key] == pairs[i].1
    ensures forall j :: i < j < |pairs| ==> pairs[j].0 != key
    decreases |pairs|
  {
    var n := |pairs| - 1;
    if pairs[n].0 == key {
      i := n;
    } else {
      i := KeyMapLast(pairs[..n], key);
    }
  }

  /** A key no row has is not in the dictionary. */
  lemma {:induction false} KeyMapLacks(pairs: seq<(string, string)>, key: string)
    requires forall j :: 0 <= j < |pairs| ==> pairs[j].0 != key
    ensures key !in KeyMap(pairs)
    decreases |pairs|
  {
    if pairs != [] {
      var n := |pairs| - 1;
      KeyMapLacks(pairs[..n], key);
    }
  }

  // ---------------------------------------------------------------------------
  // PRE relationships

  /** The PRE from a precursor to a mature miRNA, with the position of the mature sequence. */
  function PreRel(preAcc: string, matureAcc: string, start: int, end: int): (r: Rel)
    ensures r.start == SidProps(preAcc) && r.end == SidProps(matureAcc)
    ensures r.props.Keys == {"start", "end"} && r.props["start"] == Int(start) && r.props["end"] == Int(end)
  {
    Rel(SidProps(preAcc), SidProps(matureAcc), map["start" := Int(start), "end" := Int(end)])
  }

  datatype PreState = PreState(rels: seq<Rel>, raised: Option<Error>)

  predicate PreRaised(st: PreState) {
    st.raised.Some?
  }

  /** Both keys of a mapping row are in their dictionaries. */
  predicate Known(pre: map<string, string>, mature: map<string, string>, row: MapRow) {
    row.matureDbid in mature && row.preDbid in pre
  }

  /** The key a mapping row fails on: the mature key is looked up first. */
  function MissingKey(mature: map<string, string>, row: MapRow): string {
    if row.matureDbid !in mature then row.matureDbid else row.preDbid
  }

  /** One mapping row: KeyError for a missing mature, then precursor, key; otherwise its PRE. */
  function PreStep(pre: map<string, string>, mature: map<string, string>, st: PreState, row: MapRow): PreState {
    if row.matureDbid !in mature then st.(raised := Some(KeyError(row.matureDbid)))
    else if row.preDbid !in pre then st.(raised := Some(KeyError(row.preDbid)))
    else st.(rels := st.rels + [PreRel(pre[row.preDbid], mature[row.matureDbid], row.start, row.end)])
  }

  function PreStepFor(pre: map<string, string>, mature: map<string, string>): (PreState, MapRow) -> PreState {
    (st: PreState, row: MapRow) => PreStep(pre, mature, st, row)
  }

  /** The loop over the mapping table. */
  function PreRun(pre: map<string, string>, mature: map<string, string>, start: PreState, rows: seq<MapRow>): PreState {
    Scan.Run(start, rows, PreStepFor(pre, mature), PreRaised)
  }

  function RelsOf(st: PreState): seq<Rel> {
    st.rels
  }

  function PrePieceFor(pre: map<string, string>, mature: map<string, string>): MapRow -> seq<Rel> {
    (row: MapRow) => if Known(pre, mature, row) then [PreRel(pre[row.preDbid], mature[row.matureDbid], row.start, row.end)] else []
  }

  predicate KnownMark(pre: map<string, string>, mature: map<string, string>, st: PreState, row: MapRow) {
    Known(pre, mature, row)
  }

  function KnownMarkFor(pre: map<string, string>, mature: map<string, string>): (PreState, MapRow) -> bool {
    (st: PreState, row: MapRow) => KnownMark(pre, mature, st, row)
  }

  /** A step that does not raise appends the PRE of its row. */
  lemma PreStepLogs(pre: map<string, string>, mature: map<string, string>)
    ensures forall st, row :: !PreRaised(st) && !PreRaised(PreStepFor(pre, mature)(st, row)) ==>
      RelsOf(PreStepFor(pre, mature)(st, row)) == RelsOf(st) + PrePieceFor(pre, mature)(row)
  {
  }

  /** A step that does not raise had a row with both keys. */
  lemma PreStepMarks(pre: map<string, string>, mature: map<string, string>)
    ensures forall st, row :: !PreRaised(st) && !PreRaised(PreStepFor(pre, mature)(st, row)) ==>
      KnownMarkFor(pre, mature)(PreStepFor(pre, mature)(st, row), row)
    ensures forall st, row, x ::
      (!PreRaised(st) && !PreRaised(PreStepFor(pre, mature)(st, row)) && KnownMarkFor(pre, mature)(st, x)) ==>
        KnownMarkFor(pre, mature)(PreStepFor(pre, mature)(st, row), x)
  {
  }

  /** When the loop does not raise, every mapping row had both keys. */
  lemma PreKnownAll(pre: map<string, string>, mature: map<string, string>, start: PreState, rows: seq<MapRow>)
    requires !PreRaised(PreRun(pre, mature, start, rows))
    ensures forall k :: 0 <= k < |rows| ==> Known(pre, mature, rows[k])
  {
    PreStepMarks(pre, mature);
    Scan.RunMarks(start, rows, PreStepFor(pre, mature), PreRaised, KnownMarkFor(pre, mature));
    forall k | 0 <= k < |rows|
      ensures Known(pre, mature, rows[k])
    {
      assert rows[k] in rows;
      assert KnownMarkFor(pre, mature)(PreRun(pre, mature, start, rows), rows[k]);
    }
  }

  /**
   * When the loop does not raise, every mapping row had both keys and gave
   * exactly one PRE, the k-th from row k, between the accessions of its keys.
   */
  lemma PrePerRow(pre: map<string, string>, mature: map<string, string>, start: PreState, rows: seq<MapRow>)
    requires !PreRaised(start) && !PreRaised(PreRun(pre, mature, start, rows))
    ensures var r := PreRun(pre, mature, start, rows);
      |r.rels| == |start.rels| + |rows| &&
      forall k :: 0 <= k < |rows| ==> (Known(pre, mature, rows[k]) &&
        r.rels[|start.rels| + k] == PreRel(pre[rows[k].preDbid], mature[rows[k].matureDbid], rows[k].start, rows[k].end))
  {
    var piece := PrePieceFor(pre, mature);
    var r := PreRun(pre, mature, start, rows);
    assert r.rels == start.rels + Scan.Flat(rows, piece) by {
      PreStepLogs(pre, mature);
      Scan.RunLog(start, rows, PreStepFor(pre, mature), PreRaised, RelsOf, piece);
    }
    PreKnownAll(pre, mature, start, rows);
    PrePieces(pre, mature, rows);
    Scan.FlatOnesIn(rows, piece);
  }

  /** The piece of a row with both keys is its PRE. */
  lemma PrePieces(pre: map<string, string>, mature: map<string, string>, rows: seq<MapRow>)
    requires forall k :: 0 <= k < |rows| ==> Known(pre, mature, rows[k])
    ensures forall k :: 0 <= k < |rows| ==> (Known(pre, mature, rows[k]) &&
      PrePieceFor(pre, mature)(rows[k]) == [PreRel(pre[rows[k].preDbid], mature[rows[k].matureDbid], rows[k].start, rows[k].end)])
  {
  }

  /** The loop raises only when some row has a missing key: it never skips such a row. */
  lemma {:induction false} PreNoRaise(pre: map<string, string>, mature: map<string, string>, start: PreState, rows: seq<MapRow>)
    requires !PreRaised(start)
    requires forall k :: 0 <= k < |rows| ==> Known(pre, mature, rows[k])
    ensures !PreRaised(PreRun(pre, mature, start, rows))
    decreases |rows|
  {
    if rows != [] {
      var n := |rows| - 1;
      PreNoRaise(pre, mature, start, rows[..n]);
    }
  }

  /**
   * When the loop raises, it raises KeyError on the first mapping row with a
   * missing key, naming the mature key if that one is missing and the
   * precursor key otherwise; the PREs of the rows before it were added.
   */
  lemma {:induction false} PreRaisesAtFirst(pre: map<string, string>, mature: map<string, string>, start: PreState, rows: seq<MapRow>)
    returns (i: nat)
    requires !PreRaised(start) && PreRaised(PreRun(pre, mature, start, rows))
    ensures i < |rows| && !Known(pre, mature, rows[i])
    ensures forall k :: 0 <= k < i ==> Known(pre, mature, rows[k])
    ensures PreRun(pre, mature, start, rows) ==
      PreRun(pre, mature, start, rows[..i]).(raised := Some(KeyError(MissingKey(mature, rows[i]))))
    decreases |rows|
  {
    var n := |rows| - 1;
    if PreRaised(PreRun(pre, mature, start, rows[..n])) {
      i := PreRaisesAtFirst(pre, mature, start, rows[..n]);
      assert rows[..n][i] == rows[i];
      assert forall k :: 0 <= k < i ==> rows[..n][k] == rows[k];
    } else {
      i := n;
      PreKnownAll(pre, mature, start, rows[..n]);
      assert forall k :: 0 <= k < n ==> rows[..n][k] == rows[k];
    }
    PreRunAt(pre, mature, start, rows, i);
  }

  /** The run over rows whose first row with a missing key is row i. */
  lemma PreRunAt(pre: map<string, string>, mature: map<string, string>, start: PreState, rows: seq<MapRow>, i: nat)
    requires !PreRaised(start) && i < |rows| && !Known(pre, mature, rows[i])
    requires forall k :: 0 <= k < i ==> Known(pre, mature, rows[k])
    ensures PreRun(pre, mature, start, rows) ==
      PreRun(pre, mature, start, rows[..i]).(raised := Some(KeyError(MissingKey(mature, rows[i]))))
  {
    assert forall k :: 0 <= k < i ==> rows[..i][k] == rows[k];
    PreNoRaise(pre, mature, start, rows[..i]);
    Scan.RunNext(start, rows, i, PreStepFor(pre, mature), PreRaised);
    Scan.RunHalted(start, rows, i + 1, PreStepFor(pre, mature), PreRaised);
  }

  // ---------------------------------------------------------------------------
  // run

  datatype MirbaseState = MirbaseState(mature: seq<Props>, precursor: seq<Props>, pre: seq<Rel>)

  /**
   * run up to the relationship steps the model covers: get_mature_mirnas,
   * get_pre_mirnas, then get_pre_mature_relationship over the key dictionaries.
   */
  function MirbaseRun(st: MirbaseState, t: Tables): (MirbaseState, Option<Error>) {
    var r := PreRun(KeyMap(PreKeys(t.pre)), KeyMap(MatureKeys(t.mature)), PreState(st.pre, None), t.mapping);
    (MirbaseState(st.mature + MatureNodes(t.mature), st.precursor + PreNodes(t.pre, t.orgs), r.rels), r.raised)
  }

  /**
   * The node steps run before the mapping table is read: a KeyError in the
   * mapping table leaves all Mirna and PrecursorMirna nodes added.
   */
  lemma RunNodesFirst(st: MirbaseState, t: Tables)
    ensures |MirbaseRun(st, t).0.mature| == |st.mature| + |t.mature|
    ensures MirbaseRun(st, t).0.precursor == st.precursor + PreNodes(t.pre, t.orgs)
  {
    MatureNodePerRow(t.mature);
  }

  /** run raises exactly when some mapping row has a key neither table lists. */
  lemma RunRaises(st: MirbaseState, t: Tables)
    ensures MirbaseRun(st, t).1.Some? <==>
      exists k :: 0 <= k < |t.mapping| && !Known(KeyMap(PreKeys(t.pre)), KeyMap(MatureKeys(t.mature)), t.mapping[k])
  {
    var pre, mature := KeyMap(PreKeys(t.pre)), KeyMap(MatureKeys(t.mature));
    if MirbaseRun(st, t).1.Some? {
      var i := PreRaisesAtFirst(pre, mature, PreState(st.pre, None), t.mapping);
    } else {
      PrePerRow(pre, mature, PreState(st.pre, None), t.mapping);
    }
  }

  /** A mapping row's key is known exactly when a row of its table has that primary key. */
  lemma KnownKeys(t: Tables, row: MapRow)
    ensures Known(KeyMap(PreKeys(t.pre)), KeyMap(MatureKeys(t.mature)), row) <==>
      (exists k :: 0 <= k < |t.mature| && t.mature[k].key == row.matureDbid) &&
      (exists k :: 0 <= k < |t.pre| && t.pre[k].key == row.preDbid)
  {
    KeyIn(PreKeys(t.pre), row.preDbid);
    KeyIn(MatureKeys(t.mature), row.matureDbid);
  }

  lemma KeyIn(pairs: seq<(string, string)>, key: string)
    ensures key in KeyMap(pairs) <==> exists k :: 0 <= k < |pairs| && pairs[k].0 == key
  {
    if key in KeyMap(pairs) {
      var i := KeyMapLast(pairs, key);
    } else if exists k :: 0 <= k < |pairs| && pairs[k].0 == key {
      var k :| 0 <= k < |pairs| && pairs[k].0 == key;
      KeyMapHas(pairs, k);
    }
  }

  // ---------------------------------------------------------------------------
  // The parser

  class MirbaseParser {
    /** precursor_mirna, mature_mirna and precursor_codes_mature. */
    var precursorMirna: seq<Props>
    var matureMirna: seq<Props>
    var precursorCodesMature: seq<Rel>

    function State(): MirbaseState
      reads this
    {
      MirbaseState(matureMirna, precursorMirna, precursorCodesMature)
    }

    constructor ()
      ensures State() == MirbaseState([], [], [])
    {
      precursorMirna := [];
      matureMirna := [];
      precursorCodesMature := [];
    }

    /** run, up to the relationship steps the model covers. */
    method Run(t: Tables) returns (raised: Option<Error>)
      modifies this
      ensures (State(), raised) == MirbaseRun(old(State()), t)
    {
      GetMatureMirnas(t.mature);
      GetPreMirnas(t.pre, t.orgs);
      raised := GetPreMatureRelationship(t.pre, t.mature, t.mapping);
    }

    /** get_mature_mirnas */
    method GetMatureMirnas(rows: seq<MatureRow>)
      modifies this`matureMirna
      ensures matureMirna == old(matureMirna) + MatureNodes(rows)
    {
      for i := 0 to |rows|
        invariant matureMirna == old(matureMirna) + MatureNodes(rows[..i])
      {
        Scan.FlatNext(rows, MaturePiece, i);
        matureMirna := matureMirna + [map["sid" := Str(rows[i].mirAcc), "name" := Str(rows[i].name),
                                          "evidence" := Str(rows[i].evidence)]];
      }
      assert rows[..|rows|] == rows;
    }

    /** get_pre_mirnas: the precursor rows, inner-joined with the species table on their organism key. */
    method GetPreMirnas(rows: seq<PreRow>, orgs: map<string, OrgRow>)
      modifies this`precursorMirna
      ensures precursorMirna == old(precursorMirna) + PreNodes(rows, orgs)
    {
      for i := 0 to |rows|
        invariant precursorMirna == old(precursorMirna) + PreNodes(rows[..i], orgs)
      {
        Scan.FlatNext(rows, PrePiece(orgs), i);
        var row := rows[i];
        if row.organismKey in orgs {
          var props := map["sid" := Str(row.mirAcc), "name" := Str(row.mirId), "desc" := Str(row.desc),
                           "sequence" := Str(row.sequence), "taxid" := Int(orgs[row.organismKey].taxonId),
                           "comment" := Str(CommentText(row.comment))];
          precursorMirna := precursorMirna + [props];
        }
      }
      assert rows[..|rows|] == rows;
    }

    /** get_pre_mature_relationship */
    method GetPreMatureRelationship(pres: seq<PreRow>, matures: seq<MatureRow>, mapping: seq<MapRow>)
      returns (raised: Option<Error>)
      modifies this`precursorCodesMature
      ensures PreState(precursorCodesMature, raised) ==
        PreRun(KeyMap(PreKeys(pres)), KeyMap(MatureKeys(matures)), PreState(old(precursorCodesMature), None), mapping)
    {
      var precursorKeyToAccession := KeyAccessions(PreKeys(pres));
      var matureKeyToAccession := KeyAccessions(MatureKeys(matures));
      ghost var start := PreState(precursorCodesMature, None);
      var step := PreStepFor(precursorKeyToAccession, matureKeyToAccession);
      for i := 0 to |mapping|
        invariant Scan.Run(start, mapping[..i], step, PreRaised) == PreState(precursorCodesMature, None)
      {
        Scan.RunNext(start, mapping, i, step, PreRaised);
        var row := mapping[i];
        if row.matureDbid !in matureKeyToAccession {
          Scan.RunHalted(start, mapping, i + 1, step, PreRaised);
          return Some(KeyError(row.matureDbid));
        }
        var matureAcc := matureKeyToAccession[row.matureDbid];
        if row.preDbid !in precursorKeyToAccession {
          Scan.RunHalted(start, mapping, i + 1, step, PreRaised);
          return Some(KeyError(row.preDbid));
        }
        var precursorAcc := precursorKeyToAccession[row.preDbid];
        precursorCodesMature := precursorCodesMature + [PreRel(precursorAcc, matureAcc, row.start, row.end)];
      }
      Scan.RunAll(start, mapping, step, PreRaised);
      raised := None;
    }

    /** The loops filling precursor_db_key_2_accession and mature_db_key_2_accession. */
    static method KeyAccessions(pairs: seq<(string, string)>) returns (d: map<string, string>)
      ensures d == KeyMap(pairs)
    {
      d := map[];
      for i := 0 to |pairs|
        invariant d == KeyMap(pairs[..i])
      {
        assert pairs[..i + 1][..i] == pairs[..i];
        d := d[pairs[i].0 := pairs[i].1];
      }
      assert pairs[..|pairs|] == pairs;
    }
  }
}
