/**
 * The miRDB parser (biomedgraph/parser/mirdb.py).
 *
 * MirdbParser reads the miRDB target prediction file, one prediction per line:
 * miRNA name, target transcript and score, separated by whitespace.  It keeps
 * the lines whose miRNA name carries the prefix of the requested organism and
 * adds one Mirna-TARGETS-Transcript relationship per such line.
 *
 * Reading the gzip file and finding it through the datasource are not part of
 * this model: the lines and the datasource name are parameters.  The score is
 * kept as its text (an opaque value); which texts float() accepts is a
 * parameter as well.
 */
module Mirdb {
  import opened Results
  import opened PyStr
  import opened Graph
  import Scan

  /** TAXID_2_MIRPREFIX: the miRNA name prefix of each supported organism. */
  function MirPrefix(taxid: string): (r: Result<string>)
    ensures r.Ok? <==> taxid in {"9606", "10090"}
    ensures taxid == "9606" ==> r == Ok("hsa")
    ensures taxid == "10090" ==> r == Ok("mmu")
    ensures r.Err? ==> r.error == KeyError(taxid)
  {
    if taxid == "9606" then Ok("hsa")
    else if taxid == "10090" then Ok("mmu")
    else Err(KeyError(taxid))
  }

  /** The fields of each line, l.split(). */
  function Rows(lines: seq<string>): (r: seq<seq<string>>)
    ensures |r| == |lines| && forall k :: 0 <= k < |lines| ==> r[k] == SplitWs(lines[k])
  {
    seq(|lines|, k requires 0 <= k < |lines| => SplitWs(lines[k]))
  }

  /** The TARGETS of a prediction: from the miRNA, by name, to the transcript, by sid. */
  function TargetRel(name: string, target: string, score: string, source: string): (r: Rel)
    ensures r.start.Keys == {"name"} && r.start["name"] == Str(name)
    ensures r.end == SidProps(target)
    ensures r.props.Keys == {"score", "source"}
    ensures r.props["score"] == Opaque(score) && r.props["source"] == Str(source)
  {
    Rel(map["name" := Str(name)], SidProps(target), map["score" := Opaque(score), "source" := Str(source)])
  }

  datatype TargetState = TargetState(rels: seq<Rel>, raised: Option<Error>)

  predicate Raised(st: TargetState) {
    st.raised.Some?
  }

  /** A line the loop keeps: its miRNA name starts with the prefix. */
  predicate Prefixed(prefix: string, flds: seq<string>) {
    |flds| > 0 && StartsWith(flds[0], prefix)
  }

  /**
   * One line: IndexError on an empty line; nothing for another organism's
   * miRNA; otherwise IndexError for a missing target or score, ValueError for
   * a score float() rejects, and the TARGETS of the line.
   */
  function TargetStep(prefix: string, isFloat: string -> bool, source: string, st: TargetState, flds: seq<string>): TargetState {
    if |flds| == 0 then st.(raised := Some(IndexError("flds[0]")))
    else if !StartsWith(flds[0], prefix) then st
    else if |flds| < 2 then st.(raised := Some(IndexError("flds[1]")))
    else if |flds| < 3 then st.(raised := Some(IndexError("flds[2]")))
    else if !isFloat(flds[2]) then st.(raised := Some(ValueError(flds[2])))
    else st.(rels := st.rels + [TargetRel(flds[0], flds[1], flds[2], source)])
  }

  function TargetStepFor(prefix: string, isFloat: string -> bool, source: string): (TargetState, seq<string>) -> TargetState {
    (st: TargetState, flds: seq<string>) => TargetStep(prefix, isFloat, source, st, flds)
  }

  /** The loop over the lines of the prediction file. */
  function TargetsRun(prefix: string, isFloat: string -> bool, source: string, start: TargetState, rows: seq<seq<string>>): TargetState {
    Scan.Run(start, rows, TargetStepFor(prefix, isFloat, source), Raised)
  }

  /** run(taxid): KeyError for an unsupported organism before any line is read, otherwise the loop. */
  function MirdbRun(taxid: string, isFloat: string -> bool, source: string, start: TargetState, rows: seq<seq<string>>): TargetState {
    match MirPrefix(taxid)
    case Err(e) => start.(raised := Some(e))
    case Ok(prefix) => TargetsRun(prefix, isFloat, source, start, rows)
  }

  function RelsOf(st: TargetState): seq<Rel> {
    st.rels
  }

  /** What a line that does not raise adds: its TARGETS when it is prefixed. */
  function TargetPiece(prefix: string, source: string): seq<string> -> seq<Rel> {
    (flds: seq<string>) =>
      if |flds| >= 3 && StartsWith(flds[0], prefix) then [TargetRel(flds[0], flds[1], flds[2], source)] else []
  }

  /** The number of prefixed lines. */
  function PrefixedCount(prefix: string, rows: seq<seq<string>>): nat
    decreases |rows|
  {
    if rows == [] then 0
    else PrefixedCount(prefix, rows[..|rows| - 1]) + if Prefixed(prefix, rows[|rows| - 1]) then 1 else 0
  }

  /** A step that does not raise appends the piece of its line. */
  lemma TargetStepLogs(prefix: string, isFloat: string -> bool, source: string)
    ensures forall st, flds :: !Raised(st) && !Raised(TargetStepFor(prefix, isFloat, source)(st, flds)) ==>
      RelsOf(TargetStepFor(prefix, isFloat, source)(st, flds)) == RelsOf(st) + TargetPiece(prefix, source)(flds)
  {
  }

  /** When the loop does not raise, it added the pieces of all lines, in order. */
  lemma TargetsLog(prefix: string, isFloat: string -> bool, source: string, start: TargetState, rows: seq<seq<string>>)
    requires !Raised(TargetsRun(prefix, isFloat, source, start, rows))
    ensures TargetsRun(prefix, isFloat, source, start, rows).rels == start.rels + Scan.Flat(rows, TargetPiece(prefix, source))
  {
    TargetStepLogs(prefix, isFloat, source);
    Scan.RunLog(start, rows, TargetStepFor(prefix, isFloat, source), Raised, RelsOf, TargetPiece(prefix, source));
  }

  /** A prefixed line the loop does not raise on has a target and a score. */
  predicate Complete(prefix: string, flds: seq<string>) {
    |flds| > 0 && (StartsWith(flds[0], prefix) ==> |flds| >= 3)
  }

  function CompleteFor(prefix: string): (TargetState, seq<string>) -> bool {
    (st: TargetState, flds: seq<string>) => Complete(prefix, flds)
  }

  /** When the loop does not raise, every line had a miRNA name, and every prefixed one a target and a score. */
  lemma TargetsComplete(prefix: string, isFloat: string -> bool, source: string, start: TargetState, rows: seq<seq<string>>)
    requires !Raised(TargetsRun(prefix, isFloat, source, start, rows))
    ensures forall k :: 0 <= k < |rows| ==> Complete(prefix, rows[k])
  {
    Scan.RunMarks(start, rows, TargetStepFor(prefix, isFloat, source), Raised, CompleteFor(prefix));
    forall k | 0 <= k < |rows|
      ensures Complete(prefix, rows[k])
    {
      assert rows[k] in rows;
      assert CompleteFor(prefix)(TargetsRun(prefix, isFloat, source, start, rows), rows[k]);
    }
  }

  /** Over complete lines, there is one TARGETS per prefixed line: duplicates are not dropped. */
  lemma {:induction false} TargetCount(prefix: string, source: string, rows: seq<seq<string>>)
    requires forall k :: 0 <= k < |rows| ==> Complete(prefix, rows[k])
    ensures |Scan.Flat(rows, TargetPiece(prefix, source))| == PrefixedCount(prefix, rows)
    decreases |rows|
  {
    if rows != [] {
      var n := |rows| - 1;
      assert forall k :: 0 <= k < n ==> rows[..n][k] == rows[k];
      TargetCount(prefix, source, rows[..n]);
      assert Complete(prefix, rows[n]);
    }
  }

  /** Every TARGETS comes from a line whose miRNA name carries the prefix, from its first three fields. */
  lemma {:induction false} TargetsFromPrefixed(prefix: string, source: string, rows: seq<seq<string>>)
    ensures forall r :: r in Scan.Flat(rows, TargetPiece(prefix, source)) ==>
      exists k :: (0 <= k < |rows| && |rows[k]| >= 3 && StartsWith(rows[k][0], prefix) &&
        r == TargetRel(rows[k][0], rows[k][1], rows[k][2], source))
    decreases |rows|
  {
    if rows != [] {
      var n := |rows| - 1;
      TargetsFromPrefixed(prefix, source, rows[..n]);
      forall r | r in Scan.Flat(rows, TargetPiece(prefix, source))
        ensures exists k :: (0 <= k < |rows| && |rows[k]| >= 3 && StartsWith(rows[k][0], prefix) &&
          r == TargetRel(rows[k][0], rows[k][1], rows[k][2], source))
      {
        if r in Scan.Flat(rows[..n], TargetPiece(prefix, source)) {
          var k :| 0 <= k < n && |rows[..n][k]| >= 3 && StartsWith(rows[..n][k][0], prefix) &&
            r == TargetRel(rows[..n][k][0], rows[..n][k][1], rows[..n][k][2], source);
          assert rows[..n][k] == rows[k];
        } else {
          assert r in TargetPiece(prefix, source)(rows[n]);
        }
      }
    }
  }

  /**
   * run(taxid) for a supported organism that does not raise: exactly one
   * TARGETS per line whose miRNA name has the organism's prefix, each from
   * such a line, with the datasource name as source.
   */
  lemma RunTargets(taxid: string, isFloat: string -> bool, source: string, rows: seq<seq<string>>)
    requires !Raised(MirdbRun(taxid, isFloat, source, TargetState([], None), rows))
    ensures taxid in {"9606", "10090"}
    ensures var rels := MirdbRun(taxid, isFloat, source, TargetState([], None), rows).rels;
      |rels| == PrefixedCount(MirPrefix(taxid).value, rows) &&
      (forall r :: r in rels ==> "source" in r.props && r.props["source"] == Str(source)) &&
      (forall r :: r in rels ==>
        exists k :: (0 <= k < |rows| && |rows[k]| >= 3 && StartsWith(rows[k][0], MirPrefix(taxid).value) &&
          r == TargetRel(rows[k][0], rows[k][1], rows[k][2], source)))
  {
    var prefix := MirPrefix(taxid).value;
    var start := TargetState([], None);
    TargetsLog(prefix, isFloat, source, start, rows);
    TargetsComplete(prefix, isFloat, source, start, rows);
    TargetCount(prefix, source, rows);
    TargetsFromPrefixed(prefix, source, rows);
  }

  class MirdbParser {
    /** mirna_targets_transcript */
    var mirnaTargetsTranscript: seq<Rel>

    function State(raised: Option<Error>): TargetState
      reads this
    {
      TargetState(mirnaTargetsTranscript, raised)
    }

    constructor ()
      ensures mirnaTargetsTranscript == []
    {
      mirnaTargetsTranscript := [];
    }

    /** run(taxid) over the lines of the prediction file, with the datasource name. */
    method Run(taxid: string, source: string, lines: seq<string>, isFloat: string -> bool) returns (raised: Option<Error>)
      modifies this
      ensures State(raised) == MirdbRun(taxid, isFloat, source, old(State(None)), Rows(lines))
    {
      var mirPrefix := MirPrefix(taxid);
      if mirPrefix.Err? {
        return Some(mirPrefix.error);
      }
      ghost var start := State(None);
      ghost var rows := Rows(lines);
      var step := TargetStepFor(mirPrefix.value, isFloat, source);
      for i := 0 to |lines|
        invariant Scan.Run(start, rows[..i], step, Raised) == State(None)
      {
        Scan.RunNext(start, rows, i, step, Raised);
        var flds := SplitWs(lines[i]);
        assert flds == rows[i];
        raised := Line(mirPrefix.value, isFloat, source, flds);
        if raised.Some? {
          Scan.RunHalted(start, rows, i + 1, step, Raised);
          return;
        }
      }
      Scan.RunAll(start, rows, step, Raised);
      raised := None;
    }

    /** The body of the loop. */
    method Line(mirPrefix: string, isFloat: string -> bool, source: string, flds: seq<string>) returns (raised: Option<Error>)
      modifies this
      ensures State(raised) == TargetStep(mirPrefix, isFloat, source, old(State(None)), flds)
    {
      if |flds| == 0 {
        return Some(IndexError("flds[0]"));
      }
      var mirName := flds[0];
      if StartsWith(mirName, mirPrefix) {
        if |flds| < 2 {
          return Some(IndexError("flds[1]"));
        }
        var target := flds[1];
        if |flds| < 3 {
          return Some(IndexError("flds[2]"));
        }
        if !isFloat(flds[2]) {
          return Some(ValueError(flds[2]));
        }
        var score := Opaque(flds[2]);
        mirnaTargetsTranscript := mirnaTargetsTranscript +
          [Rel(map["name" := Str(mirName)], map["sid" := Str(target)], map["score" := score, "source" := Str(source)])];
      }
      raised := None;
    }
  }
}
