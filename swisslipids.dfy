/**
 * The SwissLipids parser (biomedgraph/parser/swisslipids.py).
 *
 * SwissLipidsParser.get_lipids reads lipids.tsv: the first line is the
 * header, whose names are made safe for Cypher by safe_string; every other
 * line gives one Lipid node (its sid and every non-blank field under its
 * header name), one FROM_LIPID_CLASS per '|'-separated entry of the lipid
 * class column, one HAS_PARENT and one HAS_COMPONENT per '/'-separated
 * component that has a type after a space.  Nothing is deduplicated.
 */
module SwissLipids {
  import opened Results
  import opened PyStr
  import opened Graph
  import Scan

  /** The characters safe_string replaces, in the order it replaces them. */
  const UNSAFE: seq<char> := [' ', '[', ']', '(', ')', '*', '/']

  /** A header name with every unsafe character turned into '_'. */
  function SafeName(s: string): (r: string)
    ensures |r| == |s|
    ensures forall c :: c in UNSAFE ==> c !in r
    ensures forall i :: 0 <= i < |s| && s[i] !in UNSAFE ==> r[i] == s[i]
  {
    seq(|s|, i requires 0 <= i < |s| => if s[i] in UNSAFE then '_' else s[i])
  }

  /** Making a name safe twice changes nothing more. */
  lemma SafeNameIdempotent(s: string)
    ensures SafeName(SafeName(s)) == SafeName(s)
  {
  }

  /** safe_string: s.replace(c, '_') for each unsafe character c in turn. */
  method SafeString(s: string) returns (r: string)
    ensures r == SafeName(s)
  {
    r := s;
    for k := 0 to |UNSAFE|
      invariant |r| == |s|
      invariant forall i :: 0 <= i < |s| ==> r[i] == (if s[i] in UNSAFE[..k] then '_' else s[i])
    {
      r := ReplaceChar(r, UNSAFE[k], '_');
      assert forall c :: c in UNSAFE[..k + 1] <==> c in UNSAFE[..k] || c == UNSAFE[k];
    }
    assert UNSAFE[..|UNSAFE|] == UNSAFE;
  }

  /** The fields of a line: l.strip().split('\t'). */
  function TabFields(line: string): (r: seq<string>)
    ensures |r| >= 1
  {
    Split(Strip(line), "\t")
  }

  /** [safe_string(s) for s in header]. */
  function SafeHeader(header: seq<string>): (r: seq<string>)
    ensures |r| == |header| && forall i :: 0 <= i < |header| ==> r[i] == SafeName(header[i])
  {
    seq(|header|, i requires 0 <= i < |header| => SafeName(header[i]))
  }

  // ---------------------------------------------------------------------------
  // The properties of a Lipid node

  /** The stripped fields of a line: [fld.strip() for fld in flds]. */
  function Stripped(flds: seq<string>): (r: seq<string>)
    ensures |r| == |flds| && forall i :: 0 <= i < |flds| ==> r[i] == Strip(flds[i])
  {
    seq(|flds|, i requires 0 <= i < |flds| => Strip(flds[i]))
  }

  /**
   * The props of the node after the stripped fields vals (enumerated from 0):
   * the sid, then props[safe[i]] = vals[i] for every non-empty one.  A
   * non-empty field beyond the header raises IndexError.
   */
  function LipidProps(sid: string, safe: seq<string>, vals: seq<string>): (r: Result<Props>)
    ensures r.Err? <==> exists i :: 0 <= i < |vals| && i >= |safe| && vals[i] != ""
    ensures r.Err? ==> r.error == IndexError("header_cypher_safe[i]")
    decreases |vals|
  {
    if vals == [] then Ok(map["sid" := Str(sid)])
    else
      var n := |vals| - 1;
      var prev := LipidProps(sid, safe, vals[..n]);
      assert forall i :: 0 <= i < n ==> vals[..n][i] == vals[i];
      if prev.Err? then prev
      else if vals[n] == "" then prev
      else if n >= |safe| then Err(IndexError("header_cypher_safe[i]"))
      else Ok(prev.value[safe[n] := Str(vals[n])])
  }

  /** The keys of the node: 'sid' and the safe header names of its non-empty fields. */
  lemma {:induction false} LipidPropsKeys(sid: string, safe: seq<string>, vals: seq<string>)
    requires LipidProps(sid, safe, vals).Ok?
    ensures LipidProps(sid, safe, vals).value.Keys ==
      {"sid"} + (set i | 0 <= i < |vals| && i < |safe| && vals[i] != "" :: safe[i])
    decreases |vals|
  {
    if vals != [] {
      var n := |vals| - 1;
      assert forall i :: 0 <= i < n ==> vals[..n][i] == vals[i];
      LipidPropsKeys(sid, safe, vals[..n]);
    }
  }

  /** A safe header name gets the value of the last non-empty field under it. */
  lemma {:induction false} LipidPropsLast(sid: string, safe: seq<string>, vals: seq<string>, i: nat)
    requires LipidProps(sid, safe, vals).Ok?
    requires i < |vals| && i < |safe| && vals[i] != ""
    requires forall j :: i < j < |vals| && j < |safe| && vals[j] != "" ==> safe[j] != safe[i]
    ensures safe[i] in LipidProps(sid, safe, vals).value
    ensures LipidProps(sid, safe, vals).value[safe[i]] == Str(vals[i])
    decreases |vals|
  {
    var n := |vals| - 1;
    assert forall j :: 0 <= j < n ==> vals[..n][j] == vals[j];
    if i < n {
      LipidPropsLast(sid, safe, vals[..n], i);
    }
  }

  /** 'sid' keeps the lipid id unless a non-empty field has the header name 'sid'. */
  lemma {:induction false} LipidPropsSid(sid: string, safe: seq<string>, vals: seq<string>)
    requires LipidProps(sid, safe, vals).Ok?
    requires forall i :: 0 <= i < |vals| && i < |safe| && vals[i] != "" ==> safe[i] != "sid"
    ensures "sid" in LipidProps(sid, safe, vals).value
    ensures LipidProps(sid, safe, vals).value["sid"] == Str(sid)
    decreases |vals|
  {
    if vals != [] {
      var n := |vals| - 1;
      assert forall j :: 0 <= j < n ==> vals[..n][j] == vals[j];
      LipidPropsSid(sid, safe, vals[..n]);
    }
  }

  // ---------------------------------------------------------------------------
  // The relationships of a line

  /** The lipid class entries: flds[5].strip().split('|'), each stripped. */
  function ClassEntries(column: string): (r: seq<string>)
    ensures |r| >= 1
    ensures Strip(column) == "" ==> r == [""]
  {
    var pieces := Split(Strip(column), "|");
    if Strip(column) == "" then assert pieces == [""]; [Strip(pieces[0])]
    else seq(|pieces|, i requires 0 <= i < |pieces| => Strip(pieces[i]))
  }

  function ClassRel(sid: string, cls: string): Rel {
    SidRel(sid, cls, SourceProps("swisslipids"))
  }

  function ClassPiece(sid: string): string -> seq<Rel> {
    (cls: string) => [ClassRel(sid, cls)]
  }

  /** One FROM_LIPID_CLASS per entry of the class column, in order. */
  function ClassRels(sid: string, column: string): seq<Rel> {
    Scan.Flat(ClassEntries(column), ClassPiece(sid))
  }

  /** The HAS_COMPONENT of one '/'-separated component: sid and type around its first space, or nothing without one. */
  function ComponentRels(sid: string, component: string): (r: seq<Rel>)
    ensures |r| <= 1
    ensures |r| == 1 <==> Contains(Strip(component), " ")
  {
    var parts := SplitOnce(Strip(component), " ");
    if |parts| == 2 then [SidRel(sid, parts[0], map["type" := Str(parts[1])])] else []
  }

  function ComponentPiece(sid: string): string -> seq<Rel> {
    (component: string) => ComponentRels(sid, component)
  }

  /** The components of column 8: flds[7].strip().split('/'). */
  function ComponentEntries(column: string): (r: seq<string>)
    ensures |r| >= 1
  {
    Split(Strip(column), "/")
  }

  // ---------------------------------------------------------------------------
  // The file

  datatype LipidState = LipidState(
    lipids: seq<Props>, fromClass: seq<Rel>, parent: seq<Rel>, component: seq<Rel>, raised: Option<Error>)

  predicate LipidRaised(st: LipidState) {
    st.raised.Some?
  }

  /**
   * One data line.  A non-blank field beyond the header raises before the node
   * is added; a line with fewer than 6, 7 or 8 fields raises IndexError after
   * the node, the class relationships or the parent relationship.
   */
  function LipidStep(safe: seq<string>, st: LipidState, flds: seq<string>): LipidState
    requires |flds| >= 1
  {
    match LipidProps(flds[0], safe, Stripped(flds))
    case Err(e) => st.(raised := Some(e))
    case Ok(props) => LipidRels(st.(lipids := st.lipids + [props]), flds)
  }

  /** The relationships of a line, after its node: FROM_LIPID_CLASS, then the parent and the components. */
  function LipidRels(st: LipidState, flds: seq<string>): LipidState
    requires |flds| >= 1
  {
    if |flds| < 6 then st.(raised := Some(IndexError("flds[5]")))
    else ParentRels(st.(fromClass := st.fromClass + ClassRels(flds[0], flds[5])), flds)
  }

  /** The parent relationship of a line, then its components. */
  function ParentRels(st: LipidState, flds: seq<string>): LipidState
    requires |flds| >= 6
  {
    if |flds| < 7 then st.(raised := Some(IndexError("flds[6]")))
    else ComponentStage(st.(parent := st.parent + [ParentRel(flds[0], flds[6])]), flds)
  }

  /** The HAS_COMPONENT relationships of a line. */
  function ComponentStage(st: LipidState, flds: seq<string>): LipidState
    requires |flds| >= 7
  {
    if |flds| < 8 then st.(raised := Some(IndexError("flds[7]")))
    else st.(component := st.component + ComponentsRels(flds[0], flds[7]))
  }

  function ParentRel(sid: string, column: string): Rel {
    SidRel(sid, Strip(column), SourceProps("swisslipids"))
  }

  /** The HAS_COMPONENT of the components column, in order. */
  function ComponentsRels(sid: string, column: string): seq<Rel> {
    Scan.Flat(ComponentEntries(column), ComponentPiece(sid))
  }

  type Fields = flds: seq<string> | |flds| >= 1 witness [""]

  function LipidStepFor(safe: seq<string>): (LipidState, Fields) -> LipidState {
    (st: LipidState, flds: Fields) => LipidStep(safe, st, flds)
  }

  /** The data lines as fields. */
  function DataRows(lines: seq<string>): (r: seq<Fields>)
    ensures |r| == |lines| && forall i :: 0 <= i < |lines| ==> r[i] == TabFields(lines[i])
  {
    seq(|lines|, i requires 0 <= i < |lines| => TabFields(lines[i]))
  }

  /**
   * get_lipids: the header is the first line (an empty file raises
   * StopIteration), the data lines the rest.
   */
  function GetLipids(start: LipidState, lines: seq<string>): LipidState {
    if lines == [] then start.(raised := Some(StopIteration))
    else Scan.Run(start, DataRows(lines[1..]), LipidStepFor(SafeHeader(TabFields(lines[0]))), LipidRaised)
  }

  // ---------------------------------------------------------------------------
  // What a line adds

  /** A line that does not raise adds one node, its class relationships, one HAS_PARENT and its components. */
  lemma LipidLine(safe: seq<string>, st: LipidState, flds: Fields)
    requires !LipidRaised(LipidStep(safe, st, flds))
    ensures |flds| >= 8 && LipidProps(flds[0], safe, Stripped(flds)).Ok?
    ensures var after := LipidStep(safe, st, flds);
      after.lipids == st.lipids + [LipidProps(flds[0], safe, Stripped(flds)).value] &&
      after.fromClass == st.fromClass + ClassRels(flds[0], flds[5]) &&
      after.parent == st.parent + [SidRel(flds[0], Strip(flds[6]), SourceProps("swisslipids"))] &&
      after.component == st.component + ComponentsRels(flds[0], flds[7])
  {
  }

  /** One FROM_LIPID_CLASS per entry of the column, the i-th to the i-th entry stripped; an empty column gives one to ''. */
  lemma ClassRelsEach(sid: string, column: string)
    ensures |ClassRels(sid, column)| == |ClassEntries(column)|
    ensures forall i :: 0 <= i < |ClassEntries(column)| ==>
      ClassRels(sid, column)[i] == SidRel(sid, ClassEntries(column)[i], SourceProps("swisslipids"))
    ensures Strip(column) == "" ==> ClassRels(sid, column) == [SidRel(sid, "", SourceProps("swisslipids"))]
  {
    Scan.FlatOnes(ClassEntries(column), ClassPiece(sid));
  }

  /** A component without a space after stripping adds nothing; one with a space adds one HAS_COMPONENT from the lipid. */
  lemma ComponentSkipped(sid: string, component: string)
    ensures !Contains(Strip(component), " ") ==> ComponentPiece(sid)(component) == []
    ensures Contains(Strip(component), " ") ==>
      var parts := SplitOnce(Strip(component), " ");
      ComponentPiece(sid)(component) == [SidRel(sid, parts[0], map["type" := Str(parts[1])])] &&
      Strip(component) == parts[0] + " " + parts[1] && !Contains(parts[0], " ")
  {
  }

  /** The measure the counts are stated on: the node and parent logs. */
  function NodeCount(st: LipidState): int {
    |st.lipids|
  }

  function ParentCount(st: LipidState): int {
    |st.parent|
  }

  function OneRow(flds: Fields): nat {
    1
  }

  /** When no line raises, every data line gave exactly one Lipid node and exactly one HAS_PARENT. */
  lemma LipidsPerLine(start: LipidState, lines: seq<string>)
    requires lines != [] && !LipidRaised(GetLipids(start, lines))
    ensures |GetLipids(start, lines).lipids| == |start.lipids| + |lines| - 1
    ensures |GetLipids(start, lines).parent| == |start.parent| + |lines| - 1
  {
    var safe := SafeHeader(TabFields(lines[0]));
    var rows := DataRows(lines[1..]);
    forall s: LipidState, flds: Fields | !LipidRaised(s) && !LipidRaised(LipidStepFor(safe)(s, flds))
      ensures NodeCount(LipidStepFor(safe)(s, flds)) == NodeCount(s) + OneRow(flds)
      ensures ParentCount(LipidStepFor(safe)(s, flds)) == ParentCount(s) + OneRow(flds)
    {
      LipidLine(safe, s, flds);
    }
    Scan.RunTotal(start, rows, LipidStepFor(safe), LipidRaised, NodeCount, OneRow);
    Scan.RunTotal(start, rows, LipidStepFor(safe), LipidRaised, ParentCount, OneRow);
    Scan.TotalOnes(rows, OneRow);
  }

  // ---------------------------------------------------------------------------
  // SwissLipidsParser

  class SwissLipidsParser {
    var lipids: seq<Props>
    var lipidFromclassLipid: seq<Rel>
    var lipidParentLipid: seq<Rel>
    var lipidComponentLipid: seq<Rel>

    constructor ()
      ensures lipids == [] && lipidFromclassLipid == [] && lipidParentLipid == [] && lipidComponentLipid == []
    {
      lipids, lipidFromclassLipid, lipidParentLipid, lipidComponentLipid := [], [], [], [];
    }

    function State(raised: Option<Error>): LipidState
      reads this
    {
      LipidState(lipids, lipidFromclassLipid, lipidParentLipid, lipidComponentLipid, raised)
    }

    /** get_lipids over the lines of lipids.tsv. */
    method GetLipidsFromLines(lines: seq<string>) returns (raised: Option<Error>)
      modifies this
      ensures State(raised) == GetLipids(old(State(None)), lines)
    {
      if lines == [] {
        return Some(StopIteration);
      }
      var safe := HeaderNames(Split(Strip(lines[0]), "\t"));
      raised := DataLines(safe, lines[1..]);
    }

    /** header_cypher_safe */
    method HeaderNames(header: seq<string>) returns (safe: seq<string>)
      ensures safe == SafeHeader(header)
    {
      safe := [];
      for k := 0 to |header|
        invariant safe == SafeHeader(header[..k])
      {
        var name := SafeString(header[k]);
        safe := safe + [name];
      }
      assert header[..|header|] == header;
    }

    /** The loop over the data lines. */
    method DataLines(safe: seq<string>, lines: seq<string>) returns (raised: Option<Error>)
      modifies this
      ensures State(raised) == Scan.Run(old(State(None)), DataRows(lines), LipidStepFor(safe), LipidRaised)
    {
      ghost var start := State(None);
      ghost var rows := DataRows(lines);
      var i := 0;
      while i < |lines|
        invariant 0 <= i <= |lines|
        invariant Scan.Run(start, rows[..i], LipidStepFor(safe), LipidRaised) == State(None)
      {
        Scan.RunNext(start, rows, i, LipidStepFor(safe), LipidRaised);
        var flds := Split(Strip(lines[i]), "\t");
        raised := Line(safe, flds);
        if raised.Some? {
          Scan.RunHalted(start, rows, i + 1, LipidStepFor(safe), LipidRaised);
          return;
        }
        i := i + 1;
      }
      Scan.RunAll(start, rows, LipidStepFor(safe), LipidRaised);
      raised := None;
    }

    /** The body of the line loop. */
    method Line(safe: seq<string>, flds: Fields) returns (raised: Option<Error>)
      modifies this
      ensures State(raised) == LipidStep(safe, old(State(None)), flds)
    {
      var props;
      props, raised := NodeProps(flds[0], safe, flds);
      if raised.Some? {
        return;
      }
      lipids := lipids + [props];
      raised := Relationships(flds);
    }

    /** The relationships of a line. */
    method Relationships(flds: Fields) returns (raised: Option<Error>)
      modifies this
      ensures State(raised) == LipidRels(old(State(None)), flds)
    {
      if |flds| < 6 {
        return Some(IndexError("flds[5]"));
      }
      ClassLoop(flds[0], flds[5]);
      raised := Parent(flds);
    }

    /** The parent relationship of a line and what follows it. */
    method Parent(flds: Fields) returns (raised: Option<Error>)
      requires |flds| >= 6
      modifies this
      ensures State(raised) == ParentRels(old(State(None)), flds)
    {
      if |flds| < 7 {
        return Some(IndexError("flds[6]"));
      }
      lipidParentLipid := lipidParentLipid + [ParentRel(flds[0], flds[6])];
      raised := Components(flds);
    }

    /** The components of a line. */
    method Components(flds: Fields) returns (raised: Option<Error>)
      requires |flds| >= 7
      modifies this
      ensures State(raised) == ComponentStage(old(State(None)), flds)
    {
      if |flds| < 8 {
        return Some(IndexError("flds[7]"));
      }
      ComponentLoop(flds[0], flds[7]);
      raised := None;
    }

    /** FROM_LIPID_CLASS for every entry of column 6. */
    method ClassLoop(sid: string, column: string)
      modifies this`lipidFromclassLipid
      ensures lipidFromclassLipid == old(lipidFromclassLipid) + ClassRels(sid, column)
    {
      var classes := ClassEntries(column);
      for k := 0 to |classes|
        invariant lipidFromclassLipid == old(lipidFromclassLipid) + Scan.Flat(classes[..k], ClassPiece(sid))
      {
        Scan.FlatNext(classes, ClassPiece(sid), k);
        Graph.AppendAssoc(old(lipidFromclassLipid), Scan.Flat(classes[..k], ClassPiece(sid)), [ClassRel(sid, classes[k])]);
        lipidFromclassLipid := lipidFromclassLipid + [ClassRel(sid, classes[k])];
      }
      assert classes[..|classes|] == classes;
    }

    /** HAS_COMPONENT for every component of column 8 with a type. */
    method ComponentLoop(sid: string, column: string)
      modifies this`lipidComponentLipid
      ensures lipidComponentLipid == old(lipidComponentLipid) + ComponentsRels(sid, column)
    {
      var components := ComponentEntries(column);
      for k := 0 to |components|
        invariant lipidComponentLipid == old(lipidComponentLipid) + Scan.Flat(components[..k], ComponentPiece(sid))
      {
        Scan.FlatNext(components, ComponentPiece(sid), k);
        ComponentStep(sid, components[k]);
        Graph.AppendAssoc(old(lipidComponentLipid), Scan.Flat(components[..k], ComponentPiece(sid)), ComponentRels(sid, components[k]));
      }
      assert components[..|components|] == components;
    }

    /** The body of the component loop: the component's HAS_COMPONENT, if it has a type. */
    method ComponentStep(sid: string, component: string)
      modifies this`lipidComponentLipid
      ensures lipidComponentLipid == old(lipidComponentLipid) + ComponentRels(sid, component)
    {
      var parts := SplitOnce(Strip(component), " ");
      if |parts| == 2 {
        lipidComponentLipid := lipidComponentLipid + [SidRel(sid, parts[0], map["type" := Str(parts[1])])];
      }
    }

    /** The property loop of a line: props['sid'], then every non-blank field under its header name. */
    method NodeProps(sid: string, safe: seq<string>, flds: seq<string>) returns (props: Props, raised: Option<Error>)
      ensures raised.None? <==> LipidProps(sid, safe, Stripped(flds)).Ok?
      ensures raised.None? ==> props == LipidProps(sid, safe, Stripped(flds)).value
      ensures raised.Some? ==> raised == Some(LipidProps(sid, safe, Stripped(flds)).error)
    {
      ghost var vals := Stripped(flds);
      props := map["sid" := Str(sid)];
      for i := 0 to |flds|
        invariant LipidProps(sid, safe, vals[..i]) == Ok(props)
      {
        LipidPropsNext(sid, safe, vals, i);
        var fld := Strip(flds[i]);
        if fld != "" {
          if i >= |safe| {
            LipidPropsErr(sid, safe, vals, i + 1);
            return props, Some(IndexError("header_cypher_safe[i]"));
          }
          props := props[safe[i] := Str(fld)];
        }
      }
      assert vals[..|flds|] == vals;
      raised := None;
    }
  }

  /** One more field: blank ones change nothing, others raise beyond the header or set its name. */
  lemma LipidPropsNext(sid: string, safe: seq<string>, vals: seq<string>, i: nat)
    requires i < |vals| && LipidProps(sid, safe, vals[..i]).Ok?
    ensures LipidProps(sid, safe, vals[..i + 1]) ==
      if vals[i] == "" then LipidProps(sid, safe, vals[..i])
      else if i >= |safe| then Err(IndexError("header_cypher_safe[i]"))
      else Ok(LipidProps(sid, safe, vals[..i]).value[safe[i] := Str(vals[i])])
  {
    assert vals[..i + 1][..i] == vals[..i];
  }

  /** An error in the properties of a prefix of the fields is the error of all of them. */
  lemma {:induction false} LipidPropsErr(sid: string, safe: seq<string>, vals: seq<string>, k: nat)
    requires k <= |vals| && LipidProps(sid, safe, vals[..k]).Err?
    ensures LipidProps(sid, safe, vals) == LipidProps(sid, safe, vals[..k])
    decreases |vals| - k
  {
    if k < |vals| {
      assert vals[..k + 1][..k] == vals[..k];
      LipidPropsErr(sid, safe, vals, k + 1);
    } else {
      assert vals[..k] == vals;
    }
  }
}
