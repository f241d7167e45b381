/**
 * The OBO cleaner of biomedgraph/parser/helper/obo.py: it rewrites the
 * cross-reference lists at the end of OBO lines (`def: "..." [EC: 1.2.3.4]`) so
 * that they contain no spaces, and leaves the header of the file untouched.
 * The file is a sequence of lines (each with its newline, if it has one).
 */
module OboHelper {
  import opened Results
  import opened PyStr

  /** k.replace(' ', '').replace('\\', '') */
  function CleanKey(k: string): (r: string)
    ensures ' ' !in r && '\\' !in r
    ensures forall c :: c in r ==> c in k
    ensures ' ' !in k && '\\' !in k ==> r == k
  {
    RemoveChar(RemoveChar(k, ' '), '\\')
  }

  /** The value half of a key-value xref: one leading space and one trailing comma dropped, spaces to '_', backslashes removed. */
  function CleanValue(v: string): (r: string)
    ensures ' ' !in r && '\\' !in r
  {
    var v1 := if StartsWith(v, " ") then v[1..] else v;
    var v2 := if EndsWith(v1, ",") then v1[..|v1| - 1] else v1;
    var v3 := ReplaceChar(v2, ' ', '_');
    RemoveChar(v3, '\\')
  }

  /** A value that is already clean is its own cleaning. */
  lemma CleanValueClean(v: string)
    requires ' ' !in v && '\\' !in v && !EndsWith(v, ",")
    ensures CleanValue(v) == v
  {
    assert !StartsWith(v, " ") by { if v != [] { assert v[0] in v; } }
    assert ReplaceChar(v, ' ', '_') == v;
  }

  /** One space after the colon is dropped. */
  lemma CleanValueLeadingSpace(v: string)
    requires ' ' !in v && '\\' !in v && !EndsWith(v, ",")
    ensures CleanValue(" " + v) == v
  {
    assert (" " + v)[1..] == v;
    CleanValueClean(v);
  }

  /** One trailing comma is dropped. */
  lemma CleanValueTrailingComma(v: string)
    requires ' ' !in v && '\\' !in v && !EndsWith(v, ",")
    ensures CleanValue(v + ",") == v
  {
    var w := v + ",";
    assert w[0] != ' ' by { if v != [] { assert w[0] == v[0] && v[0] in v; } }
    assert w[..|w| - 1] == v;
    CleanValueClean(v);
  }

  /** The key and the value of an xref: its stripped text split at the first ':'. */
  function XrefParts(xref: string): (kv: (string, string))
    requires ':' in xref
    ensures Strip(xref) == kv.0 + ":" + kv.1
    ensures ':' !in kv.0
  {
    var t := Strip(xref);
    StripKeeps(xref, ':');
    ContainsChar(t, ':');
    var parts := SplitOnce(t, ":");
    assert ':' !in parts[0] by { ContainsChar(parts[0], ':'); }
    (parts[0], parts[1])
  }

  /**
   * clean_key_value_xref_element: None when the cleaned value still starts
   * with '[' or ends with ']' (a nested, malformed xref).
   */
  function CleanKeyValueXrefElement(xref: string): (r: Option<string>)
    requires ':' in xref
    ensures r.Some? ==> ' ' !in r.value && '\\' !in r.value && ':' in r.value
  {
    var (k, v) := XrefParts(xref);
    var ck := CleanKey(k);
    var cv := CleanValue(v);
    if !StartsWith(cv, "[") && !EndsWith(cv, "]") then
      KeyValueJoin(ck, cv);
      Some(ck + ":" + cv)
    else None
  }

  /** Joining a clean key and a clean value with ':' gives a clean xref. */
  lemma KeyValueJoin(k: string, v: string)
    requires ' ' !in k && '\\' !in k && ' ' !in v && '\\' !in v
    ensures var r := k + ":" + v; ' ' !in r && '\\' !in r && ':' in r
  {
    var r := k + ":" + v;
    assert r[|k|] == ':';
  }

  /** A stripped key-value xref is cut at its first ':'. */
  lemma XrefPartsOf(k: string, v: string)
    requires ':' !in k
    requires k == [] || !IsSpace(k[0])
    requires v == [] || !IsSpace(v[|v| - 1])
    ensures ':' in k + ":" + v
    ensures XrefParts(k + ":" + v) == (k, v)
  {
    var s := k + ":" + v;
    assert s[|k|] == ':';
    assert s[0] == (if k == [] then ':' else k[0]);
    assert s[|s| - 1] == (if v == [] then ':' else v[|v| - 1]);
    StripNoSpace(s);
    SplitOnceAt(k, ':', v);
  }

  /** A well-formed `KEY:value` xref passes unchanged. */
  lemma KeyValueFixpoint(k: string, v: string)
    requires ':' !in k && ' ' !in k && '\\' !in k && (k == [] || !IsSpace(k[0]))
    requires ' ' !in v && '\\' !in v && (v == [] || !IsSpace(v[|v| - 1]))
    requires !StartsWith(v, "[") && !EndsWith(v, "]") && !EndsWith(v, ",")
    ensures ':' in k + ":" + v
    ensures CleanKeyValueXrefElement(k + ":" + v) == Some(k + ":" + v)
  {
    XrefPartsOf(k, v);
    CleanValueClean(v);
  }

  /** `[EC: 1.2.3.4]`: the space after the colon is removed. */
  lemma KeyValueSpaceAfterColon(k: string, v: string)
    requires ':' !in k && ' ' !in k && '\\' !in k && (k == [] || !IsSpace(k[0]))
    requires v != [] && ' ' !in v && '\\' !in v && !IsSpace(v[|v| - 1])
    requires !StartsWith(v, "[") && !EndsWith(v, "]") && !EndsWith(v, ",")
    ensures ':' in k + ": " + v
    ensures CleanKeyValueXrefElement(k + ": " + v) == Some(k + ":" + v)
  {
    assert k + ": " + v == k + ":" + (" " + v);
    XrefPartsOf(k, " " + v);
    CleanValueLeadingSpace(v);
  }

  /** Values wrapped in brackets are dropped. */
  lemma KeyValueNested(k: string, v: string)
    requires ':' !in k && (k == [] || !IsSpace(k[0]))
    requires v != [] && v[0] == '[' && !IsSpace(v[|v| - 1])
    ensures ':' in k + ":" + v
    ensures CleanKeyValueXrefElement(k + ":" + v) == None
  {
    XrefPartsOf(k, v);
    CleanValueNested(v);
  }

  /** A value that opens with '[' still does after cleaning. */
  lemma CleanValueNested(v: string)
    requires v != [] && v[0] == '['
    ensures StartsWith(CleanValue(v), "[")
  {
    assert !StartsWith(v, " ");
    var v2 := if EndsWith(v, ",") then v[..|v| - 1] else v;
    assert v2 != [] && v2[0] == '[' by {
      if EndsWith(v, ",") { assert |v| >= 2 && v2[0] == v[0]; }
    }
    var v3 := ReplaceChar(v2, ' ', '_');
    assert v3[0] == '[';
    assert v3 == [v3[0]] + v3[1..];
    assert RemoveChar(v3, '\\') == ['['] + RemoveChar(v3[1..], '\\');
  }

  /** Values closing with ']' are dropped. */
  lemma KeyValueClosing(k: string, v: string)
    requires ':' !in k && (k == [] || !IsSpace(k[0]))
    requires v != [] && v[|v| - 1] == ']'
    ensures ':' in k + ":" + v
    ensures CleanKeyValueXrefElement(k + ":" + v) == None
  {
    XrefPartsOf(k, v);
    CleanValueClosing(v);
  }

  /** A value that closes with ']' still does after cleaning. */
  lemma CleanValueClosing(v: string)
    requires v != [] && v[|v| - 1] == ']'
    ensures EndsWith(CleanValue(v), "]")
  {
    var v1 := if StartsWith(v, " ") then v[1..] else v;
    assert v1 != [] && v1[|v1| - 1] == ']';
    assert !EndsWith(v1, ",");
    var v3 := ReplaceChar(v1, ' ', '_');
    assert v3 == v3[..|v3| - 1] + [']'];
    RemoveCharSnoc(v3[..|v3| - 1], ']', '\\');
  }

  /** Removing a character other than the last one keeps the last one. */
  lemma {:induction false} RemoveCharSnoc(s: string, c: char, a: char)
    requires c != a
    ensures RemoveChar(s + [c], a) == RemoveChar(s, a) + [c]
    decreases |s|
  {
    if s != [] {
      assert (s + [c])[1..] == s[1..] + [c];
      RemoveCharSnoc(s[1..], c, a);
    }
  }

  /** clean_string_xref_element */
  function CleanStringXrefElement(xref: string): (r: string)
    ensures ' ' !in r && '\\' !in r && '[' !in r && ']' !in r
    ensures |r| <= |xref|
  {
    var t := Strip(xref);
    var a := ReplaceChar(t, ' ', '_');
    assert ' ' !in a;
    var r := RemoveChar(RemoveChar(RemoveChar(a, '\\'), '['), ']');
    RemoveCharShorter(a, '\\');
    RemoveCharShorter(RemoveChar(a, '\\'), '[');
    RemoveCharShorter(RemoveChar(RemoveChar(a, '\\'), '['), ']');
    r
  }

  lemma {:induction false} RemoveCharShorter(s: string, c: char)
    ensures |RemoveChar(s, c)| <= |s|
  {
    if s != [] { RemoveCharShorter(s[1..], c); }
  }

  /** A plain identifier without brackets, backslashes or spaces passes unchanged. */
  lemma StringFixpoint(s: string)
    requires ' ' !in s && '\\' !in s && '[' !in s && ']' !in s
    requires s == [] || (!IsSpace(s[0]) && !IsSpace(s[|s| - 1]))
    ensures CleanStringXrefElement(s) == s
  {
    StripNoSpace(s);
    assert ReplaceChar(s, ' ', '_') == s;
  }

  /** The cleaned form of one comma-separated piece of an xref list, if it is kept. */
  function CleanPiece(p: string): (r: seq<string>)
    ensures |r| <= 1
    ensures forall x :: x in r ==> x != [] && ' ' !in x && '\\' !in x
  {
    if ':' in p then
      match CleanKeyValueXrefElement(p)
      case Some(x) => [x]
      case None => []
    else
      var x := CleanStringXrefElement(p);
      if x != [] then [x] else []
  }

  /** The cleaned_xref_strings of a comma-separated xref list. */
  function CleanPieces(ps: seq<string>): (r: seq<string>)
    ensures |r| <= |ps|
    ensures forall x :: x in r ==> x != [] && ' ' !in x && '\\' !in x
    decreases |ps|
  {
    if ps == [] then [] else CleanPieces(ps[..|ps| - 1]) + CleanPiece(ps[|ps| - 1])
  }

  /** The loop over the pieces of an xref list that collects the cleaned ones. */
  method CollectCleanedXrefs(ps: seq<string>) returns (cleaned: seq<string>)
    ensures cleaned == CleanPieces(ps)
  {
    cleaned := [];
    var i := 0;
    while i < |ps|
      invariant 0 <= i <= |ps|
      invariant cleaned == CleanPieces(ps[..i])
    {
      var xref := ps[i];
      assert ps[..i + 1][..i] == ps[..i];
      assert CleanPieces(ps[..i + 1]) == cleaned + CleanPiece(xref);
      if ':' in xref {
        var c := CleanKeyValueXrefElement(xref);
        if c.Some? {
          cleaned := cleaned + [c.value];
        }
      } else {
        var c := CleanStringXrefElement(xref);
        if c != [] {
          cleaned := cleaned + [c];
        }
      }
      i := i + 1;
    }
    assert ps[..i] == ps;
  }

  /**
   * The cleaned xrefs of a bracketed definition `[...]`: a list when it has a
   * ':' and a ", ", a single key-value xref when it has only a ':', a plain
   * string otherwise. Empty results are dropped.
   */
  function CleanedXrefs(d: string): (r: seq<string>)
    requires |d| >= 2
    ensures forall x :: x in r ==> x != [] && ' ' !in x && '\\' !in x
  {
    var inner := d[1..|d| - 1];
    if ':' in d && Contains(d, ", ") then CleanPieces(Split(inner, ","))
    else if ':' in inner then CleanPiece(inner)
    else
      var x := CleanStringXrefElement(inner);
      if x != [] then [x] else []
  }

  /** '[' + ', '.join(xs) + ']', or '[]' when nothing is left. */
  function XrefDef(xs: seq<string>): (r: string)
    ensures |r| >= 2 && r[0] == '[' && r[|r| - 1] == ']'
    ensures xs == [] ==> r == "[]"
  {
    if xs != [] then "[" + Join(xs, ", ") + "]" else "[]"
  }

  /** The position of the second-to-last '[' in a line, if it has two. */
  function SecondLastOpen(t: string): (r: Option<nat>)
    ensures r.Some? <==> |Positions(t, '[')| >= 2
    ensures r.Some? ==> r.value < |t| && t[r.value] == '['
  {
    var ps := Positions(t, '[');
    if |ps| >= 2 then Some(ps[|ps| - 2]) else None
  }

  /**
   * The ']]', ']' and other cases of remove_space_from_xref on a stripped
   * line `t`, without the newline; `xrefField` says whether lines holding
   * 'xref: ' are cleaned too (the helper's version does, the OBO Foundry
   * parser's does not).
   */
  function CleanStripped(t: string, xrefField: bool): (r: Result<string>)
  {
    if EndsWith(t, "]]") then
      if '[' in t then
        match SecondLastOpen(t)
        case None => Err(IndexError("all_open_brackets[-2]"))
        case Some(i) => Ok(t[..i] + "[" + CleanStringXrefElement(t[i..]) + "]")
      else Ok(t)
    else if EndsWith(t, "]") && t != "[Term]" && t != "[Typedef]" then
      match RFind(t, '[')
      case None => Ok(t)
      case Some(i) =>
        assert t[|t| - 1] == ']';
        Ok(t[..i] + XrefDef(CleanedXrefs(t[i..])))
    else if xrefField && Contains(t, "xref: ") then
      Ok(XrefFieldLine(t))
    else Ok(t)
  }

  /** The 'xref: ' fallback: split at the first space and clean the remainder as a key-value xref if it has a ':'. */
  function XrefFieldLine(t: string): (r: string)
    requires Contains(t, "xref: ")
  {
    ContainsSpace(t);
    var parts := SplitOnce(t, " ");
    parts[0] + " " + XrefValue(parts[1])
  }

  /** The remainder of an 'xref: ' line: cleaned as a key-value xref when it has a ':', "None" when that cleaning drops it. */
  function XrefValue(rest: string): (r: string)
    ensures ':' !in rest ==> r == rest
  {
    if ':' in rest then
      match CleanKeyValueXrefElement(rest)
      case Some(x) => x
      case None => "None"
    else rest
  }

  lemma ContainsSpace(t: string)
    requires Contains(t, "xref: ")
    ensures Contains(t, " ")
  {
    var i := Find(t, "xref: ").value;
    assert t[i + 5] == ' ';
    ContainsChar(t, ' ');
  }

  /**
   * remove_space_from_xref as a function: the rewritten line with its newline.
   * The helper's version (xrefField true) also cleans 'xref: ' lines.
   */
  function CleanLine(line: string, xrefField: bool): (r: Result<string>)
    ensures r.Ok? ==> EndsWith(r.value, "\n")
  {
    match CleanStripped(Strip(line), xrefField)
    case Ok(x) => Ok(x + "\n")
    case Err(e) => Err(e)
  }

  /** `[Term]` and `[Typedef]` come back as themselves; so does any line that ends neither in ']' nor holds 'xref: '. */
  lemma CleanLineUntouched(line: string, xrefField: bool)
    requires var t := Strip(line);
      t == "[Term]" || t == "[Typedef]" || (!EndsWith(t, "]") && !(xrefField && Contains(t, "xref: ")))
    ensures CleanLine(line, xrefField) == Ok(Strip(line) + "\n")
  {
    StrippedUntouched(Strip(line), xrefField);
  }

  lemma StrippedUntouched(t: string, xrefField: bool)
    requires t == "[Term]" || t == "[Typedef]" || (!EndsWith(t, "]") && !(xrefField && Contains(t, "xref: ")))
    ensures CleanStripped(t, xrefField) == Ok(t)
  {
    if t == "[Term]" || t == "[Typedef]" {
      assert !EndsWith(t, "]]");
      NotContainsXref(t);
    } else {
      assert !EndsWith(t, "]]");
    }
  }

  lemma NotContainsXref(t: string)
    requires ' ' !in t
    ensures !Contains(t, "xref: ")
  {
    if Contains(t, "xref: ") { ContainsSpace(t); ContainsChar(t, ' '); }
  }

  /** A line ending in ']]' with a single '[' raises IndexError. */
  lemma CleanLineError(line: string, xrefField: bool)
    ensures CleanLine(line, xrefField).Err? <==> (EndsWith(Strip(line), "]]") && |Positions(Strip(line), '[')| == 1)
    ensures CleanLine(line, xrefField).Err? ==> CleanLine(line, xrefField).error.IndexError?
  {
    StrippedError(Strip(line), xrefField);
  }

  lemma StrippedError(t: string, xrefField: bool)
    ensures CleanStripped(t, xrefField).Err? <==> (EndsWith(t, "]]") && |Positions(t, '[')| == 1)
    ensures CleanStripped(t, xrefField).Err? ==> CleanStripped(t, xrefField).error.IndexError?
  {
    var ps := Positions(t, '[');
    if '[' in t {
      var i :| 0 <= i < |t| && t[i] == '[';
      assert i in ps;
    } else {
      PositionsAbsent(t, '[');
    }
  }

  /**
   * The single-bracket case: everything before the last '[' is kept verbatim and
   * the bracket is replaced by the cleaned xrefs, or by '[]' when none is left.
   */
  lemma CleanLineKeepsPrefix(line: string, xrefField: bool)
    requires var t := Strip(line);
      EndsWith(t, "]") && !EndsWith(t, "]]") && t != "[Term]" && t != "[Typedef]" && '[' in t
    ensures var t := Strip(line); var i := RFind(t, '[').value;
      i < |t| - 1 &&
      CleanLine(line, xrefField) == Ok(t[..i] + XrefDef(CleanedXrefs(t[i..])) + "\n")
  {
  }

  /** The ']]' case: the text before the second-to-last '[' is kept, the rest becomes one bracket with no inner brackets. */
  lemma CleanLineDoubleBracket(line: string, xrefField: bool)
    requires var t := Strip(line); EndsWith(t, "]]") && |Positions(t, '[')| >= 2
    ensures var t := Strip(line); var i := SecondLastOpen(t).value;
      CleanLine(line, xrefField) == Ok(t[..i] + "[" + CleanStringXrefElement(t[i..]) + "]" + "\n")
  {
  }

  /** 'xref: GO:0001' style lines: the key before the first space is kept and the value is cleaned. */
  lemma CleanLineXrefField(v: string)
    requires v != [] && !IsSpace(v[|v| - 1]) && !EndsWith(v, "]")
    ensures CleanLine("xref: " + v, true) == Ok("xref: " + XrefValue(v) + "\n")
  {
    XrefFieldStripped(v);
    XrefFieldSplit(v);
    LiteralJoin(XrefValue(v));
  }

  lemma LiteralJoin(x: string)
    ensures "xref:" + " " + x == "xref: " + x
  {
  }

  lemma XrefFieldStripped(v: string)
    requires v != [] && !IsSpace(v[|v| - 1]) && !EndsWith(v, "]")
    ensures Strip("xref: " + v) == "xref: " + v
    ensures Contains("xref: " + v, "xref: ")
    ensures CleanStripped("xref: " + v, true) == Ok(XrefFieldLine("xref: " + v))
  {
    XrefFieldShape(v);
  }

  /** "xref: " + v is stripped, holds 'xref: ' and does not end in ']'. */
  lemma XrefFieldShape(v: string)
    requires v != [] && !IsSpace(v[|v| - 1]) && !EndsWith(v, "]")
    ensures var t := "xref: " + v;
      Strip(t) == t && Contains(t, "xref: ") && !EndsWith(t, "]") && !EndsWith(t, "]]")
  {
    var t := "xref: " + v;
    assert t[|t| - 1] == v[|v| - 1];
    assert !EndsWith(t, "]") && !EndsWith(t, "]]");
    assert Strip(t) == t by {
      assert t[0] == 'x';
      StripNoSpace(t);
    }
    assert Contains(t, "xref: ") by {
      assert "xref: " <= t;
    }
  }

  lemma XrefFieldSplit(v: string)
    ensures Contains("xref: " + v, "xref: ")
    ensures XrefFieldLine("xref: " + v) == "xref:" + " " + XrefValue(v)
  {
    var t := "xref: " + v;
    assert "xref: " <= t;
    assert t == "xref:" + [' '] + v;
    SplitOnceAt("xref:", ' ', v);
    assert SplitOnce(t, " ") == ["xref:", v];
  }

  /** The number of leading lines that hold no '[Term]': the header. */
  function HeaderLength(lines: seq<string>): (k: nat)
    ensures k <= |lines|
    decreases |lines|
  {
    if lines == [] || Contains(lines[0], "[Term]") then 0
    else 1 + HeaderLength(lines[1..])
  }

  /** The header ends at the first line that holds '[Term]'. */
  lemma {:induction false} HeaderEndsAtFirstTerm(lines: seq<string>)
    ensures var k := HeaderLength(lines);
      (forall j :: 0 <= j < k ==> !Contains(lines[j], "[Term]")) &&
      (k < |lines| ==> Contains(lines[k], "[Term]"))
    decreases |lines|
  {
    if lines != [] && !Contains(lines[0], "[Term]") {
      HeaderEndsAtFirstTerm(lines[1..]);
    }
  }

  /** Every line cleaned in order; the first failing line aborts. */
  function CleanAll(lines: seq<string>, clean: string -> Result<string>): Result<seq<string>>
    decreases |lines|
  {
    if lines == [] then Ok([])
    else
      var n := |lines| - 1;
      match CleanAll(lines[..n], clean)
      case Err(e) => Err(e)
      case Ok(xs) =>
        match clean(lines[n])
        case Err(e) => Err(e)
        case Ok(y) => Ok(xs + [y])
  }

  /** CleanAll gives one cleaned line per line, or fails exactly when some line fails. */
  lemma {:induction false} CleanAllShape(lines: seq<string>, clean: string -> Result<string>)
    ensures var r := CleanAll(lines, clean);
      (r.Ok? ==> |r.value| == |lines| && forall j :: 0 <= j < |lines| ==> clean(lines[j]) == Ok(r.value[j]))
      && (r.Err? <==> exists j :: 0 <= j < |lines| && clean(lines[j]).Err?)
    decreases |lines|
  {
    if lines != [] {
      var n := |lines| - 1;
      CleanAllShape(lines[..n], clean);
      assert forall j :: 0 <= j < n ==> lines[..n][j] == lines[j];
    }
  }

  /** clean_obo_file over the lines of a file, with a given line cleaner. */
  function CleanedFile(lines: seq<string>, clean: string -> Result<string>): Result<seq<string>>
  {
    var k := HeaderLength(lines);
    match CleanAll(lines[k..], clean)
    case Ok(rest) => Ok(lines[..k] + rest)
    case Err(e) => Err(e)
  }

  /**
   * The header (the lines before the first '[Term]') is copied, every later line
   * is replaced by its cleaned form, one output line per input line; the file
   * fails exactly when one of the later lines does.
   */
  lemma CleanedFileShape(lines: seq<string>, clean: string -> Result<string>)
    ensures var k := HeaderLength(lines); var r := CleanedFile(lines, clean);
      (r.Ok? ==>
         |r.value| == |lines| && r.value[..k] == lines[..k] &&
         forall j :: k <= j < |lines| ==> clean(lines[j]) == Ok(r.value[j]))
      && (r.Err? <==> exists j :: k <= j < |lines| && clean(lines[j]).Err?)
  {
    var k := HeaderLength(lines);
    var body := lines[k..];
    var c := CleanAll(body, clean);
    CleanAllShape(body, clean);
    if c.Ok? {
      var out := lines[..k] + c.value;
      assert CleanedFile(lines, clean) == Ok(out);
      forall j | k <= j < |lines| ensures clean(lines[j]) == Ok(out[j]) {
        assert body[j - k] == lines[j];
        assert out[j] == c.value[j - k];
      }
    } else {
      var j0 :| 0 <= j0 < |body| && clean(body[j0]).Err?;
      assert body[j0] == lines[k + j0];
    }
  }

  /** Once a prefix fails, the whole body fails with the same error. */
  lemma {:induction false} CleanAllErrPrefix(lines: seq<string>, i: nat, clean: string -> Result<string>)
    requires i <= |lines| && CleanAll(lines[..i], clean).Err?
    ensures CleanAll(lines, clean) == CleanAll(lines[..i], clean)
    decreases |lines| - i
  {
    if i < |lines| {
      var n := |lines| - 1;
      assert lines[..n][..i] == lines[..i];
      CleanAllErrPrefix(lines[..n], i, clean);
    } else {
      assert lines[..i] == lines;
    }
  }

  /** One more line cleaned after a clean prefix. */
  lemma CleanAllStep(lines: seq<string>, k: nat, i: nat, done: seq<string>, clean: string -> Result<string>)
    requires k <= i < |lines|
    requires CleanAll(lines[k..i], clean) == Ok(done)
    ensures clean(lines[i]).Ok? ==> CleanAll(lines[k..i + 1], clean) == Ok(done + [clean(lines[i]).value])
    ensures clean(lines[i]).Err? ==> CleanAll(lines[k..], clean) == Err(clean(lines[i]).error)
  {
    assert lines[k..i + 1][..i - k] == lines[k..i];
    if clean(lines[i]).Err? {
      assert lines[k..][..i + 1 - k] == lines[k..i + 1];
      CleanAllErrPrefix(lines[k..], i + 1 - k, clean);
    }
  }

  /** The state the cleaning loop ends in is the cleaned file. */
  lemma CleanedFileDone(lines: seq<string>, written: seq<string>, clean: string -> Result<string>)
    requires var k := HeaderLength(lines);
      |written| == |lines| && written[..k] == lines[..k] &&
      (k < |lines| ==> CleanAll(lines[k..], clean) == Ok(written[k..]))
    ensures CleanedFile(lines, clean) == Ok(written)
  {
    var k := HeaderLength(lines);
    if k == |lines| {
      assert lines[k..] == [] && written == lines[..k] + [];
    } else {
      assert written == lines[..k] + written[k..];
    }
  }

  /**
   * clean_obo_file: the loop with its first_term_found flag; `clean` is the
   * remove_space_from_xref in use (the helper's or the OBO Foundry parser's).
   */
  method CleanOboFile(lines: seq<string>, clean: string -> Result<string>) returns (out: Result<seq<string>>)
    ensures out == CleanedFile(lines, clean)
  {
    var k := HeaderLength(lines);
    HeaderEndsAtFirstTerm(lines);
    var firstTermFound := false;
    var written: seq<string> := [];
    var i := 0;
    while i < |lines|
      invariant 0 <= i <= |lines|
      invariant firstTermFound <==> k < i
      invariant i <= k ==> written == lines[..i]
      invariant k < i ==> |written| == i && written[..k] == lines[..k]
      invariant k < i ==> CleanAll(lines[k..i], clean) == Ok(written[k..])
    {
      var l := lines[i];
      if !firstTermFound {
        if Contains(l, "[Term]") {
          firstTermFound := true;
        }
      }
      if firstTermFound {
        assert CleanAll(lines[k..i], clean) == Ok(written[k..]) by {
          if i == k { assert lines[k..i] == [] && written[k..] == []; }
        }
        var c := clean(l);
        CleanAllStep(lines, k, i, written[k..], clean);
        if c.Err? {
          return Err(c.error);
        }
        l := c.value;
        assert (written + [l])[k..] == written[k..] + [l];
      }
      written := written + [l];
      i := i + 1;
    }
    assert lines[k..i] == lines[k..];
    CleanedFileDone(lines, written, clean);
    out := Ok(written);
  }

  /** The bracketed suffix of a line ending in ']': the loop that collects the cleaned xrefs, joined back. */
  method CleanXrefDef(d: string) returns (def: string)
    requires |d| >= 2
    ensures def == XrefDef(CleanedXrefs(d))
  {
    var cleaned: seq<string>;
    if ':' in d && Contains(d, ", ") {
      cleaned := CollectCleanedXrefs(Split(d[1..|d| - 1], ","));
    } else if ':' in d[1..|d| - 1] {
      cleaned := [];
      var c := CleanKeyValueXrefElement(d[1..|d| - 1]);
      if c.Some? {
        cleaned := cleaned + [c.value];
      }
    } else {
      cleaned := [];
      var c := CleanStringXrefElement(d[1..|d| - 1]);
      if c != [] {
        cleaned := cleaned + [c];
      }
    }
    if cleaned != [] {
      def := "[" + Join(cleaned, ", ") + "]";
    } else {
      def := "[]";
    }
  }

  /**
   * remove_space_from_xref, with the loop over the pieces of an xref list;
   * `xrefField` selects the helper's version (true) or the OBO Foundry
   * parser's (false).
   */
  method RemoveSpaceFromXref(line: string, xrefField: bool) returns (r: Result<string>)
    ensures r == CleanLine(line, xrefField)
  {
    var t := Strip(line);
    ghost var spec := CleanStripped(t, xrefField);
    if EndsWith(t, "]]") {
      if '[' in t {
        var i := SecondLastOpen(t);
        if i.None? {
          return Err(IndexError("all_open_brackets[-2]"));
        }
        t := t[..i.value] + "[" + CleanStringXrefElement(t[i.value..]) + "]";
      }
    } else if EndsWith(t, "]") && t != "[Term]" && t != "[Typedef]" {
      var i := RFind(t, '[');
      if i.Some? {
        assert t[|t| - 1] == ']';
        var def := CleanXrefDef(t[i.value..]);
        t := t[..i.value] + def;
      }
    } else if xrefField && Contains(t, "xref: ") {
      t := XrefFieldLine(t);
    }
    assert spec == Ok(t);
    r := Ok(t + "\n");
  }
}
