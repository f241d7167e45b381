/**
 * The OBO Foundry parser's own copy of the cleaner (biomedgraph/parser/obofoundry.py)
 * and the choice of the OBO file of an ontology.  Its remove_space_from_xref is the
 * helper's without the 'xref: ' fallback; the element cleaners are the helper's.
 */
module OboFoundry {
  import opened Results
  import opened PyStr
  import opened OboHelper

  /** Ontologies whose OBO file is not named after them. */
  const OboFileMappings: map<string, string> := map["uberon" := "basic.obo"]

  /** The OBO file `run` opens for an ontology. */
  function OboFileName(ontologyName: string): (r: string)
    ensures EndsWith(r, ".obo")
  {
    if ontologyName in OboFileMappings then OboFileMappings[ontologyName]
    else
      var r := ontologyName + ".obo";
      assert r[|r| - 4..] == ".obo";
      r
  }

  /** A listed ontology gets its mapped file; any other gets `<name>.obo`, from which its name is recovered. */
  lemma OboFileNameChoice(ontologyName: string)
    ensures ontologyName == "uberon" ==> OboFileName(ontologyName) == "basic.obo"
    ensures ontologyName != "uberon" ==>
      OboFileName(ontologyName) == ontologyName + ".obo" &&
      OboFileName(ontologyName)[..|OboFileName(ontologyName)| - 4] == ontologyName
  {
    if ontologyName != "uberon" {
      assert ontologyName !in OboFileMappings;
      var r := ontologyName + ".obo";
      assert r[..|r| - 4] == ontologyName;
    }
  }

  /** Two unlisted ontologies never share a file. */
  lemma OboFileNameInjective(a: string, b: string)
    requires a != "uberon" && b != "uberon" && a != b
    ensures OboFileName(a) != OboFileName(b)
  {
    OboFileNameChoice(a);
    OboFileNameChoice(b);
  }

  /** This parser's remove_space_from_xref, as a line cleaner. */
  function FoundryLine(line: string): Result<string> {
    CleanLine(line, false)
  }

  /**
   * Unlike the helper's cleaner, an 'xref: ' line that does not end in ']' is
   * only stripped: its value keeps its space after the colon.
   */
  lemma XrefLineKept(v: string)
    requires v != [] && !IsSpace(v[|v| - 1]) && !EndsWith(v, "]")
    ensures CleanLine("xref: " + v, false) == Ok("xref: " + v + "\n")
  {
    XrefFieldShape(v);
    CleanLineUntouched("xref: " + v, false);
  }

  /** A line that does not end in ']' comes back stripped with one newline. */
  lemma NoBracketLine(line: string)
    requires !EndsWith(Strip(line), "]")
    ensures CleanLine(line, false) == Ok(Strip(line) + "\n")
  {
    CleanLineUntouched(line, false);
  }

  /** clean_obo_file of obofoundry.py: the helper's loop with this parser's line cleaner. */
  method CleanOboFile(lines: seq<string>) returns (out: Result<seq<string>>)
    ensures out == CleanedFile(lines, FoundryLine)
  {
    out := OboHelper.CleanOboFile(lines, FoundryLine);
  }

  /** The header is copied, every later line is this parser's cleaning of it, and nothing else fails. */
  lemma CleanedFoundryFile(lines: seq<string>)
    ensures var k := HeaderLength(lines); var r := CleanedFile(lines, FoundryLine);
      (r.Ok? ==>
         |r.value| == |lines| && r.value[..k] == lines[..k] &&
         forall j :: k <= j < |lines| ==> CleanLine(lines[j], false) == Ok(r.value[j]))
      && (r.Err? <==> exists j :: k <= j < |lines| && CleanLine(lines[j], false).Err?)
  {
    CleanedFileShape(lines, FoundryLine);
  }
}
