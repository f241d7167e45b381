/**
 * The Gene Ontology association parser (biomedgraph/parser/geneontology.py).
 *
 * GeneOntologyAssociationParser reads a GAF file of the UniProt GO
 * annotation (the species file for human and mouse, the file of all UniProt
 * entries otherwise) and adds Protein-ASSOCIATION-Term for every UniProtKB
 * line of the requested taxon.  The relationship set is not deduplicated.
 */
module GeneOntology {
  import opened Results
  import opened PyStr
  import opened Graph
  import Scan

  /** TAXID_2_ORG_FILE_NAME */
  function OrgFileName(taxid: string): Option<string> {
    if taxid == "9606" then Some("human")
    else if taxid == "10090" then Some("mouse")
    else None
  }

  /** The GAF file run reads for a taxid: the species file when there is one, the file of all entries otherwise. */
  function GafFileName(taxid: string): (r: string)
    ensures taxid == "9606" ==> r == "goa_human.gaf.gz"
    ensures taxid == "10090" ==> r == "goa_mouse.gaf.gz"
    ensures taxid !in {"9606", "10090"} ==> r == "goa_uniprot_all.gaf.gz"
  {
    match OrgFileName(taxid)
    case Some(org) => "goa_" + org + ".gaf.gz"
    case None => "goa_uniprot_all.gaf.gz"
  }

  /** The tab-separated fields of a stripped line. */
  function GafFields(line: string): (r: seq<string>)
    ensures |r| >= 1
  {
    Split(Strip(line), "\t")
  }

  /** flds[12].split(':')[1], or None where the indexing raises IndexError. */
  function GafTaxid(flds: seq<string>): (r: Option<string>)
    ensures r.Some? <==> |flds| >= 13 && Contains(flds[12], ":")
  {
    if |flds| < 13 then None
    else
      var parts := Split(flds[12], ":");
      SplitContains(flds[12], ":");
      if |parts| < 2 then None else Some(parts[1])
  }

  /** The properties of an association: the evidence, and the qualifier only when it is not empty. */
  function AssociationProps(qualifier: string, evidence: string): (p: Props)
    ensures "evidence" in p && p["evidence"] == Str(evidence)
    ensures "qualifier" in p <==> qualifier != ""
    ensures qualifier != "" ==> p["qualifier"] == Str(qualifier)
    ensures p.Keys <= {"evidence", "qualifier"}
  {
    var p := map["evidence" := Str(evidence)];
    if qualifier != "" then p["qualifier" := Str(qualifier)] else p
  }

  /**
   * One line of the file: the association it adds, if any.  Comment lines
   * ('!') and lines whose column 13 is missing or has no ':' add nothing; an
   * association needs the database UniProtKB and the requested taxid.
   */
  function GafAssociation(ref: string, line: string): (r: Option<Rel>)
    ensures r.Some? <==>
      !StartsWith(line, "!") && GafTaxid(GafFields(line)) == Some(ref) && GafFields(line)[0] == "UniProtKB"
    ensures r.Some? ==> |GafFields(line)| >= 13
    ensures r.Some? ==> (var flds := GafFields(line);
      r.value == Rel(SidProps(flds[1]), SidProps(flds[4]), AssociationProps(flds[3], flds[6])))
  {
    if StartsWith(line, "!") then None
    else
      var flds := GafFields(line);
      match GafTaxid(flds)
      case None => None
      case Some(taxid) =>
        if taxid == ref && flds[0] == "UniProtKB" then
          Some(Rel(SidProps(flds[1]), SidProps(flds[4]), AssociationProps(flds[3], flds[6])))
        else None
  }

  /** What a line adds to the relationship log: its association or nothing. */
  function GafPiece(ref: string): string -> seq<Rel> {
    (line: string) => match GafAssociation(ref, line) case Some(rel) => [rel] case None => []
  }

  /** parse_goa_uniprot_gaf_file: the associations of the lines, in order. */
  function GafAssociations(ref: string, lines: seq<string>): seq<Rel> {
    Scan.Flat(lines, GafPiece(ref))
  }

  /** Lines that add an association: one relationship each, in order. */
  function GafMatching(ref: string, lines: seq<string>): (r: seq<string>)
    ensures forall l :: l in r ==> l in lines && GafAssociation(ref, l).Some?
    ensures forall l :: l in lines && GafAssociation(ref, l).Some? ==> l in r
    decreases |lines|
  {
    if lines == [] then []
    else
      var n := |lines| - 1;
      assert forall l :: l in lines <==> l in lines[..n] || l == lines[n];
      GafMatching(ref, lines[..n]) + (if GafAssociation(ref, lines[n]).Some? then [lines[n]] else [])
  }

  /**
   * The associations are exactly those of the matching lines: one per line
   * that is a UniProtKB annotation of the taxon, and the i-th comes from the
   * i-th such line.
   */
  lemma {:induction false} GafAssociationsMatching(ref: string, lines: seq<string>)
    ensures |GafAssociations(ref, lines)| == |GafMatching(ref, lines)|
    ensures forall i :: 0 <= i < |GafMatching(ref, lines)| ==>
      GafAssociation(ref, GafMatching(ref, lines)[i]) == Some(GafAssociations(ref, lines)[i])
    decreases |lines|
  {
    if lines != [] {
      var n := |lines| - 1;
      GafAssociationsMatching(ref, lines[..n]);
    }
  }

  /** Lines of another taxon add nothing, whatever else they hold. */
  lemma OtherTaxonAddsNothing(ref: string, line: string)
    requires GafTaxid(GafFields(line)) != Some(ref)
    ensures GafPiece(ref)(line) == []
  {
  }

  /** The evidence of every association is column 7 of its line; it has a qualifier only when column 4 is not empty. */
  lemma AssociationFields(ref: string, line: string)
    requires GafAssociation(ref, line).Some?
    ensures var rel, flds := GafAssociation(ref, line).value, GafFields(line);
      |flds| >= 13 && EndsOf(rel) == (Str(flds[1]), Str(flds[4])) &&
      rel.props["evidence"] == Str(flds[6]) && ("qualifier" in rel.props <==> flds[3] != "")
  {
  }

  /**
   * A GAF line of UniProtKB with column 13 'taxon:<t>' adds an association
   * exactly when t is the requested taxid: the filter the unit fixture
   * exercises with its human and mouse lines.
   */
  lemma TaxonLine(ref: string, fields: seq<string>, t: string)
    requires |fields| >= 13 && forall f :: f in fields ==> '\t' !in f
    requires fields[0] == "UniProtKB"
    requires fields[|fields| - 1] != [] && !IsSpace(fields[|fields| - 1][|fields[|fields| - 1]| - 1])
    requires fields[12] == "taxon:" + t && ':' !in t
    ensures var r := GafAssociation(ref, Join(fields, "\t"));
      (r.Some? <==> t == ref) &&
      (r.Some? ==> r.value == Rel(SidProps(fields[1]), SidProps(fields[4]), AssociationProps(fields[3], fields[6])))
  {
    TabLine(fields);
    TaxonField(fields, t);
  }

  /** Tab-joined fields, without whitespace at the ends and not beginning with '!', split back into the fields. */
  lemma TabLine(fields: seq<string>)
    requires |fields| >= 1 && forall f :: f in fields ==> '\t' !in f
    requires fields[0] != [] && fields[0][0] != '!' && !IsSpace(fields[0][0])
    requires fields[|fields| - 1] != [] && !IsSpace(fields[|fields| - 1][|fields[|fields| - 1]| - 1])
    ensures GafFields(Join(fields, "\t")) == fields && !StartsWith(Join(fields, "\t"), "!")
  {
    var line := Join(fields, "\t");
    JoinFirst(fields, "\t");
    JoinLast(fields, "\t");
    StripNoSpace(line);
    SplitJoin(fields, '\t');
  }

  /** Column 13 'taxon:<t>' gives the taxid t. */
  lemma TaxonField(fields: seq<string>, t: string)
    requires |fields| >= 13 && fields[12] == "taxon:" + t && ':' !in t
    ensures GafTaxid(fields) == Some(t)
  {
    assert "taxon" + [':'] + t == fields[12];
    SplitCharOnce("taxon", t, ':');
  }

  /** One more line. */
  lemma GafNext(ref: string, lines: seq<string>, i: nat)
    requires i < |lines|
    ensures GafAssociations(ref, lines[..i + 1]) == GafAssociations(ref, lines[..i]) + GafPiece(ref)(lines[i])
  {
    assert lines[..i + 1][..i] == lines[..i];
  }

  class GeneOntologyAssociationParser {
    var proteinAssociatesGoterm: seq<Rel>

    constructor ()
      ensures proteinAssociatesGoterm == []
    {
      proteinAssociatesGoterm := [];
    }

    /**
     * run: the file is chosen by the taxid; `files` gives the lines of a file
     * of the datasource by name.
     */
    method Run(refTaxid: string, files: string -> seq<string>)
      modifies this
      ensures proteinAssociatesGoterm == old(proteinAssociatesGoterm) + GafAssociations(refTaxid, files(GafFileName(refTaxid)))
    {
      var name := GafFileName(refTaxid);
      ParseGoaUniprotGafFile(files(name), refTaxid);
    }

    /** parse_goa_uniprot_gaf_file over the lines of the file. */
    method ParseGoaUniprotGafFile(lines: seq<string>, refTaxid: string)
      modifies this
      ensures proteinAssociatesGoterm == old(proteinAssociatesGoterm) + GafAssociations(refTaxid, lines)
    {
      var i := 0;
      while i < |lines|
        invariant 0 <= i <= |lines|
        invariant proteinAssociatesGoterm == old(proteinAssociatesGoterm) + GafAssociations(refTaxid, lines[..i])
      {
        GafNext(refTaxid, lines, i);
        var line := lines[i];
        if !StartsWith(line, "!") {
          var flds := Split(Strip(line), "\t");
          var taxid := GafTaxid(flds);
          if taxid.Some? && taxid.value == refTaxid && flds[0] == "UniProtKB" {
            var rel := Rel(SidProps(flds[1]), SidProps(flds[4]), AssociationProps(flds[3], flds[6]));
            AppendAssoc(old(proteinAssociatesGoterm), GafAssociations(refTaxid, lines[..i]), [rel]);
            proteinAssociatesGoterm := proteinAssociatesGoterm + [rel];
          }
        }
        i := i + 1;
      }
      assert lines[..i] == lines;
    }
  }
}
