/**
 * The Ensembl datasource: release directory names on the FTP server, the
 * species-name / taxonomy-id dictionaries built from the REST species list,
 * and the local paths of the downloaded GTF and TSV files.
 *
 * The FTP listing and the decoded REST answer are inputs; downloading is not
 * part of this model.
 */
module EnsemblSource {
  import opened Results
  import opened PyStr
  import opened Releases
  import PyPath

  // ---------------------------------------------------------------------------
  // Ensembl.all_remote_versions

  /** The names of the FTP entries that are release directories. */
  function ReleaseNames(names: seq<string>): (r: seq<string>)
    ensures forall x :: x in r <==> x in names && StartsWith(x, Prefix)
    decreases |names|
  {
    if names == [] then []
    else
      var rest := ReleaseNames(names[..|names| - 1]);
      var x := names[|names| - 1];
      assert names == names[..|names| - 1] + [x];
      if StartsWith(x, Prefix) then rest + [x] else rest
  }

  /** The version read from each release name: its second '-'-separated field, when there is one. */
  function Versions(releases: seq<string>): seq<string>
    decreases |releases|
  {
    if releases == [] then []
    else
      var rest := Versions(releases[..|releases| - 1]);
      var fields := Split(releases[|releases| - 1], "-");
      if |fields| >= 2 then rest + [fields[1]] else rest
  }

  /** Ensembl.all_remote_versions, from the names the FTP listing returned. */
  method AllRemoteVersions(names: seq<string>) returns (versions: seq<string>)
    ensures versions == Versions(ReleaseNames(names))
  {
    var releaseNames := ReleaseNames(names);
    versions := [];
    for i := 0 to |releaseNames|
      invariant versions == Versions(releaseNames[..i])
    {
      assert releaseNames[..i + 1][..i] == releaseNames[..i];
      var fields := Split(releaseNames[i], "-");
      if |fields| >= 2 {
        versions := versions + [fields[1]];
      }
    }
    assert releaseNames[..|releaseNames|] == releaseNames;
  }

  /** The IndexError the loop guards against never happens: every release directory yields one version. */
  lemma {:induction false} VersionsCount(releases: seq<string>)
    requires forall x :: x in releases ==> StartsWith(x, Prefix)
    ensures |Versions(releases)| == |releases|
    decreases |releases|
  {
    if releases != [] {
      var x := releases[|releases| - 1];
      assert x in releases;
      assert x == ReleaseDir(x[|Prefix|..]);
      ReleaseDirSplit(x[|Prefix|..]);
      assert forall y :: y in releases[..|releases| - 1] ==> y in releases;
      VersionsCount(releases[..|releases| - 1]);
    }
  }

  /** Round trip: the listing of the directories use_release_str names gives back those versions. */
  lemma {:induction false} VersionsOfDirs(vs: seq<string>)
    requires forall k :: 0 <= k < |vs| ==> '-' !in vs[k]
    ensures Versions(seq(|vs|, k requires 0 <= k < |vs| => ReleaseDir(vs[k]))) == vs
    decreases |vs|
  {
    var dirs := seq(|vs|, k requires 0 <= k < |vs| => ReleaseDir(vs[k]));
    if vs != [] {
      var n := |vs| - 1;
      assert dirs[..n] == seq(n, k requires 0 <= k < n => ReleaseDir(vs[..n][k]));
      VersionsOfDirs(vs[..n]);
      ReleaseDirFields(vs[n]);
      assert vs == vs[..n] + [vs[n]];
    }
  }

  // ---------------------------------------------------------------------------
  // Ensembl.get_ensembl_species_names_2_taxid

  /** One element of the 'species' list of the REST answer; a missing or null field is None. */
  datatype Species = Species(name: Option<string>, taxid: Option<string>, strain: Option<string>)

  /** A field that is present and not the empty string (Python truthiness of a str). */
  predicate Given(v: Option<string>) {
    v.Some? && v.value != []
  }

  /** The strain, 'reference' when it is missing, null or empty. */
  function Strain(e: Species): (r: string)
    ensures r != []
  {
    if Given(e.strain) then e.strain.value else "reference"
  }

  /** An element the dictionaries consider: a reference strain with a name and a taxonomy id. */
  predicate Listed(e: Species) {
    Contains(Strain(e), "reference") && Given(e.name) && Given(e.taxid)
  }

  predicate HasTaxid(e: Species, taxid: string) {
    Listed(e) && e.taxid.value == taxid
  }

  predicate HasName(e: Species, name: string) {
    Listed(e) && e.name.value == name
  }

  /** The two dictionaries and the two duplicate sets while the loop runs. */
  datatype Tables = Tables(
    taxid2name: map<string, string>,
    name2taxid: map<string, string>,
    duplicateTaxids: set<string>,
    duplicateNames: set<string>)

  /** One pass of the loop body. */
  function Record(t: Tables, e: Species): Tables {
    if !Listed(e) then t
    else
      var name := e.name.value;
      var taxid := e.taxid.value;
      var t1 :=
        if taxid in t.taxid2name then t.(duplicateTaxids := t.duplicateTaxids + {taxid})
        else t.(taxid2name := t.taxid2name[taxid := name]);
      if name in t1.name2taxid then t1.(duplicateNames := t1.duplicateNames + {name})
      else t1.(name2taxid := t1.name2taxid[name := taxid])
  }

  /** The tables after the loop has handled every element of `es`. */
  function Collect(es: seq<Species>): Tables
    decreases |es|
  {
    if es == [] then Tables(map[], map[], {}, {})
    else Record(Collect(es[..|es| - 1]), es[|es| - 1])
  }

  /** The returned pair: taxids seen more than once are dropped from taxid_2_name. */
  function SpeciesMaps(es: seq<Species>): (r: (map<string, string>, map<string, string>))
    ensures forall taxid :: taxid in r.0 ==> r.0[taxid] in r.1
  {
    CollectNamesKnown(es);
    var t := Collect(es);
    (t.taxid2name - t.duplicateTaxids, t.name2taxid)
  }

  /** Ensembl.get_ensembl_species_names_2_taxid, from the decoded species list. */
  method SpeciesNames2Taxid(species: seq<Species>) returns (taxid2name: map<string, string>, name2taxid: map<string, string>)
    ensures (taxid2name, name2taxid) == SpeciesMaps(species)
  {
    taxid2name := map[];
    name2taxid := map[];
    var duplicateTaxids: set<string> := {};
    var duplicateNames: set<string> := {};
    for i := 0 to |species|
      invariant Collect(species[..i]) == Tables(taxid2name, name2taxid, duplicateTaxids, duplicateNames)
    {
      assert species[..i + 1][..i] == species[..i];
      var element := species[i];
      var name := element.name;
      var taxid := element.taxid;
      var strain := if element.strain.None? || element.strain.value == [] then "reference" else element.strain.value;
      if Contains(strain, "reference") {
        if Given(name) && Given(taxid) {
          if taxid.value in taxid2name {
            duplicateTaxids := duplicateTaxids + {taxid.value};
          } else {
            taxid2name := taxid2name[taxid.value := name.value];
          }
          if name.value in name2taxid {
            duplicateNames := duplicateNames + {name.value};
          } else {
            name2taxid := name2taxid[name.value := taxid.value];
          }
        }
      }
    }
    assert species[..|species|] == species;
    ghost var collected := taxid2name;
    var rest := duplicateTaxids;
    while rest != {}
      invariant rest <= duplicateTaxids
      invariant taxid2name == collected - (duplicateTaxids - rest)
      decreases |rest|
    {
      var taxid :| taxid in rest;
      taxid2name := taxid2name - {taxid};
      rest := rest - {taxid};
    }
    assert duplicateTaxids - rest == duplicateTaxids;
  }

  /** How many listed elements carry this taxonomy id. */
  function TaxidCount(es: seq<Species>, taxid: string): nat
    decreases |es|
  {
    if es == [] then 0
    else TaxidCount(es[..|es| - 1], taxid) + (if HasTaxid(es[|es| - 1], taxid) then 1 else 0)
  }

  /** How many listed elements carry this name. */
  function NameCount(es: seq<Species>, name: string): nat
    decreases |es|
  {
    if es == [] then 0
    else NameCount(es[..|es| - 1], name) + (if HasName(es[|es| - 1], name) then 1 else 0)
  }

  /** The dictionaries hold what has been seen once, the duplicate sets what has been seen twice. */
  lemma {:induction false} CollectCounts(es: seq<Species>, x: string)
    ensures x in Collect(es).taxid2name <==> TaxidCount(es, x) >= 1
    ensures x in Collect(es).duplicateTaxids <==> TaxidCount(es, x) >= 2
    ensures x in Collect(es).name2taxid <==> NameCount(es, x) >= 1
    ensures x in Collect(es).duplicateNames <==> NameCount(es, x) >= 2
    decreases |es|
  {
    if es != [] {
      CollectCounts(es[..|es| - 1], x);
    }
  }

  /** No listed element with the id: the count is zero. */
  lemma {:induction false} TaxidCountZero(es: seq<Species>, taxid: string)
    requires forall j :: 0 <= j < |es| ==> !HasTaxid(es[j], taxid)
    ensures TaxidCount(es, taxid) == 0
    decreases |es|
  {
    if es != [] {
      TaxidCountZero(es[..|es| - 1], taxid);
    }
  }

  lemma {:induction false} NameCountZero(es: seq<Species>, name: string)
    requires forall j :: 0 <= j < |es| ==> !HasName(es[j], name)
    ensures NameCount(es, name) == 0
    decreases |es|
  {
    if es != [] {
      NameCountZero(es[..|es| - 1], name);
    }
  }

  /** taxid_2_name holds exactly the taxids that occur in one listed element. */
  lemma TaxidOnce(es: seq<Species>, taxid: string)
    ensures taxid in SpeciesMaps(es).0 <==> TaxidCount(es, taxid) == 1
  {
    CollectCounts(es, taxid);
  }

  /** A taxid seen in two listed elements is removed from taxid_2_name. */
  lemma TaxidTwice(es: seq<Species>, i: nat, j: nat)
    requires i < j < |es| && Listed(es[i]) && HasTaxid(es[j], es[i].taxid.value)
    ensures es[i].taxid.value !in SpeciesMaps(es).0
  {
    var taxid := es[i].taxid.value;
    TaxidCountsBoth(es, i, j, taxid);
    TaxidOnce(es, taxid);
  }

  lemma {:induction false} TaxidCountsBoth(es: seq<Species>, i: nat, j: nat, taxid: string)
    requires i < j < |es| && HasTaxid(es[i], taxid) && HasTaxid(es[j], taxid)
    ensures TaxidCount(es, taxid) >= 2
    decreases |es|
  {
    var n := |es| - 1;
    var front := es[..n];
    assert front[i] == es[i];
    if j < n {
      assert front[j] == es[j];
      TaxidCountsBoth(front, i, j, taxid);
    } else {
      TaxidCountsOne(front, i, taxid);
    }
    assert TaxidCount(es, taxid) >= TaxidCount(front, taxid);
  }

  lemma {:induction false} TaxidCountsOne(es: seq<Species>, i: nat, taxid: string)
    requires i < |es| && HasTaxid(es[i], taxid)
    ensures TaxidCount(es, taxid) >= 1
    decreases |es|
  {
    var n := |es| - 1;
    if i < n {
      TaxidCountsOne(es[..n], i, taxid);
    }
  }

  /** The name a taxid maps to is the name of the first listed element with that id. */
  lemma {:induction false} FirstTaxidName(es: seq<Species>, i: nat)
    requires i < |es| && Listed(es[i])
    requires forall j :: 0 <= j < i ==> !HasTaxid(es[j], es[i].taxid.value)
    ensures es[i].taxid.value in Collect(es).taxid2name
    ensures Collect(es).taxid2name[es[i].taxid.value] == es[i].name.value
    decreases |es|
  {
    var n := |es| - 1;
    var taxid := es[i].taxid.value;
    if i < n {
      FirstTaxidName(es[..n], i);
    } else {
      TaxidCountZero(es[..n], taxid);
      CollectCounts(es[..n], taxid);
    }
  }

  /** name_2_taxid keeps the taxid of the first listed element with each name; later ones only mark it duplicate. */
  lemma {:induction false} FirstNameTaxid(es: seq<Species>, i: nat)
    requires i < |es| && Listed(es[i])
    requires forall j :: 0 <= j < i ==> !HasName(es[j], es[i].name.value)
    ensures es[i].name.value in SpeciesMaps(es).1
    ensures SpeciesMaps(es).1[es[i].name.value] == es[i].taxid.value
    decreases |es|
  {
    var n := |es| - 1;
    var name := es[i].name.value;
    if i < n {
      FirstNameTaxid(es[..n], i);
    } else {
      NameCountZero(es[..n], name);
      CollectCounts(es[..n], name);
    }
  }

  /** A name no listed element carries is not a key of name_2_taxid. */
  lemma NameUnlisted(es: seq<Species>, name: string)
    requires forall j :: 0 <= j < |es| ==> !HasName(es[j], name)
    ensures name !in SpeciesMaps(es).1
  {
    NameCountZero(es, name);
    CollectCounts(es, name);
  }

  /** Every name taxid_2_name gives is a key of name_2_taxid, before duplicates are removed too. */
  lemma {:induction false} CollectNamesKnown(es: seq<Species>)
    ensures forall taxid :: taxid in Collect(es).taxid2name ==> Collect(es).taxid2name[taxid] in Collect(es).name2taxid
    decreases |es|
  {
    if es != [] {
      CollectNamesKnown(es[..|es| - 1]);
    }
  }

  // ---------------------------------------------------------------------------
  // Ensembl.get_gtf_file_path, Ensembl.get_tsv_file_path

  const TaxidSubdir: map<string, string> := map["9606" := "homo_sapiens", "10090" := "mus_musculus"]

  /** The genome part of the file names: species and assembly. */
  const HumanGenome := "Homo_sapiens.GRCh38."
  const MouseGenome := "Mus_musculus.GRCm38."
  const TaxidGenome: map<string, string> := map["9606" := HumanGenome, "10090" := MouseGenome]

  const GtfTail := ".chr_patch_hapl_scaff.gtf.gz"
  const TsvTail := ".tsv.gz"

  /** The file name templates; XXVERSIONXX and XXDBXX are replaced. */
  const TaxidGtfFile: map<string, string> := map[
    "10090" := MouseGenome + VersionMark + GtfTail,
    "9606" := HumanGenome + VersionMark + GtfTail]

  const TaxidTsvFile: map<string, string> := map[
    "10090" := MouseGenome + VersionMark + "." + DatabaseMark + TsvTail,
    "9606" := HumanGenome + VersionMark + "." + DatabaseMark + TsvTail]

  const VersionMark := "XXVERSIONXX"
  const DatabaseMark := "XXDBXX"

  /** d[key] on a dictionary. */
  function Lookup(d: map<string, string>, key: string): (r: Result<string>)
    ensures r.Ok? <==> key in d
    ensures r.Ok? ==> r.value == d[key]
    ensures r.Err? ==> r.error == KeyError(key)
  {
    if key in d then Ok(d[key]) else Err(KeyError(key))
  }

  /**
   * The GTF file of a taxid in the instance directory `instanceDir` of the
   * release `version` (the version as its text).
   */
  function GtfFilePath(taxid: string, instanceDir: string, version: string): (r: Result<string>)
    ensures r.Err? <==> taxid !in TaxidSubdir
    ensures r.Err? ==> r.error == KeyError(taxid)
  {
    match Lookup(TaxidSubdir, taxid)
    case Err(e) => Err(e)
    case Ok(subpath) =>
      match Lookup(TaxidGtfFile, taxid)
      case Err(e) => Err(e)
      case Ok(base) =>
        var fileName := Replace(base, VersionMark, version);
        Ok(PyPath.Join(PyPath.Join(PyPath.Join(instanceDir, "gtf"), subpath), fileName))
  }

  /** The TSV mapping file of a taxid and a reference database. */
  function TsvFilePath(taxid: string, database: string, instanceDir: string, version: string): (r: Result<string>)
    ensures r.Err? <==> taxid !in TaxidSubdir
    ensures r.Err? ==> r.error == KeyError(taxid)
  {
    match Lookup(TaxidSubdir, taxid)
    case Err(e) => Err(e)
    case Ok(subpath) =>
      match Lookup(TaxidTsvFile, taxid)
      case Err(e) => Err(e)
      case Ok(base) =>
        var fileName := Replace(Replace(base, VersionMark, version), DatabaseMark, database);
        Ok(PyPath.Join(PyPath.Join(PyPath.Join(instanceDir, "tsv"), subpath), fileName))
  }

  /** A marker whose first character is absent from the text around it is replaced in place. */
  lemma Fill(a: string, mark: string, b: string, rep: string)
    requires |mark| > 0 && mark[0] !in a && !Contains(b, mark)
    ensures Replace(a + mark + b, mark, rep) == a + rep + b
  {
    var s := a + mark[..|mark| - 1];
    forall j | 0 <= j < |a| ensures s[j] != mark[0] {
      assert s[j] == a[j];
    }
    NotContainsShort(s, mark, |a|);
    ReplaceOnce(a, mark, b, rep);
  }

  /** The three joins spell one relative path under the instance directory. */
  lemma JoinPath(dir: string, kind: string, subpath: string, fileName: string)
    requires kind != [] && kind[0] != '/' && kind[|kind| - 1] != '/'
    requires subpath != [] && subpath[0] != '/' && subpath[|subpath| - 1] != '/'
    requires fileName != [] && fileName[0] != '/'
    ensures PyPath.Join(PyPath.Join(PyPath.Join(dir, kind), subpath), fileName)
         == PyPath.Join(dir, kind + "/" + subpath + "/" + fileName)
  {
    PyPath.JoinJoin(dir, kind, subpath);
    var ks := kind + "/" + subpath;
    assert ks[0] == kind[0] && ks[|ks| - 1] == subpath[|subpath| - 1];
    PyPath.JoinJoin(dir, ks, fileName);
  }

  /** The GTF path: gtf/<species directory>/<genome file name with the version filled in>. */
  lemma GtfPath(taxid: string, instanceDir: string, version: string)
    requires taxid in TaxidSubdir
    ensures GtfFilePath(taxid, instanceDir, version)
         == Ok(PyPath.Join(instanceDir, "gtf" + "/" + TaxidSubdir[taxid] + "/" + (TaxidGenome[taxid] + version + GtfTail)))
  {
    var head := TaxidGenome[taxid];
    Templates(taxid);
    GtfFileName(head, version);
    JoinPath(instanceDir, "gtf", TaxidSubdir[taxid], head + version + GtfTail);
  }

  /** The templates of a known taxid are its genome, the markers and the fixed endings, without a stray 'X'. */
  lemma Templates(taxid: string)
    requires taxid in TaxidSubdir
    ensures taxid in TaxidGenome && 'X' !in TaxidGenome[taxid]
    ensures TaxidGtfFile[taxid] == TaxidGenome[taxid] + VersionMark + GtfTail
    ensures TaxidTsvFile[taxid] == TaxidGenome[taxid] + VersionMark + "." + DatabaseMark + TsvTail
  {
  }

  /** The version filled into a GTF template. */
  lemma GtfFileName(head: string, version: string)
    requires 'X' !in head
    ensures Replace(head + VersionMark + GtfTail, VersionMark, version) == head + version + GtfTail
  {
    assert 'X' !in GtfTail;
    NotContainsChar(GtfTail, VersionMark, 'X');
    Fill(head, VersionMark, GtfTail, version);
  }

  /**
   * The TSV path: tsv/<species directory>/<genome file name with the version
   * and the database filled in>, for a version text without an 'X' (the
   * database marker is replaced after the version is already in place).
   */
  lemma TsvPath(taxid: string, database: string, instanceDir: string, version: string)
    requires taxid in TaxidSubdir && 'X' !in version
    ensures TsvFilePath(taxid, database, instanceDir, version)
         == Ok(PyPath.Join(instanceDir, "tsv" + "/" + TaxidSubdir[taxid] + "/" + (TaxidGenome[taxid] + version + "." + database + TsvTail)))
  {
    var head := TaxidGenome[taxid];
    var sub := TaxidSubdir[taxid];
    Templates(taxid);
    TsvFileName(head, database, version);
    var fileName := head + version + "." + database + TsvTail;
    JoinPath(instanceDir, "tsv", sub, fileName);
  }

  /** Both markers of a TSV template filled in, for a genome prefix without an 'X'. */
  lemma TsvFileName(head: string, database: string, version: string)
    requires 'X' !in head && 'X' !in version
    ensures Replace(Replace(head + VersionMark + "." + DatabaseMark + TsvTail, VersionMark, version), DatabaseMark, database)
         == head + version + "." + database + TsvTail
  {
    var mid := "." + DatabaseMark + TsvTail;
    assert head + VersionMark + "." + DatabaseMark + TsvTail == head + VersionMark + mid;
    assert 'V' in VersionMark && 'V' !in mid;
    NotContainsChar(mid, VersionMark, 'V');
    Fill(head, VersionMark, mid, version);
    var front := head + version + ".";
    assert head + version + mid == front + DatabaseMark + TsvTail;
    assert 'X' !in front && 'X' !in TsvTail;
    NotContainsChar(TsvTail, DatabaseMark, 'X');
    Fill(front, DatabaseMark, TsvTail, database);
  }
}
