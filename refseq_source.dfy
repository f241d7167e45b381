/**
 * The RefSeq datasource: release numbers read from the names in the catalogue
 * archive, the directory a release is fetched from, and the names of the
 * catalogue and accession-to-gene files, as downloaded and as looked up.
 *
 * The FTP listing, the iteration order of a Python set and the latest release
 * number (read from the server) are inputs.
 */
module RefseqSource {
  import opened Results
  import opened PyStr
  import PyPath

  const BaseUrl := "ftp://ftp.ncbi.nlm.nih.gov"
  const BasePath := "refseq/release/release-catalog/"

  // ---------------------------------------------------------------------------
  // Refseq.all_remote_versions

  /** The set of names in the archive listing that name a release catalogue. */
  function CatalogNames(names: seq<string>): (r: set<string>)
    ensures forall x :: x in r <==> x in names && Contains(x, "RefSeq-release")
  {
    set x | x in names && Contains(x, "RefSeq-release")
  }

  /** int(x.split('-')[1].split('.')[0].replace('release', '')) */
  function CatalogVersion(x: string): (r: Result<int>)
    ensures (r.Err? && r.error.IndexError?) <==> |Split(x, "-")| < 2
  {
    var fields := Split(x, "-");
    if |fields| < 2 then Err(IndexError("x.split('-')[1]"))
    else
      var digits := Replace(Split(fields[1], ".")[0], "release", "");
      match ParseInt(digits)
      case None => Err(ValueError(digits))
      case Some(n) => Ok(n)
  }

  /** The catalogue file of a release, as the download names it. */
  function CatalogFileName(version: string): string {
    "RefSeq-release" + version + ".catalog.gz"
  }

  /** Round trip: 'RefSeq-release<n>.catalog.gz' is read as release n. */
  lemma CatalogVersionOf(n: nat)
    ensures CatalogVersion(CatalogFileName(NatToStr(n))) == Ok(n)
  {
    var d := NatToStr(n);
    NatToStrChars(n, '-');
    NatToStrChars(n, '.');
    NatToStrChars(n, 'r');
    CatalogFields(d);
    CatalogDigits(d);
    ParseNatToStr(n);
  }

  /** The second '-' field of a catalogue file name is everything after 'RefSeq-'. */
  lemma CatalogFields(version: string)
    requires '-' !in version
    ensures |Split(CatalogFileName(version), "-")| == 2
    ensures Split(CatalogFileName(version), "-")[1] == "release" + version + ".catalog.gz"
  {
    var rest := "release" + version + ".catalog.gz";
    assert CatalogFileName(version) == "RefSeq" + ['-'] + rest;
    assert '-' !in rest;
    SplitCharOnce("RefSeq", rest, '-');
  }

  /** Cutting at the first '.' and removing 'release' leaves the version, when it holds neither. */
  lemma CatalogDigits(version: string)
    requires '.' !in version && 'r' !in version
    ensures Replace(Split("release" + version + ".catalog.gz", ".")[0], "release", "") == version
  {
    var stem := "release" + version;
    assert "release" + version + ".catalog.gz" == stem + ['.'] + "catalog.gz";
    assert '.' !in stem;
    SplitFirst(stem, '.', "catalog.gz");
    var pat := "release";
    NotContainsShort(pat[..|pat| - 1], pat, 0);
    assert [] + pat[..|pat| - 1] == pat[..|pat| - 1];
    NotContainsChar(version, pat, 'r');
    ReplaceOnce([], pat, version, "");
    assert [] + pat + version == stem;
  }

  /** The numbers of a list of int() results; the first failure raises. */
  function Collected(rs: seq<Result<int>>): (r: Result<seq<int>>)
    ensures r.Ok? ==> |r.value| == |rs| && forall k :: 0 <= k < |rs| ==> rs[k] == Ok(r.value[k])
    decreases |rs|
  {
    if rs == [] then Ok([])
    else
      var n := |rs| - 1;
      match Collected(rs[..n])
      case Err(e) => Err(e)
      case Ok(vs) =>
        match rs[n]
        case Err(e) => Err(e)
        case Ok(v) => Ok(vs + [v])
  }

  /** The error comes from a failed result. */
  lemma {:induction false} CollectedRaise(rs: seq<Result<int>>) returns (k: nat)
    requires Collected(rs).Err?
    ensures k < |rs| && rs[k].Err? && Collected(rs).error == rs[k].error
    decreases |rs|
  {
    var n := |rs| - 1;
    if Collected(rs[..n]).Err? {
      k := CollectedRaise(rs[..n]);
    } else {
      k := n;
    }
  }

  /** Results that all succeed raise nothing. */
  lemma {:induction false} CollectedOk(rs: seq<Result<int>>)
    requires forall k :: 0 <= k < |rs| ==> rs[k].Ok?
    ensures Collected(rs).Ok?
    decreases |rs|
  {
    if rs != [] {
      CollectedOk(rs[..|rs| - 1]);
    }
  }

  /** The release numbers of the catalogue names, visited in `order`. */
  function VersionNumbers(order: seq<string>): (r: seq<Result<int>>)
    ensures |r| == |order| && forall k :: 0 <= k < |order| ==> r[k] == CatalogVersion(order[k])
  {
    seq(|order|, k requires 0 <= k < |order| => CatalogVersion(order[k]))
  }

  /** Distinct elements: one visit per member of a set. */
  predicate Distinct(xs: seq<string>) {
    forall i, j :: 0 <= i < j < |xs| ==> xs[i] != xs[j]
  }

  /**
   * Refseq.all_remote_versions: the release numbers of the catalogue names,
   * each distinct name once in the order Python visits the set, then the
   * latest release.
   */
  function AllRemoteVersions(names: seq<string>, order: seq<string>, latest: int): (r: Result<seq<int>>)
    requires Distinct(order) && forall x :: x in order <==> x in CatalogNames(names)
    ensures r.Ok? ==> |r.value| == |order| + 1 == |CatalogNames(names)| + 1 && r.value[|r.value| - 1] == latest
    ensures r.Ok? ==> forall k :: 0 <= k < |order| ==> CatalogVersion(order[k]) == Ok(r.value[k])
    ensures r.Err? ==> Collected(VersionNumbers(order)).Err?
  {
    DistinctCard(order);
    assert (set x | x in order) == CatalogNames(names);
    match Collected(VersionNumbers(order))
    case Err(e) => Err(e)
    case Ok(vs) => Ok(vs + [latest])
  }

  /** A sequence without repetitions has as many elements as the set of its elements. */
  lemma {:induction false} DistinctCard(xs: seq<string>)
    requires Distinct(xs)
    ensures |set x | x in xs| == |xs|
    decreases |xs|
  {
    if xs != [] {
      var n := |xs| - 1;
      DistinctCard(xs[..n]);
      assert (set x | x in xs) == (set x | x in xs[..n]) + {xs[n]};
      assert xs[n] !in (set x | x in xs[..n]);
    }
  }

  /** A listing of catalogue files for releases read back: every release once, whatever the duplicates. */
  lemma ListingVersions(names: seq<string>, order: seq<string>, latest: int, ns: seq<nat>)
    requires Distinct(order) && forall x :: x in order <==> x in CatalogNames(names)
    requires forall x :: x in names ==> exists k :: 0 <= k < |ns| && x == CatalogFileName(NatToStr(ns[k]))
    ensures AllRemoteVersions(names, order, latest).Ok?
    ensures forall k :: 0 <= k < |order| ==> AllRemoteVersions(names, order, latest).value[k] in ns
  {
    forall k | 0 <= k < |order| ensures CatalogVersion(order[k]).Ok? && CatalogVersion(order[k]).value in ns {
      assert order[k] in CatalogNames(names);
      var j :| 0 <= j < |ns| && order[k] == CatalogFileName(NatToStr(ns[j]));
      CatalogVersionOf(ns[j]);
    }
    CollectedOk(VersionNumbers(order));
  }

  // ---------------------------------------------------------------------------
  // Refseq.release_path, Refseq.download and the two file path helpers

  /** The directory of the current release. */
  function CurrentPath(): string {
    PyPath.Join(BaseUrl, BasePath)
  }

  /** The archive directory the version listing reads. */
  function ArchivePath(): string {
    PyPath.Join(PyPath.Join(BaseUrl, BasePath), "archive")
  }

  /** Refseq.release_path, with `latest` the latest remote version. */
  function ReleasePath(version: string, latest: string): (r: string)
    ensures version == latest ==> r == CurrentPath()
    ensures version != latest ==> r == ArchivePath() && r == PyPath.Join(CurrentPath(), "archive")
  {
    if version == latest then PyPath.Join(BaseUrl, BasePath)
    else PyPath.Join(PyPath.Join(BaseUrl, BasePath), "archive")
  }

  /** The two files Refseq.download fetches for a version: the catalogue, then the accession-to-gene table. */
  function DownloadUrls(version: string, latest: string): (r: seq<string>)
    ensures |r| == 2
  {
    var catFileName := "RefSeq-release" + version + ".catalog.gz";
    var fileName := "release" + version + ".accession2geneid.gz";
    [PyPath.Join(ReleasePath(version, latest), catFileName), PyPath.Join(ReleasePath(version, latest), fileName)]
  }

  /** Refseq.get_catalog_file_path */
  function CatalogFilePath(instanceDir: string, version: string): string {
    PyPath.Join(instanceDir, "RefSeq-release" + version + ".catalog.gz")
  }

  /** Refseq.get_accession2geneid_file_path */
  function Accession2GeneidFilePath(instanceDir: string, version: string): string {
    PyPath.Join(instanceDir, "release" + version + ".accession2geneid.gz")
  }

  /**
   * The files looked up in an instance directory carry the names of the files
   * downloaded for the same version, from either release directory.
   */
  lemma LookupMatchesDownload(instanceDir: string, version: string, latest: string)
    requires '/' !in version
    ensures PyPath.Basename(CatalogFilePath(instanceDir, version)) == PyPath.Basename(DownloadUrls(version, latest)[0])
    ensures PyPath.Basename(Accession2GeneidFilePath(instanceDir, version)) == PyPath.Basename(DownloadUrls(version, latest)[1])
  {
    var cat := "RefSeq-release" + version + ".catalog.gz";
    var acc := "release" + version + ".accession2geneid.gz";
    assert '/' !in cat && '/' !in acc;
    PyPath.JoinBasename(instanceDir, cat);
    PyPath.JoinBasename(ReleasePath(version, latest), cat);
    PyPath.JoinBasename(instanceDir, acc);
    PyPath.JoinBasename(ReleasePath(version, latest), acc);
  }

  /** The catalogue looked up for release n announces release n in its name. */
  lemma CatalogFileVersion(instanceDir: string, n: nat)
    ensures CatalogVersion(PyPath.Basename(CatalogFilePath(instanceDir, NatToStr(n)))) == Ok(n)
  {
    var name := CatalogFileName(NatToStr(n));
    NatToStrChars(n, '/');
    assert '/' !in name;
    PyPath.JoinBasename(instanceDir, name);
    CatalogVersionOf(n);
  }
}
