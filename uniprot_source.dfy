/**
 * The UniProt datasource: reading a release name ('2016_01' or
 * 'release-2016_01') as the first day of its month, and the knowledgebase
 * files of the taxonomic division a taxonomy id belongs to.
 */
module UniprotSource {
  import opened Results
  import opened PyStr
  import opened Releases
  import PyPath

  // ---------------------------------------------------------------------------
  // Uniprot._date_from_name

  /** A datetime.date. */
  datatype Date = Date(year: int, month: int, day: int)

  /** date(year, month, 1): a ValueError outside the years 1 to 9999 and the months 1 to 12. */
  function FirstOfMonth(year: int, month: int): (r: Result<Date>)
    ensures r.Ok? <==> 1 <= year <= 9999 && 1 <= month <= 12
    ensures r.Ok? ==> r.value.year == year && r.value.month == month && r.value.day == 1
  {
    if 1 <= year <= 9999 && 1 <= month <= 12 then Ok(Date(year, month, 1))
    else Err(ValueError("date"))
  }

  /** The name with its 'release-' directory prefix removed, when it splits into exactly two '-' fields. */
  function Unprefixed(name: string): string {
    var fields := Split(name, "-");
    if StartsWith(name, Prefix) && |fields| == 2 then fields[1] else name
  }

  /** Uniprot._date_from_name */
  function DateFromName(name: string): (r: Result<Date>)
    ensures r.Ok? ==> r.value.day == 1 && 1 <= r.value.month <= 12 && 1 <= r.value.year <= 9999
  {
    var n := Unprefixed(name);
    var parts := Split(n, "_");
    if |parts| != 2 then Err(ValueError(n))
    else
      match ParseInt(parts[0])
      case None => Err(ValueError(parts[0]))
      case Some(year) =>
        match ParseInt(parts[1])
        case None => Err(ValueError(parts[1]))
        case Some(month) => FirstOfMonth(year, month)
  }

  /** A month as two digits. */
  function TwoDigits(month: nat): (r: string)
    requires month < 100
    ensures AllDigits(r)
  {
    if month < 10 then "0" + NatToStr(month) else NatToStr(month)
  }

  /** The release name UniProt gives a month, 'YYYY_MM'. */
  function VersionName(year: nat, month: nat): string
    requires month < 100
  {
    NatToStr(year) + "_" + TwoDigits(month)
  }

  lemma TwoDigitsValue(month: nat)
    requires month < 100
    ensures ParseInt(TwoDigits(month)) == Some(month)
  {
    NatToStrValue(month);
    if month < 10 {
      LeadingZero(NatToStr(month));
    }
    ParseDigits(TwoDigits(month));
  }

  /** Round trip: the date of a release name, with or without its directory prefix, is the first of its month. */
  lemma DateRoundTrip(year: nat, month: nat)
    requires 1 <= year <= 9999 && 1 <= month <= 12
    ensures DateFromName(VersionName(year, month)) == Ok(Date(year, month, 1))
    ensures DateFromName(ReleaseDir(VersionName(year, month))) == Ok(Date(year, month, 1))
  {
    var v := VersionName(year, month);
    VersionFields(year, month);
    ParseNatToStr(year);
    TwoDigitsValue(month);
    VersionUnprefixed(year, month);
  }

  /** 'YYYY_MM' splits on '_' into the year and the month. */
  lemma VersionFields(year: nat, month: nat)
    requires month < 100
    ensures Split(VersionName(year, month), "_") == [NatToStr(year), TwoDigits(month)]
    ensures '-' !in VersionName(year, month)
  {
    var y := NatToStr(year);
    var m := TwoDigits(month);
    assert VersionName(year, month) == y + ['_'] + m;
    NatToStrChars(year, '_');
    NatToStrChars(year, '-');
    assert '_' !in m && '-' !in m;
    SplitCharOnce(y, m, '_');
  }

  /** A release name has nothing to strip, and its directory name strips back to it. */
  lemma VersionUnprefixed(year: nat, month: nat)
    requires month < 100
    ensures Unprefixed(VersionName(year, month)) == VersionName(year, month)
    ensures Unprefixed(ReleaseDir(VersionName(year, month))) == VersionName(year, month)
  {
    var v := VersionName(year, month);
    VersionFields(year, month);
    assert v[0] == NatToStr(year)[0];
    assert !StartsWith(v, Prefix);
    ReleaseDirFields(v);
  }

  /** A 'release-' name with more than one '-' keeps its prefix, and is then never read as a date. */
  lemma PrefixKept(name: string)
    requires StartsWith(name, Prefix) && |Split(name, "-")| != 2
    ensures DateFromName(name).Err?
  {
    assert Unprefixed(name) == name;
    var parts := Split(name, "_");
    if |parts| == 2 {
      assert name[0] == 'r';
      SplitHead(name, '_');
      assert parts[0][0] == 'r';
      ParseIntRefuses(parts[0], 'r');
    }
  }

  // ---------------------------------------------------------------------------
  // Uniprot._download_latest_taxonomic_division, Uniprot.get_knowledgebase_files_for_taxid

  const TaxidKbFileName: map<string, string> := map["9606" := "human", "10090" := "rodents"]

  const BaseUrl := "ftp://ftp.ebi.ac.uk"
  const CurrentBasePath := "pub/databases/uniprot/current_release/"
  const DivisionsUrl := BaseUrl + "/" + CurrentBasePath + "knowledgebase/taxonomic_divisions/"

  /** The divisions the download fetches, in order. */
  const Divisions := ["human", "rodents"]

  /** The URLs the download fetches: the Swiss-Prot and the TrEMBL file of each division. */
  function DownloadUrls(): (r: seq<string>)
    ensures |r| == 2 * |Divisions|
  {
    seq(2 * |Divisions|, k requires 0 <= k < 2 * |Divisions| =>
      if k % 2 == 0 then DivisionsUrl + ("uniprot_sprot_" + Divisions[k / 2] + ".dat.gz")
      else DivisionsUrl + ("uniprot_trembl_" + Divisions[k / 2] + ".dat.gz"))
  }

  /**
   * The file names get_knowledgebase_files_for_taxid looks up in the instance
   * directory, Swiss-Prot first: a KeyError for a taxid outside the two divisions.
   */
  function KnowledgebaseFiles(taxid: string): (r: Result<seq<string>>)
    ensures r.Err? <==> taxid !in TaxidKbFileName
    ensures r.Err? ==> r.error == KeyError(taxid)
    ensures r.Ok? ==> |r.value| == 2
  {
    if taxid !in TaxidKbFileName then Err(KeyError(taxid))
    else
      var division := TaxidKbFileName[taxid];
      Ok(["uniprot_sprot_" + division + ".dat.gz", "uniprot_trembl_" + division + ".dat.gz"])
  }

  /** The last segment of a URL under the divisions directory is the file name after it. */
  lemma DivisionBasename(file: string)
    requires file != [] && '/' !in file
    ensures PyPath.Basename(DivisionsUrl + file) == file
  {
    var d := DivisionsUrl;
    assert d != [] && d[|d| - 1] == '/';
    assert d[|d| - 1..] == "/";
    assert PyPath.Join(d, file) == d + file;
    PyPath.JoinBasename(d, file);
  }

  /**
   * The file names looked up for a taxid are the names of the two files the
   * download fetched for its division i.
   */
  lemma KnowledgebaseDownloaded(taxid: string) returns (i: nat)
    requires taxid in TaxidKbFileName
    ensures i < |Divisions| && Divisions[i] == TaxidKbFileName[taxid]
    ensures KnowledgebaseFiles(taxid).value
         == [PyPath.Basename(DownloadUrls()[2 * i]), PyPath.Basename(DownloadUrls()[2 * i + 1])]
  {
    i := if taxid == "9606" then 0 else 1;
    assert Divisions[i] == TaxidKbFileName[taxid];
    var division := Divisions[i];
    var sprot := "uniprot_sprot_" + division + ".dat.gz";
    var trembl := "uniprot_trembl_" + division + ".dat.gz";
    assert '/' !in division;
    assert '/' !in sprot && '/' !in trembl;
    DivisionBasename(sprot);
    DivisionBasename(trembl);
    assert DownloadUrls()[2 * i] == DivisionsUrl + sprot;
    assert DownloadUrls()[2 * i + 1] == DivisionsUrl + trembl;
  }
}
