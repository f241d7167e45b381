/**
 * Release directories on the Ensembl and UniProt FTP servers: every release
 * lives in a sub-directory named 'release-' followed by the version.
 */
module Releases {
  import opened PyStr

  const Prefix := "release-"

  /** use_release_str(version) */
  function ReleaseDir(version: string): (r: string)
    ensures StartsWith(r, Prefix) && r[|Prefix|..] == version
  {
    Prefix + version
  }

  /** The directory name splits on '-' into 'release' and the fields of the version. */
  lemma ReleaseDirSplit(version: string)
    ensures Split(ReleaseDir(version), "-") == ["release"] + Split(version, "-")
  {
    assert ReleaseDir(version) == "release" + ['-'] + version;
    SplitFirst("release", '-', version);
  }

  /** A version without '-' is the second and last field of its directory name. */
  lemma ReleaseDirFields(version: string)
    requires '-' !in version
    ensures Split(ReleaseDir(version), "-") == ["release", version]
  {
    assert ReleaseDir(version) == "release" + ['-'] + version;
    SplitCharOnce("release", version, '-');
  }
}
