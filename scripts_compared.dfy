/** Where the two scripts part ways, stated about both models at once. */
module ScriptsCompared {
  import opened Basics
  import opened Layout
  import opened Platform
  import opened Provision
  import IndexScript
  import AppScript

  /** The document app.js writes differs from the one index.js writes in
      the early-data header alone. */
  lemma ConfigDiffersInEarlyDataOnly(port: LocalPort, uuid: string, wsPath: string)
    ensures var c := IndexScript.GenerateConfig(port, uuid, wsPath);
      var ib := c.inbounds[0];
      AppScript.GenerateConfig(port, uuid, wsPath) == c.(inbounds := [ib.(transport := ib.transport.(earlyDataHeaderName := None))])
  {
  }

  /** The two scripts part ways on a listing with two candidates to
      rename: index.js installs the first, app.js the last. */
  lemma ScriptsInstallDifferentCandidates(entries: map<string, Entry>, arch: string, x: map<string, Entry>, listing: seq<string>,
                                          cloudflared: Option<string>, first: int, last: int)
    requires IsSupported(arch) && SingBoxName !in entries && SingBoxName !in x
    requires IsListing(listing, entries + x)
    requires FirstCandidateAt(listing, first) && IsRenamed(entries + x, listing[first])
    requires LastRenamed(entries + x, listing, last) && first < last
    ensures var i := IndexScript.CheckAndDownload(entries, arch, Some(x), listing, cloudflared);
      SingBoxName in i.entries && i.entries[SingBoxName] == (entries + x)[listing[first]]
    ensures var a := AppScript.DownloadBinaries(entries, arch, Some(x), listing, cloudflared);
      SingBoxName in a.entries && a.entries[SingBoxName] == (entries + x)[listing[last]]
  {
    IndexScript.ExtractionInstallsFirstCandidate(entries, arch, x, listing, cloudflared, first);
    AppScript.ExtractionInstallsLastCandidate(entries, arch, x, listing, cloudflared, last);
  }
}
