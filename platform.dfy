/** Choosing the release builds of sing-box and cloudflared for the host's
    CPU, as both scripts do from Node's `os.arch()` (index.js:50-58,
    app.js:40-50). */
module Platform {
  import opened Basics

  /** Where the two executables are fetched from. */
  datatype Downloads = Downloads(singBox: string, cloudflared: string)

  const GitHub := "https://github.com/"
  const SingBoxRelease := GitHub + "SagerNet/" + "sing-box/releases/download/v1.10.1/"
  const CloudflaredRelease := GitHub + "cloudflare/" + "cloudflared/releases/latest/download/"

  /** The sing-box release archive and the cloudflared executable for one
      Linux build (`amd64` or `arm64`). */
  function DownloadsFor(build: string): Downloads {
    Downloads(SingBoxRelease + "sing-box-1.10.1-linux-" + build + ".tar.gz",
              CloudflaredRelease + "cloudflared-linux-" + build)
  }

  /** The `os.arch()` values the scripts support. */
  predicate IsSupported(arch: string) {
    arch == "x64" || arch == "arm64"
  }

  /** The name both projects give the Linux build for a Node architecture. */
  function BuildName(arch: string): string
    requires IsSupported(arch)
  {
    if arch == "x64" then "amd64" else "arm64"
  }

  /** The URL pair for `arch`: `x64` takes both amd64 builds, `arm64` both
      arm64 builds, and any other architecture is refused. */
  function SelectDownloads(arch: string): (r: Option<Downloads>)
    ensures r.Some? <==> IsSupported(arch)
    ensures r.Some? ==> r.value == DownloadsFor(BuildName(arch))
  {
    if arch == "x64" then Some(DownloadsFor("amd64"))
    else if arch == "arm64" then Some(DownloadsFor("arm64"))
    else None
  }

  /** The two URLs of a build are different downloads: they part at the
      first character after the host. */
  lemma DownloadsDiffer(build: string)
    ensures DownloadsFor(build).singBox != DownloadsFor(build).cloudflared
  {
    var d := DownloadsFor(build);
    var n := |GitHub|;
    var sagerNet := "SagerNet/";
    var cloudflare := "cloudflare/";
    assert sagerNet[0] == 'S' && cloudflare[0] == 'c';
    assert SingBoxRelease[n] == (GitHub + sagerNet)[n] == sagerNet[0];
    assert CloudflaredRelease[n] == (GitHub + cloudflare)[n] == cloudflare[0];
    assert d.singBox[n] == SingBoxRelease[n];
    assert d.cloudflared[n] == CloudflaredRelease[n];
  }
}
