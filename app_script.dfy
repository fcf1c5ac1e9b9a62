/** The script app.js: provisioning with the rename-every-match loop, the
    sing-box document without the early-data header, share links with
    `sni` and a fixed or temporary fragment, and the `sharedUrl` variable
    with its two handlers. Nothing is restarted. */
module AppScript {
  import opened Basics
  import opened Layout
  import opened Platform
  import opened Provision
  import opened SingBoxConfig
  import opened Cloudflared
  import opened TunnelLog
  import opened VlessLink
  import UriComponent
  import Utf8
  import Base64

  // ----- settings (app.js:11-16) -----

  const DefaultUuid := "9afd1229-b893-40c1-84dd-51e7ce204913"
  const DefaultWsPath := "/vless"

  datatype Settings = Settings(uuid: string, wsPath: string, token: string, domain: string)

  /** The settings read from the environment, each with its fallback. */
  function SettingsFrom(env: map<string, string>): (s: Settings)
    ensures s.uuid != "" && s.wsPath != ""
    ensures s.token == "" <==> !("ARGO_TOKEN" in env && env["ARGO_TOKEN"] != "")
    ensures s.domain == "" <==> !("ARGO_DOMAIN" in env && env["ARGO_DOMAIN"] != "")
  {
    Settings(EnvOr(env, "UUID", DefaultUuid), EnvOr(env, "WS_PATH", DefaultWsPath),
             EnvOr(env, "ARGO_TOKEN", ""), EnvOr(env, "ARGO_DOMAIN", ""))
  }

  // ----- provisioning (app.js:34-77) -----

  /** Every fault ends the process: an unknown architecture by
      `process.exit(1)`, a download or rename as an exception that escapes
      `startServices`, and an executable `spawn` cannot start by the
      uncaught `'error'` event of that child. */
  datatype Fault = UnsupportedArchitecture | DownloadFailed(url: string) | RenameFailed | SpawnFailed(name: string)

  datatype Provisioning = Provisioning(outcome: Result<(), Fault>, entries: map<string, Entry>, fetched: seq<string>)

  predicate ListsExtraction(entries: map<string, Entry>, archive: Option<map<string, Entry>>, listing: seq<string>) {
    SingBoxName !in entries && archive.Some? ==> IsListing(listing, entries + archive.value)
  }

  /** app.js:53-66: extraction, then the loop over the listing; here a
      failed pipeline or a failed rename is fatal. */
  function SingBoxStep(entries: map<string, Entry>, url: string, archive: Option<map<string, Entry>>, listing: seq<string>): Result<map<string, Entry>, Fault>
    requires ListsExtraction(entries, archive, listing)
  {
    if SingBoxName in entries then Ok(entries)
    else
      match archive
      case None => Err(DownloadFailed(url))
      case Some(x) =>
        match RenameAll(entries + x, listing)
        case None => Err(RenameFailed)
        case Some(e) => Ok(e)
  }

  /** `downloadBinaries` as a value. */
  function DownloadBinaries(entries: map<string, Entry>, arch: string, archive: Option<map<string, Entry>>,
                            listing: seq<string>, cloudflared: Option<string>): Provisioning
    requires ListsExtraction(entries, archive, listing)
  {
    match SelectDownloads(arch)
    case None => Provisioning(Err(UnsupportedArchitecture), entries, [])
    case Some(urls) =>
      var sbFetched := if SingBoxName in entries then [] else [urls.singBox];
      match SingBoxStep(entries, urls.singBox, archive, listing)
      case Err(f) => Provisioning(Err(f), entries + (if archive.Some? then archive.value else map[]), sbFetched)
      case Ok(e) =>
        if CloudflaredName in e then Provisioning(Ok(()), e, sbFetched)
        else
          match cloudflared
          case None => Provisioning(Err(DownloadFailed(urls.cloudflared)), e, sbFetched + [urls.cloudflared])
          case Some(bin) => Provisioning(Ok(()), e[CloudflaredName := File(bin)], sbFetched + [urls.cloudflared])
  }

  /** The sing-box block of app.js:53-66 on the work directory. A rename can
      only throw on the first entry to rename, so a failed loop leaves the
      extracted directory as it was. */
  method InstallSingBox(d: WorkDir, url: string, archive: Option<map<string, Entry>>, listing: seq<string>)
    returns (outcome: Result<map<string, Entry>, Fault>)
    requires ListsExtraction(d.entries, archive, listing)
    modifies d
    ensures outcome == SingBoxStep(old(d.entries), url, archive, listing)
    ensures d.entries == if outcome.Ok? then outcome.value
                         else old(d.entries) + (if archive.Some? then archive.value else map[])
    ensures d.fetched == old(d.fetched) + (if SingBoxName in old(d.entries) then [] else [url])
    ensures d.executable == old(d.executable)
  {
    if SingBoxName !in d.entries {
      d.Fetch(url, archive);
      if archive.None? {
        return Err(DownloadFailed(url));
      }
      var ok := d.RenameCandidates(listing);
      if !ok {
        return Err(RenameFailed);
      }
    }
    return Ok(d.entries);
  }

  /** The function as the script runs it on the work directory. */
  method DownloadBinariesIn(d: WorkDir, arch: string, archive: Option<map<string, Entry>>,
                            listing: seq<string>, cloudflared: Option<string>) returns (outcome: Result<(), Fault>)
    requires ListsExtraction(d.entries, archive, listing)
    modifies d
    ensures var p := DownloadBinaries(old(d.entries), arch, archive, listing, cloudflared);
      && outcome == p.outcome
      && d.fetched == old(d.fetched) + p.fetched
      && d.entries == p.entries
      && d.executable == old(d.executable) + (if outcome.Ok? then d.entries.Keys * {SingBoxName, CloudflaredName} else {})
  {
    var selected := SelectDownloads(arch);
    if selected.None? {
      return Err(UnsupportedArchitecture);
    }
    var urls := selected.value;
    var step := InstallSingBox(d, urls.singBox, archive, listing);
    if step.Err? {
      return Err(step.error);
    }
    var ok := InstallCloudflared(d, urls.cloudflared, cloudflared);
    if !ok {
      return Err(DownloadFailed(urls.cloudflared));
    }
    d.MarkExecutable();
    return Ok(());
  }

  /** An unknown architecture exits before any download. */
  lemma UnsupportedExitsFirst(entries: map<string, Entry>, arch: string, archive: Option<map<string, Entry>>,
                              listing: seq<string>, cloudflared: Option<string>)
    requires ListsExtraction(entries, archive, listing)
    ensures var p := DownloadBinaries(entries, arch, archive, listing, cloudflared);
      && (!IsSupported(arch) <==> p.outcome == Err(UnsupportedArchitecture))
      && (!IsSupported(arch) ==> p.entries == entries && p.fetched == [])
  {
  }

  /** Each executable is downloaded only when it is absent, and a directory
      that already holds both is left alone with no download. */
  lemma DownloadsOnlyWhatIsMissing(entries: map<string, Entry>, arch: string, archive: Option<map<string, Entry>>,
                                   listing: seq<string>, cloudflared: Option<string>)
    requires ListsExtraction(entries, archive, listing)
    requires IsSupported(arch)
    ensures var p := DownloadBinaries(entries, arch, archive, listing, cloudflared);
      var urls := DownloadsFor(BuildName(arch));
      && |p.fetched| <= 2
      && (forall i :: 0 <= i < |p.fetched| ==> p.fetched[i] == urls.singBox || p.fetched[i] == urls.cloudflared)
      && (urls.singBox in p.fetched <==> SingBoxName !in entries)
      && (CloudflaredName in entries ==> urls.cloudflared !in p.fetched)
      && (SingBoxName in entries && CloudflaredName in entries ==> p == Provisioning(Ok(()), entries, []))
  {
    DownloadsDiffer(BuildName(arch));
    SingBoxStepKeeps(entries, DownloadsFor(BuildName(arch)).singBox, archive, listing);
  }

  lemma SingBoxStepKeeps(entries: map<string, Entry>, url: string, archive: Option<map<string, Entry>>, listing: seq<string>)
    requires ListsExtraction(entries, archive, listing)
    ensures SingBoxName in entries ==> SingBoxStep(entries, url, archive, listing) == Ok(entries)
    ensures var r := SingBoxStep(entries, url, archive, listing);
      CloudflaredName in entries && r.Ok? ==> CloudflaredName in r.value
  {
    if SingBoxName !in entries && archive.Some? && CloudflaredName in entries {
      var all := entries + archive.value;
      CloudflaredIsNoCandidate();
      assert !IsRenamed(all, CloudflaredName);
      if forall m :: 0 <= m < |listing| ==> !IsRenamed(all, listing[m]) {
        RenameAllNoneRenamed(all, listing);
      } else if !(SingBoxName in all && all[SingBoxName].Dir?) {
        var j :| 0 <= j < |listing| && IsRenamed(all, listing[j]);
        var k := LastRenamedExists(all, listing, j);
        RenameAllLastWins(all, listing, k);
      } else {
        var j :| 0 <= j < |listing| && IsRenamed(all, listing[j]);
        RenameAllOntoDirFails(all, listing, j);
      }
    }
  }

  /** After extraction into a directory without `sing-box`, the LAST entry
      the loop renames is the one that becomes `sing-box`, unless a
      directory of that name makes the first rename throw. */
  lemma ExtractionInstallsLastCandidate(entries: map<string, Entry>, arch: string, x: map<string, Entry>,
                                        listing: seq<string>, cloudflared: Option<string>, k: int)
    requires IsSupported(arch) && SingBoxName !in entries
    requires IsListing(listing, entries + x)
    requires LastRenamed(entries + x, listing, k)
    ensures var p := DownloadBinaries(entries, arch, Some(x), listing, cloudflared);
      var all := entries + x;
      SingBoxName in all && all[SingBoxName].Dir? <==> p.outcome == Err(RenameFailed)
    ensures var p := DownloadBinaries(entries, arch, Some(x), listing, cloudflared);
      p.outcome != Err(RenameFailed) ==> SingBoxName in p.entries && p.entries[SingBoxName] == (entries + x)[listing[k]]
  {
    var all := entries + x;
    DownloadBinariesAfterSingBox(entries, arch, Some(x), listing, cloudflared);
    if SingBoxName in all && all[SingBoxName].Dir? {
      RenameAllOntoDirFails(all, listing, k);
    } else {
      RenameAllLastWins(all, listing, k);
    }
  }

  /** Past the architecture test the sing-box step decides: its fault is
      the outcome, and what it leaves as `sing-box` stays there. */
  lemma DownloadBinariesAfterSingBox(entries: map<string, Entry>, arch: string, archive: Option<map<string, Entry>>,
                                     listing: seq<string>, cloudflared: Option<string>)
    requires ListsExtraction(entries, archive, listing)
    requires IsSupported(arch)
    ensures var p := DownloadBinaries(entries, arch, archive, listing, cloudflared);
      var r := SingBoxStep(entries, DownloadsFor(BuildName(arch)).singBox, archive, listing);
      && (r.Err? ==> p.outcome == Err(r.error))
      && (r.Ok? ==> p.outcome != Err(RenameFailed))
      && (r.Ok? && SingBoxName in r.value ==> SingBoxName in p.entries && p.entries[SingBoxName] == r.value[SingBoxName])
  {
  }

  /** How start-up ends (app.js:113-145): a provisioning fault; else, since
      neither child has an `'error'` listener, the first executable `spawn`
      cannot start; else both processes run. */
  function Started(p: Provisioning): (r: Result<(), Fault>)
    ensures r.Ok? <==> p.outcome.Ok? && FirstUnspawnable(p.entries).None?
    ensures p.outcome.Err? ==> r == p.outcome
    ensures p.outcome.Ok? && r.Err? ==> r.error == SpawnFailed(FirstUnspawnable(p.entries).value)
  {
    if p.outcome.Err? then p.outcome
    else
      match FirstUnspawnable(p.entries)
      case Some(name) => Err(SpawnFailed(name))
      case None => Ok(())
  }

  /** An archive without a file to rename passes provisioning, since the
      loop throws nothing, and leaves no `sing-box`: start-up then fails at
      the first `spawn`. */
  lemma NoCandidateFailsAtSpawn(entries: map<string, Entry>, arch: string, x: map<string, Entry>,
                                listing: seq<string>, cloudflared: Option<string>)
    requires IsSupported(arch) && SingBoxName !in entries && SingBoxName !in x && CloudflaredName in entries
    requires IsListing(listing, entries + x)
    requires forall m :: 0 <= m < |listing| ==> !IsRenamed(entries + x, listing[m])
    ensures var p := DownloadBinaries(entries, arch, Some(x), listing, cloudflared);
      p.outcome.Ok? && Started(p) == Err(SpawnFailed(SingBoxName))
  {
    RenameAllNoneRenamed(entries + x, listing);
  }

  // ----- the sing-box document (app.js:83-105) -----

  function GenerateConfig(port: LocalPort, uuid: string, wsPath: string): (c: Config)
    ensures Served(c) == Some(Endpoint(port, uuid, wsPath))
    ensures BindsLoopbackOnly(c)
    ensures c.inbounds[0].transport.earlyDataHeaderName == None
  {
    Config(
      LogOptions("info", true),
      [Inbound("vless", "vless-in", Loopback, port, [User(uuid, "")], Transport("ws", wsPath, None))],
      BaselineOutbounds)
  }

  // ----- share links (app.js:134, app.js:155) -----

  const FixedFragment := "Fixed-Tunnel"
  const TempFragment := "Temp-Tunnel"

  /** The link for a domain: like index.js's, plus `sni`, with a literal
      fragment naming the tunnel kind. */
  function ShareLink(s: Settings, domain: string, fragment: string): Link {
    Link(s.uuid, domain, "443",
      [Param("encryption", "none"), Param("security", "tls"), Param("type", "ws"),
       Param("host", domain), Param("sni", domain), Param("path", UriComponent.Encode(s.wsPath))],
      fragment)
  }

  function ShareLinkText(s: Settings, domain: string, fragment: string): string {
    Render(ShareLink(s, domain, fragment))
  }

  lemma ShareLinkWellFormed(s: Settings, domain: string, fragment: string)
    requires Free(s.uuid, '@') && Free(domain, ':') && Free(domain, '&') && Free(domain, '#')
    ensures WellFormed(ShareLink(s, domain, fragment))
  {
    var l := ShareLink(s, domain, fragment);
    FixedParamsPlain();
    HostParamPlain(domain);
    SniParamPlain(domain);
    PathParamPlain(s.wsPath);
    assert forall i :: 0 <= i < |l.query| ==> ParamIsPlain(l.query[i]);
  }

  lemma ShareLinkQuery(s: Settings, domain: string, fragment: string)
    ensures var q := ShareLink(s, domain, fragment).query;
      && QueryValue(q, "encryption") == Some("none")
      && QueryValue(q, "security") == Some("tls")
      && QueryValue(q, "type") == Some("ws")
      && QueryValue(q, "host") == Some(domain)
      && QueryValue(q, "sni") == Some(domain)
      && QueryValue(q, "path") == Some(UriComponent.Encode(s.wsPath))
  {
    var q := ShareLink(s, domain, fragment).query;
    assert "encryption" != "host" && "encryption" != "sni" && "encryption" != "path";
    assert "security" != "host" && "security" != "sni" && "security" != "path";
    assert "encryption" != "security" && "encryption" != "type" && "security" != "type";
    assert "type" != "host" && "type" != "sni" && "type" != "path";
    assert "host" != "sni" && "host" != "path" && "sni" != "path";
    var q1, q2, q3, q4, q5 := q[1..], q[2..], q[3..], q[4..], q[5..];
    assert q1[1..] == q2 && q2[1..] == q3 && q3[1..] == q4 && q4[1..] == q5;
    assert QueryValue(q, "security") == QueryValue(q1, "security");
    assert QueryValue(q, "type") == QueryValue(q1, "type") == QueryValue(q2, "type");
    assert QueryValue(q, "host") == QueryValue(q1, "host") == QueryValue(q2, "host") == QueryValue(q3, "host");
    assert QueryValue(q, "sni") == QueryValue(q1, "sni") == QueryValue(q2, "sni") == QueryValue(q3, "sni") == QueryValue(q4, "sni");
    assert QueryValue(q, "path") == QueryValue(q1, "path") == QueryValue(q2, "path") == QueryValue(q3, "path")
      == QueryValue(q4, "path") == QueryValue(q5, "path");
  }

  /** A client reading the link back recovers the UUID, the domain as host
      and as TLS server name, the path, and the fragment. */
  lemma ShareLinkReadsBack(s: Settings, domain: string, fragment: string)
    requires Free(s.uuid, '@') && Free(domain, ':') && Free(domain, '&') && Free(domain, '#')
    ensures var l := Parse(ShareLinkText(s, domain, fragment));
      && l.Some? && l.value.user == s.uuid && l.value.host == domain && l.value.port == "443"
      && QueryValue(l.value.query, "encryption") == Some("none")
      && QueryValue(l.value.query, "security") == Some("tls")
      && QueryValue(l.value.query, "type") == Some("ws")
      && QueryValue(l.value.query, "host") == Some(domain)
      && QueryValue(l.value.query, "sni") == Some(domain)
      && QueryValue(l.value.query, "path").Some?
      && UriComponent.Decode(QueryValue(l.value.query, "path").value) == Some(s.wsPath)
      && l.value.fragment == fragment
  {
    ShareLinkWellFormed(s, domain, fragment);
    ParseRender(ShareLink(s, domain, fragment));
    ShareLinkQuery(s, domain, fragment);
    UriComponent.DecodeEncode(s.wsPath);
  }

  // ----- `sharedUrl` (app.js:111-158) -----

  /** app.js:126-138: with a token and a domain the fixed link is published
      at start-up; otherwise the variable keeps its value. */
  function SharedAtStart(s: Settings, shared: string): string {
    if s.token != "" && s.domain != "" then ShareLinkText(s, s.domain, FixedFragment) else shared
  }

  /** app.js:148-158: a chunk with a tunnel hostname overwrites the variable
      with the temporary link unless a token is set. */
  function SharedAfter(s: Settings, shared: string, chunk: string): string {
    match Scan(chunk)
    case Some(host) => if s.token == "" then ShareLinkText(s, host, TempFragment) else shared
    case None => shared
  }

  /** What can happen once both processes run: either one exits (nothing
      listens for that), or cloudflared writes a chunk to standard error. */
  datatype Event = Exited(name: string) | CloudflaredStderr(chunk: string)

  function NextShared(s: Settings, shared: string, ev: Event): string {
    match ev
    case Exited(_) => shared
    case CloudflaredStderr(chunk) => SharedAfter(s, shared, chunk)
  }

  function SharedRun(s: Settings, shared: string, evs: seq<Event>): string {
    if evs == [] then shared else NextShared(s, SharedRun(s, shared, evs[..|evs| - 1]), evs[|evs| - 1])
  }

  predicate IsMatch(ev: Event) {
    ev.CloudflaredStderr? && Scan(ev.chunk).Some?
  }

  /** With a token set, no chunk changes the variable. */
  lemma {:induction false} SharedRunWithToken(s: Settings, shared: string, evs: seq<Event>)
    requires s.token != ""
    ensures SharedRun(s, shared, evs) == shared
  {
    if evs != [] {
      SharedRunWithToken(s, shared, evs[..|evs| - 1]);
    }
  }

  /** Exits and chunks without a hostname change nothing. */
  lemma {:induction false} SharedRunWithoutMatch(s: Settings, shared: string, evs: seq<Event>)
    requires forall i :: 0 <= i < |evs| ==> !IsMatch(evs[i])
    ensures SharedRun(s, shared, evs) == shared
  {
    if evs != [] {
      var init := evs[..|evs| - 1];
      assert forall i :: 0 <= i < |init| ==> init[i] == evs[i];
      SharedRunWithoutMatch(s, shared, init);
    }
  }

  /** Without a token, the variable holds the temporary link for the host
      of the LAST matching chunk. */
  lemma {:induction false} SharedRunLastMatchWins(s: Settings, shared: string, evs: seq<Event>, i: int)
    requires s.token == ""
    requires 0 <= i < |evs| && IsMatch(evs[i]) && forall j :: i < j < |evs| ==> !IsMatch(evs[j])
    ensures SharedRun(s, shared, evs) == ShareLinkText(s, Scan(evs[i].chunk).value, TempFragment)
  {
    var m := |evs| - 1;
    var init := evs[..m];
    var before := SharedRun(s, shared, init);
    assert SharedRun(s, shared, evs) == NextShared(s, before, evs[m]);
    if i < m {
      assert forall k :: 0 <= k < m ==> init[k] == evs[k];
      SharedRunLastMatchWins(s, shared, init, i);
      NextSharedWithoutMatch(s, before, evs[m]);
    } else {
      NextSharedWithMatch(s, before, evs[m]);
    }
  }

  lemma NextSharedWithoutMatch(s: Settings, shared: string, ev: Event)
    requires !IsMatch(ev)
    ensures NextShared(s, shared, ev) == shared
  {
  }

  lemma NextSharedWithMatch(s: Settings, shared: string, ev: Event)
    requires s.token == "" && IsMatch(ev)
    ensures NextShared(s, shared, ev) == ShareLinkText(s, Scan(ev.chunk).value, TempFragment)
  {
  }

  /** The temporary link a matching chunk publishes reads back with the
      captured hostname, a quick-tunnel host, as host and server name. */
  lemma TempLinkReadsBack(s: Settings, shared: string, chunk: string)
    requires s.token == "" && Scan(chunk).Some? && Free(s.uuid, '@')
    ensures var l := Parse(SharedAfter(s, shared, chunk));
      && l.Some? && l.value.user == s.uuid && l.value.host == Scan(chunk).value
      && QueryValue(l.value.query, "sni") == Some(Scan(chunk).value)
      && IsQuickTunnelHost(l.value.host) && l.value.fragment == TempFragment
  {
    var host := Scan(chunk).value;
    ScanShape(chunk);
    QuickTunnelHostAvoidsSeparators(host);
    ShareLinkReadsBack(s, host, TempFragment);
  }

  // ----- the handlers (app.js:162-181) -----

  const Initializing := "Initializing..."

  datatype Response = Response(status: nat, body: string)

  function Sub(shared: string): Response {
    if shared != "" then Response(200, Base64.Encode(Utf8.Encode(shared))) else Response(503, Initializing)
  }

  function HomeText(shared: string): string {
    if shared != "" then shared else Initializing
  }

  /** `/sub` is ready exactly when the variable is non-empty, and its body
      then decodes to the very text `/` shows. */
  lemma SubMatchesHome(shared: string)
    ensures Sub(shared).status == 200 <==> shared != ""
    ensures Sub(shared).status != 200 ==> Sub(shared) == Response(503, Initializing) && HomeText(shared) == Initializing
    ensures Sub(shared).status == 200 ==>
      && Base64.Decode(Sub(shared).body).Some?
      && Utf8.Decode(Base64.Decode(Sub(shared).body).value) == Some(HomeText(shared))
  {
    if shared != "" {
      Base64.DecodeEncode(Utf8.Encode(shared));
      Utf8.DecodeEncode(shared);
    }
  }

  /** A token without a domain publishes no link at all: `/sub` answers
      503 for the whole life of the process. */
  lemma TokenWithoutDomainNeverReady(s: Settings, evs: seq<Event>)
    requires s.token != "" && s.domain == ""
    ensures Sub(SharedRun(s, SharedAtStart(s, ""), evs)) == Response(503, Initializing)
  {
    SharedRunWithToken(s, "", evs);
  }

  // ----- the running script -----

  /** What `startServices` does after provisioning, in order. */
  datatype Action = ConfigWritten(config: Config) | Spawned(name: string, argv: seq<string>) | Published(link: string)

  /** The fixed inputs of one run of the script. */
  datatype Node = Node(settings: Settings, port: LocalPort, configPath: string)

  /** app.js:115-145 after the downloads: the document, sing-box, the fixed
      link when there is one, then cloudflared. */
  function StartupActions(n: Node): seq<Action> {
    [ConfigWritten(GenerateConfig(n.port, n.settings.uuid, n.settings.wsPath)), Spawned(SingBoxName, SingBoxArgs(n.configPath))]
    + (if n.settings.token != "" && n.settings.domain != "" then [Published(ShareLinkText(n.settings, n.settings.domain, FixedFragment))] else [])
    + [Spawned(CloudflaredName, TunnelArgs(n.settings.token, n.port))]
  }

  /** The order start-up keeps: the document is written first and before
      sing-box starts; each executable is spawned once, sing-box first; the
      fixed link, when there is one, is published before cloudflared runs. */
  lemma StartupOrder(n: Node)
    ensures var acts := StartupActions(n);
      && acts[0] == ConfigWritten(GenerateConfig(n.port, n.settings.uuid, n.settings.wsPath))
      && acts[1] == Spawned(SingBoxName, SingBoxArgs(n.configPath))
      && acts[|acts| - 1] == Spawned(CloudflaredName, TunnelArgs(n.settings.token, n.port))
      && (forall i :: 0 <= i < |acts| && acts[i].Spawned? ==> i == 1 || i == |acts| - 1)
      && (forall i :: 0 <= i < |acts| && acts[i].Published? ==> 1 < i < |acts| - 1)
      && ((exists i :: 0 <= i < |acts| && acts[i].Published?) <==> n.settings.token != "" && n.settings.domain != "")
  {
    var acts := StartupActions(n);
    if n.settings.token != "" && n.settings.domain != "" {
      assert acts[2].Published?;
    }
  }

  /** The process after `app.listen`: the `sharedUrl` variable and what
      start-up has done. The handlers read the variable. */
  class AppHost {
    const node: Node
    var sharedUrl: string
    var actions: seq<Action>

    /** app.js:111: the variable starts empty, before anything is started. */
    constructor (n: Node)
      ensures node == n && sharedUrl == "" && actions == []
    {
      node := n;
      sharedUrl := "";
      actions := [];
    }

    /** `startServices` (app.js:113-159). */
    method StartServices(d: WorkDir, arch: string, archive: Option<map<string, Entry>>,
                         listing: seq<string>, cloudflared: Option<string>) returns (outcome: Result<(), Fault>)
      requires ListsExtraction(d.entries, archive, listing)
      modifies this, d
      ensures var p := DownloadBinaries(old(d.entries), arch, archive, listing, cloudflared);
        && outcome == Started(p)
        && d.fetched == old(d.fetched) + p.fetched
        && d.entries == p.entries
        && d.executable == old(d.executable) + (if p.outcome.Ok? then p.entries.Keys * {SingBoxName, CloudflaredName} else {})
      ensures var p := DownloadBinaries(old(d.entries), arch, archive, listing, cloudflared);
        && (p.outcome.Err? ==> sharedUrl == old(sharedUrl) && actions == old(actions))
        && (p.outcome.Ok? ==>
              sharedUrl == SharedAtStart(node.settings, old(sharedUrl)) && actions == old(actions) + StartupActions(node))
    {
      outcome := DownloadBinariesIn(d, arch, archive, listing, cloudflared);
      if outcome.Err? {
        return;
      }
      // Both spawns and the fixed link happen before either `'error'` event.
      Launch();
      var failed := FirstUnspawnable(d.entries);
      if failed.Some? {
        outcome := Err(SpawnFailed(failed.value));
      }
    }

    /** app.js:115-145, once the executables are in place: the document is
        written, sing-box spawned, the fixed link published when there is
        one, and cloudflared spawned. */
    method Launch()
      modifies this`sharedUrl, this`actions
      ensures sharedUrl == SharedAtStart(node.settings, old(sharedUrl))
      ensures actions == old(actions) + StartupActions(node)
    {
      var s := node.settings;
      var done := [ConfigWritten(GenerateConfig(node.port, s.uuid, s.wsPath))];
      done := done + [Spawned(SingBoxName, SingBoxArgs(node.configPath))];
      if s.token != "" && s.domain != "" {
        sharedUrl := ShareLinkText(s, s.domain, FixedFragment);
        done := done + [Published(sharedUrl)];
      }
      done := done + [Spawned(CloudflaredName, TunnelArgs(s.token, node.port))];
      actions := actions + done;
    }

    /** An event after start-up: only the variable may change, and no
        process is ever spawned again. */
    method Handle(ev: Event)
      modifies this`sharedUrl
      ensures sharedUrl == NextShared(node.settings, old(sharedUrl), ev)
      ensures actions == old(actions)
    {
      if ev.CloudflaredStderr? {
        var found := Scan(ev.chunk);
        if found.Some? && node.settings.token == "" {
          sharedUrl := ShareLinkText(node.settings, found.value, TempFragment);
        }
      }
    }

    function SubResponse(): (r: Response)
      reads this
      ensures r.status == 200 <==> sharedUrl != ""
    {
      Sub(sharedUrl)
    }

    function Home(): (r: string)
      reads this
      ensures sharedUrl != "" ==> r == sharedUrl
    {
      HomeText(sharedUrl)
    }
  }
}
