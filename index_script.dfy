/** The script index.js: provisioning of the two executables, the sing-box
    document with the early-data header, the share link with the node name
    as fragment, the `url.txt` cell with its two handlers, and the
    supervisor that restarts either process after it exits. */
module IndexScript {
  import opened Basics
  import opened Layout
  import opened Platform
  import opened Provision
  import opened SingBoxConfig
  import opened Cloudflared
  import opened TunnelLog
  import opened VlessLink
  import UriComponent
  import Utf8
  import Base64

  // ----- settings (index.js:20-28) -----

  const DefaultUuid := "9afd1229-b893-40c1-84dd-51e7ce204913"
  const DefaultWsPath := "/vless-ws"
  const DefaultNodeName := "NodeJS-Tunnel"

  datatype Settings = Settings(uuid: string, wsPath: string, token: string, nodeName: string)

  /** The settings read from the environment, each with its fallback. */
  function SettingsFrom(env: map<string, string>): (s: Settings)
    ensures s.uuid != "" && s.wsPath != "" && s.nodeName != ""
    ensures s.token == "" <==> !("ARGO_TOKEN" in env && env["ARGO_TOKEN"] != "")
  {
    Settings(EnvOr(env, "UUID", DefaultUuid), EnvOr(env, "WS_PATH", DefaultWsPath),
             EnvOr(env, "ARGO_TOKEN", ""), EnvOr(env, "NODE_NAME", DefaultNodeName))
  }

  // ----- provisioning (index.js:43-89) -----

  datatype Fault = UnsupportedArchitecture | DownloadFailed(url: string)

  /** What provisioning leaves behind: how it ended, the directory, and the
      URLs fetched in order. */
  datatype Provisioning = Provisioning(outcome: Result<(), Fault>, entries: map<string, Entry>, fetched: seq<string>)

  /** The listing the script reads after extracting `archive` into a
      directory without `sing-box` must list the extracted directory. */
  predicate ListsExtraction(entries: map<string, Entry>, archive: Option<map<string, Entry>>, listing: seq<string>) {
    SingBoxName !in entries && archive.Some? ==> IsListing(listing, entries + archive.value)
  }

  /** index.js:61-76: the archive is fetched and extracted when `sing-box`
      is absent, and the first candidate is moved into place; a failed
      pipeline (`archive == None`) or a failed `mv` is caught and logged. */
  function SingBoxStep(entries: map<string, Entry>, archive: Option<map<string, Entry>>, listing: seq<string>): map<string, Entry>
    requires ListsExtraction(entries, archive, listing)
  {
    if SingBoxName in entries then entries
    else
      match archive
      case None => entries
      case Some(x) => PlaceFirstCandidate(entries + x, listing)
  }

  /** `checkAndDownloadBinaries` as a value: an unknown architecture throws
      before anything is fetched; each executable is fetched only when its
      name is absent; a failed cloudflared download throws. */
  function CheckAndDownload(entries: map<string, Entry>, arch: string, archive: Option<map<string, Entry>>,
                            listing: seq<string>, cloudflared: Option<string>): Provisioning
    requires ListsExtraction(entries, archive, listing)
  {
    match SelectDownloads(arch)
    case None => Provisioning(Err(UnsupportedArchitecture), entries, [])
    case Some(urls) =>
      var sbFetched := if SingBoxName in entries then [] else [urls.singBox];
      var e := SingBoxStep(entries, archive, listing);
      if CloudflaredName in e then Provisioning(Ok(()), e, sbFetched)
      else
        match cloudflared
        case None => Provisioning(Err(DownloadFailed(urls.cloudflared)), e, sbFetched + [urls.cloudflared])
        case Some(bin) => Provisioning(Ok(()), e[CloudflaredName := File(bin)], sbFetched + [urls.cloudflared])
  }

  /** The sing-box block of index.js:61-76 on the work directory. */
  method InstallSingBox(d: WorkDir, url: string, archive: Option<map<string, Entry>>, listing: seq<string>)
    requires ListsExtraction(d.entries, archive, listing)
    modifies d
    ensures d.entries == SingBoxStep(old(d.entries), archive, listing)
    ensures d.fetched == old(d.fetched) + (if SingBoxName in old(d.entries) then [] else [url])
    ensures d.executable == old(d.executable)
  {
    if SingBoxName !in d.entries {
      d.Fetch(url, archive);
      if archive.Some? {
        d.entries := PlaceFirstCandidate(d.entries, listing);
      }
    }
  }

  /** The function as the script runs it on the work directory. */
  method CheckAndDownloadBinaries(d: WorkDir, arch: string, archive: Option<map<string, Entry>>,
                                  listing: seq<string>, cloudflared: Option<string>) returns (outcome: Result<(), Fault>)
    requires ListsExtraction(d.entries, archive, listing)
    modifies d
    ensures var p := CheckAndDownload(old(d.entries), arch, archive, listing, cloudflared);
      && outcome == p.outcome
      && d.entries == p.entries
      && d.fetched == old(d.fetched) + p.fetched
      && d.executable == old(d.executable) + (if outcome.Ok? then d.entries.Keys * {SingBoxName, CloudflaredName} else {})
  {
    var selected := SelectDownloads(arch);
    if selected.None? {
      return Err(UnsupportedArchitecture);
    }
    var urls := selected.value;
    InstallSingBox(d, urls.singBox, archive, listing);
    var ok := InstallCloudflared(d, urls.cloudflared, cloudflared);
    if !ok {
      return Err(DownloadFailed(urls.cloudflared));
    }
    d.MarkExecutable();
    return Ok(());
  }

  /** An architecture other than `x64` or `arm64` fails before any download
      and leaves the directory as it was. */
  lemma UnsupportedFailsFirst(entries: map<string, Entry>, arch: string, archive: Option<map<string, Entry>>,
                              listing: seq<string>, cloudflared: Option<string>)
    requires ListsExtraction(entries, archive, listing)
    ensures var p := CheckAndDownload(entries, arch, archive, listing, cloudflared);
      !IsSupported(arch) <==> p.outcome == Err(UnsupportedArchitecture)
    ensures var p := CheckAndDownload(entries, arch, archive, listing, cloudflared);
      !IsSupported(arch) ==> p.entries == entries && p.fetched == []
  {
  }

  /** Each executable is downloaded only when it is absent, from the URL
      selected for the architecture, and a directory that already holds
      both leads to no download at all and no change. */
  lemma DownloadsOnlyWhatIsMissing(entries: map<string, Entry>, arch: string, archive: Option<map<string, Entry>>,
                                   listing: seq<string>, cloudflared: Option<string>)
    requires ListsExtraction(entries, archive, listing)
    requires IsSupported(arch)
    ensures var p := CheckAndDownload(entries, arch, archive, listing, cloudflared);
      var urls := DownloadsFor(BuildName(arch));
      && |p.fetched| <= 2
      && (forall i :: 0 <= i < |p.fetched| ==> p.fetched[i] == urls.singBox || p.fetched[i] == urls.cloudflared)
      && (urls.singBox in p.fetched <==> SingBoxName !in entries)
      && (CloudflaredName in entries ==> urls.cloudflared !in p.fetched)
      && (SingBoxName in entries && CloudflaredName in entries ==> p == Provisioning(Ok(()), entries, []))
  {
    DownloadsDiffer(BuildName(arch));
    SingBoxStepKeeps(entries, archive, listing);
  }

  /** The sing-box step leaves a present `sing-box` alone and never takes
      cloudflared away. */
  lemma SingBoxStepKeeps(entries: map<string, Entry>, archive: Option<map<string, Entry>>, listing: seq<string>)
    requires ListsExtraction(entries, archive, listing)
    ensures SingBoxName in entries ==> SingBoxStep(entries, archive, listing) == entries
    ensures CloudflaredName in entries ==> CloudflaredName in SingBoxStep(entries, archive, listing)
  {
    if SingBoxName !in entries && archive.Some? && CloudflaredName in entries {
      var all := entries + archive.value;
      CloudflaredIsNoCandidate();
      match FindCandidate(listing)
      case None =>
      case Some(k) =>
        assert listing[k] != CloudflaredName;
    }
  }

  /** Provisioning succeeds only with cloudflared in place, and fails past
      the architecture test only because its download failed. */
  lemma ReadyHasCloudflared(entries: map<string, Entry>, arch: string, archive: Option<map<string, Entry>>,
                            listing: seq<string>, cloudflared: Option<string>)
    requires ListsExtraction(entries, archive, listing)
    ensures var p := CheckAndDownload(entries, arch, archive, listing, cloudflared);
      && (p.outcome.Ok? ==> CloudflaredName in p.entries)
      && (IsSupported(arch) && p.outcome.Err? ==>
            && p.outcome.error == DownloadFailed(DownloadsFor(BuildName(arch)).cloudflared)
            && cloudflared.None? && CloudflaredName !in p.entries)
  {
  }

  /** A failed sing-box download is swallowed: with cloudflared present the
      script reports success and goes on to spawn a `sing-box` that is not
      there, which is the first executable `spawn` cannot start. */
  lemma SingBoxFailureIsSwallowed(entries: map<string, Entry>, arch: string, listing: seq<string>, cloudflared: Option<string>)
    requires IsSupported(arch) && SingBoxName !in entries && CloudflaredName in entries
    ensures var p := CheckAndDownload(entries, arch, None, listing, cloudflared);
      && p.outcome.Ok? && SingBoxName !in p.entries && p.fetched == [DownloadsFor(BuildName(arch)).singBox]
      && FirstUnspawnable(p.entries) == Some(SingBoxName)
  {
  }

  /** After a successful extraction into a directory without `sing-box`,
      the first candidate of the listing, when it has another name, is the
      one that becomes `sing-box`. */
  lemma ExtractionInstallsFirstCandidate(entries: map<string, Entry>, arch: string, x: map<string, Entry>,
                                         listing: seq<string>, cloudflared: Option<string>, k: int)
    requires IsSupported(arch) && SingBoxName !in entries && SingBoxName !in x
    requires IsListing(listing, entries + x)
    requires FirstCandidateAt(listing, k) && listing[k] != SingBoxName
    ensures var p := CheckAndDownload(entries, arch, Some(x), listing, cloudflared);
      SingBoxName in p.entries && p.entries[SingBoxName] == (entries + x)[listing[k]]
  {
    PlaceFirstCandidateEffect(entries + x, listing);
  }

  // ----- the sing-box document (index.js:92-131) -----

  const EarlyDataHeader := "Sec-WebSocket-Protocol"

  function GenerateConfig(port: LocalPort, uuid: string, wsPath: string): (c: Config)
    ensures Served(c) == Some(Endpoint(port, uuid, wsPath))
    ensures BindsLoopbackOnly(c)
    ensures c.inbounds[0].transport.earlyDataHeaderName == Some(EarlyDataHeader)
  {
    Config(
      LogOptions("info", true),
      [Inbound("vless", "vless-in", Loopback, port, [User(uuid, "")], Transport("ws", wsPath, Some(EarlyDataHeader)))],
      BaselineOutbounds)
  }

  // ----- the share link (index.js:183) -----

  /** The link for a tunnel hostname: the UUID and host verbatim, port 443,
      TLS over WebSocket, the percent-encoded path and node name. */
  function ShareLink(s: Settings, host: string): Link {
    Link(s.uuid, host, "443",
      [Param("encryption", "none"), Param("security", "tls"), Param("type", "ws"),
       Param("host", host), Param("path", UriComponent.Encode(s.wsPath))],
      UriComponent.Encode(s.nodeName))
  }

  function ShareLinkText(s: Settings, host: string): string {
    Render(ShareLink(s, host))
  }

  lemma ShareLinkWellFormed(s: Settings, host: string)
    requires Free(s.uuid, '@') && Free(host, ':') && Free(host, '&') && Free(host, '#')
    ensures WellFormed(ShareLink(s, host))
  {
    var l := ShareLink(s, host);
    FixedParamsPlain();
    HostParamPlain(host);
    PathParamPlain(s.wsPath);
    assert forall i :: 0 <= i < |l.query| ==> ParamIsPlain(l.query[i]);
  }

  lemma ShareLinkQuery(s: Settings, host: string)
    ensures var q := ShareLink(s, host).query;
      && QueryValue(q, "encryption") == Some("none")
      && QueryValue(q, "security") == Some("tls")
      && QueryValue(q, "type") == Some("ws")
      && QueryValue(q, "host") == Some(host)
      && QueryValue(q, "path") == Some(UriComponent.Encode(s.wsPath))
  {
    var q := ShareLink(s, host).query;
    assert "encryption" != "security" && "encryption" != "type" && "encryption" != "host" && "encryption" != "path";
    assert "security" != "type" && "security" != "host" && "security" != "path";
    assert "type" != "host" && "type" != "path";
    assert "host" != "path";
    var q1, q2, q3, q4 := q[1..], q[2..], q[3..], q[4..];
    assert q1[1..] == q2 && q2[1..] == q3 && q3[1..] == q4;
    assert QueryValue(q, "security") == QueryValue(q1, "security");
    assert QueryValue(q, "type") == QueryValue(q1, "type") == QueryValue(q2, "type");
    assert QueryValue(q, "host") == QueryValue(q1, "host") == QueryValue(q2, "host") == QueryValue(q3, "host");
    assert QueryValue(q, "path") == QueryValue(q1, "path") == QueryValue(q2, "path") == QueryValue(q3, "path") == QueryValue(q4, "path");
  }

  /** A client reading the link back recovers the UUID, the host, the port,
      the path and the node name, whatever characters path and name hold. */
  lemma ShareLinkReadsBack(s: Settings, host: string)
    requires Free(s.uuid, '@') && Free(host, ':') && Free(host, '&') && Free(host, '#')
    ensures var l := Parse(ShareLinkText(s, host));
      && l.Some? && l.value.user == s.uuid && l.value.host == host && l.value.port == "443"
      && QueryValue(l.value.query, "encryption") == Some("none")
      && QueryValue(l.value.query, "security") == Some("tls")
      && QueryValue(l.value.query, "type") == Some("ws")
      && QueryValue(l.value.query, "host") == Some(host)
      && QueryValue(l.value.query, "path").Some?
      && UriComponent.Decode(QueryValue(l.value.query, "path").value) == Some(s.wsPath)
      && UriComponent.Decode(l.value.fragment) == Some(s.nodeName)
  {
    ShareLinkWellFormed(s, host);
    ParseRender(ShareLink(s, host));
    ShareLinkQuery(s, host);
    UriComponent.DecodeEncode(s.wsPath);
    UriComponent.DecodeEncode(s.nodeName);
  }

  // ----- the `url.txt` cell and the handlers (index.js:202-232) -----

  const WaitingNotice := "Waiting for tunnel..."
  const FixedTunnelNotice := "Fixed Tunnel Active. " + "Please check your Cloudflare Dashboard for status."
  const NotReady := "Sub not ready"

  datatype Response = Response(status: nat, body: string)

  /** The body of `/sub`: the link's UTF-8 octets in base64, or 404 while
      `url.txt` does not exist. */
  function Sub(urlTxt: Option<string>): Response {
    match urlTxt
    case Some(link) => Response(200, Base64.Encode(Utf8.Encode(link)))
    case None => Response(404, NotReady)
  }

  /** The text `/` shows: the stored link, else one of two notices. */
  function StatusText(urlTxt: Option<string>, token: string): string {
    match urlTxt
    case Some(link) => link
    case None => if token != "" then FixedTunnelNotice else WaitingNotice
  }

  /** `/` shows the link once `url.txt` exists; before that, a notice that
      depends on the tunnel mode only, and that no client could take for a
      link. */
  lemma StatusTextCases(urlTxt: Option<string>, token: string)
    ensures urlTxt.Some? ==> StatusText(urlTxt, token) == urlTxt.value
    ensures urlTxt.None? && token != "" ==> StatusText(urlTxt, token) == FixedTunnelNotice
    ensures urlTxt.None? && token == "" ==> StatusText(urlTxt, token) == WaitingNotice
    ensures FixedTunnelNotice != WaitingNotice
    ensures Parse(FixedTunnelNotice).None? && Parse(WaitingNotice).None?
  {
    assert !StartsWith(WaitingNotice, "vless://") by { assert WaitingNotice[..8][0] == 'W'; }
    assert !StartsWith(FixedTunnelNotice, "vless://") by { assert FixedTunnelNotice[..8][0] == 'F'; }
  }

  /** The two handlers agree: `/sub` is ready exactly when `url.txt`
      exists, and its body then decodes to the very text `/` shows. */
  lemma SubMatchesStatus(urlTxt: Option<string>, token: string)
    ensures Sub(urlTxt).status == 200 <==> urlTxt.Some?
    ensures Sub(urlTxt).status != 200 ==> Sub(urlTxt) == Response(404, NotReady)
    ensures Sub(urlTxt).status == 200 ==>
      && Base64.Decode(Sub(urlTxt).body).Some?
      && Utf8.Decode(Base64.Decode(Sub(urlTxt).body).value) == Some(StatusText(urlTxt, token))
  {
    if urlTxt.Some? {
      Base64.DecodeEncode(Utf8.Encode(urlTxt.value));
      Utf8.DecodeEncode(urlTxt.value);
    }
  }

  // ----- supervising the two processes (index.js:134-198) -----

  datatype Proc = SingBox | Argo

  /** `setTimeout(startSingBox, 3000)` and `setTimeout(startArgo, 5000)`. */
  function RestartDelay(p: Proc): nat {
    match p
    case SingBox => 3000
    case Argo => 5000
  }

  /** The fixed inputs of one run of the script. */
  datatype Node = Node(settings: Settings, port: LocalPort, configPath: string)

  /** The argument vector every launch of `p` gets. */
  function Argv(n: Node, p: Proc): seq<string> {
    match p
    case SingBox => SingBoxArgs(n.configPath)
    case Argo => TunnelArgs(n.settings.token, n.port)
  }

  /** One `spawn`; `restarts` is the exit time of the instance it replaces. */
  datatype Launch = Launch(proc: Proc, argv: seq<string>, at: int, restarts: Option<int>)

  /** A pending `setTimeout` scheduled when `proc` exited at `closedAt`. */
  datatype Timer = Timer(proc: Proc, closedAt: int)

  /** What the event loop delivers: an exit, a timer (by its place among the
      pending ones) going off, or a chunk of cloudflared's standard error. */
  datatype Event = Closed(proc: Proc, at: int) | TimerFired(index: nat, at: int) | ArgoStderr(chunk: string)

  datatype Supervision = Supervision(running: set<Proc>, timers: seq<Timer>, launches: seq<Launch>, urlTxt: Option<string>)

  /** index.js:239-240: both processes started at `at`; `url.txt` may be
      left over from an earlier run. */
  function Boot(n: Node, at: int, urlTxt: Option<string>): Supervision {
    Supervision({SingBox, Argo}, [], [Launch(SingBox, Argv(n, SingBox), at, None), Launch(Argo, Argv(n, Argo), at, None)], urlTxt)
  }

  /** What a chunk does to `url.txt`: a match writes the link for the
      captured host unless a token is set. */
  function CellAfter(n: Node, urlTxt: Option<string>, chunk: string): Option<string> {
    match Scan(chunk)
    case Some(host) => if n.settings.token == "" then Some(ShareLinkText(n.settings, host)) else urlTxt
    case None => urlTxt
  }

  /** One event. A timer goes off no earlier than its delay after the exit
      that scheduled it. */
  function Next(n: Node, s: Supervision, ev: Event): Supervision {
    match ev
    case Closed(p, at) =>
      if p in s.running then s.(running := s.running - {p}, timers := s.timers + [Timer(p, at)]) else s
    case TimerFired(k, at) =>
      if k < |s.timers| && at >= s.timers[k].closedAt + RestartDelay(s.timers[k].proc) then
        var t := s.timers[k];
        s.(running := s.running + {t.proc},
           timers := s.timers[..k] + s.timers[k + 1..],
           launches := s.launches + [Launch(t.proc, Argv(n, t.proc), at, Some(t.closedAt))])
      else s
    case ArgoStderr(chunk) => s.(urlTxt := CellAfter(n, s.urlTxt, chunk))
  }

  function Run(n: Node, s: Supervision, evs: seq<Event>): Supervision {
    if evs == [] then s else Next(n, Run(n, s, evs[..|evs| - 1]), evs[|evs| - 1])
  }

  /** Pending restarts of `p`. */
  function Pending(ts: seq<Timer>, p: Proc): nat {
    if ts == [] then 0 else Pending(ts[..|ts| - 1], p) + (if ts[|ts| - 1].proc == p then 1 else 0)
  }

  lemma PendingAppend(ts: seq<Timer>, t: Timer, p: Proc)
    ensures Pending(ts + [t], p) == Pending(ts, p) + (if t.proc == p then 1 else 0)
  {
    assert (ts + [t])[..|ts|] == ts;
  }

  lemma {:induction false} PendingRemove(ts: seq<Timer>, k: nat, p: Proc)
    requires k < |ts|
    ensures Pending(ts[..k] + ts[k + 1..], p) + (if ts[k].proc == p then 1 else 0) == Pending(ts, p)
    decreases |ts|
  {
    var n := |ts| - 1;
    var init := ts[..n];
    var last := if ts[n].proc == p then 1 else 0;
    assert Pending(ts, p) == Pending(init, p) + last;
    if k == n {
      assert ts[..k] + ts[k + 1..] == init;
    } else {
      PendingRemove(init, k, p);
      var rest := init[..k] + init[k + 1..];
      assert ts[..k] + ts[k + 1..] == rest + [ts[n]] by {
        assert init[..k] == ts[..k];
        assert ts[k + 1..] == init[k + 1..] + [ts[n]];
      }
      PendingAppend(rest, ts[n], p);
    }
  }

  /** What the supervisor keeps true: each process is either running or has
      exactly one restart pending, never both and never neither; every
      launch has its process's argument vector; and every restart comes at
      least its delay after the exit it answers. */
  ghost predicate Supervised(n: Node, s: Supervision) {
    && (forall p: Proc :: (if p in s.running then 1 else 0) + Pending(s.timers, p) == 1)
    && (forall i :: 0 <= i < |s.launches| ==> s.launches[i].argv == Argv(n, s.launches[i].proc))
    && (forall i :: 0 <= i < |s.launches| && s.launches[i].restarts.Some? ==>
          s.launches[i].at >= s.launches[i].restarts.value + RestartDelay(s.launches[i].proc))
  }

  lemma BootSupervised(n: Node, at: int, urlTxt: Option<string>)
    ensures Supervised(n, Boot(n, at, urlTxt))
  {
    var s := Boot(n, at, urlTxt);
    forall p: Proc ensures (if p in s.running then 1 else 0) + Pending(s.timers, p) == 1 {
      assert p == SingBox || p == Argo;
    }
  }

  lemma ClosedSupervised(n: Node, s: Supervision, p: Proc, at: int)
    requires Supervised(n, s)
    ensures Supervised(n, Next(n, s, Closed(p, at)))
  {
    if p in s.running {
      var s' := Next(n, s, Closed(p, at));
      forall q: Proc ensures (if q in s'.running then 1 else 0) + Pending(s'.timers, q) == 1 {
        PendingAppend(s.timers, Timer(p, at), q);
      }
    }
  }

  lemma FiredSupervised(n: Node, s: Supervision, k: nat, at: int)
    requires Supervised(n, s)
    ensures Supervised(n, Next(n, s, TimerFired(k, at)))
  {
    if k < |s.timers| && at >= s.timers[k].closedAt + RestartDelay(s.timers[k].proc) {
      var s' := Next(n, s, TimerFired(k, at));
      var t := s.timers[k];
      forall q: Proc ensures (if q in s'.running then 1 else 0) + Pending(s'.timers, q) == 1 {
        PendingRemove(s.timers, k, q);
        PendingRemove(s.timers, k, t.proc);
      }
      var last := Launch(t.proc, Argv(n, t.proc), at, Some(t.closedAt));
      assert s'.launches == s.launches + [last];
      forall i | 0 <= i < |s'.launches|
        ensures s'.launches[i].argv == Argv(n, s'.launches[i].proc)
        ensures s'.launches[i].restarts.Some? ==>
          s'.launches[i].at >= s'.launches[i].restarts.value + RestartDelay(s'.launches[i].proc)
      {
        if i < |s.launches| {
          assert s'.launches[i] == s.launches[i];
        } else {
          assert s'.launches[i] == last;
        }
      }
    }
  }

  lemma NextSupervised(n: Node, s: Supervision, ev: Event)
    requires Supervised(n, s)
    ensures Supervised(n, Next(n, s, ev))
  {
    match ev
    case Closed(p, at) => ClosedSupervised(n, s, p, at);
    case TimerFired(k, at) => FiredSupervised(n, s, k, at);
    case ArgoStderr(_) =>
  }

  lemma {:induction false} RunSupervised(n: Node, s: Supervision, evs: seq<Event>)
    requires Supervised(n, s)
    ensures Supervised(n, Run(n, s, evs))
  {
    if evs != [] {
      RunSupervised(n, s, evs[..|evs| - 1]);
      NextSupervised(n, Run(n, s, evs[..|evs| - 1]), evs[|evs| - 1]);
    }
  }

  /** Every exit of a running process schedules exactly one restart of it
      and starts nothing at once; the restart, when its timer goes off,
      launches the same process with the same arguments. */
  lemma CloseSchedulesOneRestart(n: Node, s: Supervision, p: Proc, at: int)
    requires Supervised(n, s) && p in s.running
    ensures var s' := Next(n, s, Closed(p, at));
      && p !in s'.running && Pending(s'.timers, p) == 1
      && s'.running == s.running - {p}
      && s'.timers == s.timers + [Timer(p, at)]
      && s'.launches == s.launches && s'.urlTxt == s.urlTxt
  {
    NextSupervised(n, s, Closed(p, at));
  }

  lemma TimerRestartsOnce(n: Node, s: Supervision, k: nat, at: int)
    requires Supervised(n, s) && k < |s.timers| && at >= s.timers[k].closedAt + RestartDelay(s.timers[k].proc)
    ensures var s' := Next(n, s, TimerFired(k, at));
      var p := s.timers[k].proc;
      && p !in s.running && p in s'.running && Pending(s'.timers, p) == 0
      && s'.running == s.running + {p}
      && s'.timers == s.timers[..k] + s.timers[k + 1..]
      && s'.urlTxt == s.urlTxt
      && s'.launches == s.launches + [Launch(p, Argv(n, p), at, Some(s.timers[k].closedAt))]
  {
    PendingRemove(s.timers, k, s.timers[k].proc);
    NextSupervised(n, s, TimerFired(k, at));
  }

  /** The events decide one thing about the cell: a chunk that holds a
      tunnel hostname. */
  predicate IsMatch(ev: Event) {
    ev.ArgoStderr? && Scan(ev.chunk).Some?
  }

  /** Only chunks of standard error touch the cell. */
  lemma NextCell(n: Node, s: Supervision, ev: Event)
    ensures Next(n, s, ev).urlTxt == if ev.ArgoStderr? then CellAfter(n, s.urlTxt, ev.chunk) else s.urlTxt
  {
  }

  /** With a token set, `url.txt` is never written. */
  lemma {:induction false} RunCellWithToken(n: Node, s: Supervision, evs: seq<Event>)
    requires n.settings.token != ""
    ensures Run(n, s, evs).urlTxt == s.urlTxt
  {
    if evs != [] {
      RunCellWithToken(n, s, evs[..|evs| - 1]);
      NextCell(n, Run(n, s, evs[..|evs| - 1]), evs[|evs| - 1]);
    }
  }

  /** Chunks without a tunnel hostname leave `url.txt` as it was. */
  lemma {:induction false} RunCellWithoutMatch(n: Node, s: Supervision, evs: seq<Event>)
    requires forall i :: 0 <= i < |evs| ==> !IsMatch(evs[i])
    ensures Run(n, s, evs).urlTxt == s.urlTxt
  {
    if evs != [] {
      var init := evs[..|evs| - 1];
      assert forall i :: 0 <= i < |init| ==> init[i] == evs[i];
      RunCellWithoutMatch(n, s, init);
      NextCell(n, Run(n, s, init), evs[|evs| - 1]);
    }
  }

  /** Without a token, `url.txt` holds the link for the host of the LAST
      chunk that matched: a later match overwrites an earlier one. */
  lemma {:induction false} RunCellLastMatchWins(n: Node, s: Supervision, evs: seq<Event>, i: int)
    requires n.settings.token == ""
    requires 0 <= i < |evs| && IsMatch(evs[i]) && forall j :: i < j < |evs| ==> !IsMatch(evs[j])
    ensures Run(n, s, evs).urlTxt == Some(ShareLinkText(n.settings, Scan(evs[i].chunk).value))
  {
    var m := |evs| - 1;
    var init := evs[..m];
    var before := Run(n, s, init);
    assert Run(n, s, evs) == Next(n, before, evs[m]);
    if i < m {
      assert forall k :: 0 <= k < m ==> init[k] == evs[k];
      RunCellLastMatchWins(n, s, init, i);
      NextCellWithoutMatch(n, before, evs[m]);
    } else {
      NextCellWithMatch(n, before, evs[m]);
    }
  }

  lemma NextCellWithoutMatch(n: Node, s: Supervision, ev: Event)
    requires !IsMatch(ev)
    ensures Next(n, s, ev).urlTxt == s.urlTxt
  {
  }

  lemma NextCellWithMatch(n: Node, s: Supervision, ev: Event)
    requires n.settings.token == "" && IsMatch(ev)
    ensures Next(n, s, ev).urlTxt == Some(ShareLinkText(n.settings, Scan(ev.chunk).value))
  {
  }

  /** The link a matching chunk writes to `url.txt` reads back with the
      captured hostname, a quick-tunnel host, as its host. */
  lemma CellLinkReadsBack(n: Node, urlTxt: Option<string>, chunk: string)
    requires n.settings.token == "" && Scan(chunk).Some? && Free(n.settings.uuid, '@')
    ensures CellAfter(n, urlTxt, chunk).Some?
    ensures var l := Parse(CellAfter(n, urlTxt, chunk).value);
      && l.Some? && l.value.user == n.settings.uuid && l.value.host == Scan(chunk).value
      && IsQuickTunnelHost(l.value.host)
  {
    var host := Scan(chunk).value;
    ScanShape(chunk);
    QuickTunnelHostAvoidsSeparators(host);
    ShareLinkReadsBack(n.settings, host);
  }

  /** The running script: the two processes, the pending restarts, the
      launches so far and the `url.txt` cell. The handlers read the cell. */
  class IndexHost {
    const node: Node
    /** index.js:129, the document written to the configuration path. */
    const config: Config
    var running: set<Proc>
    var timers: seq<Timer>
    var launches: seq<Launch>
    /** The content of `url.txt`, `None` while it does not exist. */
    var urlTxt: Option<string>

    function State(): Supervision
      reads this
    {
      Supervision(running, timers, launches, urlTxt)
    }

    ghost predicate Valid()
      reads this
    {
      Supervised(node, State()) && config == GenerateConfig(node.port, node.settings.uuid, node.settings.wsPath)
    }

    /** `generateConfig(); startSingBox(); startArgo();`. */
    constructor (n: Node, at: int, leftOver: Option<string>)
      ensures node == n && State() == Boot(n, at, leftOver) && Valid()
    {
      node := n;
      config := GenerateConfig(n.port, n.settings.uuid, n.settings.wsPath);
      running := {SingBox, Argo};
      timers := [];
      launches := [Launch(SingBox, Argv(n, SingBox), at, None), Launch(Argo, Argv(n, Argo), at, None)];
      urlTxt := leftOver;
      BootSupervised(n, at, leftOver);
    }

    /** The `close` handler of either process. */
    method OnClose(p: Proc, at: int)
      requires Valid()
      modifies this
      ensures State() == Next(node, old(State()), Closed(p, at)) && Valid()
    {
      NextSupervised(node, State(), Closed(p, at));
      if p in running {
        running := running - {p};
        timers := timers + [Timer(p, at)];
      }
    }

    /** A restart timer going off. */
    method OnTimer(k: nat, at: int)
      requires Valid()
      modifies this
      ensures State() == Next(node, old(State()), TimerFired(k, at)) && Valid()
    {
      NextSupervised(node, State(), TimerFired(k, at));
      if k < |timers| && at >= timers[k].closedAt + RestartDelay(timers[k].proc) {
        var t := timers[k];
        timers := timers[..k] + timers[k + 1..];
        running := running + {t.proc};
        launches := launches + [Launch(t.proc, Argv(node, t.proc), at, Some(t.closedAt))];
      }
    }

    /** The `data` handler on cloudflared's standard error (index.js:171-192). */
    method OnArgoStderr(chunk: string)
      requires Valid()
      modifies this
      ensures State() == Next(node, old(State()), ArgoStderr(chunk)) && Valid()
    {
      var found := Scan(chunk);
      if found.Some? && node.settings.token == "" {
        urlTxt := Some(ShareLinkText(node.settings, found.value));
      }
    }

    function SubResponse(): (r: Response)
      reads this
      ensures r.status == 200 <==> urlTxt.Some?
    {
      Sub(urlTxt)
    }

    function HomeText(): (r: string)
      reads this
      ensures urlTxt.Some? ==> r == urlTxt.value
      ensures urlTxt.None? ==> r == (if node.settings.token != "" then FixedTunnelNotice else WaitingNotice)
    {
      StatusTextCases(urlTxt, node.settings.token);
      StatusText(urlTxt, node.settings.token)
    }
  }

  /** The start-up sequence of index.js:235-249: provisioning, then the
      document and both processes. A provisioning failure ends the process
      with exit code 1; an executable `spawn` cannot start (index.js:136,
      index.js:168) ends it with the uncaught `'error'` event, since neither
      child has a listener for it. Either way the result is `None`. */
  method Start(d: WorkDir, n: Node, arch: string, archive: Option<map<string, Entry>>, listing: seq<string>,
               cloudflared: Option<string>, leftOver: Option<string>, at: int) returns (host: Option<IndexHost>)
    requires ListsExtraction(d.entries, archive, listing)
    modifies d
    ensures var p := CheckAndDownload(old(d.entries), arch, archive, listing, cloudflared);
      && d.entries == p.entries && d.fetched == old(d.fetched) + p.fetched
      && d.executable == old(d.executable) + (if p.outcome.Ok? then p.entries.Keys * {SingBoxName, CloudflaredName} else {})
      && (host.Some? <==> p.outcome.Ok? && FirstUnspawnable(p.entries).None?)
    ensures host.Some? ==> fresh(host.value) && host.value.node == n && host.value.Valid()
                           && host.value.State() == Boot(n, at, leftOver)
  {
    var outcome := CheckAndDownloadBinaries(d, arch, archive, listing, cloudflared);
    if outcome.Err? || FirstUnspawnable(d.entries).Some? {
      return None;
    }
    var h := new IndexHost(n, at, leftOver);
    return Some(h);
  }
}
