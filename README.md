# A verified model of the Node.js VLESS tunnel launcher

The repository ships two variants of one small Node.js program, `index.js`
and `app.js`. Each one:

- picks the Linux builds of sing-box and cloudflared for the host
  architecture;
- downloads only what is missing from its work directory and moves the
  extracted sing-box executable into place;
- writes a sing-box document that serves one VLESS-over-WebSocket inbound
  on loopback;
- starts sing-box, then a Cloudflare tunnel (a named tunnel when
  `ARGO_TOKEN` is set, otherwise a quick tunnel to the local port);
- scans the tunnel client's standard error for the
  `https://<label>.trycloudflare.com` hostname;
- builds a `vless://` share link from it and serves the link on `/` and, as
  base64 of its UTF-8 octets, on `/sub`.

The variants differ in several places:

| | index.js | app.js |
|---|---|---|
| placing the sing-box executable | the first matching entry, moved with `mv` | every matching regular file renamed onto `sing-box` in turn |
| a failed sing-box download | swallowed, so the later `spawn` of sing-box fails | fatal |
| early-data header | set | not set |
| where the link is kept | file `url.txt` | variable `sharedUrl` |
| link fragment | the node name | `Fixed-Tunnel` or `Temp-Tunnel` |
| process exits | both processes restarted after 3000 ms (sing-box) or 5000 ms (cloudflared) | nothing restarted |

The Dafny project models both scripts on top of shared modules:

| module | what it models |
|---|---|
| `Basics` | Option and Result, JavaScript string predicates, decimal rendering |
| `Utf8` | UTF-8 encoding and decoding |
| `UriComponent` | `encodeURIComponent` and its inverse |
| `Base64` | `Buffer.toString('base64')` and a decoder |
| `Platform` | the architecture-to-URL table |
| `Layout` | names in the work directory, `process.env[k] \|\| d`, the local-port range |
| `Provision` | the work directory as a class, the two sing-box placement strategies |
| `SingBoxConfig` | the configuration document and what it serves |
| `Cloudflared` | the argument vectors |
| `TunnelLog` | the hostname scanner, proved equal to the regular expression |
| `VlessLink` | the share link, rendered and read back, and the parameters both scripts use |
| `IndexScript` | index.js |
| `AppScript` | app.js |
| `ScriptsCompared` | where the two scripts part ways |

Each script is modelled in two layers. Pure functions state what
provisioning, the handlers and the event stream do. Classes (`WorkDir`,
`IndexHost`, `AppHost`) hold the state the scripts change in place, with
methods proved equal to those functions.

## Model

| member | source | states |
|---|---|---|
| Basics.Decimal | index.js:165 | `${n}` of a non-negative integer is a non-empty digit string with no leading zero |
| Basics.ParseDecimalOfDecimal | index.js:165 | the port written into the tunnel URL reads back as the same number |
| Layout.EnvOr | index.js:22-28 | `process.env[k] \|\| d`: a set, non-empty variable wins, otherwise the fallback; a non-empty fallback gives a non-empty value |
| Platform.SelectDownloads | index.js:50-58 | a pair of URLs only for `x64` and `arm64`, exactly the builds named for that architecture |
| Platform.DownloadsDiffer | index.js:51-55 | the sing-box and the cloudflared URL of one build are different downloads |
| Utf8.EncodeChar | index.js:228 | one to four octets per character, a single octet exactly for ASCII, equal to its code |
| Utf8.EncodeAscii | index.js:228 | ASCII text encodes octet for octet |
| Utf8.EncodeAppend | index.js:228 | encoding distributes over concatenation |
| Utf8.DecodeEncode | index.js:228 | decoding the UTF-8 octets of any string gives the string back |
| Utf8.EncodeInjective | app.js:177 | two strings with the same octets are equal |
| UriComponent.HexDigit | index.js:183 | the hexadecimal digits used in escapes are all unescaped characters |
| UriComponent.EscapeOctets | index.js:183 | each octet becomes exactly one three-character escape |
| UriComponent.DecodeEncode | index.js:183 | `decodeURIComponent(encodeURIComponent(s)) == s` for every string |
| UriComponent.EncodeUnescaped | index.js:183 | a component made only of unreserved characters is left unchanged |
| UriComponent.EncodeEscaped | index.js:183 | any other character becomes `%` escapes, three characters per UTF-8 octet |
| UriComponent.EncodeAlphabet | index.js:183 | an encoded component holds only unreserved characters and `%` |
| UriComponent.EncodeAvoidsSeparators | app.js:155 | an encoded path or name never contains `&`, `#` or `=`, so it cannot break the query or the fragment |
| Base64.ValueOfCharOf | index.js:228 | every 6-bit value's character maps back to that value |
| Base64.Encode | index.js:228 | the text is four characters per started group of three octets |
| Base64.EncodeAlphabet | index.js:228 | the text uses only the RFC 4648 alphabet and `=` |
| Base64.DecodeEncode | app.js:177 | the subscription body decodes back to exactly the octets encoded |
| SingBoxConfig.Served | index.js:98-126 | a document that serves an endpoint binds every inbound to 127.0.0.1 and has exactly one inbound |
| Cloudflared.TunnelArgsByMode | index.js:152-166 | `run` with the token as fourth argument exactly when a token is set; otherwise the quick tunnel forwards to the sing-box port, with HTTP/2 and no auto-update |
| TunnelLog.RunEnd | index.js:176 | the end of the longest run of `[a-zA-Z0-9-]` starting at an index |
| TunnelLog.MatchEndIsRunEnd | index.js:176 | a match can only end where the label run ends, since the label cannot be followed by another label character before `.trycloudflare.com` |
| TunnelLog.MatchEndUnique | index.js:176 | a match starting at a given index has only one end |
| TunnelLog.MatchFromSound | index.js:176-177 | what the scanner reports at a start index is a real match of the pattern |
| TunnelLog.MatchFromComplete | index.js:176-177 | any match of the pattern at a start index is found there |
| TunnelLog.SearchFromFindsLeftmost | index.js:177 | the scan from an index returns the leftmost match after it |
| TunnelLog.SearchFromNone | index.js:177 | the scan from an index finds nothing exactly when no match starts after it |
| TunnelLog.ScanIsLeftmostMatch | index.js:176-179 | `log.match(regex)[1]` exists iff the pattern occurs, and is the hostname of the leftmost occurrence |
| TunnelLog.ScanShape | app.js:151-153 | a captured hostname is a non-empty label followed by `.trycloudflare.com` |
| TunnelLog.QuickTunnelHostAvoidsSeparators | index.js:179-183 | such a hostname contains no `@`, `:`, `&` or `#`, so it can be placed in a link unescaped |
| VlessLink.SplitFirst | index.js:183 | splitting at the first separator loses exactly that one character |
| VlessLink.SplitAll | index.js:183 | splitting always yields at least one part |
| VlessLink.SplitFirstOf | index.js:183 | text without the separator, the separator, then the rest splits back into the same two parts |
| VlessLink.SplitFirstNone | index.js:183 | text without the separator does not split |
| VlessLink.JoinQueryHashFree | index.js:183 | a query made of plain parameters holds no `#`, so the fragment starts at the right place |
| VlessLink.ParseParamOf | index.js:183 | a plain `key=value` reads back as that parameter |
| VlessLink.ParseJoinQuery | index.js:183 | a joined query of plain parameters reads back as the same list |
| VlessLink.ParseRender | index.js:183 | a reader of `vless://user@host:port?query#fragment` recovers every field of a well-formed link |
| Provision.FindCandidate | index.js:69 | `files.find(...)`: the first entry containing `sing-box` and not ending in `.tar.gz`, or none when no entry qualifies |
| Provision.CloudflaredIsNoCandidate | index.js:69 | the cloudflared executable is never taken for sing-box |
| Provision.Move | index.js:71 | `mv` removes the source and keeps every other entry; it fails exactly when a directory would replace a file; onto a directory the source moves inside it, otherwise the destination takes the source's content |
| Provision.PlaceFirstCandidateEffect | index.js:68-72 | nothing moves without a candidate or when the first candidate is `sing-box`; otherwise only the first candidate moves: it becomes `sing-box` when that name is absent or both are files, it moves inside a `sing-box` directory, and the failed `mv` of a directory onto a `sing-box` file changes nothing |
| Provision.RenameAll | app.js:58-65 | the rename loop adds no name but `sing-box` and leaves unlisted entries as they were |
| Provision.RenameAllNoneRenamed | app.js:59-64 | with no entry to rename the directory is unchanged |
| Provision.RenameAllOntoDirFails | app.js:61-62 | when `sing-box` is a directory, the first rename throws |
| Provision.RenameAllLastWins | app.js:58-65 | otherwise the loop succeeds; `sing-box` holds what the last renamed entry held, every renamed entry is gone, and nothing else changes |
| Provision.LastRenamedExists | app.js:58-65 | if an entry is renamed at all, there is a last renamed entry |
| Provision.RenameAllStopsOnFailure | app.js:59-65 | once a rename has thrown, the rest of the listing is not visited |
| Provision.RenameTurn | app.js:59-64 | one turn of the loop body extends the loop by one step over the listing |
| Provision.FirstUnspawnable | index.js:136-168 | the first of sing-box and cloudflared that is missing or a directory, so that its `spawn` emits an unhandled `'error'`; none exactly when both are regular files |
| Provision.InstallCloudflared | index.js:78-83 | succeeds exactly when cloudflared was present or delivered; it is downloaded only when absent and then holds what was delivered; nothing is made executable |
| Provision.WorkDir.constructor | index.js:38 | the work directory holds the given entries, with nothing fetched and nothing executable |
| Provision.WorkDir.Fetch | index.js:65 | one download is recorded, and what it delivers is added to the directory |
| Provision.WorkDir.MarkExecutable | index.js:85-86 | exactly the existing ones of `sing-box` and `cloudflared` are made executable |
| Provision.WorkDir.RenameCandidates | app.js:58-65 | the in-place loop succeeds exactly when the loop function does, and leaves the directory it computes, or the original directory when a rename throws |
| IndexScript.SettingsFrom | index.js:22-28 | UUID, path and node name always have a value; the quick tunnel is chosen exactly when `ARGO_TOKEN` is unset or empty |
| IndexScript.InstallSingBox | index.js:61-76 | the directory becomes the sing-box step's result; the archive is fetched only when `sing-box` was absent |
| IndexScript.CheckAndDownloadBinaries | index.js:43-89 | the in-place provisioning has the outcome, the directory and the downloads of the provisioning function, and marks the present executables on success |
| IndexScript.UnsupportedFailsFirst | index.js:50-58 | an unknown architecture fails with no download and no change, and only then fails that way |
| IndexScript.DownloadsOnlyWhatIsMissing | index.js:61-83 | at most the two selected URLs are fetched; sing-box exactly when absent, and cloudflared never when present; with both present nothing happens |
| IndexScript.SingBoxStepKeeps | index.js:61-76 | a present `sing-box` is left alone, and cloudflared is never taken away |
| IndexScript.ReadyHasCloudflared | index.js:78-83 | success implies cloudflared is in place; past the architecture test, failure only means cloudflared's download failed |
| IndexScript.SingBoxFailureIsSwallowed | index.js:63-75 | a failed sing-box download still reports success when cloudflared is present, with `sing-box` missing, so sing-box is the first executable `spawn` cannot start |
| IndexScript.ExtractionInstallsFirstCandidate | index.js:68-72 | after extraction, `sing-box` holds what the first candidate of the listing held |
| IndexScript.GenerateConfig | index.js:92-127 | the document serves exactly the port, UUID and path configured, on loopback only, with the `Sec-WebSocket-Protocol` early-data header |
| IndexScript.ShareLinkWellFormed | index.js:183 | the link is well formed when the UUID has no `@` and the host has no `:`, `&` or `#` |
| IndexScript.ShareLinkQuery | index.js:183 | the query carries `encryption=none`, `security=tls`, `type=ws`, the host, and the encoded path |
| IndexScript.ShareLinkReadsBack | index.js:183 | a client recovers the UUID, the host, port 443, `encryption=none`, `security=tls`, `type=ws`, and both the path and the node name after decoding |
| IndexScript.StatusTextCases | index.js:202-208 | `/` shows the link once `url.txt` exists, else the fixed-tunnel notice with a token and the waiting notice without; the two notices differ and neither parses as a link |
| IndexScript.SubMatchesStatus | index.js:202-232 | `/sub` is ready exactly when `url.txt` exists, otherwise it answers 404 `Sub not ready`; when ready, its body decodes to the text `/` shows |
| IndexScript.BootSupervised | index.js:238-240 | at start both processes run, with no restart pending |
| IndexScript.NextSupervised | index.js:141-144 | each event keeps the supervisor invariant: each process is either running or has one restart pending; each launch has its argument vector; each restart comes at least its delay after the exit it answers |
| IndexScript.RunSupervised | index.js:134-198 | the invariant holds after any sequence of exits, timers and output chunks |
| IndexScript.CloseSchedulesOneRestart | index.js:141-144 | an exit of a running process stops only it, appends exactly one restart timer for it, and launches nothing at once |
| IndexScript.TimerRestartsOnce | index.js:194-197 | a timer whose delay has elapsed is removed, and only its process is relaunched, once, with the same arguments |
| IndexScript.NextCell | index.js:171-192 | only chunks of cloudflared's standard error touch `url.txt` |
| IndexScript.RunCellWithToken | index.js:178 | with a token set, `url.txt` is never written |
| IndexScript.RunCellWithoutMatch | index.js:177-178 | chunks without a tunnel hostname leave `url.txt` as it was |
| IndexScript.RunCellLastMatchWins | index.js:171-191 | without a token, `url.txt` holds the link for the host of the last matching chunk |
| IndexScript.CellLinkReadsBack | index.js:176-190 | the link written to `url.txt` reads back with the captured quick-tunnel hostname as its host |
| IndexScript.IndexHost.constructor | index.js:238-240 | the document is written, both processes are launched, and the leftover `url.txt` is kept |
| IndexScript.IndexHost.OnClose | index.js:141-144 | the `close` handler makes the step an exit event makes, keeping the invariant |
| IndexScript.IndexHost.OnTimer | index.js:143 | a restart timer makes the step a timer event makes, keeping the invariant |
| IndexScript.IndexHost.OnArgoStderr | index.js:171-192 | the `data` handler makes the step a chunk event makes, keeping the invariant |
| IndexScript.IndexHost.SubResponse | index.js:225-232 | `/sub` answers 200 exactly when `url.txt` exists |
| IndexScript.IndexHost.HomeText | index.js:202-208 | `/` shows the content of `url.txt` whenever it exists, and otherwise the notice for the tunnel mode |
| IndexScript.Start | index.js:235-249 | provisioning as the function says, marking the executables on success; the host runs exactly when provisioning succeeds and both executables can be spawned, and then starts supervised on the given node |
| AppScript.SettingsFrom | app.js:11-16 | UUID and path always have a value; token and domain are empty exactly when unset or empty |
| AppScript.InstallSingBox | app.js:53-66 | the outcome is the sing-box step's; the directory is its result, or the extracted directory when a rename throws |
| AppScript.DownloadBinariesIn | app.js:34-77 | the in-place provisioning has the outcome, the directory and the downloads of the provisioning function |
| AppScript.UnsupportedExitsFirst | app.js:40-50 | an unknown architecture exits with no download and no change, and only then exits that way |
| AppScript.DownloadsOnlyWhatIsMissing | app.js:53-72 | at most the two selected URLs are fetched: sing-box exactly when absent, cloudflared never when present |
| AppScript.SingBoxStepKeeps | app.js:53-66 | a present `sing-box` is left alone; a successful loop never removes cloudflared |
| AppScript.ExtractionInstallsLastCandidate | app.js:58-65 | the loop fails exactly when `sing-box` is a directory; otherwise `sing-box` holds what the last renamed entry held |
| AppScript.DownloadBinariesAfterSingBox | app.js:53-72 | past the architecture test, a sing-box fault is the outcome, and what the step leaves as `sing-box` stays |
| AppScript.Started | app.js:113-145 | start-up succeeds exactly when provisioning does and both executables can be spawned; a provisioning fault is kept, and otherwise the fault names the first executable `spawn` cannot start |
| AppScript.NoCandidateFailsAtSpawn | app.js:58-66 | an archive with no file to rename passes provisioning and leaves no `sing-box`, so start-up fails at its `spawn` |
| AppScript.GenerateConfig | app.js:83-105 | the document serves exactly the port, UUID and path configured, on loopback only, with no early-data header |
| AppScript.ShareLinkWellFormed | app.js:134 | the link is well formed when the UUID has no `@` and the domain has no `:`, `&` or `#` |
| AppScript.ShareLinkQuery | app.js:134 | the query carries `encryption=none`, `security=tls`, `type=ws`, the domain as `host` and as `sni`, and the encoded path |
| AppScript.ShareLinkReadsBack | app.js:134 | a client recovers the UUID, the domain as host and server name, `encryption=none`, `security=tls`, `type=ws`, the path after decoding, and the fragment |
| AppScript.SharedRunWithToken | app.js:152 | with a token set, no chunk changes `sharedUrl` |
| AppScript.SharedRunWithoutMatch | app.js:148-158 | exits and chunks without a hostname change nothing |
| AppScript.SharedRunLastMatchWins | app.js:148-158 | without a token, `sharedUrl` holds the temporary link for the host of the last matching chunk |
| AppScript.TempLinkReadsBack | app.js:151-156 | the temporary link reads back with the captured hostname as host and `sni`, and the `Temp-Tunnel` fragment |
| AppScript.SubMatchesHome | app.js:162-181 | `/sub` is ready exactly when `sharedUrl` is non-empty, else 503 `Initializing...` and `/` says the same; when ready, its body decodes to the text `/` shows |
| AppScript.TokenWithoutDomainNeverReady | app.js:126-138 | a token without a domain means `/sub` answers 503 for the life of the process |
| AppScript.StartupOrder | app.js:113-145 | the document first; sing-box spawned before cloudflared, each once; the fixed link published between them, and only with both token and domain |
| AppScript.AppHost.constructor | app.js:111 | `sharedUrl` starts empty, with nothing started |
| AppScript.AppHost.StartServices | app.js:113-159 | provisioning as the function says, marking the executables on success; on a provisioning fault nothing starts, otherwise the start-up actions run and the fixed link is published when there is one; the outcome is how start-up ends, including a failed `spawn` |
| AppScript.AppHost.Launch | app.js:115-145 | the start-up actions are recorded in order, and `sharedUrl` is the fixed link when there is one |
| AppScript.AppHost.Handle | app.js:148-158 | an event changes `sharedUrl` as the event step says, and spawns nothing |
| AppScript.AppHost.SubResponse | app.js:175-181 | `/sub` answers 200 exactly when `sharedUrl` is non-empty |
| AppScript.AppHost.Home | app.js:162-173 | `/` shows `sharedUrl` whenever it is non-empty |
| VlessLink.SniParamPlain | app.js:134 | `sni=<domain>` is a plain parameter for a domain without `&` or `#` |
| ScriptsCompared.ScriptsInstallDifferentCandidates | app.js:58-65 | given two candidates, index.js installs the first and app.js the last |
| ScriptsCompared.ConfigDiffersInEarlyDataOnly | app.js:93-96 | the document is index.js's, minus its early-data header |

## Left out

- Shell pipelines (`curl`, `tar`, `execSync`) are not modelled; their effects are inputs instead. What an extraction delivers is an optional map of entries, `None` when the pipeline fails. What `readdirSync` lists afterwards is a listing, with an order the model does not fix. The cloudflared download is an optional file. `curl` writing an HTTP error page with exit status 0 is covered by the same inputs; the model does not tell those apart.
- A partial extraction before `tar` fails: a failed pipeline delivers nothing.
- The file system is an abstract map from names in the work directory to files and directories. Paths are reduced to those names. The `mkdirSync` of the work directory (index.js:38, app.js:26) is not modelled; the directory exists from the start.
- `url.txt` is a cell of its own beside the directory map. A leftover from an earlier run is a parameter. A `url.txt` that is a directory, and the replacement of invalid UTF-8 when it is read back, are not modelled.
- `spawn`, process exits and `setTimeout` become events. A timer is fired by its index among the pending ones, no earlier than its delay after the exit. Real time, concurrency and how the event loop interleaves events are not modelled beyond such event sequences.
- The child processes' standard output and sing-box's standard error are only logged, and logging is not modelled. That includes the placeholder link index.js prints in fixed-tunnel mode (index.js:157-160).
- Express and HTML: only a handler's status and the link text it carries are modelled, not the page around it. The web `PORT` setting and `app.listen` itself are not modelled.
- `Math.random`: the local port is a parameter constrained to 10000..14999.
- JSON text: the configuration is a structured value; `JSON.stringify` and the file write are not modelled.
- `encodeURIComponent` throws on a lone surrogate. That cannot arise, because a Dafny `char` is a Unicode scalar value.
- The process-level endings are results, not process exits. `process.exit(1)` and the rejected promise of app.js's `startServices` are `Err` outcomes. index.js's `exit(1)`, reached from its catch block, is `None` from `IndexScript.Start`.
- A `spawn` of a missing file or a directory emits `'error'` on a later tick, and neither script listens for it, so the process dies of an uncaught exception. The model reports that ending as `None` from `IndexScript.Start` and `SpawnFailed` from `AppScript.AppHost.StartServices`. It does not model what happens on the ticks in between, such as output already logged or a web request served. A file that exists but cannot be executed for another reason (a truncated download, a wrong build) is not told apart from one that runs.
- A failed `curl -L -o` for cloudflared (index.js:81, app.js:71) can leave a partial file behind. The model's failed download delivers nothing. So it does not capture that the next run's `existsSync` then skips the download and spawns the partial file.
- JavaScript strings are UTF-16: a character outside the Basic Multilingual Plane is two code units there and one `char` here. This does not change what the hostname scanner finds, because the pattern's classes are ASCII.
