/** The argument vectors both scripts pass to the two executables: sing-box
    is run on the generated document (index.js:136, app.js:119), cloudflared
    either runs a named tunnel with the operator's token or opens a quick
    tunnel to the local port (index.js:152-166, app.js:126-143). */
module Cloudflared {
  import opened Basics
  import opened Layout

  /** `['run', '-c', CONFIG_PATH]`. */
  function SingBoxArgs(configPath: string): seq<string> {
    ["run", "-c", configPath]
  }

  /** `http://localhost:${LOCAL_PORT}`. */
  function LocalUrl(port: LocalPort): string {
    "http://localhost:" + Decimal(port)
  }

  /** A non-empty `ARGO_TOKEN` selects the named (fixed) tunnel; an empty one
      the quick tunnel. */
  function TunnelArgs(token: string, port: LocalPort): seq<string> {
    if token != "" then ["tunnel", "run", "--token", token]
    else ["tunnel", "--url", LocalUrl(port), "--no-autoupdate", "--protocol", "http2"]
  }

  /** The local port a quick tunnel forwards to, read back from its argument
      vector: the value after `--url`, which must be a loopback HTTP URL. */
  function ForwardedPort(argv: seq<string>): Option<nat> {
    if |argv| < 3 || argv[1] != "--url" then None
    else
      var u := argv[2];
      var prefix := "http://localhost:";
      if StartsWith(u, prefix) then ParseDecimal(u[|prefix|..]) else None
  }

  /** The two modes, as the argument vector shows them: the token is passed
      as the last of four arguments exactly when it is set, and otherwise the
      quick tunnel forwards to the port sing-box listens on, with automatic
      updates off and HTTP/2 forced. */
  lemma TunnelArgsByMode(token: string, port: LocalPort)
    ensures var argv := TunnelArgs(token, port);
      && (argv[1] == "run" <==> token != "")
      && (token != "" ==> |argv| == 4 && argv[..3] == ["tunnel", "run", "--token"] && argv[3] == token)
      && (token == "" ==> ForwardedPort(argv) == Some(port))
      && (token == "" ==> argv == ["tunnel", "--url", "http://localhost:" + Decimal(port),
                                   "--no-autoupdate", "--protocol", "http2"])
  {
    var prefix := "http://localhost:";
    var u := LocalUrl(port);
    assert StartsWith(u, prefix) && u[|prefix|..] == Decimal(port);
    ParseDecimalOfDecimal(port);
  }
}
