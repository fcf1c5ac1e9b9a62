/** The runtime layout both scripts compute once at start: the names in the
    work directory and the local port sing-box listens on. Paths are kept as
    names inside the work directory; the directory itself (`bin_cache` next
    to index.js, `bin` next to app.js) is a parameter. */
module Layout {

  /** `10000 + Math.floor(Math.random() * 5000)` (index.js:35, app.js:23):
      the random draw is not modelled, only its range. */
  type LocalPort = p: int | 10000 <= p < 15000 witness 10000

  const SingBoxName := "sing-box"
  const CloudflaredName := "cloudflared"
  const ConfigName := "config.json"
  /** index.js only: where the discovered link is kept (index.js:190). */
  const UrlFileName := "url.txt"

  /** `path.join(WORK_DIR, name)` for a plain file name. */
  function InWorkDir(workDir: string, name: string): string {
    workDir + "/" + name
  }

  /** `process.env[key] || fallback`: an unset or empty variable takes the
      fallback, so a non-empty fallback gives a non-empty setting. */
  function EnvOr(env: map<string, string>, key: string, fallback: string): (r: string)
    ensures key in env && env[key] != "" ==> r == env[key]
    ensures !(key in env && env[key] != "") ==> r == fallback
    ensures fallback != "" ==> r != ""
  {
    if key in env && env[key] != "" then env[key] else fallback
  }
}
