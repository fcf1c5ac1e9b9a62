/** The work directory the scripts provision: which files it holds, which
    are executable, and which URLs were fetched into it. The shell pipelines
    themselves are not modelled; what they deliver (the extracted archive,
    the downloaded executable) and what `readdirSync` lists afterwards are
    inputs. This module holds the two ways the scripts move the extracted
    sing-box executable into place. */
module Provision {
  import opened Basics
  import opened Layout

  /** A directory entry: a regular file with its contents, or a directory
      (whose own contents are not modelled). */
  datatype Entry = File(data: string) | Dir

  /** `f.includes('sing-box') && !f.endsWith('.tar.gz')` (index.js:69, app.js:60). */
  predicate IsSingBoxCandidate(name: string) {
    Contains(name, "sing-box") && !EndsWith(name, ".tar.gz")
  }

  predicate Distinct(xs: seq<string>) {
    forall i, j :: 0 <= i < j < |xs| ==> xs[i] != xs[j]
  }

  /** What `fs.readdirSync` returns for a directory: every entry once, in
      an order the model does not fix. */
  predicate IsListing(listing: seq<string>, entries: map<string, Entry>) {
    Distinct(listing) && (forall n :: n in entries ==> n in listing)
    && (forall i :: 0 <= i < |listing| ==> listing[i] in entries)
  }

  // ----- index.js: the first matching entry is moved with `mv` -----

  function FindCandidateFrom(listing: seq<string>, i: nat): (r: Option<nat>)
    requires i <= |listing|
    ensures r.Some? ==> i <= r.value < |listing| && IsSingBoxCandidate(listing[r.value])
    ensures r.Some? ==> forall k :: i <= k < r.value ==> !IsSingBoxCandidate(listing[k])
    ensures r.None? ==> forall k :: i <= k < |listing| ==> !IsSingBoxCandidate(listing[k])
    decreases |listing| - i
  {
    if i == |listing| then None
    else if IsSingBoxCandidate(listing[i]) then Some(i)
    else FindCandidateFrom(listing, i + 1)
  }

  /** `files.find(...)` (index.js:69), as the index of the entry it returns:
      the first candidate in listing order, if any. */
  function FindCandidate(listing: seq<string>): (r: Option<nat>)
    ensures r.Some? ==> r.value < |listing| && IsSingBoxCandidate(listing[r.value])
    ensures r.Some? ==> forall k :: 0 <= k < r.value ==> !IsSingBoxCandidate(listing[k])
    ensures r.None? <==> forall k :: 0 <= k < |listing| ==> !IsSingBoxCandidate(listing[k])
  {
    FindCandidateFrom(listing, 0)
  }

  /** The cloudflared executable is never taken for the sing-box one. */
  lemma CloudflaredIsNoCandidate()
    ensures !IsSingBoxCandidate(CloudflaredName)
  {
    var s := CloudflaredName;
    forall i | 0 <= i <= |s| - |"sing-box"| ensures !OccursAt(s, "sing-box", i) {
      assert s[i] != 's';
    }
  }

  /** `mv src dst` with both in the work directory: onto an existing
      directory it moves `src` inside it (so `src` leaves the listing), a
      directory cannot replace a file (the command fails, `None`), and
      otherwise `dst` takes `src`'s place. */
  function Move(entries: map<string, Entry>, src: string, dst: string): (r: Option<map<string, Entry>>)
    requires src in entries && src != dst
    ensures r.Some? ==> src !in r.value && r.value.Keys <= entries.Keys + {dst}
    ensures r.Some? ==> forall n :: n in entries && n != src && n != dst ==> n in r.value && r.value[n] == entries[n]
    ensures r.None? <==> dst in entries && entries[dst].File? && entries[src].Dir?
    ensures r.Some? && !(dst in entries && entries[dst].Dir?) ==> dst in r.value && r.value[dst] == entries[src]
    ensures r.Some? && dst in entries && entries[dst].Dir? ==> r.value == entries - {src}
  {
    if dst in entries && entries[dst].Dir? then Some(entries - {src})
    else if dst in entries && entries[src].Dir? then None
    else Some((entries - {src})[dst := entries[src]])
  }

  /** index.js:68-72: the first candidate is renamed to `sing-box` when its
      name differs; a failing `mv` is caught and changes nothing. */
  function PlaceFirstCandidate(entries: map<string, Entry>, listing: seq<string>): map<string, Entry>
    requires IsListing(listing, entries)
  {
    match FindCandidate(listing)
    case None => entries
    case Some(k) =>
      if listing[k] == SingBoxName then entries
      else
        match Move(entries, listing[k], SingBoxName)
        case None => entries
        case Some(moved) => moved
  }

  /** `k` is the index of the first candidate in the listing. */
  ghost predicate FirstCandidateAt(listing: seq<string>, k: int) {
    0 <= k < |listing| && IsSingBoxCandidate(listing[k])
    && forall m :: 0 <= m < k ==> !IsSingBoxCandidate(listing[m])
  }

  /** What the first-match step does: nothing without a candidate or when
      the first candidate already is `sing-box`. Otherwise only the first
      candidate moves: it becomes `sing-box` when that name is absent or
      both are files, it moves inside a `sing-box` directory, and a
      directory cannot replace a `sing-box` file. Every other entry is kept. */
  lemma PlaceFirstCandidateEffect(entries: map<string, Entry>, listing: seq<string>)
    requires IsListing(listing, entries)
    ensures (forall k :: 0 <= k < |listing| ==> !IsSingBoxCandidate(listing[k])) ==>
      PlaceFirstCandidate(entries, listing) == entries
    ensures forall k :: FirstCandidateAt(listing, k) && listing[k] == SingBoxName ==>
      PlaceFirstCandidate(entries, listing) == entries
    ensures forall k :: FirstCandidateAt(listing, k) && listing[k] != SingBoxName
                        && (SingBoxName !in entries || (entries[SingBoxName].File? && entries[listing[k]].File?)) ==>
      PlaceFirstCandidate(entries, listing) == (entries - {listing[k]})[SingBoxName := entries[listing[k]]]
    ensures forall k :: FirstCandidateAt(listing, k) && listing[k] != SingBoxName
                        && SingBoxName in entries && entries[SingBoxName].Dir? ==>
      PlaceFirstCandidate(entries, listing) == entries - {listing[k]}
    ensures forall k :: FirstCandidateAt(listing, k) && listing[k] != SingBoxName
                        && SingBoxName in entries && entries[SingBoxName].File? && entries[listing[k]].Dir? ==>
      PlaceFirstCandidate(entries, listing) == entries
  {
    forall k | FirstCandidateAt(listing, k)
      ensures FindCandidate(listing) == Some(k)
    {
      var f := FindCandidate(listing);
      assert f.Some?;
      assert !(f.value < k) && !(k < f.value);
    }
  }

  // ----- app.js: every candidate file is renamed onto `sing-box` in turn -----

  /** A listing entry the app.js loop renames: a candidate that is a regular
      file and is not already `sing-box` (app.js:60-61). */
  predicate IsRenamed(entries: map<string, Entry>, name: string) {
    name in entries && IsSingBoxCandidate(name) && entries[name].File? && name != SingBoxName
  }

  /** One turn of the `forEach` body: `renameSync` onto `sing-box`, which
      fails (`None`) when `sing-box` is a directory. */
  function RenameStep(entries: map<string, Entry>, name: string): Option<map<string, Entry>>
    requires name in entries
  {
    if IsRenamed(entries, name) then
      if SingBoxName in entries && entries[SingBoxName].Dir? then None
      else Some((entries - {name})[SingBoxName := entries[name]])
    else Some(entries)
  }

  /** The loop over a listing, one entry after the other. Every entry not
      yet visited is still present, so `statSync` never fails. */
  function RenameAll(entries: map<string, Entry>, listing: seq<string>): (r: Option<map<string, Entry>>)
    requires Distinct(listing) && forall i :: 0 <= i < |listing| ==> listing[i] in entries
    ensures r.Some? ==> r.value.Keys <= entries.Keys + {SingBoxName}
    ensures r.Some? ==> forall n :: n in entries && n !in listing && n != SingBoxName ==> n in r.value && r.value[n] == entries[n]
    ensures r.Some? && SingBoxName in entries ==> SingBoxName in r.value
    decreases |listing|
  {
    if listing == [] then Some(entries)
    else
      var last := listing[|listing| - 1];
      var init := listing[..|listing| - 1];
      assert forall i :: 0 <= i < |init| ==> init[i] == listing[i];
      match RenameAll(entries, init)
      case None => None
      case Some(e) =>
        assert last !in init;
        assert last in e;
        RenameStep(e, last)
  }

  /** The last entry renamed decides what `sing-box` holds. */
  ghost predicate LastRenamed(entries: map<string, Entry>, listing: seq<string>, k: int) {
    0 <= k < |listing| && IsRenamed(entries, listing[k])
    && forall m :: k < m < |listing| ==> !IsRenamed(entries, listing[m])
  }

  /** With no entry to rename the loop leaves the directory unchanged. */
  lemma {:induction false} RenameAllNoneRenamed(entries: map<string, Entry>, listing: seq<string>)
    requires Distinct(listing) && forall i :: 0 <= i < |listing| ==> listing[i] in entries
    requires forall m :: 0 <= m < |listing| ==> !IsRenamed(entries, listing[m])
    ensures RenameAll(entries, listing) == Some(entries)
    decreases |listing|
  {
    if listing != [] {
      var n := |listing| - 1;
      var init := listing[..n];
      assert forall i :: 0 <= i < |init| ==> init[i] == listing[i];
      RenameAllNoneRenamed(entries, init);
    }
  }

  /** When `sing-box` is a directory the first rename throws. */
  lemma {:induction false} RenameAllOntoDirFails(entries: map<string, Entry>, listing: seq<string>, k: nat)
    requires Distinct(listing) && forall i :: 0 <= i < |listing| ==> listing[i] in entries
    requires k < |listing| && IsRenamed(entries, listing[k])
    requires SingBoxName in entries && entries[SingBoxName].Dir?
    ensures RenameAll(entries, listing) == None
    decreases |listing|
  {
    var n := |listing| - 1;
    var last := listing[n];
    var init := listing[..n];
    assert forall i :: 0 <= i < |init| ==> init[i] == listing[i];
    if k < n {
      RenameAllOntoDirFails(entries, init, k);
    } else {
      if forall m :: 0 <= m < |init| ==> !IsRenamed(entries, init[m]) {
        RenameAllNoneRenamed(entries, init);
      } else {
        var m :| 0 <= m < |init| && IsRenamed(entries, init[m]);
        RenameAllOntoDirFails(entries, init, m);
      }
    }
  }

  /** After visiting `names`: every entry among them that was renamed is
      gone, and every entry other than `sing-box` that was not renamed is
      kept as it was. */
  ghost predicate Swept(entries: map<string, Entry>, names: seq<string>, e: map<string, Entry>) {
    && (forall m :: 0 <= m < |names| && IsRenamed(entries, names[m]) ==> names[m] !in e)
    && (forall x :: x in entries && x != SingBoxName && !(x in names && IsRenamed(entries, x)) ==> x in e && e[x] == entries[x])
  }

  /** The directory after the loop when `listing[k]` was the last entry
      renamed: `sing-box` holds what that entry held, and the rest is swept. */
  ghost predicate LastWins(entries: map<string, Entry>, listing: seq<string>, k: int, r: map<string, Entry>)
    requires 0 <= k < |listing|
  {
    listing[k] in entries && SingBoxName in r && r[SingBoxName] == entries[listing[k]] && Swept(entries, listing, r)
  }

  lemma SweptNothing(entries: map<string, Entry>, names: seq<string>)
    requires forall m :: 0 <= m < |names| ==> !IsRenamed(entries, names[m])
    ensures Swept(entries, names, entries)
  {
  }

  lemma SweptSkip(entries: map<string, Entry>, init: seq<string>, last: string, e: map<string, Entry>)
    requires Swept(entries, init, e) && !IsRenamed(entries, last)
    ensures Swept(entries, init + [last], e)
  {
    var names := init + [last];
    forall m | 0 <= m < |names| && IsRenamed(entries, names[m]) ensures names[m] !in e {
      assert m < |init| && names[m] == init[m];
    }
  }

  lemma SweptRename(entries: map<string, Entry>, init: seq<string>, last: string, e: map<string, Entry>)
    requires Swept(entries, init, e) && IsRenamed(entries, last) && last !in init
    ensures last in e && e[last] == entries[last]
    ensures Swept(entries, init + [last], (e - {last})[SingBoxName := e[last]])
  {
    var names := init + [last];
    var r := (e - {last})[SingBoxName := e[last]];
    forall m | 0 <= m < |names| && IsRenamed(entries, names[m]) ensures names[m] !in r {
      if m < |init| {
        assert names[m] == init[m];
      }
    }
  }

  /** Unless `sing-box` is a directory, the loop succeeds and the last
      entry renamed wins. */
  lemma {:induction false} RenameAllLastWins(entries: map<string, Entry>, listing: seq<string>, k: int)
    requires Distinct(listing) && forall i :: 0 <= i < |listing| ==> listing[i] in entries
    requires LastRenamed(entries, listing, k)
    requires !(SingBoxName in entries && entries[SingBoxName].Dir?)
    ensures RenameAll(entries, listing).Some?
    ensures LastWins(entries, listing, k, RenameAll(entries, listing).value)
    decreases |listing|
  {
    var n := |listing| - 1;
    var last := listing[n];
    var init := listing[..n];
    assert forall i :: 0 <= i < |init| ==> init[i] == listing[i];
    assert last !in init;
    assert listing == init + [last];
    var e: map<string, Entry>;
    if k < n {
      assert LastRenamed(entries, init, k);
      RenameAllLastWins(entries, init, k);
      e := RenameAll(entries, init).value;
      assert !IsRenamed(entries, last);
      if last != SingBoxName {
        assert last in e && e[last] == entries[last];
      }
      assert RenameAll(entries, listing) == Some(e);
      SweptSkip(entries, init, last, e);
    } else {
      if forall m :: 0 <= m < |init| ==> !IsRenamed(entries, init[m]) {
        RenameAllNoneRenamed(entries, init);
        SweptNothing(entries, init);
        e := entries;
      } else {
        var j :| 0 <= j < |init| && IsRenamed(entries, init[j]);
        var j' := LastRenamedExists(entries, init, j);
        RenameAllLastWins(entries, init, j');
        e := RenameAll(entries, init).value;
      }
      assert RenameAll(entries, init) == Some(e);
      SweptRename(entries, init, last, e);
      assert !(SingBoxName in e && e[SingBoxName].Dir?);
      assert RenameAll(entries, listing) == Some((e - {last})[SingBoxName := e[last]]);
    }
  }

  /** Some entry to rename means there is a last one. */
  lemma {:induction false} LastRenamedExists(entries: map<string, Entry>, listing: seq<string>, j: nat) returns (k: int)
    requires j < |listing| && IsRenamed(entries, listing[j])
    ensures LastRenamed(entries, listing, k)
    decreases |listing| - j
  {
    if forall m :: j < m < |listing| ==> !IsRenamed(entries, listing[m]) {
      k := j;
    } else {
      var m :| j < m < |listing| && IsRenamed(entries, listing[m]);
      k := LastRenamedExists(entries, listing, m);
    }
  }

  /** The work directory as the scripts change it. */
  class WorkDir {
    var entries: map<string, Entry>
    /** Names given mode 0755. */
    var executable: set<string>
    /** URLs fetched, in order; a new element is one network download. */
    var fetched: seq<string>

    constructor (initial: map<string, Entry>)
      ensures entries == initial && executable == {} && fetched == []
    {
      entries := initial;
      executable := {};
      fetched := [];
    }

    /** `execSync("curl ... " + url ...)` as far as the directory is
        concerned: the URL is fetched and, when the command succeeds, the
        delivered entries are written into the directory. */
    method Fetch(url: string, delivered: Option<map<string, Entry>>)
      modifies this`entries, this`fetched
      ensures fetched == old(fetched) + [url]
      ensures entries == if delivered.Some? then old(entries) + delivered.value else old(entries)
    {
      fetched := fetched + [url];
      if delivered.Some? {
        entries := entries + delivered.value;
      }
    }

    /** The two `chmodSync(..., 0o755)` calls, each guarded by `existsSync`
        (index.js:85-86, app.js:75-76). */
    method MarkExecutable()
      modifies this`executable
      ensures executable == old(executable) + (entries.Keys * {SingBoxName, CloudflaredName})
    {
      if SingBoxName in entries {
        executable := executable + {SingBoxName};
      }
      if CloudflaredName in entries {
        executable := executable + {CloudflaredName};
      }
    }

    /** The `files.forEach` loop of app.js:58-65 over a listing of this
        directory; `false` when a `renameSync` throws. */
    method RenameCandidates(listing: seq<string>) returns (ok: bool)
      requires IsListing(listing, entries)
      modifies this`entries
      ensures RenameAll(old(entries), listing).Some? <==> ok
      ensures ok ==> entries == RenameAll(old(entries), listing).value
      ensures !ok ==> entries == old(entries)
    {
      ghost var before := entries;
      var i := 0;
      while i < |listing|
        invariant 0 <= i <= |listing|
        invariant RenameAll(before, listing[..i]) == Some(entries)
        invariant SingBoxName in entries && entries[SingBoxName].Dir? ==> entries == before
      {
        var name := listing[i];
        RenameTurn(before, listing, i, entries);
        if IsSingBoxCandidate(name) && entries[name].File? {
          if name != SingBoxName {
            if SingBoxName in entries && entries[SingBoxName].Dir? {
              return false;
            }
            entries := (entries - {name})[SingBoxName := entries[name]];
            assert entries[SingBoxName].File?;
          }
        }
        i := i + 1;
      }
      assert listing[..i] == listing;
      return true;
    }
  }

  /** One more turn of the loop: the next listed name is still present and
      the loop over the longer prefix is that turn applied. */
  lemma RenameAllSnoc(entries: map<string, Entry>, listing: seq<string>, i: nat, e: map<string, Entry>)
    requires Distinct(listing) && forall k :: 0 <= k < |listing| ==> listing[k] in entries
    requires i < |listing| && RenameAll(entries, listing[..i]) == Some(e)
    ensures listing[i] in e
    ensures RenameAll(entries, listing[..i + 1]) == RenameStep(e, listing[i])
  {
    var p := listing[..i + 1];
    assert p[..i] == listing[..i];
    assert p[i] == listing[i];
    assert listing[i] !in listing[..i];
  }

  /** The turn for `listing[i]` extends the loop by one step, and a turn
      that throws makes the whole loop fail. */
  lemma RenameTurn(entries: map<string, Entry>, listing: seq<string>, i: nat, e: map<string, Entry>)
    requires Distinct(listing) && forall k :: 0 <= k < |listing| ==> listing[k] in entries
    requires i < |listing| && RenameAll(entries, listing[..i]) == Some(e)
    ensures listing[i] in e
    ensures RenameAll(entries, listing[..i + 1]) == RenameStep(e, listing[i])
    ensures RenameStep(e, listing[i]).None? ==> RenameAll(entries, listing) == None
  {
    RenameAllSnoc(entries, listing, i, e);
    if RenameStep(e, listing[i]).None? {
      RenameAllStopsOnFailure(entries, listing, i + 1);
    }
  }

  /** Once a turn has thrown, the rest of the listing is not visited. */
  lemma {:induction false} RenameAllStopsOnFailure(entries: map<string, Entry>, listing: seq<string>, i: nat)
    requires Distinct(listing) && forall k :: 0 <= k < |listing| ==> listing[k] in entries
    requires i <= |listing|
    requires RenameAll(entries, listing[..i]) == None
    ensures RenameAll(entries, listing) == None
    decreases |listing| - i
  {
    if i < |listing| {
      var p := listing[..i + 1];
      assert p[..i] == listing[..i];
      assert RenameAll(entries, p) == None;
      RenameAllStopsOnFailure(entries, listing, i + 1);
    } else {
      assert listing[..i] == listing;
    }
  }

  // ----- after provisioning: what `spawn` can start -----

  /** `spawn` starts a regular file; a missing name or a directory makes it
      fail with ENOENT or EACCES, reported by an `'error'` event. */
  predicate Spawnable(entries: map<string, Entry>, name: string) {
    name in entries && entries[name].File?
  }

  /** Both scripts spawn sing-box, then cloudflared, and neither listens for
      `'error'`, so the first spawn that fails ends the process with an
      uncaught exception: the name of that executable, if any. */
  function FirstUnspawnable(entries: map<string, Entry>): (r: Option<string>)
    ensures r.None? <==> Spawnable(entries, SingBoxName) && Spawnable(entries, CloudflaredName)
    ensures r.Some? ==> !Spawnable(entries, r.value)
    ensures r.Some? && r.value == CloudflaredName ==> Spawnable(entries, SingBoxName)
    ensures r.Some? ==> r.value == SingBoxName || r.value == CloudflaredName
  {
    if !Spawnable(entries, SingBoxName) then Some(SingBoxName)
    else if !Spawnable(entries, CloudflaredName) then Some(CloudflaredName)
    else None
  }

  /** The cloudflared block both scripts share (index.js:78-83,
      app.js:68-72) on the work directory: `curl -L -o` runs only when
      `cloudflared` is absent, and `false` means the download threw. */
  method InstallCloudflared(d: WorkDir, url: string, cloudflared: Option<string>) returns (ok: bool)
    modifies d
    ensures ok <==> CloudflaredName in old(d.entries) || cloudflared.Some?
    ensures d.entries == if CloudflaredName in old(d.entries) || cloudflared.None? then old(d.entries)
                         else old(d.entries)[CloudflaredName := File(cloudflared.value)]
    ensures d.fetched == old(d.fetched) + (if CloudflaredName in old(d.entries) then [] else [url])
    ensures d.executable == old(d.executable)
  {
    if CloudflaredName !in d.entries {
      d.Fetch(url, if cloudflared.Some? then Some(map[CloudflaredName := File(cloudflared.value)]) else None);
      if cloudflared.None? {
        return false;
      }
    }
    return true;
  }
}
