/**
 * The request handler of the upgrade pull-request generator.
 *
 * The handler is a linear sequence of steps: check the GitHub token, look up
 * the repository row, read the default branch head, create the upgrade
 * branch, probe the candidate manifests, write the rewritten files one at a
 * time, open the pull request and record an audit row.  The first step that
 * fails ends the request with `success: false` and its message; nothing
 * after it happens.
 *
 * The hosting API and the record store are objects whose state the handler
 * changes.  Whether a remote call succeeds is not decided by the handler: a
 * `Faults` value fixes, for one request, how each call turns out.
 */
module UpgradePr {

  import opened Wrappers
  import opened Text
  import opened Manifests

  // ---------------------------------------------------------------------
  // Remote outcomes

  /** How one remote call turns out: a 2xx answer, another status, or a thrown error. */
  datatype Fault = Healthy | HttpError(statusText: string) | Thrown(message: string)

  /** What a caller receives from a remote call. */
  datatype Reply<T> = Done(value: T) | Refused(statusText: string) | Raised(message: string)

  /** The outcome of every remote call of one request. */
  datatype Faults = Faults(
    lookupFails: bool,            // the record store answers the repository query with an error
    head: Fault,                  // reading the default branch reference
    createRef: Fault,             // creating the upgrade branch
    probes: map<string, Fault>,   // reading a candidate file, by path (absent: Healthy)
    writes: map<string, Fault>,   // writing a file, by path (absent: Healthy)
    pull: Fault,                  // opening the pull request
    prUrl: string,                // the `html_url` the host gives the new pull request
    insertFails: bool,            // the record store rejects the audit row
    encodeError: string)          // the message `btoa` throws on a character outside Latin-1

  function FaultOf(m: map<string, Fault>, path: string): Fault
  {
    if path in m then m[path] else Healthy
  }

  // ---------------------------------------------------------------------
  // The hosting API

  datatype Slug = Slug(owner: string, repo: string)

  datatype Blob = Blob(content: string, sha: string)

  /** A file to write: its path, its new content and the sha of the blob it replaces. */
  datatype FileEntry = FileEntry(path: string, content: string, sha: string)

  datatype Commit = Commit(branch: string, path: string, message: string, content: string, sha: string)

  datatype PullRequest = PullRequest(number: nat, url: string, title: string, head: string, base: string, body: string)

  /** The requests the handler sends to the hosting API, in the order it sends them. */
  datatype ApiCall =
    | GetRef(slug: Slug, branch: string)
    | CreateRef(slug: Slug, ref: string, sha: string)
    | GetContents(slug: Slug, path: string)
    | PutContents(slug: Slug, path: string, branch: string, sha: string)
    | CreatePull(slug: Slug, title: string, head: string, base: string)

  /** The repository as the hosting API holds it. */
  datatype HostState = HostState(
    refs: map<string, string>,    // branch name to head sha
    files: map<string, Blob>,     // the default branch's files, by path
    commits: seq<Commit>,         // files written, oldest first
    pulls: seq<PullRequest>,      // pull requests, oldest first
    calls: seq<ApiCall>)          // every request received, oldest first

  /** Reading a branch head: a missing branch is answered 404. */
  function ReadRef(h: HostState, slug: Slug, branch: string, f: Fault): (HostState, Reply<string>)
  {
    var h' := h.(calls := h.calls + [GetRef(slug, branch)]);
    match f
    case Healthy => (h', if branch in h.refs then Done(h.refs[branch]) else Refused("Not Found"))
    case HttpError(t) => (h', Refused(t))
    case Thrown(m) => (h', Raised(m))
  }

  /** Creating a branch: an existing branch name is answered 422. */
  function MakeRef(h: HostState, slug: Slug, branch: string, sha: string, f: Fault): (HostState, Reply<()>)
  {
    var h' := h.(calls := h.calls + [CreateRef(slug, "refs/heads/" + branch, sha)]);
    match f
    case Healthy =>
      if branch in h.refs then (h', Refused("Unprocessable Entity"))
      else (h'.(refs := h.refs[branch := sha]), Done(()))
    case HttpError(t) => (h', Refused(t))
    case Thrown(m) => (h', Raised(m))
  }

  /** `getFileIfExists`: any failure, whatever its kind, reads as "no such file". */
  function Fetch(h: HostState, slug: Slug, path: string, f: Fault): (HostState, Option<FileEntry>)
  {
    var h' := h.(calls := h.calls + [GetContents(slug, path)]);
    if f.Healthy? && path in h.files then (h', Some(FileEntry(path, h.files[path].content, h.files[path].sha)))
    else (h', None)
  }

  function CommitOf(branch: string, file: FileEntry): Commit
  {
    Commit(branch, file.path, "Update " + file.path + " for version upgrade", file.content, file.sha)
  }

  /** Every character fits in one byte, as `btoa` requires. */
  predicate Latin1(s: string)
  {
    forall i :: 0 <= i < |s| ==> s[i] <= '\U{FF}'
  }

  /**
   * `updateFile`: one file written to the branch.  The content is
   * base64-encoded while the request is built, so content `btoa` refuses
   * raises `encodeError` before anything is sent.
   */
  function Put(h: HostState, slug: Slug, branch: string, file: FileEntry, f: Fault, encodeError: string)
    : (HostState, Reply<()>)
  {
    if !Latin1(file.content) then (h, Raised(encodeError))
    else
    var h' := h.(calls := h.calls + [PutContents(slug, file.path, branch, file.sha)]);
    match f
    case Healthy => (h'.(commits := h.commits + [CommitOf(branch, file)]), Done(()))
    case HttpError(t) => (h', Refused(t))
    case Thrown(m) => (h', Raised(m))
  }

  /** Opening a pull request: the host numbers pull requests from 1. */
  function OpenPull(h: HostState, slug: Slug, title: string, head: string, base: string, body: string,
                    f: Fault, url: string): (HostState, Reply<PullRequest>)
  {
    var h' := h.(calls := h.calls + [CreatePull(slug, title, head, base)]);
    match f
    case Healthy =>
      var pr := PullRequest(|h.pulls| + 1, url, title, head, base, body);
      (h'.(pulls := h.pulls + [pr]), Done(pr))
    case HttpError(t) => (h', Refused(t))
    case Thrown(m) => (h', Raised(m))
  }

  class Host {
    var refs: map<string, string>
    var files: map<string, Blob>
    var commits: seq<Commit>
    var pulls: seq<PullRequest>
    var calls: seq<ApiCall>

    function State(): HostState
      reads this
    {
      HostState(refs, files, commits, pulls, calls)
    }

    constructor (refs: map<string, string>, files: map<string, Blob>)
      ensures State() == HostState(refs, files, [], [], [])
    {
      this.refs := refs;
      this.files := files;
      commits := [];
      pulls := [];
      calls := [];
    }

    method GetBranchHead(slug: Slug, branch: string, f: Fault) returns (r: Reply<string>)
      modifies this
      ensures (State(), r) == ReadRef(old(State()), slug, branch, f)
    {
      calls := calls + [GetRef(slug, branch)];
      match f
      case Healthy => r := if branch in refs then Done(refs[branch]) else Refused("Not Found");
      case HttpError(t) => r := Refused(t);
      case Thrown(m) => r := Raised(m);
    }

    method CreateBranch(slug: Slug, branch: string, sha: string, f: Fault) returns (r: Reply<()>)
      modifies this
      ensures (State(), r) == MakeRef(old(State()), slug, branch, sha, f)
    {
      calls := calls + [CreateRef(slug, "refs/heads/" + branch, sha)];
      match f
      case Healthy =>
        if branch in refs {
          r := Refused("Unprocessable Entity");
        } else {
          refs := refs[branch := sha];
          r := Done(());
        }
      case HttpError(t) => r := Refused(t);
      case Thrown(m) => r := Raised(m);
    }

    method GetFileIfExists(slug: Slug, path: string, f: Fault) returns (r: Option<FileEntry>)
      modifies this
      ensures (State(), r) == Fetch(old(State()), slug, path, f)
    {
      calls := calls + [GetContents(slug, path)];
      if f.Healthy? && path in files {
        r := Some(FileEntry(path, files[path].content, files[path].sha));
      } else {
        r := None;
      }
    }

    method UpdateFile(slug: Slug, branch: string, file: FileEntry, f: Fault, encodeError: string)
      returns (r: Reply<()>)
      modifies this
      ensures (State(), r) == Put(old(State()), slug, branch, file, f, encodeError)
    {
      if !Latin1(file.content) {
        return Raised(encodeError);
      }
      calls := calls + [PutContents(slug, file.path, branch, file.sha)];
      match f
      case Healthy =>
        commits := commits + [CommitOf(branch, file)];
        r := Done(());
      case HttpError(t) => r := Refused(t);
      case Thrown(m) => r := Raised(m);
    }

    method CreatePullRequest(slug: Slug, title: string, head: string, base: string, body: string,
                             f: Fault, url: string) returns (r: Reply<PullRequest>)
      modifies this
      ensures (State(), r) == OpenPull(old(State()), slug, title, head, base, body, f, url)
    {
      calls := calls + [CreatePull(slug, title, head, base)];
      match f
      case Healthy =>
        var pr := PullRequest(|pulls| + 1, url, title, head, base, body);
        pulls := pulls + [pr];
        r := Done(pr);
      case HttpError(t) => r := Refused(t);
      case Thrown(m) => r := Raised(m);
    }
  }

  // ---------------------------------------------------------------------
  // The record store

  datatype RepositoryRow = RepositoryRow(id: string, fullName: string, defaultBranch: string)

  datatype AuditMetadata = AuditMetadata(
    technology: string, targetVersion: string, branchName: string, prNumber: nat, prUrl: string)

  datatype ScanResult = ScanResult(
    repositoryId: string, scanType: string, title: string, description: string,
    status: string, metadata: AuditMetadata)

  datatype StoreState = StoreState(repositories: map<string, RepositoryRow>, scanResults: seq<ScanResult>)

  /** The repository query: an error and a missing row both give nothing. */
  function Lookup(st: StoreState, id: string, fails: bool): (r: Option<RepositoryRow>)
    ensures r.Some? <==> !fails && id in st.repositories
    ensures r.Some? ==> r.value == st.repositories[id]
  {
    if fails || id !in st.repositories then None else Some(st.repositories[id])
  }

  /** Inserting an audit row: a rejected insert leaves the table as it was. */
  function Insert(st: StoreState, row: ScanResult, fails: bool): StoreState
  {
    if fails then st else st.(scanResults := st.scanResults + [row])
  }

  class RecordStore {
    var repositories: map<string, RepositoryRow>
    var scanResults: seq<ScanResult>

    function State(): StoreState
      reads this
    {
      StoreState(repositories, scanResults)
    }

    constructor (repositories: map<string, RepositoryRow>)
      ensures State() == StoreState(repositories, [])
    {
      this.repositories := repositories;
      scanResults := [];
    }

    method FindRepository(id: string, fails: bool) returns (r: Option<RepositoryRow>)
      ensures r == Lookup(State(), id, fails)
    {
      if fails || id !in repositories {
        r := None;
      } else {
        r := Some(repositories[id]);
      }
    }

    method InsertScanResult(row: ScanResult, fails: bool)
      modifies this
      ensures State() == Insert(old(State()), row, fails)
    {
      if !fails {
        scanResults := scanResults + [row];
      }
    }
  }

  // ---------------------------------------------------------------------
  // Choosing and rewriting the files

  /** The files probed for each technology, in probing order. */
  function Probes(technology: string): seq<string>
  {
    if technology == "Java" then ["pom.xml", "build.gradle"]
    else if technology == "Angular" then ["package.json"]
    else if technology == "Python" then ["requirements.txt", "pyproject.toml"]
    else []
  }

  /** The rewrite applied to a probed file; only the package.json rewrite can fail. */
  function Rewrite(path: string, content: string, v: string, codec: JsonCodec): Result<string>
  {
    if path == "pom.xml" then Ok(UpdateJavaVersion(content, v))
    else if path == "build.gradle" then Ok(UpdateJavaVersionInGradle(content, v))
    else if path == "package.json" then AngularRewrite(content, v, codec)
    else if path == "requirements.txt" then Ok(UpdatePythonVersion(content, v))
    else Ok(UpdatePythonVersionInPyproject(content, v))
  }

  /** A rewrite of a file's content, chosen by its path. */
  type Rewriter = (string, string) -> Result<string>

  /** The rewrites of one upgrade, to version `v`. */
  function Rewrites(v: string, codec: JsonCodec): Rewriter
  {
    (path, content) => Rewrite(path, content, v, codec)
  }

  /**
   * Probing `paths` in order, pushing every file found, rewritten, onto
   * `acc`; a rewrite that throws ends the probing.
   */
  function Collect(h: HostState, slug: Slug, paths: seq<string>, acc: seq<FileEntry>, rewrite: Rewriter,
                   faults: Faults): (HostState, Result<seq<FileEntry>>)
    decreases |paths|
  {
    if paths == [] then (h, Ok(acc))
    else
      var (h1, found) := Fetch(h, slug, paths[0], FaultOf(faults.probes, paths[0]));
      match found
      case None => Collect(h1, slug, paths[1..], acc, rewrite, faults)
      case Some(file) =>
        match rewrite(file.path, file.content)
        case Err(m) => (h1, Err(m))
        case Ok(content) => Collect(h1, slug, paths[1..], acc + [file.(content := content)], rewrite, faults)
  }

  /** The paths among `paths` whose probe finds a file. */
  function Found(h: HostState, paths: seq<string>, faults: Faults): (r: seq<string>)
    ensures forall k :: 0 <= k < |r| ==> r[k] in h.files
    decreases |paths|
  {
    if paths == [] then []
    else if FaultOf(faults.probes, paths[0]).Healthy? && paths[0] in h.files then [paths[0]] + Found(h, paths[1..], faults)
    else Found(h, paths[1..], faults)
  }

  /** One read request per path, in order. */
  function ProbeCalls(slug: Slug, paths: seq<string>): (r: seq<ApiCall>)
    ensures |r| == |paths|
  {
    if paths == [] then [] else [GetContents(slug, paths[0])] + ProbeCalls(slug, paths[1..])
  }

  /** File selection probes every path, in order, and changes nothing else on the host. */
  lemma {:induction false} CollectProbesAll(h: HostState, slug: Slug, paths: seq<string>, acc: seq<FileEntry>,
                                            rewrite: Rewriter, faults: Faults)
    requires Collect(h, slug, paths, acc, rewrite, faults).1.Ok?
    ensures Collect(h, slug, paths, acc, rewrite, faults).0 == h.(calls := h.calls + ProbeCalls(slug, paths))
    decreases |paths|
  {
    if paths == [] {
      assert h.calls + ProbeCalls(slug, paths) == h.calls;
    } else {
      var (h1, file) := Fetch(h, slug, paths[0], FaultOf(faults.probes, paths[0]));
      var acc' := if file.None? then acc else acc + [file.value.(content := rewrite(file.value.path, file.value.content).value)];
      assert Collect(h, slug, paths, acc, rewrite, faults) == Collect(h1, slug, paths[1..], acc', rewrite, faults);
      CollectProbesAll(h1, slug, paths[1..], acc', rewrite, faults);
      ProbeStep(h.calls, slug, paths);
    }
  }

  /** File selection only reads: whatever its outcome, branches, files, commits and pull requests are as they were. */
  lemma {:induction false} CollectReadsOnly(h: HostState, slug: Slug, paths: seq<string>, acc: seq<FileEntry>,
                                            rewrite: Rewriter, faults: Faults)
    ensures var h' := Collect(h, slug, paths, acc, rewrite, faults).0;
      h'.refs == h.refs && h'.files == h.files && h'.commits == h.commits && h'.pulls == h.pulls
    decreases |paths|
  {
    if paths != [] {
      var (h1, file) := Fetch(h, slug, paths[0], FaultOf(faults.probes, paths[0]));
      if file.None? {
        CollectReadsOnly(h1, slug, paths[1..], acc, rewrite, faults);
      } else if rewrite(file.value.path, file.value.content).Ok? {
        var acc' := acc + [file.value.(content := rewrite(file.value.path, file.value.content).value)];
        CollectReadsOnly(h1, slug, paths[1..], acc', rewrite, faults);
      }
    }
  }

  /** One probe more, seen from the calls made so far. */
  lemma ProbeStep(calls: seq<ApiCall>, slug: Slug, paths: seq<string>)
    requires paths != []
    ensures (calls + [GetContents(slug, paths[0])]) + ProbeCalls(slug, paths[1..]) == calls + ProbeCalls(slug, paths)
  {
    var call := GetContents(slug, paths[0]);
    assert ProbeCalls(slug, paths) == [call] + ProbeCalls(slug, paths[1..]);
  }

  /** A probed file as it is pushed: its own path, the sha it was read with, and its rewritten content. */
  predicate Pushed(h: HostState, path: string, entry: FileEntry, rewrite: Rewriter)
  {
    && path in h.files
    && entry.path == path
    && entry.sha == h.files[path].sha
    && rewrite(path, h.files[path].content) == Ok(entry.content)
  }

  /**
   * File selection keeps exactly the files found, in probing order, each
   * rewritten, even when the rewrite changes nothing.
   */
  lemma {:induction false} CollectKeepsFound(h: HostState, slug: Slug, paths: seq<string>, acc: seq<FileEntry>,
                                             rewrite: Rewriter, faults: Faults)
    requires Collect(h, slug, paths, acc, rewrite, faults).1.Ok?
    ensures var r, found := Collect(h, slug, paths, acc, rewrite, faults).1.value, Found(h, paths, faults);
      && |r| == |acc| + |found|
      && r[..|acc|] == acc
      && forall k :: 0 <= k < |found| ==> Pushed(h, found[k], r[|acc| + k], rewrite)
    decreases |paths|
  {
    if paths != [] {
      var (h1, file) := Fetch(h, slug, paths[0], FaultOf(faults.probes, paths[0]));
      FoundSameFiles(h1, h, paths[1..], faults);
      if file.None? {
        assert Collect(h, slug, paths, acc, rewrite, faults) == Collect(h1, slug, paths[1..], acc, rewrite, faults);
        assert Found(h, paths, faults) == Found(h, paths[1..], faults);
        CollectKeepsFound(h1, slug, paths[1..], acc, rewrite, faults);
      } else {
        var rw := rewrite(file.value.path, file.value.content);
        assert rw.Ok?;
        var acc' := acc + [file.value.(content := rw.value)];
        assert Collect(h, slug, paths, acc, rewrite, faults) == Collect(h1, slug, paths[1..], acc', rewrite, faults);
        assert Found(h, paths, faults) == [paths[0]] + Found(h, paths[1..], faults);
        CollectKeepsFound(h1, slug, paths[1..], acc', rewrite, faults);
        var r := Collect(h, slug, paths, acc, rewrite, faults).1.value;
        assert r[..|acc'|][..|acc|] == r[..|acc|];
        assert r[|acc|] == r[..|acc'|][|acc|];
        assert Pushed(h, paths[0], r[|acc|], rewrite);
      }
    }
  }

  lemma {:induction false} FoundSameFiles(h1: HostState, h2: HostState, paths: seq<string>, faults: Faults)
    requires h1.files == h2.files
    ensures Found(h1, paths, faults) == Found(h2, paths, faults)
    decreases |paths|
  {
    if paths != [] {
      FoundSameFiles(h1, h2, paths[1..], faults);
    }
  }

  /** The probes of a technology outside the table: none, so no file is written. */
  lemma UnknownTechnologyProbesNothing(h: HostState, slug: Slug, technology: string, v: string,
                                       faults: Faults, codec: JsonCodec)
    requires technology != "Java" && technology != "Angular" && technology != "Python"
    ensures Collect(h, slug, Probes(technology), [], Rewrites(v, codec), faults) == (h, Ok([]))
  {
  }

  /** `getFilesToUpdate`: the technology's files, probed in order, each found one rewritten and pushed. */
  method GetFilesToUpdate(host: Host, slug: Slug, technology: string, v: string, faults: Faults, codec: JsonCodec)
    returns (r: Result<seq<FileEntry>>)
    modifies host
    ensures (host.State(), r) == Collect(old(host.State()), slug, Probes(technology), [], Rewrites(v, codec), faults)
  {
    if technology == "Java" {
      r := GetJavaFiles(host, slug, v, faults, codec);
    } else if technology == "Angular" {
      r := GetAngularFiles(host, slug, v, faults, codec);
    } else if technology == "Python" {
      r := GetPythonFiles(host, slug, v, faults, codec);
    } else {
      r := Ok([]);
    }
  }

  /** The Java branch of `getFilesToUpdate`: pom.xml, then build.gradle. */
  method GetJavaFiles(host: Host, slug: Slug, v: string, faults: Faults, codec: JsonCodec)
    returns (r: Result<seq<FileEntry>>)
    modifies host
    ensures (host.State(), r) == Collect(old(host.State()), slug, Probes("Java"), [], Rewrites(v, codec), faults)
  {
    ghost var goal := Collect(host.State(), slug, ["pom.xml", "build.gradle"], [], Rewrites(v, codec), faults);
    var files: seq<FileEntry> := [];
    var pom := host.GetFileIfExists(slug, "pom.xml", FaultOf(faults.probes, "pom.xml"));
    if pom.Some? {
      files := files + [pom.value.(content := UpdateJavaVersion(pom.value.content, v))];
    }
    assert goal == Collect(host.State(), slug, ["build.gradle"], files, Rewrites(v, codec), faults);
    var gradle := host.GetFileIfExists(slug, "build.gradle", FaultOf(faults.probes, "build.gradle"));
    if gradle.Some? {
      files := files + [gradle.value.(content := UpdateJavaVersionInGradle(gradle.value.content, v))];
    }
    assert goal == Collect(host.State(), slug, [], files, Rewrites(v, codec), faults);
    r := Ok(files);
  }

  /** The Angular branch of `getFilesToUpdate`: package.json, whose rewrite may throw. */
  method GetAngularFiles(host: Host, slug: Slug, v: string, faults: Faults, codec: JsonCodec)
    returns (r: Result<seq<FileEntry>>)
    modifies host
    ensures (host.State(), r) == Collect(old(host.State()), slug, Probes("Angular"), [], Rewrites(v, codec), faults)
  {
    ghost var goal := Collect(host.State(), slug, ["package.json"], [], Rewrites(v, codec), faults);
    var files: seq<FileEntry> := [];
    var package := host.GetFileIfExists(slug, "package.json", FaultOf(faults.probes, "package.json"));
    if package.Some? {
      var updated := UpdateAngularVersion(package.value.content, v, codec);
      if updated.Err? {
        return Err(updated.message);
      }
      files := files + [package.value.(content := updated.value)];
    }
    assert goal == Collect(host.State(), slug, [], files, Rewrites(v, codec), faults);
    r := Ok(files);
  }

  /** The Python branch of `getFilesToUpdate`: requirements.txt, then pyproject.toml. */
  method GetPythonFiles(host: Host, slug: Slug, v: string, faults: Faults, codec: JsonCodec)
    returns (r: Result<seq<FileEntry>>)
    modifies host
    ensures (host.State(), r) == Collect(old(host.State()), slug, Probes("Python"), [], Rewrites(v, codec), faults)
  {
    ghost var goal := Collect(host.State(), slug, ["requirements.txt", "pyproject.toml"], [], Rewrites(v, codec), faults);
    var files: seq<FileEntry> := [];
    var requirements := host.GetFileIfExists(slug, "requirements.txt", FaultOf(faults.probes, "requirements.txt"));
    if requirements.Some? {
      files := files + [requirements.value.(content := UpdatePythonVersion(requirements.value.content, v))];
    }
    assert goal == Collect(host.State(), slug, ["pyproject.toml"], files, Rewrites(v, codec), faults);
    var pyproject := host.GetFileIfExists(slug, "pyproject.toml", FaultOf(faults.probes, "pyproject.toml"));
    if pyproject.Some? {
      files := files + [pyproject.value.(content := UpdatePythonVersionInPyproject(pyproject.value.content, v))];
    }
    assert goal == Collect(host.State(), slug, [], files, Rewrites(v, codec), faults);
    r := Ok(files);
  }

  // ---------------------------------------------------------------------
  // Writing the files

  /** The error a write reply raises, if any. */
  function WriteFailure(path: string, reply: Reply<()>): Option<string>
  {
    match reply
    case Done(_) => None
    case Refused(t) => Some("Failed to update " + path + ": " + t)
    case Raised(m) => Some(m)
  }

  /** Writing `files` one at a time; the first failure ends the loop. */
  function WriteAll(h: HostState, slug: Slug, branch: string, files: seq<FileEntry>, faults: Faults)
    : (HostState, Option<string>)
    decreases |files|
  {
    if files == [] then (h, None)
    else
      var (h1, failure) := WriteAll(h, slug, branch, files[..|files| - 1], faults);
      if failure.Some? then (h1, failure)
      else
        var file := files[|files| - 1];
        var (h2, reply) := Put(h1, slug, branch, file, FaultOf(faults.writes, file.path), faults.encodeError);
        (h2, WriteFailure(file.path, reply))
  }

  /** The write of `file` succeeds: `btoa` accepts its content and the host accepts the request. */
  predicate WriteSucceeds(file: FileEntry, faults: Faults)
  {
    Latin1(file.content) && FaultOf(faults.writes, file.path).Healthy?
  }

  /** The index of the first file whose write fails, or the number of files. */
  function FirstFailing(files: seq<FileEntry>, faults: Faults): (k: nat)
    ensures k <= |files|
    ensures forall i :: 0 <= i < k ==> WriteSucceeds(files[i], faults)
    ensures k < |files| ==> !WriteSucceeds(files[k], faults)
    decreases |files|
  {
    if files == [] || !WriteSucceeds(files[0], faults) then 0
    else 1 + FirstFailing(files[1..], faults)
  }

  function Commits(branch: string, files: seq<FileEntry>): (r: seq<Commit>)
    ensures |r| == |files|
    ensures forall i :: 0 <= i < |files| ==> r[i] == CommitOf(branch, files[i])
  {
    seq(|files|, i requires 0 <= i < |files| => CommitOf(branch, files[i]))
  }

  function PutCalls(slug: Slug, branch: string, files: seq<FileEntry>): (r: seq<ApiCall>)
    ensures |r| == |files|
    ensures forall i :: 0 <= i < |files| ==> r[i] == PutContents(slug, files[i].path, branch, files[i].sha)
  {
    seq(|files|, i requires 0 <= i < |files| => PutContents(slug, files[i].path, branch, files[i].sha))
  }

  /** What the write of `file` replies, given how the call turns out. */
  function WriteReply(file: FileEntry, faults: Faults): Reply<()>
  {
    if !Latin1(file.content) then Raised(faults.encodeError)
    else match FaultOf(faults.writes, file.path)
      case Healthy => Done(())
      case HttpError(t) => Refused(t)
      case Thrown(m) => Raised(m)
  }

  /** The request a write sends: none when `btoa` refuses the content. */
  function Sent(slug: Slug, branch: string, file: FileEntry): (r: seq<ApiCall>)
    ensures |r| <= 1
  {
    if Latin1(file.content) then [PutContents(slug, file.path, branch, file.sha)] else []
  }

  /**
   * The writes in closed form: the files before the first failing one are
   * committed in order, the failing one is attempted (its request is sent
   * unless `btoa` refuses the content) and its error is the result, no later
   * file is touched, and nothing but commits and calls changes.
   */
  function WritesStopAtFirstFailure(h: HostState, slug: Slug, branch: string, files: seq<FileEntry>, faults: Faults)
    : (HostState, Option<string>)
  {
    var k := FirstFailing(files, faults);
    if k == |files| then
      (h.(commits := h.commits + Commits(branch, files), calls := h.calls + PutCalls(slug, branch, files)), None)
    else
      (h.(commits := h.commits + Commits(branch, files[..k]), calls := h.calls + PutCalls(slug, branch, files[..k]) + Sent(slug, branch, files[k])),
       WriteFailure(files[k].path, WriteReply(files[k], faults)))
  }

  /** The write loop stops at the first failing write. */
  lemma {:induction false} WriteAllStops(h: HostState, slug: Slug, branch: string, files: seq<FileEntry>, faults: Faults)
    ensures WriteAll(h, slug, branch, files, faults) == WritesStopAtFirstFailure(h, slug, branch, files, faults)
    decreases |files|
  {
    if files == [] {
      assert h.commits + Commits(branch, files) == h.commits;
      assert h.calls + PutCalls(slug, branch, files) == h.calls;
    } else {
      var init := files[..|files| - 1];
      WriteAllStops(h, slug, branch, init, faults);
      FirstFailingPrefix(files, faults);
      if FirstFailing(init, faults) < |init| {
        StopsEarlier(h, slug, branch, files, faults);
      } else {
        StopsAtLast(h, slug, branch, files, faults);
      }
    }
  }

  /**
   * When the first failing write fails because `btoa` refuses its content,
   * no request is sent for it: only the writes before it reach the host, and
   * the loop fails with the encoder's message.
   */
  lemma UnencodableWriteUnsent(h: HostState, slug: Slug, branch: string, files: seq<FileEntry>, faults: Faults)
    requires FirstFailing(files, faults) < |files|
    requires !Latin1(files[FirstFailing(files, faults)].content)
    ensures var k := FirstFailing(files, faults);
      && WriteAll(h, slug, branch, files, faults).0.calls == h.calls + PutCalls(slug, branch, files[..k])
      && WriteAll(h, slug, branch, files, faults).0.commits == h.commits + Commits(branch, files[..k])
      && WriteAll(h, slug, branch, files, faults).1 == Some(faults.encodeError)
  {
    WriteAllStops(h, slug, branch, files, faults);
    var k := FirstFailing(files, faults);
    assert Sent(slug, branch, files[k]) == [];
  }

  /** `WriteAllStops` when a write before the last one fails. */
  lemma StopsEarlier(h: HostState, slug: Slug, branch: string, files: seq<FileEntry>, faults: Faults)
    requires files != []
    requires var init := files[..|files| - 1];
      && FirstFailing(init, faults) < |init|
      && FirstFailing(files, faults) == FirstFailing(init, faults)
      && WriteAll(h, slug, branch, init, faults) == WritesStopAtFirstFailure(h, slug, branch, init, faults)
    ensures WriteAll(h, slug, branch, files, faults) == WritesStopAtFirstFailure(h, slug, branch, files, faults)
  {
    var init := files[..|files| - 1];
    var k := FirstFailing(files, faults);
    assert files[..k] == init[..k];
    assert files[..k + 1] == init[..k + 1];
    assert files[k] == init[k];
  }

  /** `WriteAllStops` when every write before the last one succeeds. */
  lemma StopsAtLast(h: HostState, slug: Slug, branch: string, files: seq<FileEntry>, faults: Faults)
    requires files != []
    requires var init := files[..|files| - 1];
      && FirstFailing(init, faults) == |init|
      && (FirstFailing(files, faults) == |files| <==> WriteSucceeds(files[|files| - 1], faults))
      && (FirstFailing(files, faults) < |files| ==> FirstFailing(files, faults) == |init|)
      && WriteAll(h, slug, branch, init, faults) == WritesStopAtFirstFailure(h, slug, branch, init, faults)
    ensures WriteAll(h, slug, branch, files, faults) == WritesStopAtFirstFailure(h, slug, branch, files, faults)
  {
    var init := files[..|files| - 1];
    var last := files[|files| - 1];
    var k := FirstFailing(files, faults);
    assert init[..|init|] == init;
    var h1 := h.(commits := h.commits + Commits(branch, init), calls := h.calls + PutCalls(slug, branch, init));
    assert WriteAll(h, slug, branch, init, faults) == (h1, None);
    CommitsSnoc(branch, files);
    PutCallsSnoc(slug, branch, files);
    var call := PutContents(slug, last.path, branch, last.sha);
    assert h1.calls + [call] == h.calls + PutCalls(slug, branch, files);
    if k < |files| {
      assert files[..k] == init;
      assert files[k] == last;
      var put := Put(h1, slug, branch, last, FaultOf(faults.writes, last.path), faults.encodeError);
      assert put.1 == WriteReply(last, faults);
      assert put.0 == h1.(calls := h1.calls + Sent(slug, branch, last));
    } else {
      assert h1.commits + [CommitOf(branch, last)] == h.commits + Commits(branch, files);
    }
  }

  lemma CommitsSnoc(branch: string, files: seq<FileEntry>)
    requires files != []
    ensures Commits(branch, files) == Commits(branch, files[..|files| - 1]) + [CommitOf(branch, files[|files| - 1])]
  {
  }

  lemma PutCallsSnoc(slug: Slug, branch: string, files: seq<FileEntry>)
    requires files != []
    ensures var last := files[|files| - 1];
      PutCalls(slug, branch, files) == PutCalls(slug, branch, files[..|files| - 1]) + [PutContents(slug, last.path, branch, last.sha)]
  {
  }

  /** The first failing write of a list is found in its prefix, or is the last file, or there is none. */
  lemma FirstFailingPrefix(files: seq<FileEntry>, faults: Faults)
    requires files != []
    ensures var init := files[..|files| - 1];
      var k, k0 := FirstFailing(files, faults), FirstFailing(init, faults);
      && (k0 < |init| ==> k == k0)
      && (k0 == |init| ==> (k == |files| <==> WriteSucceeds(files[|files| - 1], faults)))
      && (k0 == |init| && k < |files| ==> k == |init|)
  {
    var init := files[..|files| - 1];
    assert forall i :: 0 <= i < |init| ==> files[i] == init[i];
  }

  /** A failure in a prefix of the writes is the failure of the whole list. */
  lemma {:induction false} WriteAllFailedPrefix(h: HostState, slug: Slug, branch: string, files: seq<FileEntry>,
                                                 n: nat, faults: Faults)
    requires n <= |files| && WriteAll(h, slug, branch, files[..n], faults).1.Some?
    ensures WriteAll(h, slug, branch, files, faults) == WriteAll(h, slug, branch, files[..n], faults)
    decreases |files| - n
  {
    if n < |files| {
      assert files[..|files| - 1][..n] == files[..n];
      WriteAllFailedPrefix(h, slug, branch, files[..|files| - 1], n, faults);
    } else {
      assert files[..n] == files;
    }
  }

  /** The `for` loop of the handler: the files written one at a time until one fails. */
  method WriteFiles(host: Host, slug: Slug, branch: string, files: seq<FileEntry>, faults: Faults)
    returns (failure: Option<string>)
    modifies host
    ensures (host.State(), failure) == WriteAll(old(host.State()), slug, branch, files, faults)
  {
    ghost var h := host.State();
    var i := 0;
    while i < |files|
      invariant 0 <= i <= |files|
      invariant host.State() == WriteAll(h, slug, branch, files[..i], faults).0
      invariant WriteAll(h, slug, branch, files[..i], faults).1.None?
    {
      var reply := host.UpdateFile(slug, branch, files[i], FaultOf(faults.writes, files[i].path), faults.encodeError);
      assert files[..i + 1][..i] == files[..i];
      failure := WriteFailure(files[i].path, reply);
      if failure.Some? {
        WriteAllFailedPrefix(h, slug, branch, files, i + 1, faults);
        return;
      }
      i := i + 1;
    }
    assert files[..i] == files;
    failure := None;
  }

  // ---------------------------------------------------------------------
  // The request

  datatype UpgradeRequest = UpgradeRequest(repositoryId: string, technology: string, targetVersion: string)

  /** The JSON body of the response; `success` is `true` exactly for `Succeeded`. */
  datatype Response =
    | Succeeded(pullRequestUrl: string, pullRequestNumber: nat, branchName: string, message: string)
    | Failed(error: string)

  function Status(r: Response): nat
  {
    if r.Succeeded? then 200 else 500
  }

  datatype Outcome = Outcome(response: Response, host: HostState, store: StoreState)

  /** `upgrade/{technology in lower case}-{version}-{milliseconds}`. */
  function BranchName(technology: string, v: string, now: nat): string
  {
    "upgrade/" + LowerStr(technology) + "-" + v + "-" + Decimal(now)
  }

  /** `const [owner, repo] = full_name.split('/')`: a missing piece renders as `undefined`. */
  function SlugOf(fullName: string): Slug
  {
    Slug(Render(Piece(fullName, '/', 0)), Render(Piece(fullName, '/', 1)))
  }

  function PrTitle(technology: string, v: string): string
  {
    "Upgrade " + technology + " to version " + v
  }

  /** The paths of the files to write, in order. */
  function Paths(files: seq<FileEntry>): (r: seq<string>)
    ensures |r| == |files|
    ensures forall i :: 0 <= i < |files| ==> r[i] == files[i].path
  {
    seq(|files|, i requires 0 <= i < |files| => files[i].path)
  }

  /** One line per written file, joined by newlines; no files give the empty string. */
  function ChangeList(paths: seq<string>): string
    decreases |paths|
  {
    if paths == [] then ""
    else if |paths| == 1 then "- Updated `" + paths[0] + "`"
    else "- Updated `" + paths[0] + "`\n" + ChangeList(paths[1..])
  }

  /** The fixed sections of the pull request description. */
  const Heading := "## Version Upgrade\n\nThis PR upgrades "
  const ChangesHeading := "### Changes Made:\n"
  const NextSteps := "### Next Steps:\n1. Review the changes carefully\n2. Test the upgrade in a development environment\n3. Merge this PR when ready\n\n"
  const Notes := "### Notes:\n- This upgrade was automatically generated\n- Please verify all dependencies are compatible\n- Consider running tests before merging"

  function PrBody(technology: string, v: string, paths: seq<string>): string
  {
    Heading + technology + " from the current version to " + v + ".\n\n"
    + ChangesHeading + ChangeList(paths) + "\n\n"
    + NextSteps + Notes
  }

  function AuditRow(req: UpgradeRequest, branch: string, pr: PullRequest): ScanResult
  {
    ScanResult(req.repositoryId, "version_upgrade",
      req.technology + " upgrade to " + req.targetVersion,
      "Automated upgrade of " + req.technology + " to version " + req.targetVersion,
      "open",
      AuditMetadata(req.technology, req.targetVersion, branch, pr.number, pr.url))
  }

  function SuccessMessage(technology: string, v: string, number: nat): string
  {
    "Successfully created pull request #" + Decimal(number) + " for " + technology + " upgrade to " + v
  }

  /** The message of a failed remote step: its status text after a prefix, or the thrown message as is. */
  function StepError<T>(prefix: string, reply: Reply<T>): string
  {
    match reply
    case Done(_) => ""
    case Refused(t) => prefix + t
    case Raised(m) => m
  }

  /** The steps after the pull request has been opened. */
  function Finish(req: UpgradeRequest, branch: string, pr: PullRequest, faults: Faults, h: HostState, st: StoreState): Outcome
  {
    Outcome(
      Succeeded(pr.url, pr.number, branch, SuccessMessage(req.technology, req.targetVersion, pr.number)),
      h, Insert(st, AuditRow(req, branch, pr), faults.insertFails))
  }

  /** The steps after the branch has been created: the files are chosen and rewritten. */
  function AfterBranch(req: UpgradeRequest, row: RepositoryRow, slug: Slug, branch: string, faults: Faults,
                       rewrite: Rewriter, h: HostState, st: StoreState): Outcome
  {
    var (h1, collected) := Collect(h, slug, Probes(req.technology), [], rewrite, faults);
    match collected
    case Err(m) => Outcome(Failed(m), h1, st)
    case Ok(files) => AfterCollect(req, row, slug, branch, faults, files, h1, st)
  }

  /** The steps once the files are chosen: they are written to the branch. */
  function AfterCollect(req: UpgradeRequest, row: RepositoryRow, slug: Slug, branch: string, faults: Faults,
                        files: seq<FileEntry>, h: HostState, st: StoreState): Outcome
  {
    var written := WriteAll(h, slug, branch, files, faults);
    if written.1.Some? then Outcome(Failed(written.1.value), written.0, st)
    else AfterWrites(req, row, slug, branch, faults, PrBody(req.technology, req.targetVersion, Paths(files)), written.0, st)
  }

  /** The steps once every file is written: the pull request, with description `body`, is opened. */
  function AfterWrites(req: UpgradeRequest, row: RepositoryRow, slug: Slug, branch: string, faults: Faults,
                       body: string, h: HostState, st: StoreState): Outcome
  {
    var (h1, pr) := OpenPull(h, slug, PrTitle(req.technology, req.targetVersion), branch, row.defaultBranch,
                             body, faults.pull, faults.prUrl);
    match pr
    case Done(p) => Finish(req, branch, p, faults, h1, st)
    case _ => Outcome(Failed(StepError("Failed to create pull request: ", pr)), h1, st)
  }

  /**
   * The whole request, step by step; `now` is the clock reading used in the
   * branch name and `rewrite` the rewrite of each probed file, which the
   * handler takes from `Rewrites`.
   */
  function Run(req: UpgradeRequest, token: Option<string>, now: nat, faults: Faults, rewrite: Rewriter,
               h: HostState, st: StoreState): Outcome
  {
    if token.None? || token.value == "" then Outcome(Failed("GitHub token not configured"), h, st)
    else match Lookup(st, req.repositoryId, faults.lookupFails)
    case None => Outcome(Failed("Repository not found"), h, st)
    case Some(row) =>
      WithRow(req, row, SlugOf(row.fullName), BranchName(req.technology, req.targetVersion, now), faults, rewrite, h, st)
  }

  /** The steps once the repository row is known: the upgrade branch is made from the default branch head. */
  function WithRow(req: UpgradeRequest, row: RepositoryRow, slug: Slug, branch: string, faults: Faults,
                   rewrite: Rewriter, h: HostState, st: StoreState): Outcome
  {
    var (h1, head) := ReadRef(h, slug, row.defaultBranch, faults.head);
    match head
    case Done(baseSha) =>
      var (h2, made) := MakeRef(h1, slug, branch, baseSha, faults.createRef);
      if made.Done? then AfterBranch(req, row, slug, branch, faults, rewrite, h2, st)
      else Outcome(Failed(StepError("Failed to create branch: ", made)), h2, st)
    case _ => Outcome(Failed(StepError("Failed to get branch info: ", head)), h1, st)
  }

  /** The request handler. */
  method CreateUpgradePr(req: UpgradeRequest, token: Option<string>, now: nat, faults: Faults, codec: JsonCodec,
                         host: Host, store: RecordStore) returns (response: Response)
    modifies host, store
    ensures var out := Run(req, token, now, faults, Rewrites(req.targetVersion, codec), old(host.State()), old(store.State()));
      response == out.response && host.State() == out.host && store.State() == out.store
  {
    if token.None? || token.value == "" {
      return Failed("GitHub token not configured");
    }
    var repository := store.FindRepository(req.repositoryId, faults.lookupFails);
    if repository.None? {
      return Failed("Repository not found");
    }
    var row := repository.value;
    var branch := BranchName(req.technology, req.targetVersion, now);
    var slug := SlugOf(row.fullName);

    var head := host.GetBranchHead(slug, row.defaultBranch, faults.head);
    if !head.Done? {
      return Failed(StepError("Failed to get branch info: ", head));
    }
    var made := host.CreateBranch(slug, branch, head.value, faults.createRef);
    if !made.Done? {
      return Failed(StepError("Failed to create branch: ", made));
    }
    response := UpgradeBranch(req, row, slug, branch, faults, codec, host, store);
  }

  /** The handler from the file probes on, once the branch exists. */
  method UpgradeBranch(req: UpgradeRequest, row: RepositoryRow, slug: Slug, branch: string, faults: Faults,
                       codec: JsonCodec, host: Host, store: RecordStore) returns (response: Response)
    modifies host, store
    ensures var out := AfterBranch(req, row, slug, branch, faults, Rewrites(req.targetVersion, codec),
                                   old(host.State()), old(store.State()));
      response == out.response && host.State() == out.host && store.State() == out.store
  {
    var collected := GetFilesToUpdate(host, slug, req.technology, req.targetVersion, faults, codec);
    if collected.Err? {
      return Failed(collected.message);
    }
    response := WriteAndOpen(req, row, slug, branch, faults, collected.value, host, store);
  }

  /** The handler's write loop and what follows it. */
  method WriteAndOpen(req: UpgradeRequest, row: RepositoryRow, slug: Slug, branch: string, faults: Faults,
                      files: seq<FileEntry>, host: Host, store: RecordStore) returns (response: Response)
    modifies host, store
    ensures var out := AfterCollect(req, row, slug, branch, faults, files, old(host.State()), old(store.State()));
      response == out.response && host.State() == out.host && store.State() == out.store
  {
    ghost var goal := AfterCollect(req, row, slug, branch, faults, files, host.State(), store.State());
    ghost var written := WriteAll(host.State(), slug, branch, files, faults);
    var failure := WriteFiles(host, slug, branch, files, faults);
    assert host.State() == written.0 && failure == written.1;
    if failure.Some? {
      assert goal == Outcome(Failed(failure.value), host.State(), store.State());
      return Failed(failure.value);
    }
    var body := PrBody(req.technology, req.targetVersion, Paths(files));
    assert goal == AfterWrites(req, row, slug, branch, faults, body, host.State(), store.State());
    response := OpenAndRecord(req, row, slug, branch, faults, body, host, store);
  }

  /** The handler's last steps: the pull request is opened and the upgrade recorded. */
  method OpenAndRecord(req: UpgradeRequest, row: RepositoryRow, slug: Slug, branch: string, faults: Faults,
                       body: string, host: Host, store: RecordStore) returns (response: Response)
    modifies host, store
    ensures var out := AfterWrites(req, row, slug, branch, faults, body, old(host.State()), old(store.State()));
      response == out.response && host.State() == out.host && store.State() == out.store
  {
    var pr := host.CreatePullRequest(slug, PrTitle(req.technology, req.targetVersion), branch, row.defaultBranch,
                                     body, faults.pull, faults.prUrl);
    if !pr.Done? {
      return Failed(StepError("Failed to create pull request: ", pr));
    }
    store.InsertScanResult(AuditRow(req, branch, pr.value), faults.insertFails);
    response := Succeeded(pr.value.url, pr.value.number, branch,
                          SuccessMessage(req.technology, req.targetVersion, pr.value.number));
  }
}
