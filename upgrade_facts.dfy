/**
 * What the upgrade request handler promises, stated over `Run`: each early
 * failure and its message, that a failed request opens no pull request and
 * records nothing, that the write loop stops at the first failing write, and
 * what a successful request leaves behind.
 */
module UpgradeFacts {

  import opened Wrappers
  import opened Text
  import opened UpgradePr
  import Manifests

  /** The first two checks pass: a token is configured and the repository row is found. */
  predicate Admitted(req: UpgradeRequest, token: Option<string>, faults: Faults, st: StoreState)
  {
    token.Some? && token.value != "" && Lookup(st, req.repositoryId, faults.lookupFails).Some?
  }

  // ---------------------------------------------------------------------
  // The stages after the branch exists

  /** Opening the pull request: it succeeds exactly when the host accepts it, and only then is a row recorded. */
  lemma AfterWritesShape(req: UpgradeRequest, row: RepositoryRow, slug: Slug, branch: string, faults: Faults,
                         body: string, h: HostState, st: StoreState)
    ensures var out := AfterWrites(req, row, slug, branch, faults, body, h, st);
      var pr := PullRequest(|h.pulls| + 1, faults.prUrl, PrTitle(req.technology, req.targetVersion),
                            branch, row.defaultBranch, body);
      && out.host.refs == h.refs && out.host.files == h.files && out.host.commits == h.commits
      && (out.response.Succeeded? <==> faults.pull.Healthy?)
      && (faults.pull.Healthy? ==>
            && out.host.pulls == h.pulls + [pr]
            && out.store == Insert(st, AuditRow(req, branch, pr), faults.insertFails)
            && out.response == Succeeded(faults.prUrl, |h.pulls| + 1, branch,
                                         SuccessMessage(req.technology, req.targetVersion, |h.pulls| + 1)))
      && (!faults.pull.Healthy? ==> out.host.pulls == h.pulls && out.store == st)
  {
  }

  /** The write loop: a failing write ends the request before any pull request is opened. */
  lemma AfterCollectShape(req: UpgradeRequest, row: RepositoryRow, slug: Slug, branch: string, faults: Faults,
                          files: seq<FileEntry>, h: HostState, st: StoreState)
    ensures var out := AfterCollect(req, row, slug, branch, faults, files, h, st);
      var k := FirstFailing(files, faults);
      var hw := WriteAll(h, slug, branch, files, faults).0;
      && hw.refs == h.refs && hw.files == h.files && hw.pulls == h.pulls
      && (k < |files| ==>
            && out.response == Failed(WriteFailure(files[k].path, WriteReply(files[k], faults)).value)
            && out.host == hw && out.store == st
            && hw.commits == h.commits + Commits(branch, files[..k]))
      && (k == |files| ==>
            && hw.commits == h.commits + Commits(branch, files)
            && out == AfterWrites(req, row, slug, branch, faults, PrBody(req.technology, req.targetVersion, Paths(files)), hw, st))
  {
    WriteAllStops(h, slug, branch, files, faults);
  }

  /** File selection and what follows: a rewrite that throws ends the request with its message. */
  lemma AfterBranchShape(req: UpgradeRequest, row: RepositoryRow, slug: Slug, branch: string, faults: Faults,
                         rewrite: Rewriter, h: HostState, st: StoreState)
    ensures var out := AfterBranch(req, row, slug, branch, faults, rewrite, h, st);
      && out.host.refs == h.refs && out.host.files == h.files
      && (out.response.Failed? ==> out.host.pulls == h.pulls && out.store == st)
      && (out.response.Succeeded? ==> |out.host.pulls| == |h.pulls| + 1 && out.host.pulls[..|h.pulls|] == h.pulls)
  {
    var c := Collect(h, slug, Probes(req.technology), [], rewrite, faults);
    CollectReadsOnly(h, slug, Probes(req.technology), [], rewrite, faults);
    if c.1.Ok? {
      var files := c.1.value;
      AfterCollectShape(req, row, slug, branch, faults, files, c.0, st);
      if FirstFailing(files, faults) == |files| {
        var hw := WriteAll(c.0, slug, branch, files, faults).0;
        AfterWritesShape(req, row, slug, branch, faults, PrBody(req.technology, req.targetVersion, Paths(files)), hw, st);
      }
    }
  }

  /**
   * A package.json the parser rejects ends an Angular request with the
   * parser's message, after the probe: nothing is written, no pull request
   * is opened and nothing is recorded.
   */
  lemma UnparsablePackageJson(req: UpgradeRequest, row: RepositoryRow, slug: Slug, branch: string, faults: Faults,
                              codec: Manifests.JsonCodec, h: HostState, st: StoreState)
    requires req.technology == "Angular"
    requires FaultOf(faults.probes, "package.json").Healthy? && "package.json" in h.files
    requires codec.parse(h.files["package.json"].content).Err?
    ensures var out := AfterBranch(req, row, slug, branch, faults, Rewrites(req.targetVersion, codec), h, st);
      && out.response == Failed(codec.parse(h.files["package.json"].content).message)
      && out.host == h.(calls := h.calls + [GetContents(slug, "package.json")])
      && out.store == st
  {
    var content := h.files["package.json"].content;
    var rewrite := Rewrites(req.targetVersion, codec);
    assert Probes(req.technology) == ["package.json"];
    assert rewrite("package.json", content) == Manifests.AngularRewrite(content, req.targetVersion, codec);
    assert Collect(h, slug, ["package.json"], [], rewrite, faults)
        == (h.(calls := h.calls + [GetContents(slug, "package.json")]), Err(codec.parse(content).message));
  }

  // ---------------------------------------------------------------------
  // The request

  /** No token: the request fails at once and nothing is touched. */
  lemma NoTokenTouchesNothing(req: UpgradeRequest, token: Option<string>, now: nat, faults: Faults, rewrite: Rewriter,
                              h: HostState, st: StoreState)
    requires token.None? || token.value == ""
    ensures Run(req, token, now, faults, rewrite, h, st) == Outcome(Failed("GitHub token not configured"), h, st)
  {
  }

  /** A failed or empty repository query: the request fails before any call to the host. */
  lemma UnknownRepositoryTouchesNothing(req: UpgradeRequest, token: Option<string>, now: nat, faults: Faults,
                                        rewrite: Rewriter, h: HostState, st: StoreState)
    requires token.Some? && token.value != ""
    requires faults.lookupFails || req.repositoryId !in st.repositories
    ensures Run(req, token, now, faults, rewrite, h, st) == Outcome(Failed("Repository not found"), h, st)
  {
  }

  /** A default branch the host does not have: the request fails with the 404 status text. */
  lemma MissingDefaultBranch(req: UpgradeRequest, token: Option<string>, now: nat, faults: Faults, rewrite: Rewriter,
                             h: HostState, st: StoreState)
    requires Admitted(req, token, faults, st) && faults.head.Healthy?
    requires st.repositories[req.repositoryId].defaultBranch !in h.refs
    ensures var out, row := Run(req, token, now, faults, rewrite, h, st), st.repositories[req.repositoryId];
      && out.response == Failed("Failed to get branch info: " + "Not Found")
      && out.host == h.(calls := h.calls + [GetRef(SlugOf(row.fullName), row.defaultBranch)])
      && out.store == st
  {
    var row := st.repositories[req.repositoryId];
    var slug := SlugOf(row.fullName);
    var (h1, head) := ReadRef(h, slug, row.defaultBranch, faults.head);
    assert head == Refused("Not Found");
    assert Run(req, token, now, faults, rewrite, h, st) == Outcome(Failed(StepError("Failed to get branch info: ", head)), h1, st);
  }

  /** An upgrade branch name already taken: the request fails with the 422 status text. */
  lemma BranchAlreadyExists(req: UpgradeRequest, token: Option<string>, now: nat, faults: Faults, rewrite: Rewriter,
                            h: HostState, st: StoreState)
    requires Admitted(req, token, faults, st) && faults.head.Healthy? && faults.createRef.Healthy?
    requires st.repositories[req.repositoryId].defaultBranch in h.refs
    requires BranchName(req.technology, req.targetVersion, now) in h.refs
    ensures var out := Run(req, token, now, faults, rewrite, h, st);
      && out.response == Failed("Failed to create branch: " + "Unprocessable Entity")
      && out.host.refs == h.refs && out.host.pulls == h.pulls && out.host.commits == h.commits
      && out.store == st
  {
    var row := st.repositories[req.repositoryId];
    var slug := SlugOf(row.fullName);
    var branch := BranchName(req.technology, req.targetVersion, now);
    assert Run(req, token, now, faults, rewrite, h, st) == WithRow(req, row, slug, branch, faults, rewrite, h, st);
    var (h1, head) := ReadRef(h, slug, row.defaultBranch, faults.head);
    assert head == Done(h.refs[row.defaultBranch]);
    var (h2, made) := MakeRef(h1, slug, branch, head.value, faults.createRef);
    assert made == Refused("Unprocessable Entity");
    assert WithRow(req, row, slug, branch, faults, rewrite, h, st) == Outcome(Failed(StepError("Failed to create branch: ", made)), h2, st);
  }

  /**
   * Abort on the first failure: a failed request opens no pull request and
   * records no audit row, whichever step failed; a successful one opens
   * exactly one.
   */
  lemma FailedRunRecordsNothing(req: UpgradeRequest, token: Option<string>, now: nat, faults: Faults,
                                rewrite: Rewriter, h: HostState, st: StoreState)
    ensures var out := Run(req, token, now, faults, rewrite, h, st);
      && out.host.files == h.files
      && (out.response.Failed? ==> out.host.pulls == h.pulls && out.store == st)
      && (out.response.Succeeded? ==> |out.host.pulls| == |h.pulls| + 1 && out.host.pulls[..|h.pulls|] == h.pulls)
  {
    var out := Run(req, token, now, faults, rewrite, h, st);
    if token.None? || token.value == "" {
      assert out == Outcome(Failed("GitHub token not configured"), h, st);
    } else if Lookup(st, req.repositoryId, faults.lookupFails).None? {
      assert out == Outcome(Failed("Repository not found"), h, st);
    } else {
      var row := st.repositories[req.repositoryId];
      var slug, branch := SlugOf(row.fullName), BranchName(req.technology, req.targetVersion, now);
      assert out == WithRow(req, row, slug, branch, faults, rewrite, h, st);
      WithRowShape(req, row, slug, branch, faults, rewrite, h, st);
    }
  }

  /** `FailedRunRecordsNothing` once the repository row is known. */
  lemma WithRowShape(req: UpgradeRequest, row: RepositoryRow, slug: Slug, branch: string, faults: Faults,
                     rewrite: Rewriter, h: HostState, st: StoreState)
    ensures var out := WithRow(req, row, slug, branch, faults, rewrite, h, st);
      && out.host.files == h.files
      && (out.response.Failed? ==> out.host.pulls == h.pulls && out.store == st)
      && (out.response.Succeeded? ==> |out.host.pulls| == |h.pulls| + 1 && out.host.pulls[..|h.pulls|] == h.pulls)
  {
    var (h1, head) := ReadRef(h, slug, row.defaultBranch, faults.head);
    if head.Done? {
      var (h2, made) := MakeRef(h1, slug, branch, head.value, faults.createRef);
      if made.Done? {
        AfterBranchShape(req, row, slug, branch, faults, rewrite, h2, st);
      }
    }
  }

  /** A successful request got past every early check: the row, the default branch head and a fresh branch. */
  lemma SuccessPath(req: UpgradeRequest, token: Option<string>, now: nat, faults: Faults, rewrite: Rewriter,
                    h: HostState, st: StoreState)
    requires Run(req, token, now, faults, rewrite, h, st).response.Succeeded?
    ensures Admitted(req, token, faults, st)
    ensures var row := st.repositories[req.repositoryId];
      var slug, branch := SlugOf(row.fullName), BranchName(req.technology, req.targetVersion, now);
      && faults.head.Healthy? && row.defaultBranch in h.refs
      && faults.createRef.Healthy? && branch !in h.refs
      && Run(req, token, now, faults, rewrite, h, st)
         == AfterBranch(req, row, slug, branch, faults, rewrite, BranchCreated(req, now, h, row), st)
  {
    var row := st.repositories[req.repositoryId];
    var slug := SlugOf(row.fullName);
    var branch := BranchName(req.technology, req.targetVersion, now);
    var (h1, head) := ReadRef(h, slug, row.defaultBranch, faults.head);
    assert head.Done?;
    var (h2, made) := MakeRef(h1, slug, branch, head.value, faults.createRef);
    assert made.Done?;
    assert h1.calls + [CreateRef(slug, "refs/heads/" + branch, head.value)]
        == h.calls + [GetRef(slug, row.defaultBranch), CreateRef(slug, "refs/heads/" + branch, head.value)];
  }

  /** The branch-creation steps of a successful request, as the state they leave. */
  function BranchCreated(req: UpgradeRequest, now: nat, h: HostState, row: RepositoryRow): HostState
    requires row.defaultBranch in h.refs
  {
    var slug, branch := SlugOf(row.fullName), BranchName(req.technology, req.targetVersion, now);
    h.(refs := h.refs[branch := h.refs[row.defaultBranch]],
       calls := h.calls + [GetRef(slug, row.defaultBranch), CreateRef(slug, "refs/heads/" + branch, h.refs[row.defaultBranch])])
  }

  /**
   * A successful request: the upgrade branch starts at the default branch
   * head, exactly one pull request is opened from it into the default
   * branch, the response carries its number and url, and the audit row
   * describes it.
   */
  lemma RunSucceeds(req: UpgradeRequest, token: Option<string>, now: nat, faults: Faults, rewrite: Rewriter,
                    h: HostState, st: StoreState)
    requires Run(req, token, now, faults, rewrite, h, st).response.Succeeded?
    ensures Admitted(req, token, faults, st)
    ensures var out, row := Run(req, token, now, faults, rewrite, h, st), st.repositories[req.repositoryId];
      var branch, n := BranchName(req.technology, req.targetVersion, now), |h.pulls| + 1;
      && row.defaultBranch in h.refs && branch !in h.refs
      && out.host.refs == h.refs[branch := h.refs[row.defaultBranch]]
      && out.host.files == h.files
      && out.response == Succeeded(faults.prUrl, n, branch, SuccessMessage(req.technology, req.targetVersion, n))
      && |out.host.pulls| == n && out.host.pulls[..n - 1] == h.pulls
      && var pr := out.host.pulls[n - 1];
         && pr.number == n && pr.url == faults.prUrl && pr.title == PrTitle(req.technology, req.targetVersion)
         && pr.head == branch && pr.base == row.defaultBranch
         && out.store == Insert(st, AuditRow(req, branch, pr), faults.insertFails)
  {
    SuccessPath(req, token, now, faults, rewrite, h, st);
    var row := st.repositories[req.repositoryId];
    var slug, branch := SlugOf(row.fullName), BranchName(req.technology, req.targetVersion, now);
    var h2 := BranchCreated(req, now, h, row);
    var c := Collect(h2, slug, Probes(req.technology), [], rewrite, faults);
    CollectReadsOnly(h2, slug, Probes(req.technology), [], rewrite, faults);
    assert c.1.Ok?;
    var files := c.1.value;
    AfterCollectShape(req, row, slug, branch, faults, files, c.0, st);
    assert FirstFailing(files, faults) == |files|;
    var hw := WriteAll(c.0, slug, branch, files, faults).0;
    AfterWritesShape(req, row, slug, branch, faults, PrBody(req.technology, req.targetVersion, Paths(files)), hw, st);
  }

  /** A commit writing the file at `path` to `branch`: its rewritten content, against the sha it was read with. */
  predicate Committed(files: map<string, Blob>, branch: string, path: string, c: Commit, rewrite: Rewriter)
  {
    && path in files
    && c == Commit(branch, path, "Update " + path + " for version upgrade", c.content, files[path].sha)
    && rewrite(path, files[path].content) == Ok(c.content)
  }

  /**
   * A successful request writes every file its probes found, in probing
   * order, one commit each, and only those; the pull request description
   * lists exactly those paths.
   */
  lemma SuccessWritesFound(req: UpgradeRequest, token: Option<string>, now: nat, faults: Faults, rewrite: Rewriter,
                           h: HostState, st: StoreState)
    requires Run(req, token, now, faults, rewrite, h, st).response.Succeeded?
    ensures var out, found := Run(req, token, now, faults, rewrite, h, st), Found(h, Probes(req.technology), faults);
      var branch := BranchName(req.technology, req.targetVersion, now);
      && |out.host.pulls| == |h.pulls| + 1
      && out.host.pulls[|h.pulls|].body == PrBody(req.technology, req.targetVersion, found)
      && |out.host.commits| == |h.commits| + |found| && out.host.commits[..|h.commits|] == h.commits
      && var written := out.host.commits[|h.commits|..];
         forall k :: 0 <= k < |found| ==> Committed(h.files, branch, found[k], written[k], rewrite)
  {
    SuccessPath(req, token, now, faults, rewrite, h, st);
    var row := st.repositories[req.repositoryId];
    var slug, branch := SlugOf(row.fullName), BranchName(req.technology, req.targetVersion, now);
    var h2 := BranchCreated(req, now, h, row);
    assert h2.files == h.files && h2.commits == h.commits && h2.pulls == h.pulls;
    AfterBranchWritesFound(req, row, slug, branch, faults, rewrite, h2, st);
    FoundSameFiles(h2, h, Probes(req.technology), faults);
  }

  /** `SuccessWritesFound` from the branch creation on. */
  lemma AfterBranchWritesFound(req: UpgradeRequest, row: RepositoryRow, slug: Slug, branch: string, faults: Faults,
                               rewrite: Rewriter, h: HostState, st: StoreState)
    requires AfterBranch(req, row, slug, branch, faults, rewrite, h, st).response.Succeeded?
    ensures var out, found := AfterBranch(req, row, slug, branch, faults, rewrite, h, st), Found(h, Probes(req.technology), faults);
      && |out.host.pulls| == |h.pulls| + 1
      && out.host.pulls[|h.pulls|].body == PrBody(req.technology, req.targetVersion, found)
      && |out.host.commits| == |h.commits| + |found| && out.host.commits[..|h.commits|] == h.commits
      && var written := out.host.commits[|h.commits|..];
         forall k :: 0 <= k < |found| ==> Committed(h.files, branch, found[k], written[k], rewrite)
  {
    var c := Collect(h, slug, Probes(req.technology), [], rewrite, faults);
    AfterBranchSucceeded(req, row, slug, branch, faults, rewrite, h, st);
    CollectCommitsFound(h, slug, branch, Probes(req.technology), rewrite, faults);
    var files := c.1.value;
    AfterCollectSucceeds(req, row, slug, branch, faults, files, c.0, st);
    var out := AfterBranch(req, row, slug, branch, faults, rewrite, h, st);
    assert out.host.commits[|h.commits|..] == Commits(branch, files);
  }

  /** A successful request got past file selection. */
  lemma AfterBranchSucceeded(req: UpgradeRequest, row: RepositoryRow, slug: Slug, branch: string, faults: Faults,
                             rewrite: Rewriter, h: HostState, st: StoreState)
    requires AfterBranch(req, row, slug, branch, faults, rewrite, h, st).response.Succeeded?
    ensures var c := Collect(h, slug, Probes(req.technology), [], rewrite, faults);
      && c.1.Ok? && c.0.commits == h.commits && c.0.pulls == h.pulls
      && AfterBranch(req, row, slug, branch, faults, rewrite, h, st) == AfterCollect(req, row, slug, branch, faults, c.1.value, c.0, st)
  {
    CollectReadsOnly(h, slug, Probes(req.technology), [], rewrite, faults);
  }

  /** The files file selection keeps are those the probes found, each with the commit that writes it. */
  lemma CollectCommitsFound(h: HostState, slug: Slug, branch: string, paths: seq<string>, rewrite: Rewriter, faults: Faults)
    requires Collect(h, slug, paths, [], rewrite, faults).1.Ok?
    ensures var files, found := Collect(h, slug, paths, [], rewrite, faults).1.value, Found(h, paths, faults);
      && Paths(files) == found
      && forall k :: 0 <= k < |found| ==> Committed(h.files, branch, found[k], Commits(branch, files)[k], rewrite)
  {
    CollectKeepsFound(h, slug, paths, [], rewrite, faults);
    PushedCommits(h, branch, Found(h, paths, faults), Collect(h, slug, paths, [], rewrite, faults).1.value, rewrite);
  }

  /** A successful write loop and pull request: one commit per file, and a description listing their paths. */
  lemma AfterCollectSucceeds(req: UpgradeRequest, row: RepositoryRow, slug: Slug, branch: string, faults: Faults,
                             files: seq<FileEntry>, h: HostState, st: StoreState)
    requires AfterCollect(req, row, slug, branch, faults, files, h, st).response.Succeeded?
    ensures var out := AfterCollect(req, row, slug, branch, faults, files, h, st);
      && out.host.commits == h.commits + Commits(branch, files)
      && |out.host.pulls| == |h.pulls| + 1 && out.host.pulls[..|h.pulls|] == h.pulls
      && out.host.pulls[|h.pulls|].body == PrBody(req.technology, req.targetVersion, Paths(files))
  {
    AfterCollectShape(req, row, slug, branch, faults, files, h, st);
    assert FirstFailing(files, faults) == |files|;
    var hw := WriteAll(h, slug, branch, files, faults).0;
    AfterWritesShape(req, row, slug, branch, faults, PrBody(req.technology, req.targetVersion, Paths(files)), hw, st);
  }

  /** The commits of the pushed files are the commits of the paths found. */
  lemma PushedCommits(h: HostState, branch: string, found: seq<string>, files: seq<FileEntry>, rewrite: Rewriter)
    requires |files| == |found|
    requires forall k :: 0 <= k < |found| ==> Pushed(h, found[k], files[k], rewrite)
    ensures Paths(files) == found
    ensures forall k :: 0 <= k < |found| ==> Committed(h.files, branch, found[k], Commits(branch, files)[k], rewrite)
  {
  }

  // ---------------------------------------------------------------------
  // Names

  /** `owner/repo` gives the owner and the repository name. */
  lemma SlugOfFullName(owner: string, repo: string)
    requires '/' !in owner && '/' !in repo
    ensures SlugOf(owner + "/" + repo) == Slug(owner, repo)
  {
    SplitPair(owner, repo, '/');
  }

  /** A full name without a slash leaves the repository name `undefined`. */
  lemma SlugOfBareName(name: string)
    requires '/' !in name
    ensures SlugOf(name) == Slug(name, "undefined")
  {
    SplitWithout(name, '/');
  }

  /** The branch name: the `upgrade/` prefix, then the technology in lower case. */
  lemma BranchNameShape(technology: string, v: string, now: nat)
    ensures var name := BranchName(technology, v, now);
      && |name| > 8 + |technology|
      && name[..8] == "upgrade/"
      && name[8 + |technology|] == '-'
      && forall i :: 0 <= i < |technology| ==> name[8 + i] == Lower(technology[i]) && !IsUpper(name[8 + i])
  {
    var name := BranchName(technology, v, now);
    assert name == "upgrade/" + LowerStr(technology) + ("-" + v + "-" + Decimal(now));
  }
}
