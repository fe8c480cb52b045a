# Code caretaker: upgrade pull requests, upgrade dialog, themes and repository search

This project is a Dafny model of the core of the code-caretaker dashboard. It
covers four parts of the system:

- **The upgrade pull-request generator** (`supabase/functions/create-upgrade-pr/index.ts`).
  - Given a repository, a technology and a target version, it checks the GitHub token.
  - It looks up the repository row and reads the default branch head.
  - It creates an `upgrade/…` branch.
  - It probes the technology's manifest files and rewrites each one it finds. There are five rewriters, for pom.xml, build.gradle, package.json, requirements.txt and pyproject.toml.
  - It writes the rewritten files to the branch one at a time, opens a pull request and records an audit row.
  - The first step that fails ends the request with `success: false` and that step's message.
- **The upgrade selection dialog** (`src/components/upgrade/UpgradeSelectionModal.tsx`). It holds three selections. An upgrade request reaches the generator only when all three are made. The version is cleared whenever the technology changes.
- **The theme provider** (`src/contexts/ThemeContext.tsx`).
  - A table of eight colour themes.
  - Choosing a theme by id, and keeping the id in local storage under `selectedTheme`.
  - Writing the 28 colours to the root element as CSS custom properties (`primaryForeground` becomes `--primary-foreground`).
  - Restoring the saved theme on mount.
- **The repositories page** (`src/pages/Repositories.tsx`).
  - The case-insensitive search over loaded repositories.
  - The Total / Scanned / Pending statistics.
  - The loading flag and error handling of `fetchRepositories`.

Modules, one per file:

| file | module | what it holds |
|---|---|---|
| `wrappers.dfy` | `Wrappers` | `Option` and `Result` |
| `text.dfy` | `Text` | `toLowerCase`, `includes`, `split`, and rendering a number in decimal, on ASCII |
| `patterns.dfy` | `Patterns` | the rewriters' regular expressions as matchers; global and first-match `replace` |
| `settling.dfy` | `Settling` | why the Java rewrites are idempotent |
| `manifests.dfy` | `Manifests` | the five manifest rewriters and their properties |
| `upgrade_pr.dfy` | `UpgradePr` | the hosting API and record store as classes, file selection, the write loop, the handler as a method proved against the step function `Run` |
| `upgrade_facts.dfy` | `UpgradeFacts` | what the handler promises, proved about `Run` |
| `upgrade_form.dfy` | `UpgradeForm` | the selection dialog as a class, and its invariant |
| `theme.dfy` | `ThemeContext` | the theme table, property names, the provider as a class |
| `repositories.dfy` | `Repositories` | search, statistics, and the page state as a class |

### How the model is organised

- **State-changing code is imperative Dafny.** Each such part of the source is a class whose methods change its fields:
  - the hosting API (`UpgradePr.Host`) and the record store (`UpgradePr.RecordStore`);
  - the dialog's `useState` fields (`UpgradeForm.UpgradeSelectionModal`);
  - the theme provider with its local storage and root style (`ThemeContext.ThemeProvider`);
  - the page state (`Repositories.RepositoriesPage`).

  Every method's postcondition states its whole new state as a function of the old one. The properties are then proved as lemmas about those functions.
- **Loops keep their loops.** The `forEach` over the Angular packages, the `for` loop of file writes and the `forEach` of `applyTheme` are `for`/`while` loops with invariants.
- **Outside effects are inputs.**
  - A `Faults` value fixes how each remote call of one request turns out: a 2xx answer, another status with its status text, or a thrown error.
  - The clock reading `Date.now()` is a parameter.
  - The query answer of `fetchRepositories` is a parameter.
  - JSON parsing and serialisation are a `JsonCodec` parameter.

## Model

| member | source | states |
|---|---|---|
| Text.LowerStr | src/pages/Repositories.tsx:87-88 | `toLowerCase` keeps the length and lowers every character, and only ASCII upper-case letters change |
| Text.Includes | src/pages/Repositories.tsx:87-88 | `includes` holds exactly when the needle occurs at some index of the text |
| Text.Split | supabase/functions/create-upgrade-pr/index.ts:54 | `split` gives at least one piece, and no piece contains the separator |
| Text.JoinSplit | supabase/functions/create-upgrade-pr/index.ts:54 | joining the pieces of a split with the separator gives the string back |
| Text.SplitPair | supabase/functions/create-upgrade-pr/index.ts:54 | two slash-free names around one separator split into exactly those two names |
| Text.SplitWithout | supabase/functions/create-upgrade-pr/index.ts:356 | a string without the separator splits into itself alone |
| Text.Decimal | supabase/functions/create-upgrade-pr/index.ts:50 | a whole number renders as a non-empty string of digits |
| Text.DecimalRoundTrip | supabase/functions/create-upgrade-pr/index.ts:50 | reading the rendered digits back gives the number |
| Patterns.RunEnd | supabase/functions/create-upgrade-pr/index.ts:313 | a greedy run of `\d` or `\s` ends where the class stops: every character inside is in the class, the next is not |
| Patterns.RunEndUnique | supabase/functions/create-upgrade-pr/index.ts:313 | any run that stops where the class stops is the run found |
| Patterns.AssignEndIff | supabase/functions/create-upgrade-pr/index.ts:321 | `\s*=\s*` ends at b exactly when the text from i to b reads as spaces, `=`, spaces, and no space follows |
| Patterns.ElementMatchIff | supabase/functions/create-upgrade-pr/index.ts:313-315 | `<tag>\d+</tag>` matches with length n exactly when the text reads as the opening tag, one or more digits and the closing tag, of total length n |
| Patterns.SettingMatchIff | supabase/functions/create-upgrade-pr/index.ts:321-322 | `key\s*=\s*['"]?\d+['"]?` matches with length n exactly when the text reads as the key, the assignment, an optional quote, a maximal run of one or more digits and an optional quote, the quotes taken when present, of total length n |
| Patterns.RequiresPythonMatchIff | supabase/functions/create-upgrade-pr/index.ts:356 | `python_requires\s*=\s*['"]>=\d+\.\d+['"]` matches with length n exactly when the text reads as the key, the assignment, a quote, `>=`, digits, a dot, digits and a quote, of total length n |
| Patterns.PoetryMatchIff | supabase/functions/create-upgrade-pr/index.ts:361 | `python\s*=\s*['"].*?['"]` matches with length n exactly when the text reads as the key, the assignment and a quote, and the match ends at the first quote after it with no line terminator before it |
| Patterns.Leftmost | supabase/functions/create-upgrade-pr/index.ts:356 | the match found is a match, and no match starts before it; no result means no match anywhere |
| Patterns.LeftmostUnique | supabase/functions/create-upgrade-pr/index.ts:356 | only one position can be the leftmost match |
| Patterns.ReplaceAllCopies | supabase/functions/create-upgrade-pr/index.ts:313-315 | text in which no match starts is copied through unchanged |
| Patterns.ReplaceAllNoMatch | supabase/functions/create-upgrade-pr/index.ts:321-322 | without a match anywhere the global replace changes nothing |
| Patterns.ReplaceAllAtLeftmost | supabase/functions/create-upgrade-pr/index.ts:313-322 | the global replace copies the text before the leftmost match, replaces the match, and rewrites the rest the same way |
| Patterns.ReplaceFirst | supabase/functions/create-upgrade-pr/index.ts:353-362 | the non-global replace leaves text without a match unchanged, and otherwise replaces only the leftmost match and copies the rest |
| Patterns.LeftmostNone | supabase/functions/create-upgrade-pr/index.ts:356 | no leftmost match means no match at any position |
| Patterns.LeftmostSome | supabase/functions/create-upgrade-pr/index.ts:356 | a leftmost match is a match, and it is the only position with no match before it |
| Settling.HeadOf | supabase/functions/create-upgrade-pr/index.ts:313-322 | every match of a Java pattern begins with the pattern's fixed head of at least two characters |
| Settling.Local | supabase/functions/create-upgrade-pr/index.ts:313-322 | a Java pattern's match depends only on its own characters and the one after them |
| Settling.Interior | supabase/functions/create-upgrade-pr/index.ts:313-322 | no head of the same family starts strictly inside a match |
| Settling.Distinct | supabase/functions/create-upgrade-pr/index.ts:313-322 | two different patterns of one family never match at the same place |
| Settling.SelfMatch | supabase/functions/create-upgrade-pr/index.ts:313-322 | the replacement text for a digit version is itself a match of exactly its own length |
| Settling.NoStartInside | supabase/functions/create-upgrade-pr/index.ts:313-322 | no match of one pattern starts inside a match of another pattern of the family |
| Settling.Crux | supabase/functions/create-upgrade-pr/index.ts:313-322 | replacing a pattern after a character where another does not match creates no match of it there |
| Settling.CleanAfter | supabase/functions/create-upgrade-pr/index.ts:313-322 | after the global replace of a family member, a further replace of the same pattern changes nothing, and neither does that of a family member that changed nothing before |
| Manifests.PomFamily | supabase/functions/create-upgrade-pr/index.ts:313-315 | the three pom.xml element patterns form one family for the idempotence argument |
| Manifests.GradleFamily | supabase/functions/create-upgrade-pr/index.ts:321-322 | the two Gradle settings form one family for the idempotence argument |
| Manifests.JavaIdempotent | supabase/functions/create-upgrade-pr/index.ts:310-316 | rewriting a pom.xml a second time with the same digit-only version changes nothing |
| Manifests.GradleIdempotent | supabase/functions/create-upgrade-pr/index.ts:318-323 | rewriting a build.gradle a second time with the same digit-only version changes nothing |
| Manifests.RequiresPythonTwoPart | supabase/functions/create-upgrade-pr/index.ts:356 | a version `a.b` is written as `python_requires=">=3.b"`, whatever `a` is |
| Manifests.RequiresPythonNoDot | supabase/functions/create-upgrade-pr/index.ts:356 | a version without a dot is written as `python_requires=">=3.undefined"` |
| Manifests.RequiresPythonDotted | supabase/functions/create-upgrade-pr/index.ts:356 | target version `3.12` is written as `python_requires=">=3.12"` |
| Manifests.RequiresPythonUndotted | supabase/functions/create-upgrade-pr/index.ts:356 | a target version without a dot, such as `21`, is written as `python_requires=">=3.undefined"` |
| Manifests.AngularPackagesDistinct | supabase/functions/create-upgrade-pr/index.ts:329-339 | the nine listed Angular packages are pairwise distinct |
| Manifests.VisitExtends | supabase/functions/create-upgrade-pr/index.ts:341-348 | one visit of the `forEach` extends the set of visited packages by that package |
| Manifests.BumpAngularPackages | supabase/functions/create-upgrade-pr/index.ts:341-348 | the `forEach` over the packages computes the bump of both dependency sections |
| Manifests.AngularRewrite | supabase/functions/create-upgrade-pr/index.ts:325-351 | the rewrite fails exactly when parsing fails, with the parser's message |
| Manifests.UpdateAngularVersion | supabase/functions/create-upgrade-pr/index.ts:325-351 | parsing, the `forEach` and serialising compute `AngularRewrite` |
| Manifests.AngularRewriteIdempotent | supabase/functions/create-upgrade-pr/index.ts:325-351 | with a serialiser the parser reads back, rewriting a rewritten package.json with the same version changes nothing |
| Manifests.BumpedSection | supabase/functions/create-upgrade-pr/index.ts:341-348 | the bump keeps a section present or absent and keeps its keys. Each listed package with a truthy version becomes `^V.0.0`; every other entry keeps its value |
| Manifests.BumpAngularIdempotent | supabase/functions/create-upgrade-pr/index.ts:341-348 | bumping a bumped package.json again changes nothing |
| UpgradePr.Host.GetBranchHead | supabase/functions/create-upgrade-pr/index.ts:58-70 | reading the default branch reference: the head sha, 404 for a missing branch, or the failure; one call recorded |
| UpgradePr.Host.CreateBranch | supabase/functions/create-upgrade-pr/index.ts:77-95 | creating `refs/heads/{branch}` at the head sha; an existing name is refused with 422 and changes nothing |
| UpgradePr.Host.GetFileIfExists | supabase/functions/create-upgrade-pr/index.ts:241-275 | a file read gives its path, content and sha; any failure gives no file |
| UpgradePr.Host.UpdateFile | supabase/functions/create-upgrade-pr/index.ts:278-307 | content `btoa` refuses raises the encoder's error before any request is sent; otherwise one PUT is recorded, and a successful write adds one commit with message `Update {path} for version upgrade`, the new content and the read sha, while a failure adds none |
| UpgradePr.Host.CreatePullRequest | supabase/functions/create-upgrade-pr/index.ts:109-144 | a successful request adds one pull request, numbered after the existing ones; a failure adds none |
| UpgradePr.RecordStore.FindRepository | supabase/functions/create-upgrade-pr/index.ts:37-45 | the repository query, as `Lookup` |
| UpgradePr.RecordStore.InsertScanResult | supabase/functions/create-upgrade-pr/index.ts:149-162 | the audit row is appended, unless the insert is rejected |
| UpgradePr.Found | supabase/functions/create-upgrade-pr/index.ts:190-238 | every path whose probe finds a file is a file of the default branch |
| UpgradePr.CollectProbesAll | supabase/functions/create-upgrade-pr/index.ts:190-238 | file selection reads every candidate path once, in order, and changes nothing else on the host |
| UpgradePr.CollectReadsOnly | supabase/functions/create-upgrade-pr/index.ts:190-238 | whatever its outcome, file selection changes no branch, file, commit or pull request |
| UpgradePr.CollectKeepsFound | supabase/functions/create-upgrade-pr/index.ts:198-275 | selection keeps exactly the files found, in probing order, each with its path, its read sha and its rewritten content, even when the rewrite changes nothing |
| UpgradePr.UnknownTechnologyProbesNothing | supabase/functions/create-upgrade-pr/index.ts:200-237 | a technology other than Java, Angular and Python probes nothing and selects no file |
| UpgradePr.GetFilesToUpdate | supabase/functions/create-upgrade-pr/index.ts:190-238 | `getFilesToUpdate` probes the technology's files in order and pushes each found one, rewritten |
| UpgradePr.GetJavaFiles | supabase/functions/create-upgrade-pr/index.ts:200-213 | the Java branch: pom.xml, then build.gradle |
| UpgradePr.GetAngularFiles | supabase/functions/create-upgrade-pr/index.ts:214-220 | the Angular branch: package.json, whose rewrite may throw |
| UpgradePr.GetPythonFiles | supabase/functions/create-upgrade-pr/index.ts:221-234 | the Python branch: requirements.txt, then pyproject.toml |
| UpgradePr.FirstFailing | supabase/functions/create-upgrade-pr/index.ts:102-105 | the index of the first file whose write fails: every write before it succeeds, and it fails |
| UpgradePr.WriteAllStops | supabase/functions/create-upgrade-pr/index.ts:101-307 | the files before the first failing write are committed in order. The failing write is attempted, its request sent unless `btoa` refused the content, and its error is the result. No later file is touched |
| UpgradePr.UnencodableWriteUnsent | supabase/functions/create-upgrade-pr/index.ts:285-307 | when the first failing write is one whose content `btoa` refuses, only the writes before it reach the host, and the request fails with the encoder's message |
| UpgradePr.WriteAllFailedPrefix | supabase/functions/create-upgrade-pr/index.ts:102-105 | a failure among the first n writes is the failure of the whole loop |
| UpgradePr.WriteFiles | supabase/functions/create-upgrade-pr/index.ts:102-105 | the `for` loop of writes leaves the host as the write sequence does and reports its failure |
| UpgradePr.CreateUpgradePr | supabase/functions/create-upgrade-pr/index.ts:19-187 | the handler's response, host and record store are those of the step function `Run` |
| UpgradePr.UpgradeBranch | supabase/functions/create-upgrade-pr/index.ts:97-187 | the handler from file selection on |
| UpgradePr.WriteAndOpen | supabase/functions/create-upgrade-pr/index.ts:101-187 | the handler from the write loop on; the description lists the written paths |
| UpgradePr.OpenAndRecord | supabase/functions/create-upgrade-pr/index.ts:107-175 | the handler from the pull request on |
| UpgradeFacts.AfterWritesShape | supabase/functions/create-upgrade-pr/index.ts:107-175 | the request succeeds exactly when the pull request is accepted. Only then is the audit row recorded, and the response carries the number and url |
| UpgradeFacts.AfterCollectShape | supabase/functions/create-upgrade-pr/index.ts:101-144 | a failing write ends the request with its error before any pull request. Otherwise every file is committed and the description lists their paths |
| UpgradeFacts.AfterBranchShape | supabase/functions/create-upgrade-pr/index.ts:97-187 | from file selection on, branches and files never change. A failure opens and records nothing; a success opens exactly one pull request |
| UpgradeFacts.UnparsablePackageJson | supabase/functions/create-upgrade-pr/index.ts:214-220 | an unparsable package.json ends an Angular request with the parser's message after the probe: nothing written, opened or recorded |
| UpgradeFacts.NoTokenTouchesNothing | supabase/functions/create-upgrade-pr/index.ts:31-34 | without a token the request fails with `GitHub token not configured` and nothing is touched |
| UpgradeFacts.UnknownRepositoryTouchesNothing | supabase/functions/create-upgrade-pr/index.ts:37-45 | a failed or empty repository query fails with `Repository not found` before any call to the host |
| UpgradeFacts.MissingDefaultBranch | supabase/functions/create-upgrade-pr/index.ts:58-70 | a missing default branch fails with `Failed to get branch info: Not Found` after one call |
| UpgradeFacts.BranchAlreadyExists | supabase/functions/create-upgrade-pr/index.ts:77-95 | a taken branch name fails with `Failed to create branch: Unprocessable Entity` and changes no branch, commit, pull request or record |
| UpgradeFacts.FailedRunRecordsNothing | supabase/functions/create-upgrade-pr/index.ts:25-187 | whichever step fails, a failed request opens no pull request and records nothing; a successful one opens exactly one; files never change |
| UpgradeFacts.WithRowShape | supabase/functions/create-upgrade-pr/index.ts:49-187 | the same, from the repository row on |
| UpgradeFacts.SuccessPath | supabase/functions/create-upgrade-pr/index.ts:31-95 | a successful request had a token, a found row, a readable default branch and a branch name not yet taken |
| UpgradeFacts.RunSucceeds | supabase/functions/create-upgrade-pr/index.ts:56-175 | on success the branch starts at the default branch head. Exactly one pull request is opened, with title `Upgrade {tech} to version {V}`, head the branch and base the default branch. The response and the audit row carry its number and url |
| UpgradeFacts.SuccessWritesFound | supabase/functions/create-upgrade-pr/index.ts:97-137 | on success every file the probes found is committed, in probing order, one commit each and nothing else; the description lists exactly those paths |
| UpgradeFacts.AfterBranchWritesFound | supabase/functions/create-upgrade-pr/index.ts:97-137 | the same, from file selection on |
| UpgradeFacts.CollectCommitsFound | supabase/functions/create-upgrade-pr/index.ts:198-299 | the files selected are the paths found, each with the commit that writes it |
| UpgradeFacts.AfterCollectSucceeds | supabase/functions/create-upgrade-pr/index.ts:102-137 | a successful write loop and pull request give one commit per file and a description listing their paths |
| UpgradeFacts.SlugOfFullName | supabase/functions/create-upgrade-pr/index.ts:54 | `owner/repo` gives that owner and repository name |
| UpgradeFacts.SlugOfBareName | supabase/functions/create-upgrade-pr/index.ts:54 | a full name without a slash leaves the repository name `undefined` |
| UpgradeFacts.BranchNameShape | supabase/functions/create-upgrade-pr/index.ts:50 | the branch name starts with `upgrade/`, then the technology in lower case, then `-` |
| UpgradeForm.AvailableVersionsTable | src/components/upgrade/UpgradeSelectionModal.tsx:24-57 | exactly Java, Angular and Python have versions, four each; no technology and any other key give none; no version is empty |
| UpgradeForm.StartEmitsOnlyWhenComplete | src/components/upgrade/UpgradeSelectionModal.tsx:40-53 | starting emits one request exactly when all three selections are made, and it carries exactly those selections; otherwise nothing changes |
| UpgradeForm.StartOnce | src/components/upgrade/UpgradeSelectionModal.tsx:40-53 | after a start the button is disabled again, so a second start emits nothing |
| UpgradeForm.ChooseTechnologyDisablesStart | src/components/upgrade/UpgradeSelectionModal.tsx:88-91 | after a technology change no request can be emitted until a version is chosen |
| UpgradeForm.StartKeepsConsistent | src/components/upgrade/UpgradeSelectionModal.tsx:40-53 | starting keeps the dialog consistent: every emitted request names a repository, a known technology and one of its versions |
| UpgradeForm.ChooseTechnologyKeepsConsistent | src/components/upgrade/UpgradeSelectionModal.tsx:88-91 | clearing the version on a technology change keeps the version belonging to the technology |
| UpgradeForm.UpgradeSelectionModal.constructor | src/components/upgrade/UpgradeSelectionModal.tsx:36-38 | the three selections start empty |
| UpgradeForm.UpgradeSelectionModal.SelectRepository | src/components/upgrade/UpgradeSelectionModal.tsx:72 | only the repository changes |
| UpgradeForm.UpgradeSelectionModal.SelectTechnology | src/components/upgrade/UpgradeSelectionModal.tsx:88-91 | the technology changes and the version is cleared |
| UpgradeForm.UpgradeSelectionModal.SelectVersion | src/components/upgrade/UpgradeSelectionModal.tsx:105-118 | a version can only be picked while the selector is enabled; only the version changes, to one the selector offers, and the dialog stays consistent |
| UpgradeForm.UpgradeSelectionModal.StartUpgrade | src/components/upgrade/UpgradeSelectionModal.tsx:40-53 | `handleStartUpgrade`: emit, clear and close when complete; otherwise nothing |
| UpgradeForm.UpgradeSelectionModal.Cancel | src/components/upgrade/UpgradeSelectionModal.tsx:125 | the dialog closes and keeps its selections |
| UpgradeForm.UpgradeSelectionModal.VersionSelectDisabled | src/components/upgrade/UpgradeSelectionModal.tsx:108 | while the version selector is disabled there is no version to pick; once a known technology is chosen, all four of its versions are offered |
| UpgradeForm.UpgradeSelectionModal.StartDisabled | src/components/upgrade/UpgradeSelectionModal.tsx:130 | the start button is disabled exactly while a selection is missing |
| ThemeContext.Values | src/contexts/ThemeContext.tsx:8-35 | a palette has one value per colour slot |
| ThemeContext.Entries | src/contexts/ThemeContext.tsx:357 | `Object.entries` of a palette lists one entry per colour slot |
| ThemeContext.Find | src/contexts/ThemeContext.tsx:346 | `find` gives the first theme with the id, and nothing exactly when no theme has it |
| ThemeContext.ThemeIds | src/contexts/ThemeContext.tsx:39-320 | eight themes with pairwise distinct, non-empty ids, the first being `default` |
| ThemeContext.FindOwnId | src/contexts/ThemeContext.tsx:346 | with distinct ids, looking up a theme's own id finds that theme |
| ThemeContext.CssVar | src/contexts/ThemeContext.tsx:357-358 | a property name starts with `--` and contains no upper-case letter |
| ThemeContext.UndashedRoundTrip | src/contexts/ThemeContext.tsx:357 | a dash-free key is recovered from its dashed lower-case form, so the conversion loses nothing |
| ThemeContext.CssVarInjective | src/contexts/ThemeContext.tsx:357-358 | different dash-free keys get different property names |
| ThemeContext.ColorKeysDistinct | src/contexts/ThemeContext.tsx:8-35 | the 28 colour slots have distinct names |
| ThemeContext.ColorKeysDashFree | src/contexts/ThemeContext.tsx:8-35 | no colour slot name contains a dash |
| ThemeContext.ColorPropertiesDistinct | src/contexts/ThemeContext.tsx:357-358 | the 28 colour slots are written to 28 different properties |
| ThemeContext.ApplyAllSets | src/contexts/ThemeContext.tsx:356-359 | when property names differ, every entry ends up in the style with its own value |
| ThemeContext.ApplyAllElsewhere | src/contexts/ThemeContext.tsx:356-359 | a property no entry names keeps whatever it had |
| ThemeContext.Applied | src/contexts/ThemeContext.tsx:356-359 | applying a theme shows each of its 28 colours under its property and leaves every other property alone |
| ThemeContext.SetThemeEffect | src/contexts/ThemeContext.tsx:345-351 | a known id becomes current, is stored under `selectedTheme` and has all its colours shown; an unknown id changes nothing |
| ThemeContext.SetThemeByEntry | src/contexts/ThemeContext.tsx:345-351 | with distinct ids, choosing an entry's id makes exactly that entry current |
| ThemeContext.ChoiceSurvivesReload | src/contexts/ThemeContext.tsx:345-369 | a theme chosen once is restored and shown by the next mount |
| ThemeContext.MountUnknownSaved | src/contexts/ThemeContext.tsx:362-369 | a saved id naming no theme leaves everything as it was: nothing is applied |
| ThemeContext.MountWithoutSaved | src/contexts/ThemeContext.tsx:370-372 | without a saved id the current theme stays and is applied |
| ThemeContext.MountKeepsStorage | src/contexts/ThemeContext.tsx:362-373 | mounting never writes local storage, and any theme it makes current comes from the table |
| ThemeContext.ThemeProvider.constructor | src/contexts/ThemeContext.tsx:343 | the provider starts on the first table entry, `default` |
| ThemeContext.ThemeProvider.SetProperties | src/contexts/ThemeContext.tsx:357-360 | one `setProperty` per entry, in order |
| ThemeContext.ThemeProvider.ApplyTheme | src/contexts/ThemeContext.tsx:356-360 | `applyTheme` writes every colour slot of the theme, in declaration order |
| ThemeContext.ThemeProvider.SetTheme | src/contexts/ThemeContext.tsx:345-351 | `setTheme`, as stated by `SetThemeEffect` |
| ThemeContext.ThemeProvider.Mount | src/contexts/ThemeContext.tsx:362-373 | the mount effect in its three cases |
| Repositories.Filter | src/pages/Repositories.tsx:86-89 | a row is kept exactly when its lower-cased name or full name contains the lower-cased query; the result is no longer than the list |
| Repositories.FilterIsSubsequence | src/pages/Repositories.tsx:86 | the filtered list is a subsequence of the loaded list, in its order |
| Repositories.SubsequenceOfTail | src/pages/Repositories.tsx:86 | a subsequence of the tail is a subsequence of the list |
| Repositories.SubsequenceDropHead | src/pages/Repositories.tsx:86 | dropping the first element of a subsequence leaves a subsequence |
| Repositories.EmptyQueryKeepsAll | src/pages/Repositories.tsx:86-89 | an empty query keeps every row |
| Repositories.FilterIgnoresCase | src/pages/Repositories.tsx:86-89 | queries that differ only in letter case keep the same rows |
| Repositories.Count | src/pages/Repositories.tsx:262-268 | a status count is at most the number of rows |
| Repositories.CountAppend | src/pages/Repositories.tsx:262-268 | counting splits over a concatenation |
| Repositories.CountsDisjoint | src/pages/Repositories.tsx:257-268 | two different statuses together count at most the total |
| Repositories.CountAll | src/pages/Repositories.tsx:262-268 | a status counts every row exactly when every row has it |
| Repositories.StatsOf | src/pages/Repositories.tsx:257-268 | Scanned and Pending are each at most Total, and so is their sum |
| Repositories.FetchOutcome | src/pages/Repositories.tsx:65-84 | loading always ends. A failure keeps the rows and shows one toast. A success shows the data, or no rows for null data, and no toast |
| Repositories.FailedFetchKeepsView | src/pages/Repositories.tsx:75-84 | a failed reload changes neither the search results nor the statistics |
| Repositories.RepositoriesPage.constructor | src/pages/Repositories.tsx:49-51 | no rows, loading, and an empty search |
| Repositories.RepositoriesPage.SetSearchQuery | src/pages/Repositories.tsx:150 | only the search query changes |
| Repositories.RepositoriesPage.FetchRepositories | src/pages/Repositories.tsx:65-84 | `fetchRepositories`, as stated by `FetchOutcome` |

## Left out

- HTTP transport and the CORS preflight (`OPTIONS`) are not modelled. Neither is the parsing of the request body, or the Supabase and environment clients. The request arrives as a value, and the token as an optional string.
- The outcome of each remote call is an input (`Faults`): a 2xx answer, another status with its status text, or a thrown error. The texts GitHub gives for a missing branch (`Not Found`) and a taken one (`Unprocessable Entity`) are assumed.
- Concurrent requests are not modelled, and neither is GitHub's sha-conflict check: a write can only succeed or fail.
- Base64 (`atob`/`btoa`, section 4 of RFC 4648) is not modelled; file contents are the decoded strings. `atob` yields one character per byte, so content read from the host is Latin-1 and only a target version with a character above U+00FF can make `btoa` refuse a rewritten file. The refusal is modelled (no request is sent). The text of the exception is the runtime's, so it is an input (`Faults.encodeError`).
- JSON text is not modelled. A package.json is a parsed value with two optional dependency sections and an opaque rest. The parser and the two-space serialiser are a `JsonCodec` parameter. A dependency entry that is not a string is not represented, and a falsy section counts as absent.
- `Date.now()` is the `now` parameter; console logging is left out.
- `\s` is ASCII whitespace and `toLowerCase` works on ASCII only. `.` excludes the four JavaScript line terminators.
- Patterns.ReplaceAll, Patterns.ReplaceFirst: the replacement text is inserted literally. JavaScript would expand `$&`, `$1` and similar in the target version; the versions the dialog offers contain no `$`.
- UpgradeForm.AvailableVersions: a technology key naming a property every JavaScript object inherits (such as `toString`) is treated as unknown. The selector only offers Java, Angular and Python.
- UpgradeForm.UpgradeSelectionModal.SelectVersion requires a version the selector offers, since the selector can produce no other. The repository selector's ids are not constrained.
- The dialog's `open` flag belongs to its parent and is changed through `onOpenChange`; the model keeps it as a field of the dialog.
- `fetchRepositories` only runs when a user is signed in, and its server-side ordering by creation date is not modelled. The rows arrive in the order the query answers. Sign-in and redirect handling of the page are left out.
- The repositories page's token and configuration inputs, `getStatusColor` and `formatDate` are presentation only.
- The mock-data pages, the auto-update configuration dialog (it only logs its form), the generated Supabase types, `useRepositories` and the `handleStartUpgrade` of the versions page are not part of this model.
- `useTheme`'s error outside a provider is not modelled.

### Notes on the source's behaviour

- For target version `3.12` the requirements.txt rewrite writes `>=3.12`, because `targetVersion.split('.')[1]` is `12` (`Manifests.RequiresPythonDotted`).
- A file probe that fails for any reason is treated as a missing file (`UpgradePr.Host.GetFileIfExists`). This holds for a non-404 status and for a thrown error alike. The request does not abort.
- A write against a stale sha is not a distinct conflict error. It fails the request like any other failed write, with `Failed to update {path}: {status text}`.
