/**
 The standing routine authority: scripts/release-policy.ts, lines 26-116.

 `routineReleaseHold` is a chain of guards; `Authorized` says what has to be true of a promotion for
 the chain to let it through.
 */
module ReleasePolicy {
  import opened Wrappers

  datatype HoldReason =
    | AuthorityPathChanged | PolicyChanged | OutOfClass | StaleSource | MissingEvidence | HeadTreeChanged
    | UnexpectedMerger | PrIdentityChanged | RequiredChecksMissing | MergeTreeChanged | MergeMissing
    | MergeSignatureMissing | GeneratedContentMismatch

  datatype ChangedFile = ChangedFile(filename: string, previousFilename: Option<string>)

  datatype PullRequest = PullRequest(
    number: nat, author: string, authorType: string, headRepository: string, base: string, headRef: string,
    head: string, tree: string, draft: bool, open: bool, merged: bool, mergedBy: Option<string>,
    mergeCommit: Option<string>, mergeTree: Option<string>, mergeVerified: Option<bool>, behind: bool,
    checksPassed: bool, files: seq<ChangedFile>)

  datatype Evidence = Evidence(
    head: string, tree: string, candidate: string, candidateCommit: string, candidateDigest: string,
    policy: string, steps: seq<string>)

  datatype Authority = Authority(
    policy: string, protectedChanges: seq<string>, sourceReviewed: bool, unreviewedCommit: Option<string>,
    sourceFresh: bool, patchRelease: bool)

  datatype Subject = Subject(
    head: Option<string>, tree: Option<string>, candidate: string, candidateCommit: Option<string>,
    candidateDigest: Option<string>, policy: Option<string>)

  const EVIDENCE_STEPS := ["qualification", "stable-build", "runtime-comparison", "release-policy", "smoke-plan", "local-checks"]

  datatype ReleaseKind = Prepare | Approve | Record

  function Doc(name: string): string { "docs/" + name + ".md" }

  const PREPARE_PATHS := [
    "package.json", "apps/gateway/package.json", "apps/web/package.json", "packages/collab-client/package.json",
    "packages/protocol/package.json", "apps/gateway/src/diagnostics.ts", "scripts/build-release.ts",
    "apps/gateway/src/installation.ts", "bun.lock", "CHANGELOG.md", "scripts/release-text.json",
    Doc("RELEASE_STATUS"), Doc("ANDROID"), Doc("ATTENTION_SPEC"), Doc("LIFECYCLE_BRANCH_RESUME"), Doc("BACKLOG")]
  const APPROVE_PATHS := [
    "STABLE_RELEASE.lock.json", Doc("RELEASE_STATUS"), Doc("UPGRADE_ROLLBACK"), "README.md", Doc("COMPATIBILITY"),
    "site/llms.txt", "site/status/index.html", "scripts/release-text.json"]
  const RECORD_PATHS := [
    Doc("RELEASE_STATUS"), Doc("ANDROID"), Doc("ATTENTION_SPEC"), Doc("LIFECYCLE_BRANCH_RESUME"), Doc("BACKLOG"),
    Doc("COMPATIBILITY"), "site/llms.txt", "site/status/index.html", "scripts/release-text.json"]

  function GeneratedPaths(kind: ReleaseKind): seq<string> {
    match kind
    case Prepare => PREPARE_PATHS
    case Approve => APPROVE_PATHS
    case Record => RECORD_PATHS
  }

  predicate EndsWith(s: string, suffix: string) { |suffix| <= |s| && s[|s| - |suffix|..] == suffix }

  predicate Contains(s: string, part: string) { part <= s || (s != "" && Contains(s[1..], part)) }

  /** The last path component: where `(^|\/)` can match ahead of a slash-free name that ends the path. */
  function BaseName(path: string): string {
    if path == "" || path[|path| - 1] == '/' then "" else BaseName(path[..|path| - 1]) + [path[|path| - 1]]
  }

  predicate ControlName(name: string) {
    || ("tsconfig" <= name && EndsWith(name, ".json") && |name| >= |"tsconfig.json"|)
    || name in ["bunfig.toml", "mise.toml", "AGENTS.md", "CLAUDE.md"]
    || Contains(name, "lock")
  }

  predicate RoutineProtectedPath(path: string) {
    || ".github/" <= path || "schemas/" <= path
    || ("scripts/" <= path && path !in ["scripts/windows-qualification-pins.json", "scripts/release-text.json"])
    || (ControlName(BaseName(path)) && path !in ["UPSTREAM.lock.json", "STABLE_RELEASE.lock.json", "bun.lock"])
    || path in ["docs/RELEASE.md", "docs/TEST_PLAN.md", "docs/SECURITY.md"]
  }

  predicate PathAllowed(kind: ReleaseKind, path: string) {
    path in GeneratedPaths(kind) && (!RoutineProtectedPath(path) || (kind == Prepare && path == "scripts/build-release.ts"))
  }

  predicate GeneratedReleaseFilesMatch(kind: Option<ReleaseKind>, files: seq<ChangedFile>) {
    && kind.Some?
    && forall f :: f in files ==>
      PathAllowed(kind.value, f.filename) && (f.previousFilename.Some? ==> PathAllowed(kind.value, f.previousFilename.value))
  }

  function Touched(files: seq<ChangedFile>): set<string> {
    (set f | f in files :: f.filename) + (set f | f in files && f.previousFilename.Some? :: f.previousFilename.value)
  }

  /**
   A matching release change stays inside its generator's list, renames included, and never touches a
   protected control, except the prepare change's own version-bearing build script.
   */
  lemma GeneratedFilesAreControlled(kind: ReleaseKind, files: seq<ChangedFile>)
    ensures GeneratedReleaseFilesMatch(Some(kind), files) <==>
      forall path :: path in Touched(files) ==>
        path in GeneratedPaths(kind) && (RoutineProtectedPath(path) ==> kind == Prepare && path == "scripts/build-release.ts")
  {
    if GeneratedReleaseFilesMatch(Some(kind), files) {
      forall path | path in Touched(files)
        ensures PathAllowed(kind, path)
      {
      }
    } else {
      var f :| f in files &&
        !(PathAllowed(kind, f.filename) && (f.previousFilename.Some? ==> PathAllowed(kind, f.previousFilename.value)));
      assert f.filename in Touched(files);
      assert f.previousFilename.Some? ==> f.previousFilename.value in Touched(files);
    }
  }

  /** JavaScript's `!value` for an optional string. */
  predicate Missing(value: Option<string>) { value.None? || value.value == "" }

  function RoutineSourceHold(authority: Option<Authority>, expectedPolicy: Option<string>): Option<HoldReason> {
    if authority.None? then Some(MissingEvidence) else
    var a := authority.value;
    if a.protectedChanges != [] then Some(AuthorityPathChanged)
    else if expectedPolicy.Some? && a.policy != expectedPolicy.value then Some(PolicyChanged)
    else if !a.patchRelease || !a.sourceReviewed then Some(OutOfClass)
    else if !a.sourceFresh then Some(StaleSource)
    else None
  }

  function RoutineReleaseHold(subject: Subject, authority: Option<Authority>, evidence: Option<Evidence>,
                              promotion: Option<PullRequest>, bot: string, repository: string, branch: string,
                              merged: bool): Option<HoldReason>
  {
    var source := RoutineSourceHold(authority, subject.policy);
    if source.Some? then source
    else if Missing(subject.policy) then Some(PolicyChanged)
    else if promotion.None? then Some(PrIdentityChanged) else
    var pr := promotion.value;
    if pr.author != bot || pr.base != "main" || pr.headRepository != repository || pr.headRef != branch || pr.draft
       || (!pr.open && !pr.merged) then Some(PrIdentityChanged)
    else if Some(pr.head) != subject.head || Some(pr.tree) != subject.tree then Some(HeadTreeChanged)
    else if !GeneratedReleaseFilesMatch(Some(Approve), pr.files) then Some(GeneratedContentMismatch)
    else if evidence.None? || Missing(subject.candidateCommit) || Missing(subject.candidateDigest)
            || !EvidenceMatches(subject, evidence.value) then Some(MissingEvidence)
    else if !pr.checksPassed || (!pr.merged && pr.behind) then Some(RequiredChecksMissing)
    else if pr.merged then
      if pr.mergedBy != Some(bot) then Some(UnexpectedMerger)
      else if pr.mergeTree != subject.tree then Some(MergeTreeChanged)
      else if Missing(pr.mergeCommit) then Some(MergeMissing)
      else if pr.mergeVerified != Some(true) then Some(MergeSignatureMissing)
      else None
    else if merged then Some(MergeMissing)
    else None
  }

  predicate EvidenceMatches(subject: Subject, evidence: Evidence) {
    && Some(evidence.head) == subject.head && Some(evidence.tree) == subject.tree
    && evidence.candidate == subject.candidate && Some(evidence.candidateCommit) == subject.candidateCommit
    && Some(evidence.candidateDigest) == subject.candidateDigest && Some(evidence.policy) == subject.policy
    && forall step :: step in EVIDENCE_STEPS ==> step in evidence.steps
  }

  /** A fresh, reviewed, patch-class source under the expected policy and no changed control. */
  predicate SourceAuthorized(authority: Authority, expectedPolicy: Option<string>) {
    && authority.protectedChanges == [] && authority.patchRelease && authority.sourceReviewed && authority.sourceFresh
    && (expectedPolicy.Some? ==> authority.policy == expectedPolicy.value)
  }

  /**
   The exact checked subject: one policy, one head, one tree and one candidate agree across the
   authority, the evidence and the pull request, and a merged promotion has that same tree.
   */
  predicate Authorized(subject: Subject, authority: Authority, evidence: Evidence, pr: PullRequest, bot: string,
                       repository: string, branch: string, merged: bool)
  {
    && SourceAuthorized(authority, subject.policy)
    && subject == Subject(Some(pr.head), Some(pr.tree), evidence.candidate, Some(evidence.candidateCommit),
                          Some(evidence.candidateDigest), Some(authority.policy))
    && evidence.head == pr.head && evidence.tree == pr.tree && evidence.policy == authority.policy
    && authority.policy != "" && evidence.candidateCommit != "" && evidence.candidateDigest != ""
    && (forall step :: step in EVIDENCE_STEPS ==> step in evidence.steps)
    && pr.author == bot && pr.base == "main" && pr.headRepository == repository && pr.headRef == branch && !pr.draft
    && GeneratedReleaseFilesMatch(Some(Approve), pr.files) && pr.checksPassed
    && (if pr.merged then
          pr.mergedBy == Some(bot) && pr.mergeTree == Some(pr.tree) && pr.mergeVerified == Some(true)
          && pr.mergeCommit.Some? && pr.mergeCommit.value != ""
        else !merged && pr.open && !pr.behind)
  }

  lemma SourceHoldExact(authority: Option<Authority>, expectedPolicy: Option<string>)
    ensures RoutineSourceHold(authority, expectedPolicy).None? <==>
      authority.Some? && SourceAuthorized(authority.value, expectedPolicy)
  {
  }

  /** The guards grant authority exactly to an authorized promotion; missing data never does. */
  lemma ReleaseHoldExact(subject: Subject, authority: Option<Authority>, evidence: Option<Evidence>,
                         promotion: Option<PullRequest>, bot: string, repository: string, branch: string, merged: bool)
    ensures RoutineReleaseHold(subject, authority, evidence, promotion, bot, repository, branch, merged).None? <==>
      && authority.Some? && evidence.Some? && promotion.Some?
      && Authorized(subject, authority.value, evidence.value, promotion.value, bot, repository, branch, merged)
  {
    SourceHoldExact(authority, subject.policy);
  }
}
