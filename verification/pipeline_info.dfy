/** CI metadata: the environment-driven detection of the CI provider and the
    derivation of the announcement fields, plus their redaction.

    The process environment is a map in which an unset variable reads as "".
    The outputs of the helper commands (`git for-each-ref`, `git rev-parse`)
    and the result of `url.Parse` are inputs, never computed here. */
module PipelineInfo {
  import opened Wrappers
  import opened GoStrings
  import opened Protocol
  import Paths

  type Env = map<string, string>

  /** `os.Getenv`: an unset variable reads as "". */
  function Getenv(env: Env, name: string): string
  {
    if name in env then env[name] else ""
  }

  // ---------------------------------------------------------------------
  // coalesce / coalesceEnv
  // ---------------------------------------------------------------------

  /** `coalesce`: the first non-empty argument, or "" if there is none. */
  function Coalesce(args: seq<string>): (r: string)
    ensures r == "" <==> forall i :: 0 <= i < |args| ==> args[i] == ""
    ensures forall i :: 0 <= i < |args| && args[i] != "" && (forall j :: 0 <= j < i ==> args[j] == "")
              ==> r == args[i]
    decreases |args|
  {
    if |args| == 0 then ""
    else if args[0] != "" then args[0]
    else Coalesce(args[1..])
  }

  /** `coalesceEnv`: the value of the first named variable that is set to a
      non-empty value, or "" if there is none. */
  function CoalesceEnv(env: Env, names: seq<string>): (r: string)
    ensures r == "" <==> forall i :: 0 <= i < |names| ==> Getenv(env, names[i]) == ""
    ensures forall i :: 0 <= i < |names| && Getenv(env, names[i]) != ""
                          && (forall j :: 0 <= j < i ==> Getenv(env, names[j]) == "")
              ==> r == Getenv(env, names[i])
    decreases |names|
  {
    if |names| == 0 then ""
    else if Getenv(env, names[0]) != "" then Getenv(env, names[0])
    else CoalesceEnv(env, names[1..])
  }

  // ---------------------------------------------------------------------
  // Detection predicates
  // ---------------------------------------------------------------------

  /** Every named variable has a non-empty value. */
  predicate AllSet(env: Env, names: seq<string>)
  {
    forall i :: 0 <= i < |names| ==> Getenv(env, names[i]) != ""
  }

  /** `checkForEnvVars`: the loop that stops at the first unset variable. */
  method CheckForEnvVars(env: Env, names: seq<string>) returns (detected: bool)
    ensures detected <==> AllSet(env, names)
    ensures |names| == 0 ==> detected
  {
    var i := 0;
    while i < |names|
      invariant 0 <= i <= |names|
      invariant forall k :: 0 <= k < i ==> Getenv(env, names[k]) != ""
    {
      if Getenv(env, names[i]) == "" {
        return false;
      }
      i := i + 1;
    }
    return true;
  }

  /** One entry of a `checkForEnvVarsMap` table: "*" accepts any non-empty
      value, anything else must be matched exactly. */
  predicate ValueMatches(env: Env, key: string, value: string)
  {
    (value == "*" && Getenv(env, key) != "") || Getenv(env, key) == value
  }

  predicate AllMatch(env: Env, vars: map<string, string>)
  {
    forall key :: key in vars ==> ValueMatches(env, key, vars[key])
  }

  /** `checkForEnvVarsMap`: the table is visited in no particular order (it
      is a Go map), failing at the first entry that does not match. */
  method CheckForEnvVarsMap(env: Env, vars: map<string, string>) returns (detected: bool)
    ensures detected <==> AllMatch(env, vars)
  {
    var pending := vars.Keys;
    while pending != {}
      invariant pending <= vars.Keys
      invariant forall key :: key in vars && key !in pending ==> ValueMatches(env, key, vars[key])
      decreases pending
    {
      var key :| key in pending;
      var value := vars[key];
      if value == "*" && Getenv(env, key) != "" {
        pending := pending - {key};
        continue;
      }
      if Getenv(env, key) != value {
        return false;
      }
      pending := pending - {key};
    }
    return true;
  }

  /** The wildcard accepts exactly the non-empty values, so an unset
      variable never matches it; any other entry is an exact comparison. */
  lemma WildcardSemantics(env: Env, key: string, value: string)
    ensures ValueMatches(env, key, "*") <==> Getenv(env, key) != ""
    ensures value != "*" ==> (ValueMatches(env, key, value) <==> Getenv(env, key) == value)
  {
  }

  // ---------------------------------------------------------------------
  // The provider table
  // ---------------------------------------------------------------------

  datatype ProviderId =
    | LayerCI | Jenkins | Travis | CodeBuild | Docker | Codefresh | TeamCity
    | Circle | BuddyBuild | Bamboo | Bitrise | Semaphore | Buildkite | Heroku
    | Appveyor | Wercker | Magnum | Shippable | Solano | Greenhouse | Gitlab
    | GithubActions | Azure | Bitbucket | Buddy | Cirrus

  /** The providers in the order they are tried. */
  const Providers: seq<ProviderId> := [
    LayerCI, Jenkins, Travis, CodeBuild, Docker, Codefresh, TeamCity,
    Circle, BuddyBuild, Bamboo, Bitrise, Semaphore, Buildkite, Heroku,
    Appveyor, Wercker, Magnum, Shippable, Solano, Greenhouse, Gitlab,
    GithubActions, Azure, Bitbucket, Buddy, Cirrus]

  function ProviderName(p: ProviderId): string
  {
    match p
    case LayerCI => "LayerCI"
    case Jenkins => "Jenkins CI"
    case Travis => "Travis CI"
    case CodeBuild => "AWS Codebuild"
    case Docker => "Docker"
    case Codefresh => "Codefresh CI"
    case TeamCity => "TeamCity CI"
    case Circle => "Circle CI"
    case BuddyBuild => "buddybuild"
    case Bamboo => "Bamboo"
    case Bitrise => "Bitrise CI"
    case Semaphore => "Semaphore CI"
    case Buildkite => "Buildkite CI"
    case Heroku => "Heroku CI"
    case Appveyor => "Appveyor"
    case Wercker => "Wercker CI"
    case Magnum => "Magnum CI"
    case Shippable => "Shippable CI"
    case Solano => "Solano CI"
    case Greenhouse => "Greenhouse CI"
    case Gitlab => "Gitlab CI"
    case GithubActions => "Github Actions"
    case Azure => "Azure Pipelines"
    case Bitbucket => "Bitbucket"
    case Buddy => "Buddy CI"
    case Cirrus => "Cirrus CI"
  }

  /** How a provider is recognised: `checkForEnvVars`, `checkForEnvVarsMap`,
      or the hand-written Appveyor test. */
  datatype Detector =
    | EnvVarsSet(names: seq<string>)
    | EnvVarsMatch(vars: map<string, string>)
    | AppveyorRule

  function DetectorOf(p: ProviderId): Detector
  {
    match p
    case LayerCI => EnvVarsMatch(map["CI" := "true", "LAYERCI" := "true"])
    case Jenkins => EnvVarsSet(["JENKINS_URL"])
    case Travis => EnvVarsMatch(map["CI" := "true", "TRAVIS" := "true", "SHIPPABLE" := "true"])
    case CodeBuild => EnvVarsMatch(map["CODEBUILD_CI" := "true"])
    case Docker => EnvVarsSet(["DOCKER_REPO"])
    case Codefresh => EnvVarsSet(["CF_BUILD_URL", "CF_BUILD_ID"])
    case TeamCity => EnvVarsSet(["TEAMCITY_VERSION"])
    case Circle => EnvVarsMatch(map["CI" := "true", "CIRCLECI" := "true"])
    case BuddyBuild => EnvVarsSet(["BUDDYBUILD_BRANCH"])
    case Bamboo => EnvVarsSet(["bamboo_planRepository_revision"])
    case Bitrise => EnvVarsMatch(map["CI" := "true", "BITRISE_IO" := "true"])
    case Semaphore => EnvVarsMatch(map["CI" := "true", "SEMAPHORE" := "true"])
    case Buildkite => EnvVarsMatch(map["CI" := "true", "BUILDKITE" := "true"])
    case Heroku => EnvVarsMatch(map["CI" := "true", "HEROKU_TEST_RUN_BRANCH" := "*"])
    case Appveyor => AppveyorRule
    case Wercker => EnvVarsMatch(map["CI" := "true", "WERCKER_GIT_BRANCH" := "*"])
    case Magnum => EnvVarsMatch(map["CI" := "true", "MAGNUM" := "true"])
    case Shippable => EnvVarsMatch(map["SHIPPABLE" := "true"])
    case Solano => EnvVarsMatch(map["TDDIUM" := "true"])
    case Greenhouse => EnvVarsMatch(map["GREENHOUSE" := "true"])
    case Gitlab => EnvVarsSet(["GITLAB_CI"])
    case GithubActions => EnvVarsSet(["GITHUB_ACTIONS"])
    case Azure => EnvVarsSet(["SYSTEM_TEAMFOUNDATIONSERVERURI"])
    case Bitbucket => EnvVarsMatch(map["CI" := "true", "BITBUCKET_BUILD_NUMBER" := "*"])
    case Buddy => EnvVarsMatch(map["CI" := "true", "BUDDY" := "true"])
    case Cirrus => EnvVarsSet(["$CIRRUS_CI"])
  }

  predicate TrueOrTitle(v: string)
  {
    v == "true" || v == "True"
  }

  predicate Detected(env: Env, d: Detector)
  {
    match d
    case EnvVarsSet(names) => AllSet(env, names)
    case EnvVarsMatch(vars) => AllMatch(env, vars)
    case AppveyorRule => TrueOrTitle(Getenv(env, "CI")) && TrueOrTitle(Getenv(env, "APPVEYOR"))
  }

  predicate IsDetected(env: Env, p: ProviderId)
  {
    Detected(env, DetectorOf(p))
  }

  /** The first provider of `ps` at or after position `from` whose detector
      fires. */
  function FirstDetected(env: Env, ps: seq<ProviderId>, from: nat): (r: Option<nat>)
    requires from <= |ps|
    ensures r.Some? ==> from <= r.value < |ps| && IsDetected(env, ps[r.value])
    ensures r.Some? ==> forall j :: from <= j < r.value ==> !IsDetected(env, ps[j])
    ensures r.None? <==> forall j :: from <= j < |ps| ==> !IsDetected(env, ps[j])
    decreases |ps| - from
  {
    if from == |ps| then None
    else if IsDetected(env, ps[from]) then Some(from)
    else FirstDetected(env, ps, from + 1)
  }

  /** The table position of the provider `populatePipelineInfo` applies. */
  function SelectProvider(env: Env): (r: Option<nat>)
    ensures r.Some? ==> r.value < |Providers|
  {
    FirstDetected(env, Providers, 0)
  }

  // ---------------------------------------------------------------------
  // Announcement fields
  // ---------------------------------------------------------------------

  /** The announcement fields that can be redacted, in the order
      `redactPipelineInfo` treats them. */
  datatype Field =
    | CommitHash | BranchName | PullRequest | Slug | Tag | BuildUrl | BuildId
    | JobId | AuthorName | AuthorAvatar | AuthorEmail | CiProvider | AuthorEmailDomain

  /** The key under which a field is named in the redaction settings. */
  function FieldName(f: Field): string
  {
    match f
    case CommitHash => "CommitHash"
    case BranchName => "BranchName"
    case PullRequest => "PullRequest"
    case Slug => "Slug"
    case Tag => "Tag"
    case BuildUrl => "BuildUrl"
    case BuildId => "BuildId"
    case JobId => "JobId"
    case AuthorName => "AuthorName"
    case AuthorAvatar => "AuthorAvatar"
    case AuthorEmail => "AuthorEmail"
    case CiProvider => "CiProvider"
    case AuthorEmailDomain => "AuthorEmailDomain"
  }

  function GetField(h: Hello, f: Field): string
  {
    match f
    case CommitHash => h.commitHash
    case BranchName => h.branchName
    case PullRequest => h.pullRequest
    case Slug => h.slug
    case Tag => h.tag
    case BuildUrl => h.buildUrl
    case BuildId => h.buildId
    case JobId => h.jobId
    case AuthorName => h.authorName
    case AuthorAvatar => h.authorAvatar
    case AuthorEmail => h.authorEmail
    case CiProvider => h.ciProvider
    case AuthorEmailDomain => h.authorEmailDomain
  }

  /** The eight fields that receive the generic VCS_/CI_ defaults. */
  const GenericFields: set<Field> :=
    {CommitHash, BranchName, PullRequest, Slug, Tag, BuildUrl, BuildId, JobId}

  /** The variable each generic field defaults to. */
  function GenericVariable(f: Field): string
    requires f in GenericFields
  {
    match f
    case CommitHash => "VCS_COMMIT_ID"
    case BranchName => "VCS_BRANCH_NAME"
    case PullRequest => "VCS_PULL_REQUEST"
    case Slug => "VCS_SLUG"
    case Tag => "VCS_TAG"
    case BuildUrl => "CI_BUILD_URL"
    case BuildId => "CI_BUILD_ID"
    case JobId => "CI_JOB_ID"
  }

  // ---------------------------------------------------------------------
  // Provider field derivations
  // ---------------------------------------------------------------------

  /** What the environment cannot tell: the output of the author lookup
      (`None` when either git command fails), the path `url.Parse` yields
      for a URL (`None` when it rejects it) and the output of
      `git rev-parse` (`None` when it fails). */
  datatype PipelineFacts = PipelineFacts(
    env: Env,
    authorLine: Option<string>,
    urlPath: string -> Option<string>,
    revParse: Option<string>)

  /** Github Actions branch and pull request, as the source writes them:
      on a push build the text "refs/heads/" is appended to the ref. */
  function GithubRefsAsWritten(env: Env, h: Hello): (r: Hello)
    ensures r == h.(branchName := r.branchName, pullRequest := r.pullRequest)
  {
    var ref := Getenv(env, "GITHUB_REF");
    var headRef := Getenv(env, "GITHUB_HEAD_REF");
    if headRef != "" then
      h.(pullRequest := TrimPrefix(TrimSuffix(ref, "/merge"), "refs/pull/"), branchName := headRef)
    else
      h.(branchName := ref + "refs/heads/")
  }

  /** On a push build the as-written branch is the whole ref followed by
      "refs/heads/": for `refs/heads/main` it is not `main`. */
  lemma GithubPushRef(env: Env, h: Hello)
    requires Getenv(env, "GITHUB_HEAD_REF") == ""
    ensures HasPrefix(GithubRefsAsWritten(env, h).branchName, Getenv(env, "GITHUB_REF"))
    ensures HasSuffix(GithubRefsAsWritten(env, h).branchName, "refs/heads/")
    ensures |GithubRefsAsWritten(env, h).branchName| == |Getenv(env, "GITHUB_REF")| + 11
    ensures Getenv(env, "GITHUB_REF") == "refs/heads/main" ==> GithubRefsAsWritten(env, h).branchName != "main"
  {
    var ref := Getenv(env, "GITHUB_REF");
    assert (ref + "refs/heads/")[..|ref|] == ref;
  }

  /** Github Actions branch and pull request with the evidently intended
      branch: the ref with its "refs/heads/" prefix removed. */
  function GithubRefs(env: Env, h: Hello): (r: Hello)
    ensures r == h.(branchName := r.branchName, pullRequest := r.pullRequest)
    ensures Getenv(env, "GITHUB_HEAD_REF") != "" ==> r == GithubRefsAsWritten(env, h)
    ensures Getenv(env, "GITHUB_HEAD_REF") == "" && HasPrefix(Getenv(env, "GITHUB_REF"), "refs/heads/") ==>
              "refs/heads/" + r.branchName == Getenv(env, "GITHUB_REF")
    ensures Getenv(env, "GITHUB_HEAD_REF") == "" && !HasPrefix(Getenv(env, "GITHUB_REF"), "refs/heads/") ==>
              r.branchName == Getenv(env, "GITHUB_REF")
  {
    var ref := Getenv(env, "GITHUB_REF");
    var headRef := Getenv(env, "GITHUB_HEAD_REF");
    if headRef != "" then
      h.(pullRequest := TrimPrefix(TrimSuffix(ref, "/merge"), "refs/pull/"), branchName := headRef)
    else
      h.(branchName := TrimPrefix(ref, "refs/heads/"))
  }

  /** A push build of `refs/heads/<b>` reports branch `<b>` and keeps the
      previous pull request. */
  lemma GithubPushRefIntended(env: Env, h: Hello, b: string)
    requires Getenv(env, "GITHUB_HEAD_REF") == ""
    requires Getenv(env, "GITHUB_REF") == "refs/heads/" + b
    ensures GithubRefs(env, h).branchName == b
    ensures GithubRefs(env, h).pullRequest == h.pullRequest
  {
    TrimPrefixOfConcat("refs/heads/", b);
  }

  /** A pull-request build (`GITHUB_HEAD_REF` set) of `refs/pull/<n>/merge`
      reports pull request `<n>` on the head branch. */
  lemma GithubPullRequestRef(env: Env, h: Hello, n: string)
    requires Getenv(env, "GITHUB_HEAD_REF") != ""
    requires Getenv(env, "GITHUB_REF") == "refs/pull/" + n + "/merge"
    ensures GithubRefs(env, h).pullRequest == n
    ensures GithubRefs(env, h).branchName == Getenv(env, "GITHUB_HEAD_REF")
  {
    TrimSuffixOfConcat("refs/pull/" + n, "/merge");
    assert "refs/pull/" + n + "/merge" == ("refs/pull/" + n) + "/merge";
    TrimPrefixOfConcat("refs/pull/", n);
  }

  /** CodeBuild branch: every "refs/heads/" removed from the webhook ref. */
  function CodeBuildBranch(headRef: string): string
  {
    ReplaceAll(headRef, "refs/heads/", "")
  }

  /** Removing every occurrence is splitting on it and gluing the pieces
      back together; a single leading "refs/heads/" is thus just dropped. */
  lemma CodeBuildBranchRemovesRefsHeads(headRef: string, b: string)
    ensures CodeBuildBranch(headRef) == Join(Split(headRef, "refs/heads/"), "")
    ensures Index(b, "refs/heads/") == -1 ==> CodeBuildBranch("refs/heads/" + b) == b
  {
    ReplaceAllIsJoinOfSplit(headRef, "refs/heads/", "");
    if Index(b, "refs/heads/") == -1 {
      var s := "refs/heads/" + b;
      assert s[..11] == "refs/heads/";
      assert s[11..] == b;
      ReplaceAllWithoutOccurrence(b, "refs/heads/", "");
    }
  }

  /** CodeBuild slug: the repository URL's path without ".git", assigned
      only when the URL parses. */
  function CodeBuildSlug(facts: PipelineFacts, h: Hello): (r: Hello)
    ensures r == h.(slug := r.slug)
    ensures facts.urlPath(Getenv(facts.env, "CODEBUILD_SOURCE_REPO_URL")).None? ==> r.slug == h.slug
    ensures facts.urlPath(Getenv(facts.env, "CODEBUILD_SOURCE_REPO_URL")).Some? ==>
              var path := facts.urlPath(Getenv(facts.env, "CODEBUILD_SOURCE_REPO_URL")).value;
              && (HasSuffix(path, ".git") ==> r.slug + ".git" == path)
              && (!HasSuffix(path, ".git") ==> r.slug == path)
  {
    match facts.urlPath(Getenv(facts.env, "CODEBUILD_SOURCE_REPO_URL"))
    case Some(path) => h.(slug := TrimSuffix(path, ".git"))
    case None => h
  }

  /** Circle CI indexes the second piece of two splits; the source panics
      when the separator is missing. */
  predicate CircleDefined(env: Env)
  {
    && |Split(Getenv(env, "CIRCLE_PULL_REQUEST"), "/")| >= 2
    && |Split(Getenv(env, "CIRCLE_REPOSITORY_URL"), ":")| >= 2
  }

  function CircleInfo(env: Env, h: Hello): (r: Hello)
    requires CircleDefined(env)
    ensures r == h.(commitHash := r.commitHash, branchName := r.branchName, pullRequest := r.pullRequest,
                    slug := r.slug, buildId := r.buildId, jobId := r.jobId)
    ensures Getenv(env, "CIRCLE_PROJECT_REPONAME") != "" ==>
              r.slug == Getenv(env, "CIRCLE_PROJECT_USERNAME") + "/" + Getenv(env, "CIRCLE_PROJECT_REPONAME")
    ensures Index(r.pullRequest, "/") == -1
  {
    var pr := Split(Getenv(env, "CIRCLE_PULL_REQUEST"), "/")[1];
    var urlSlug := Split(Getenv(env, "CIRCLE_REPOSITORY_URL"), ":")[1];
    SplitPiecesAvoidSeparator(Getenv(env, "CIRCLE_PULL_REQUEST"), "/");
    h.(branchName := Getenv(env, "CIRCLE_BRANCH"),
       commitHash := Getenv(env, "CIRCLE_SHA1"),
       pullRequest := pr,
       buildId := Getenv(env, "CIRCLE_BUILD_NUM"),
       jobId := Getenv(env, "CIRCLE_NODE_INDEX"),
       slug := if Getenv(env, "CIRCLE_PROJECT_REPONAME") != "" then
                 Getenv(env, "CIRCLE_PROJECT_USERNAME") + "/" + Getenv(env, "CIRCLE_PROJECT_REPONAME")
               else TrimSuffix(urlSlug, ".git"))
  }

  /** As written, a Circle build that is not for a pull request leaves
      `CIRCLE_PULL_REQUEST` unset: splitting "" gives the one piece "", and
      reading the second piece panics. */
  lemma CircleUnsetPullRequestUndefined(env: Env)
    requires Getenv(env, "CIRCLE_PULL_REQUEST") == ""
    ensures !CircleDefined(env)
    ensures !ProviderDefined(Circle, env)
  {
    IndexOfChar("", '/');
    SplitWithoutSeparator("", "/");
  }

  /** As written, a pull-request URL `https://…` has the empty text between
      its two leading slashes as its second piece, so the pull request is
      reported as "". */
  lemma CirclePullRequestUrlReadsEmpty(env: Env, h: Hello, rest: string)
    requires Getenv(env, "CIRCLE_PULL_REQUEST") == "https://" + rest
    requires |Split(Getenv(env, "CIRCLE_REPOSITORY_URL"), ":")| >= 2
    ensures CircleDefined(env)
    ensures CircleInfo(env, h).pullRequest == ""
  {
    assert "https://" + rest == "https:" + ['/'] + ("" + ['/'] + rest);
    SplitAtFirst("https:", '/', "" + ['/'] + rest);
    SplitAtFirst("", '/', rest);
  }

  /** The last piece of a split: what the shell's `${v##*<sep>}`, which the
      Circle derivation's comments give as the intent, leaves of `v`. */
  function LastPiece(s: string, sep: string): (r: string)
    requires |sep| > 0
    ensures Index(r, sep) == -1
  {
    SplitPiecesAvoidSeparator(s, sep);
    Split(s, sep)[|Split(s, sep)| - 1]
  }

  /** The last piece is the text after the last slash, or the whole text
      when it has none. */
  lemma LastPieceAfterSlash(a: string, n: string)
    requires '/' !in n
    ensures LastPiece(a + "/" + n, "/") == n
    ensures LastPiece(n, "/") == n
  {
    Paths.SplitAppendPiece(a, n);
    IndexOfChar(n, '/');
    SplitWithoutSeparator(n, "/");
  }

  /** Circle CI as its comments intend: the pull request is what follows
      the last "/" and the URL slug what follows the last ":", which is
      defined for every environment. Where each split has exactly two
      pieces it agrees with the source. */
  function CircleInfoIntended(env: Env, h: Hello): (r: Hello)
    ensures r == h.(commitHash := r.commitHash, branchName := r.branchName, pullRequest := r.pullRequest,
                    slug := r.slug, buildId := r.buildId, jobId := r.jobId)
    ensures Getenv(env, "CIRCLE_PROJECT_REPONAME") != "" ==>
              r.slug == Getenv(env, "CIRCLE_PROJECT_USERNAME") + "/" + Getenv(env, "CIRCLE_PROJECT_REPONAME")
    ensures Index(r.pullRequest, "/") == -1
    ensures (CircleDefined(env) && |Split(Getenv(env, "CIRCLE_PULL_REQUEST"), "/")| == 2
             && |Split(Getenv(env, "CIRCLE_REPOSITORY_URL"), ":")| == 2) ==> r == CircleInfo(env, h)
  {
    var urlSlug := LastPiece(Getenv(env, "CIRCLE_REPOSITORY_URL"), ":");
    h.(branchName := Getenv(env, "CIRCLE_BRANCH"),
       commitHash := Getenv(env, "CIRCLE_SHA1"),
       pullRequest := LastPiece(Getenv(env, "CIRCLE_PULL_REQUEST"), "/"),
       buildId := Getenv(env, "CIRCLE_BUILD_NUM"),
       jobId := Getenv(env, "CIRCLE_NODE_INDEX"),
       slug := if Getenv(env, "CIRCLE_PROJECT_REPONAME") != "" then
                 Getenv(env, "CIRCLE_PROJECT_USERNAME") + "/" + Getenv(env, "CIRCLE_PROJECT_REPONAME")
               else TrimSuffix(urlSlug, ".git"))
  }

  /** The intended derivation reports a GitHub pull-request URL's number,
      and an unset variable as no pull request. */
  lemma CircleIntendedPullRequest(env: Env, h: Hello, owner: string, repo: string, n: string)
    requires '/' !in n
    ensures Getenv(env, "CIRCLE_PULL_REQUEST") == "https://github.com/" + owner + "/" + repo + "/pull/" + n ==>
              CircleInfoIntended(env, h).pullRequest == n
    ensures Getenv(env, "CIRCLE_PULL_REQUEST") == "" ==> CircleInfoIntended(env, h).pullRequest == ""
  {
    var a := "https://github.com/" + owner + "/" + repo + "/pull";
    assert "https://github.com/" + owner + "/" + repo + "/pull/" + n == a + "/" + n;
    LastPieceAfterSlash(a, n);
    LastPieceAfterSlash("", "");
  }

  /** Travis sets the branch only when it differs from the tag. */
  function TravisBranch(env: Env, h: Hello): (r: Hello)
    ensures r == h.(branchName := r.branchName)
    ensures Getenv(env, "TRAVIS_BRANCH") == Getenv(env, "TRAVIS_TAG") ==> r.branchName == h.branchName
    ensures Getenv(env, "TRAVIS_BRANCH") != Getenv(env, "TRAVIS_TAG") ==>
              r.branchName == Coalesce([Getenv(env, "TRAVIS_PULL_REQUEST_BRANCH"), Getenv(env, "TRAVIS_BRANCH")])
  {
    if Getenv(env, "TRAVIS_BRANCH") != Getenv(env, "TRAVIS_TAG") then
      h.(branchName := CoalesceEnv(env, ["TRAVIS_PULL_REQUEST_BRANCH", "TRAVIS_BRANCH"]))
    else h
  }

  /** Bitbucket's commit-hash fix-up: the value "12" is replaced by the
      output of `git rev-parse`, and a failure of that command is the one
      error a provider can report. */
  function BitbucketCommit(facts: PipelineFacts, h: Hello): (r: (Hello, Option<string>))
    ensures r.0 == h.(commitHash := r.0.commitHash)
    ensures h.commitHash != "12" ==> r == (h, None)
    ensures h.commitHash == "12" && facts.revParse.None? ==> r.0 == h && r.1.Some?
    ensures h.commitHash == "12" && facts.revParse.Some? ==> r == (h.(commitHash := facts.revParse.value), None)
  {
    if h.commitHash == "12" then
      match facts.revParse
      case None => (h, Some("get commit hash for bitbucket"))
      case Some(output) => (h.(commitHash := output), None)
    else (h, None)
  }

  predicate ProviderDefined(p: ProviderId, env: Env)
  {
    p == Circle ==> CircleDefined(env)
  }

  function LayerCIInfo(e: Env, h: Hello): (r: Hello)
    ensures r == h.(commitHash := r.commitHash, branchName := r.branchName,
              pullRequest := r.pullRequest, slug := r.slug, tag := r.tag, buildUrl := r.buildUrl,
              buildId := r.buildId, jobId := r.jobId)
  {
    h.(branchName := Getenv(e, "LAYERCI_BRANCH"),
        commitHash := Getenv(e, "GIT_COMMIT"),
        jobId := Getenv(e, "LAYERCI_JOB_ID"),
        buildId := Getenv(e, "LAYERCI_RUNNER_ID"),
        buildUrl := "https://layerci.com/" + Getenv(e, "LAYERCI_ORG_NAME") + "/" + Getenv(e, "LAYERCI_REPO_NAME")
                    + "/" + Getenv(e, "LAYERCI_JOB_ID") + "/" + Getenv(e, "LAYERCI_RUNNER_ID"),
        slug := Getenv(e, "LAYERCI_REPO_OWNER") + "/" + Getenv(e, "LAYERCI_REPO_NAME"),
        pullRequest := Getenv(e, "LAYERCI_PULL_REQUEST"),
        tag := Getenv(e, "GIT_TAG"))
  }

  function JenkinsInfo(e: Env, h: Hello): (r: Hello)
    ensures r == h.(commitHash := r.commitHash, branchName := r.branchName,
              pullRequest := r.pullRequest, buildUrl := r.buildUrl, buildId := r.buildId)
  {
    h.(branchName := CoalesceEnv(e, ["ghprbSourceBranch", "GIT_BRANCH", "BRANCH_NAME"]),
        commitHash := CoalesceEnv(e, ["ghprbActualCommit", "GIT_COMMIT"]),
        pullRequest := CoalesceEnv(e, ["ghprbPullId", "CHANGE_ID"]),
        buildId := Getenv(e, "BUILD_NUMBER"),
        buildUrl := Getenv(e, "BUILD_URL"))
  }

  function TravisInfo(e: Env, h: Hello): (r: Hello)
    ensures r == h.(commitHash := r.commitHash, branchName := r.branchName,
              pullRequest := r.pullRequest, slug := r.slug, tag := r.tag, buildId := r.buildId,
              jobId := r.jobId)
  {
    TravisBranch(e, h).(
        commitHash := CoalesceEnv(e, ["TRAVIS_PULL_REQUEST_SHA", "TRAVIS_COMMIT"]),
        pullRequest := Getenv(e, "TRAVIS_PULL_REQUEST"),
        buildId := Getenv(e, "TRAVIS_JOB_NUMBER"),
        jobId := Getenv(e, "TRAVIS_JOB_ID"),
        slug := Getenv(e, "TRAVIS_REPO_SLUG"),
        tag := Getenv(e, "TRAVIS_TAG"))
  }

  function CodeBuildInfo(facts: PipelineFacts, h: Hello): (r: Hello)
    ensures r == h.(commitHash := r.commitHash, branchName := r.branchName, slug := r.slug,
              buildId := r.buildId, jobId := r.jobId)
  {
    var e := facts.env;
    CodeBuildSlug(facts, h.(
        commitHash := Getenv(e, "CODEBUILD_RESOLVED_SOURCE_VERSION"),
        buildId := Getenv(e, "CODEBUILD_BUILD_ID"),
        branchName := CodeBuildBranch(Getenv(e, "CODEBUILD_WEBHOOK_HEAD_REF")),
        jobId := Getenv(e, "CODEBUILD_BUILD_ID")))
  }

  function DockerInfo(e: Env, h: Hello): (r: Hello)
    ensures r == h.(commitHash := r.commitHash, branchName := r.branchName, slug := r.slug,
              tag := r.tag)
  {
    h.(branchName := Getenv(e, "SOURCE_BRANCH"),
        commitHash := Getenv(e, "SOURCE_COMMIT"),
        slug := Getenv(e, "DOCKER_REPO"),
        tag := Getenv(e, "CACHE_TAG"))
  }

  function CodefreshInfo(e: Env, h: Hello): (r: Hello)
    ensures r == h.(commitHash := r.commitHash, branchName := r.branchName, buildUrl := r.buildUrl,
              buildId := r.buildId)
  {
    h.(branchName := Getenv(e, "CF_BRANCH"),
        buildId := Getenv(e, "CF_BUILD_ID"),
        buildUrl := Getenv(e, "CF_BUILD_URL"),
        commitHash := Getenv(e, "CF_REVISION"))
  }

  function TeamCityInfo(e: Env, h: Hello): (r: Hello)
    ensures r == h.(commitHash := r.commitHash, branchName := r.branchName, buildUrl := r.buildUrl,
              buildId := r.buildId)
  {
    h.(branchName := Getenv(e, "TEAMCITY_BUILD_BRANCH"),
        buildId := Getenv(e, "TEAMCITY_BUILD_ID"),
        buildUrl := Getenv(e, "TEAMCITY_BUILD_URL"),
        commitHash := CoalesceEnv(e, ["TEAMCITY_BUILD_COMMIT", "BUILD_VCS_NUMBER"]))
  }

  function BuddyBuildInfo(e: Env, h: Hello): (r: Hello)
    ensures r == h.(branchName := r.branchName, buildId := r.buildId)
  {
    h.(branchName := Getenv(e, "BUDDYBUILD_BRANCH"),
        buildId := "https://dashboard.buddybuild.com/public/apps/" + Getenv(e, "BUDDYBUILD_APP_ID")
                   + "/build/" + Getenv(e, "BUDDYBUILD_BUILD_ID"))
  }

  function BambooInfo(e: Env, h: Hello): (r: Hello)
    ensures r == h.(commitHash := r.commitHash, branchName := r.branchName, buildUrl := r.buildUrl,
              buildId := r.buildId)
  {
    h.(commitHash := Getenv(e, "bamboo_planRepository_revision"),
        branchName := Getenv(e, "bamboo_planRepository_branch"),
        buildId := Getenv(e, "bamboo_buildNumber"),
        buildUrl := Getenv(e, "bamboo_buildResultsUrl"))
  }

  function BitriseInfo(e: Env, h: Hello): (r: Hello)
    ensures r == h.(commitHash := r.commitHash, branchName := r.branchName,
              pullRequest := r.pullRequest, buildUrl := r.buildUrl, buildId := r.buildId)
  {
    h.(branchName := Getenv(e, "BITRISE_GIT_BRANCH"),
        commitHash := Coalesce([Getenv(e, "GIT_CLONE_COMMIT_HASH"), h.commitHash]),
        pullRequest := Getenv(e, "BITRISE_PULL_REQUEST"),
        buildId := Getenv(e, "BITRISE_BUILD_NUMBER"),
        buildUrl := Getenv(e, "BITRISE_BUILD_URL"))
  }

  function SemaphoreInfo(e: Env, h: Hello): (r: Hello)
    ensures r == h.(commitHash := r.commitHash, branchName := r.branchName,
              pullRequest := r.pullRequest, slug := r.slug, buildId := r.buildId, jobId := r.jobId)
  {
    h.(branchName := Getenv(e, "SEMAPHORE_GIT_BRANCH"),
        commitHash := Getenv(e, "REVISION"),
        pullRequest := Getenv(e, "PULL_REQUEST_NUMBER"),
        buildId := Getenv(e, "SEMAPHORE_WORKFLOW_NUMBER"),
        jobId := Getenv(e, "SEMAPHORE_JOB_ID"),
        slug := Getenv(e, "SEMAPHORE_REPO_SLUG"))
  }

  function BuildkiteInfo(e: Env, h: Hello): (r: Hello)
    ensures r == h.(commitHash := r.commitHash, branchName := r.branchName,
              pullRequest := r.pullRequest, slug := r.slug, tag := r.tag, buildUrl := r.buildUrl,
              buildId := r.buildId, jobId := r.jobId)
  {
    var pr := Getenv(e, "BUILDKITE_PULL_REQUEST");
    h.(branchName := Getenv(e, "BUILDKITE_BRANCH"),
        commitHash := Getenv(e, "BUILDKITE_COMMIT"),
        pullRequest := if pr != "false" then pr else h.pullRequest,
        buildId := Getenv(e, "BUILDKITE_BUILD_NUMBER"),
        jobId := Getenv(e, "BUILDKITE_JOB_ID"),
        slug := Getenv(e, "BUILDKITE_PROJECT_SLUG"),
        buildUrl := Getenv(e, "BUILDKITE_BUILD_URL"),
        tag := Getenv(e, "BUILDKITE_TAG"))
  }

  function HerokuInfo(e: Env, h: Hello): (r: Hello)
    ensures r == h.(commitHash := r.commitHash, branchName := r.branchName, buildId := r.buildId)
  {
    h.(branchName := Getenv(e, "HEROKU_TEST_RUN_BRANCH"),
        commitHash := Getenv(e, "HEROKU_TEST_RUN_COMMIT_VERSION"),
        buildId := Getenv(e, "HEROKU_TEST_RUN_ID"))
  }

  function AppveyorInfo(e: Env, h: Hello): (r: Hello)
    ensures r == h.(commitHash := r.commitHash, branchName := r.branchName,
              pullRequest := r.pullRequest, slug := r.slug, buildUrl := r.buildUrl,
              buildId := r.buildId, jobId := r.jobId)
  {
    h.(branchName := Getenv(e, "APPVEYOR_REPO_BRANCH"),
        commitHash := Getenv(e, "APPVEYOR_REPO_COMMIT"),
        buildId := Getenv(e, "APPVEYOR_JOB_ID"),
        pullRequest := Getenv(e, "APPVEYOR_PULL_REQUEST_NUMBER"),
        jobId := Getenv(e, "APPVEYOR_ACCOUNT_NAME") + "/" + Getenv(e, "APPVEYOR_PROJECT_SLUG")
                 + "/" + Getenv(e, "APPVEYOR_BUILD_VERSION"),
        slug := Getenv(e, "APPVEYOR_REPO_NAME"),
        buildUrl := Getenv(e, "APPVEYOR_URL") + "/project/" + Getenv(e, "APPVEYOR_REPO_NAME")
                    + "/builds/" + Getenv(e, "APPVEYOR_BUILD_ID") + "/job/" + Getenv(e, "APPVEYOR_JOB_ID"))
  }

  function WerckerInfo(e: Env, h: Hello): (r: Hello)
    ensures r == h.(commitHash := r.commitHash, branchName := r.branchName, slug := r.slug,
              buildId := r.buildId)
  {
    h.(branchName := Getenv(e, "WERCKER_GIT_BRANCH"),
        commitHash := Getenv(e, "WERCKER_GIT_COMMIT"),
        buildId := Getenv(e, "WERCKER_MAIN_PIPELINE_STARTED"),
        slug := Getenv(e, "WERCKER_GIT_OWNER") + "/" + Getenv(e, "WERCKER_GIT_REPOSITORY"))
  }

  function MagnumInfo(e: Env, h: Hello): (r: Hello)
    ensures r == h.(commitHash := r.commitHash, branchName := r.branchName, buildId := r.buildId)
  {
    h.(branchName := Getenv(e, "CI_BRANCH"),
        commitHash := Getenv(e, "CI_COMMIT"),
        buildId := Getenv(e, "CI_BUILD_NUMBER"))
  }

  function ShippableInfo(e: Env, h: Hello): (r: Hello)
    ensures r == h.(commitHash := r.commitHash, branchName := r.branchName,
              pullRequest := r.pullRequest, slug := r.slug, buildUrl := r.buildUrl,
              buildId := r.buildId)
  {
    h.(branchName := CoalesceEnv(e, ["HEAD_BRANCH", "BRANCH"]),
        commitHash := Getenv(e, "COMMIT"),
        buildId := Getenv(e, "BUILD_NUMBER"),
        buildUrl := Getenv(e, "BUILD_URL"),
        pullRequest := Getenv(e, "PULL_REQUEST"),
        slug := Getenv(e, "REPO_FULL_NAME"))
  }

  function SolanoInfo(e: Env, h: Hello): (r: Hello)
    ensures r == h.(commitHash := r.commitHash, branchName := r.branchName,
              pullRequest := r.pullRequest, buildId := r.buildId)
  {
    h.(branchName := Getenv(e, "TDDIUM_CURRENT_BRANCH"),
        commitHash := Getenv(e, "TDDIUM_CURRENT_COMMIT"),
        buildId := Getenv(e, "TDDIUM_TID"),
        pullRequest := Getenv(e, "TDDIUM_PR_ID"))
  }

  function GreenhouseInfo(e: Env, h: Hello): (r: Hello)
    ensures r == h.(commitHash := r.commitHash, branchName := r.branchName,
              pullRequest := r.pullRequest, buildUrl := r.buildUrl, buildId := r.buildId)
  {
    h.(branchName := Getenv(e, "GREENHOUSE_BRANCH"),
        commitHash := Getenv(e, "GREENHOUSE_COMMIT"),
        buildId := Getenv(e, "GREENHOUSE_BUILD_NUMBER"),
        pullRequest := Getenv(e, "GREENHOUSE_PULL_REQUEST"),
        buildUrl := Getenv(e, "$GREENHOUSE_BUILD_URL"))
  }

  function GitlabInfo(e: Env, h: Hello): (r: Hello)
    ensures r == h.(commitHash := r.commitHash, branchName := r.branchName, slug := r.slug,
              buildId := r.buildId)
  {
    h.(branchName := CoalesceEnv(e, ["CI_BUILD_REF_NAME", "CI_COMMIT_REF_NAME"]),
        commitHash := CoalesceEnv(e, ["CI_BUILD_REF", "CI_COMMIT_SHA"]),
        buildId := CoalesceEnv(e, ["CI_BUILD_ID", "CI_JOB_ID"]),
        slug := Getenv(e, "CI_PROJECT_PATH"))
  }

  function GithubActionsInfo(e: Env, h: Hello): (r: Hello)
    ensures r == h.(commitHash := r.commitHash, branchName := r.branchName,
              pullRequest := r.pullRequest, slug := r.slug, buildUrl := r.buildUrl,
              buildId := r.buildId)
  {
    GithubRefsAsWritten(e, h).(
        commitHash := Getenv(e, "GITHUB_SHA"),
        buildId := Getenv(e, "GITHUB_RUN_ID"),
        slug := Getenv(e, "GITHUB_REPOSITORY"),
        buildUrl := "http://github.com/" + Getenv(e, "GITHUB_REPOSITORY") + "/actions/runs/"
                    + Getenv(e, "GITHUB_RUN_ID"))
  }

  function AzureInfo(e: Env, h: Hello): (r: Hello)
    ensures r == h.(commitHash := r.commitHash, branchName := r.branchName,
              pullRequest := r.pullRequest, buildUrl := r.buildUrl, buildId := r.buildId,
              jobId := r.jobId)
  {
    h.(branchName := Getenv(e, "BUILD_SOURCEBRANCHNAME"),
        commitHash := Getenv(e, "BUILD_SOURCEVERSION"),
        buildId := Getenv(e, "BUILD_BUILDNUMBER"),
        pullRequest := CoalesceEnv(e, ["SYSTEM_PULLREQUEST_PULLREQUESTNUMBER", "SYSTEM_PULLREQUEST_PULLREQUESTID"]),
        jobId := Getenv(e, "BUILD_BUILDID"),
        buildUrl := Getenv(e, "SYSTEM_TEAMFOUNDATIONSERVERURI") + Getenv(e, "SYSTEM_TEAMPROJECT")
                    + "/_build/results?buildId=" + Getenv(e, "BUILD_BUILDID"))
  }

  function BitbucketInfo(facts: PipelineFacts, h: Hello): (r: (Hello, Option<string>))
    ensures r.0 == h.(commitHash := r.0.commitHash, branchName := r.0.branchName,
              pullRequest := r.0.pullRequest, slug := r.0.slug, buildId := r.0.buildId, jobId := r.0.jobId)
  {
    var e := facts.env;
    BitbucketCommit(facts, h.(
          branchName := Getenv(e, "BITBUCKET_BRANCH"),
          commitHash := Getenv(e, "BITBUCKET_COMMIT"),
          buildId := Getenv(e, "BITBUCKET_BUILD_NUMBER"),
          slug := Getenv(e, "BITBUCKET_REPO_OWNER") + "/" + Getenv(e, "BITBUCKET_REPO_SLUG"),
          jobId := Getenv(e, "BITBUCKET_BUILD_NUMBER"),
          pullRequest := Getenv(e, "BITBUCKET_PR_ID")))
  }

  function BuddyInfo(e: Env, h: Hello): (r: Hello)
    ensures r == h.(commitHash := r.commitHash, branchName := r.branchName,
              pullRequest := r.pullRequest, slug := r.slug, tag := r.tag, buildUrl := r.buildUrl,
              buildId := r.buildId)
  {
    h.(branchName := Getenv(e, "BUDDY_EXECUTION_BRANCH"),
        commitHash := Getenv(e, "BUDDY_EXECUTION_REVISION"),
        buildId := Getenv(e, "BUDDY_EXECUTION_ID"),
        buildUrl := Getenv(e, "BUDDY_EXECUTION_URL"),
        slug := Getenv(e, "BUDDY_REPO_SLUG"),
        pullRequest := Getenv(e, "BUDDY_EXECUTION_PULL_REQUEST_NO"),
        tag := Getenv(e, "BUDDY_EXECUTION_TAG"))
  }

  function CirrusInfo(e: Env, h: Hello): (r: Hello)
    ensures r == h.(commitHash := r.commitHash, branchName := r.branchName,
              pullRequest := r.pullRequest, slug := r.slug, buildId := r.buildId, jobId := r.jobId)
  {
    h.(branchName := Getenv(e, "CIRRUS_BRANCH"),
        commitHash := Getenv(e, "CIRRUS_CHANGE_IN_REPO"),
        buildId := Getenv(e, "CIRRUS_TASK_ID"),
        slug := Getenv(e, "CIRRUS_REPO_FULL_NAME"),
        pullRequest := Getenv(e, "CIRRUS_PR"),
        jobId := Getenv(e, "CIRRUS_TASK_NAME"))
  }

  /** A provider's `FindInfo`: assigns some of the generic fields and
      touches nothing else. */
  function FindInfo(p: ProviderId, facts: PipelineFacts, h: Hello): (r: (Hello, Option<string>))
    requires ProviderDefined(p, facts.env)
    ensures r.0 == h.(commitHash := r.0.commitHash, branchName := r.0.branchName,
                      pullRequest := r.0.pullRequest, slug := r.0.slug, tag := r.0.tag,
                      buildUrl := r.0.buildUrl, buildId := r.0.buildId, jobId := r.0.jobId)
    ensures r.1.Some? ==> p == Bitbucket
  {
    match p
    case LayerCI => (LayerCIInfo(facts.env, h), None)
    case Jenkins => (JenkinsInfo(facts.env, h), None)
    case Travis => (TravisInfo(facts.env, h), None)
    case CodeBuild => (CodeBuildInfo(facts, h), None)
    case Docker => (DockerInfo(facts.env, h), None)
    case Codefresh => (CodefreshInfo(facts.env, h), None)
    case TeamCity => (TeamCityInfo(facts.env, h), None)
    case Circle => (CircleInfo(facts.env, h), None)
    case BuddyBuild => (BuddyBuildInfo(facts.env, h), None)
    case Bamboo => (BambooInfo(facts.env, h), None)
    case Bitrise => (BitriseInfo(facts.env, h), None)
    case Semaphore => (SemaphoreInfo(facts.env, h), None)
    case Buildkite => (BuildkiteInfo(facts.env, h), None)
    case Heroku => (HerokuInfo(facts.env, h), None)
    case Appveyor => (AppveyorInfo(facts.env, h), None)
    case Wercker => (WerckerInfo(facts.env, h), None)
    case Magnum => (MagnumInfo(facts.env, h), None)
    case Shippable => (ShippableInfo(facts.env, h), None)
    case Solano => (SolanoInfo(facts.env, h), None)
    case Greenhouse => (GreenhouseInfo(facts.env, h), None)
    case Gitlab => (GitlabInfo(facts.env, h), None)
    case GithubActions => (GithubActionsInfo(facts.env, h), None)
    case Azure => (AzureInfo(facts.env, h), None)
    case Bitbucket => BitbucketInfo(facts, h)
    case Buddy => (BuddyInfo(facts.env, h), None)
    case Cirrus => (CirrusInfo(facts.env, h), None)
  }

  // ---------------------------------------------------------------------
  // Author line
  // ---------------------------------------------------------------------

  datatype Author = Author(name: string, email: string, domain: Option<string>)

  /** The output must contain "<": the source indexes the second piece of
      the split unconditionally. */
  predicate AuthorLineDefined(output: string)
  {
    |Split(TrimSpace(output), "<")| >= 2
  }

  /** The part after "@" when the address has exactly one "@". */
  function EmailDomain(email: string): Option<string>
  {
    var at := Split(email, "@");
    if email != "" && |at| == 2 then Some(at[1]) else None
  }

  /** The author from the pieces of the line split on "<": the trimmed
      first piece, the second piece without one trailing ">", and its
      domain. */
  function AuthorFromParts(parts: seq<string>): Author
    requires |parts| >= 2
  {
    var email := TrimSuffix(parts[1], ">");
    Author(TrimSpace(parts[0]), email, EmailDomain(email))
  }

  /** Parses `Name <email>`. */
  function ParseAuthorLine(output: string): Author
    requires AuthorLineDefined(output)
  {
    AuthorFromParts(Split(TrimSpace(output), "<"))
  }

  lemma TrimNameSpace(name: string)
    requires |name| > 0 && !IsSpace(name[0]) && !IsSpace(name[|name| - 1])
    ensures TrimSpace(name + " ") == name
  {
    assert name + " " == "" + name + " ";
    TrimSpaceStripsPadding("", name, " ");
  }

  /** Splitting `name <rest` on "<" when neither part holds a "<". */
  lemma SplitAuthorLine(name: string, rest: string)
    requires '<' !in name && '<' !in rest
    ensures Split(name + " <" + rest, "<") == [name + " ", rest]
  {
    assert name + " <" + rest == (name + " ") + ['<'] + rest;
    assert '<' !in name + " ";
    SplitAtFirst(name + " ", '<', rest);
    IndexOfChar(rest, '<');
    SplitWithoutSeparator(rest, "<");
  }

  /** Splitting `local@domain` on "@" when neither part holds an "@". */
  lemma SplitEmail(local: string, domain: string)
    requires '@' !in local && '@' !in domain
    ensures Split(local + "@" + domain, "@") == [local, domain]
  {
    assert local + "@" + domain == local + ['@'] + domain;
    SplitAtFirst(local, '@', domain);
    IndexOfChar(domain, '@');
    SplitWithoutSeparator(domain, "@");
  }

  /** An address that splits on "@" into two pieces has the second piece as
      its domain. */
  lemma EmailDomainOfSplit(email: string, local: string, domain: string)
    requires Split(email, "@") == [local, domain]
    ensures EmailDomain(email) == Some(domain)
  {
    if email == "" {
      SplitWithoutSeparator(email, "@");
    }
  }

  lemma AuthorFromTwoParts(name: string, email: string)
    requires TrimSpace(name + " ") == name
    ensures AuthorFromParts([name + " ", email + ">"]) == Author(name, email, EmailDomain(email))
  {
    TrimSuffixOfConcat(email, ">");
  }

  /** A well-formed `Name <local@domain>` line parses back into its parts. */
  lemma ParseAuthorLineRoundTrip(name: string, local: string, domain: string)
    requires |name| > 0 && !IsSpace(name[0]) && !IsSpace(name[|name| - 1]) && '<' !in name
    requires '<' !in local && '@' !in local && '<' !in domain && '@' !in domain
    ensures var line := name + " <" + local + "@" + domain + ">";
      AuthorLineDefined(line) &&
      ParseAuthorLine(line) == Author(name, local + "@" + domain, Some(domain))
  {
    var email := local + "@" + domain;
    var line := name + " <" + local + "@" + domain + ">";
    assert TrimSpace(line) == line by {
      assert line[0] == name[0] && line[|line| - 1] == '>';
    }
    assert Split(line, "<") == [name + " ", email + ">"] by {
      assert line == name + " <" + (email + ">");
      SplitAuthorLine(name, email + ">");
    }
    assert EmailDomain(email) == Some(domain) by {
      SplitEmail(local, domain);
      EmailDomainOfSplit(email, local, domain);
    }
    calc {
      ParseAuthorLine(line);
      AuthorFromParts(Split(TrimSpace(line), "<"));
      AuthorFromParts([name + " ", email + ">"]);
      { TrimNameSpace(name);
        AuthorFromTwoParts(name, email); }
      Author(name, email, Some(domain));
    }
  }

  /** `populateAuthorInfo`: a failed git lookup leaves the hello untouched
      and is reported; otherwise the parsed parts are assigned, the domain
      only when one was found. */
  function PopulateAuthorInfo(authorLine: Option<string>, h: Hello): (r: (Hello, bool))
    requires authorLine.Some? ==> AuthorLineDefined(authorLine.value)
    ensures authorLine.None? ==> r == (h, true)
    ensures authorLine.Some? ==> !r.1
    ensures r.0 == h.(authorName := r.0.authorName, authorEmail := r.0.authorEmail,
                      authorEmailDomain := r.0.authorEmailDomain)
    ensures authorLine.Some? ==>
              var a := ParseAuthorLine(authorLine.value);
              r.0.authorName == a.name && r.0.authorEmail == a.email &&
              (a.domain.Some? ==> r.0.authorEmailDomain == a.domain.value) &&
              (a.domain.None? ==> r.0.authorEmailDomain == h.authorEmailDomain)
  {
    match authorLine
    case None => (h, true)
    case Some(output) =>
      var a := ParseAuthorLine(output);
      (h.(authorName := a.name, authorEmail := a.email, authorEmailDomain := a.domain.GetOr(h.authorEmailDomain)), false)
  }

  /** On a detached HEAD the branch lookup prints `HEAD`, and listing
      `refs/heads/HEAD` prints nothing while still succeeding. The empty
      output has no "<", so the source's `parts[1]` is out of range. */
  lemma DetachedHeadOutputUndefined()
    ensures !AuthorLineDefined("")
  {
    assert TrimSpace("") == "";
    IndexOfChar("", '<');
    SplitWithoutSeparator("", "<");
  }

  /** `populateAuthorInfo` with the length of the split checked: an output
      without "<" is reported like a failed lookup instead of panicking. */
  function PopulateAuthorInfoIntended(authorLine: Option<string>, h: Hello): (r: (Hello, bool))
    ensures !r.1 <==> authorLine.Some? && AuthorLineDefined(authorLine.value)
    ensures r.1 ==> r.0 == h
    ensures !r.1 ==> r == PopulateAuthorInfo(authorLine, h)
  {
    match authorLine
    case Some(output) =>
      if AuthorLineDefined(output) then PopulateAuthorInfo(authorLine, h) else (h, true)
    case None => (h, true)
  }

  // ---------------------------------------------------------------------
  // populatePipelineInfo
  // ---------------------------------------------------------------------

  datatype PipelineError = AuthorInfoError | ProviderInfoError(message: string)

  /** The inputs for which `populatePipelineInfo` does not panic. */
  predicate PopulateDefined(facts: PipelineFacts)
  {
    && (facts.authorLine.Some? ==> AuthorLineDefined(facts.authorLine.value))
    && (SelectProvider(facts.env).Some? ==> ProviderDefined(Providers[SelectProvider(facts.env).value], facts.env))
  }

  function GenericDefaults(env: Env, h: Hello): (r: Hello)
    ensures forall f :: f in GenericFields ==> GetField(r, f) == Getenv(env, GenericVariable(f))
    ensures forall f :: f !in GenericFields ==> GetField(r, f) == GetField(h, f)
    ensures r.workingDirectory == h.workingDirectory && r.services == h.services
  {
    h.(commitHash := Getenv(env, "VCS_COMMIT_ID"),
       branchName := Getenv(env, "VCS_BRANCH_NAME"),
       pullRequest := Getenv(env, "VCS_PULL_REQUEST"),
       slug := Getenv(env, "VCS_SLUG"),
       tag := Getenv(env, "VCS_TAG"),
       buildUrl := Getenv(env, "CI_BUILD_URL"),
       buildId := Getenv(env, "CI_BUILD_ID"),
       jobId := Getenv(env, "CI_JOB_ID"))
  }

  datatype Populated = Populated(hello: Hello, errors: seq<PipelineError>)

  /** `populatePipelineInfo`: author info, then the generic defaults, then
      the first detected provider only. */
  function PopulatePipelineInfo(facts: PipelineFacts, h: Hello): (r: Populated)
    requires PopulateDefined(facts)
    ensures r.hello.workingDirectory == h.workingDirectory && r.hello.services == h.services
    ensures SelectProvider(facts.env).None? ==> r.hello.ciProvider == h.ciProvider
    ensures SelectProvider(facts.env).Some? ==>
              r.hello.ciProvider == ProviderName(Providers[SelectProvider(facts.env).value])
    ensures SelectProvider(facts.env).None? ==>
              forall f :: f in GenericFields ==> GetField(r.hello, f) == Getenv(facts.env, GenericVariable(f))
    ensures var author := PopulateAuthorInfo(facts.authorLine, h).0;
              r.hello.authorName == author.authorName && r.hello.authorEmail == author.authorEmail
              && r.hello.authorEmailDomain == author.authorEmailDomain && r.hello.authorAvatar == h.authorAvatar
    ensures (AuthorInfoError in r.errors) <==> facts.authorLine.None?
    ensures |r.errors| <= 2
  {
    var (h1, authorFailed) := PopulateAuthorInfo(facts.authorLine, h);
    var errs := if authorFailed then [AuthorInfoError] else [];
    var h2 := GenericDefaults(facts.env, h1);
    match SelectProvider(facts.env)
    case None => Populated(h2, errs)
    case Some(i) =>
      var p := Providers[i];
      var (h3, err) := FindInfo(p, facts, h2.(ciProvider := ProviderName(p)));
      Populated(h3, errs + ProviderErrors(err))
  }

  /** The generic fields each provider derivation writes. */
  function AssignedFields(p: ProviderId): set<Field>
  {
    match p
    case LayerCI => {CommitHash, BranchName, PullRequest, Slug, Tag, BuildUrl, BuildId, JobId}
    case Jenkins => {CommitHash, BranchName, PullRequest, BuildUrl, BuildId}
    case Travis => {CommitHash, BranchName, PullRequest, Slug, Tag, BuildId, JobId}
    case CodeBuild => {CommitHash, BranchName, Slug, BuildId, JobId}
    case Docker => {CommitHash, BranchName, Slug, Tag}
    case Codefresh => {CommitHash, BranchName, BuildUrl, BuildId}
    case TeamCity => {CommitHash, BranchName, BuildUrl, BuildId}
    case Circle => {CommitHash, BranchName, PullRequest, Slug, BuildId, JobId}
    case BuddyBuild => {BranchName, BuildId}
    case Bamboo => {CommitHash, BranchName, BuildUrl, BuildId}
    case Bitrise => {CommitHash, BranchName, PullRequest, BuildUrl, BuildId}
    case Semaphore => {CommitHash, BranchName, PullRequest, Slug, BuildId, JobId}
    case Buildkite => {CommitHash, BranchName, PullRequest, Slug, Tag, BuildUrl, BuildId, JobId}
    case Heroku => {CommitHash, BranchName, BuildId}
    case Appveyor => {CommitHash, BranchName, PullRequest, Slug, BuildUrl, BuildId, JobId}
    case Wercker => {CommitHash, BranchName, Slug, BuildId}
    case Magnum => {CommitHash, BranchName, BuildId}
    case Shippable => {CommitHash, BranchName, PullRequest, Slug, BuildUrl, BuildId}
    case Solano => {CommitHash, BranchName, PullRequest, BuildId}
    case Greenhouse => {CommitHash, BranchName, PullRequest, BuildUrl, BuildId}
    case Gitlab => {CommitHash, BranchName, Slug, BuildId}
    case GithubActions => {CommitHash, BranchName, PullRequest, Slug, BuildUrl, BuildId}
    case Azure => {CommitHash, BranchName, PullRequest, BuildUrl, BuildId, JobId}
    case Bitbucket => {CommitHash, BranchName, PullRequest, Slug, BuildId, JobId}
    case Buddy => {CommitHash, BranchName, PullRequest, Slug, Tag, BuildUrl, BuildId}
    case Cirrus => {CommitHash, BranchName, PullRequest, Slug, BuildId, JobId}
  }

  /** A provider derivation leaves every field outside its assigned set as
      it found it. */
  lemma FindInfoKeeps(p: ProviderId, facts: PipelineFacts, h: Hello, f: Field)
    requires ProviderDefined(p, facts.env)
    requires f !in AssignedFields(p)
    ensures GetField(FindInfo(p, facts, h).0, f) == GetField(h, f)
  {
    if f !in GenericFields {
    } else if p in {LayerCI, Jenkins} {
      FindInfoKeepsPart1(p, facts, h, f);
    } else if p in {Travis, CodeBuild} {
      FindInfoKeepsPart2(p, facts, h, f);
    } else if p in {Docker, Codefresh} {
      FindInfoKeepsPart3(p, facts, h, f);
    } else if p in {TeamCity, Circle} {
      FindInfoKeepsPart4(p, facts, h, f);
    } else if p in {BuddyBuild, Bamboo} {
      FindInfoKeepsPart5(p, facts, h, f);
    } else if p in {Bitrise, Semaphore} {
      FindInfoKeepsPart6(p, facts, h, f);
    } else if p in {Buildkite, Heroku} {
      FindInfoKeepsPart7(p, facts, h, f);
    } else if p in {Appveyor, Wercker} {
      FindInfoKeepsPart8(p, facts, h, f);
    } else if p in {Magnum, Shippable} {
      FindInfoKeepsPart9(p, facts, h, f);
    } else if p in {Solano, Greenhouse} {
      FindInfoKeepsPart10(p, facts, h, f);
    } else if p in {Gitlab, GithubActions} {
      FindInfoKeepsPart11(p, facts, h, f);
    } else if p in {Azure, Bitbucket} {
      FindInfoKeepsPart12(p, facts, h, f);
    } else {
      FindInfoKeepsPart13(p, facts, h, f);
    }
  }

  /** `FindInfoKeepsPart1` … `FindInfoKeepsPart13` take the providers two
      at a time, in table order. They hold no reasoning of their own: the
      bodies only split on the provider, and the lemmas exist because one
      proof obligation covering every provider is too large for the
      solver, while one covering two is not. */
  lemma FindInfoKeepsPart1(p: ProviderId, facts: PipelineFacts, h: Hello, f: Field)
    requires p in {LayerCI, Jenkins}
    requires ProviderDefined(p, facts.env)
    requires f in GenericFields - AssignedFields(p)
    ensures GetField(FindInfo(p, facts, h).0, f) == GetField(h, f)
  {
    match p
    case LayerCI =>
    case Jenkins =>
  }

  lemma FindInfoKeepsPart2(p: ProviderId, facts: PipelineFacts, h: Hello, f: Field)
    requires p in {Travis, CodeBuild}
    requires ProviderDefined(p, facts.env)
    requires f in GenericFields - AssignedFields(p)
    ensures GetField(FindInfo(p, facts, h).0, f) == GetField(h, f)
  {
    match p
    case Travis =>
    case CodeBuild =>
  }

  lemma FindInfoKeepsPart3(p: ProviderId, facts: PipelineFacts, h: Hello, f: Field)
    requires p in {Docker, Codefresh}
    requires ProviderDefined(p, facts.env)
    requires f in GenericFields - AssignedFields(p)
    ensures GetField(FindInfo(p, facts, h).0, f) == GetField(h, f)
  {
    match p
    case Docker =>
    case Codefresh =>
  }

  lemma FindInfoKeepsPart4(p: ProviderId, facts: PipelineFacts, h: Hello, f: Field)
    requires p in {TeamCity, Circle}
    requires ProviderDefined(p, facts.env)
    requires f in GenericFields - AssignedFields(p)
    ensures GetField(FindInfo(p, facts, h).0, f) == GetField(h, f)
  {
    match p
    case TeamCity =>
    case Circle =>
  }

  lemma FindInfoKeepsPart5(p: ProviderId, facts: PipelineFacts, h: Hello, f: Field)
    requires p in {BuddyBuild, Bamboo}
    requires ProviderDefined(p, facts.env)
    requires f in GenericFields - AssignedFields(p)
    ensures GetField(FindInfo(p, facts, h).0, f) == GetField(h, f)
  {
    match p
    case BuddyBuild =>
    case Bamboo =>
  }

  lemma FindInfoKeepsPart6(p: ProviderId, facts: PipelineFacts, h: Hello, f: Field)
    requires p in {Bitrise, Semaphore}
    requires ProviderDefined(p, facts.env)
    requires f in GenericFields - AssignedFields(p)
    ensures GetField(FindInfo(p, facts, h).0, f) == GetField(h, f)
  {
    match p
    case Bitrise =>
    case Semaphore =>
  }

  lemma FindInfoKeepsPart7(p: ProviderId, facts: PipelineFacts, h: Hello, f: Field)
    requires p in {Buildkite, Heroku}
    requires ProviderDefined(p, facts.env)
    requires f in GenericFields - AssignedFields(p)
    ensures GetField(FindInfo(p, facts, h).0, f) == GetField(h, f)
  {
    match p
    case Buildkite =>
    case Heroku =>
  }

  lemma FindInfoKeepsPart8(p: ProviderId, facts: PipelineFacts, h: Hello, f: Field)
    requires p in {Appveyor, Wercker}
    requires ProviderDefined(p, facts.env)
    requires f in GenericFields - AssignedFields(p)
    ensures GetField(FindInfo(p, facts, h).0, f) == GetField(h, f)
  {
    match p
    case Appveyor =>
    case Wercker =>
  }

  lemma FindInfoKeepsPart9(p: ProviderId, facts: PipelineFacts, h: Hello, f: Field)
    requires p in {Magnum, Shippable}
    requires ProviderDefined(p, facts.env)
    requires f in GenericFields - AssignedFields(p)
    ensures GetField(FindInfo(p, facts, h).0, f) == GetField(h, f)
  {
    match p
    case Magnum =>
    case Shippable =>
  }

  lemma FindInfoKeepsPart10(p: ProviderId, facts: PipelineFacts, h: Hello, f: Field)
    requires p in {Solano, Greenhouse}
    requires ProviderDefined(p, facts.env)
    requires f in GenericFields - AssignedFields(p)
    ensures GetField(FindInfo(p, facts, h).0, f) == GetField(h, f)
  {
    match p
    case Solano =>
    case Greenhouse =>
  }

  lemma FindInfoKeepsPart11(p: ProviderId, facts: PipelineFacts, h: Hello, f: Field)
    requires p in {Gitlab, GithubActions}
    requires ProviderDefined(p, facts.env)
    requires f in GenericFields - AssignedFields(p)
    ensures GetField(FindInfo(p, facts, h).0, f) == GetField(h, f)
  {
    match p
    case Gitlab =>
    case GithubActions =>
  }

  lemma FindInfoKeepsPart12(p: ProviderId, facts: PipelineFacts, h: Hello, f: Field)
    requires p in {Azure, Bitbucket}
    requires ProviderDefined(p, facts.env)
    requires f in GenericFields - AssignedFields(p)
    ensures GetField(FindInfo(p, facts, h).0, f) == GetField(h, f)
  {
    match p
    case Azure =>
    case Bitbucket =>
  }

  lemma FindInfoKeepsPart13(p: ProviderId, facts: PipelineFacts, h: Hello, f: Field)
    requires p in {Buddy, Cirrus}
    requires ProviderDefined(p, facts.env)
    requires f in GenericFields - AssignedFields(p)
    ensures GetField(FindInfo(p, facts, h).0, f) == GetField(h, f)
  {
    match p
    case Buddy =>
    case Cirrus =>
  }

  /** The hello a detected provider starts from: the author info and the
      generic defaults, with the provider's name. */
  function ProviderStart(facts: PipelineFacts, h: Hello, p: ProviderId): Hello
    requires facts.authorLine.Some? ==> AuthorLineDefined(facts.authorLine.value)
  {
    GenericDefaults(facts.env, PopulateAuthorInfo(facts.authorLine, h).0).(ciProvider := ProviderName(p))
  }

  /** With a provider detected, the announcement is that provider's
      derivation applied over the author info, the generic defaults and its
      name. */
  lemma PopulateSelectedProvider(facts: PipelineFacts, h: Hello)
    requires PopulateDefined(facts)
    requires SelectProvider(facts.env).Some?
    ensures var p := Providers[SelectProvider(facts.env).value];
            PopulatePipelineInfo(facts, h).hello == FindInfo(p, facts, ProviderStart(facts, h, p)).0
  {
  }

  /** With a provider detected, a provider error is reported exactly when
      the derivation raised one, and with its message. */
  lemma PopulateProviderError(facts: PipelineFacts, h: Hello)
    requires PopulateDefined(facts)
    requires SelectProvider(facts.env).Some?
    ensures var p := Providers[SelectProvider(facts.env).value];
            forall m :: ProviderInfoError(m) in PopulatePipelineInfo(facts, h).errors
                        <==> FindInfo(p, facts, ProviderStart(facts, h, p)).1 == Some(m)
  {
    var p := Providers[SelectProvider(facts.env).value];
    var authorErrors: seq<PipelineError> := if PopulateAuthorInfo(facts.authorLine, h).1 then [AuthorInfoError] else [];
    var err := FindInfo(p, facts, ProviderStart(facts, h, p)).1;
    assert PopulatePipelineInfo(facts, h).errors == authorErrors + ProviderErrors(err);
    ProviderErrorsIn(authorErrors, err);
  }

  /** The provider part of the error list. */
  function ProviderErrors(err: Option<string>): seq<PipelineError>
  {
    if err.Some? then [ProviderInfoError(err.value)] else []
  }

  lemma ProviderErrorsIn(authorErrors: seq<PipelineError>, err: Option<string>)
    requires forall k :: 0 <= k < |authorErrors| ==> authorErrors[k] == AuthorInfoError
    ensures forall m :: ProviderInfoError(m) in authorErrors + ProviderErrors(err) <==> err == Some(m)
  {
  }

  /** A generic field keeps its VCS_/CI_ default unless the detected
      provider writes it. */
  lemma PopulateKeepsDefault(facts: PipelineFacts, h: Hello, f: Field)
    requires PopulateDefined(facts)
    requires f in GenericFields
    requires SelectProvider(facts.env).Some? ==> f !in AssignedFields(Providers[SelectProvider(facts.env).value])
    ensures GetField(PopulatePipelineInfo(facts, h).hello, f) == Getenv(facts.env, GenericVariable(f))
  {
    if SelectProvider(facts.env).Some? {
      var p := Providers[SelectProvider(facts.env).value];
      PopulateSelectedProvider(facts, h);
      FindInfoKeeps(p, facts, ProviderStart(facts, h, p), f);
      StartKeepsDefault(facts, h, p, f);
    }
  }

  /** The provider's starting hello holds the generic defaults. */
  lemma StartKeepsDefault(facts: PipelineFacts, h: Hello, p: ProviderId, f: Field)
    requires facts.authorLine.Some? ==> AuthorLineDefined(facts.authorLine.value)
    requires f in GenericFields
    ensures GetField(ProviderStart(facts, h, p), f) == Getenv(facts.env, GenericVariable(f))
  {
    assert f != CiProvider;
  }

  // ---------------------------------------------------------------------
  // redactPipelineInfo
  // ---------------------------------------------------------------------

  /** One field of the redaction: blanked when its name is a key. */
  function Cleared(mask: map<string, bool>, name: string, value: string): string
  {
    if name in mask then "" else value
  }

  /** `redactPipelineInfo`: a field is cleared when its name is a key of the
      mask, whatever the key maps to. */
  function Redact(h: Hello, mask: map<string, bool>): (r: Hello)
    ensures r.workingDirectory == h.workingDirectory && r.services == h.services
  {
    h.(commitHash := Cleared(mask, "CommitHash", h.commitHash),
       branchName := Cleared(mask, "BranchName", h.branchName),
       pullRequest := Cleared(mask, "PullRequest", h.pullRequest),
       slug := Cleared(mask, "Slug", h.slug),
       tag := Cleared(mask, "Tag", h.tag),
       buildUrl := Cleared(mask, "BuildUrl", h.buildUrl),
       buildId := Cleared(mask, "BuildId", h.buildId),
       jobId := Cleared(mask, "JobId", h.jobId),
       authorName := Cleared(mask, "AuthorName", h.authorName),
       authorAvatar := Cleared(mask, "AuthorAvatar", h.authorAvatar),
       authorEmail := Cleared(mask, "AuthorEmail", h.authorEmail),
       ciProvider := Cleared(mask, "CiProvider", h.ciProvider),
       authorEmailDomain := Cleared(mask, "AuthorEmailDomain", h.authorEmailDomain))
  }

  /** A field is cleared exactly when its name is a key of the mask, and
      is otherwise left as it was. */
  lemma RedactField(h: Hello, mask: map<string, bool>, f: Field)
    ensures GetField(Redact(h, mask), f) == if FieldName(f) in mask then "" else GetField(h, f)
  {
    match f
    case CommitHash =>
    case BranchName =>
    case PullRequest =>
    case Slug =>
    case Tag =>
    case BuildUrl =>
    case BuildId =>
    case JobId =>
    case AuthorName =>
    case AuthorAvatar =>
    case AuthorEmail =>
    case CiProvider =>
    case AuthorEmailDomain =>
  }

  /** Two hellos that agree on every field and on the two unredactable
      parts are equal. */
  lemma HelloExtensionality(a: Hello, b: Hello)
    requires forall f :: GetField(a, f) == GetField(b, f)
    requires a.workingDirectory == b.workingDirectory && a.services == b.services
    ensures a == b
  {
    assert GetField(a, CommitHash) == GetField(b, CommitHash);
    assert GetField(a, BranchName) == GetField(b, BranchName);
    assert GetField(a, PullRequest) == GetField(b, PullRequest);
    assert GetField(a, Slug) == GetField(b, Slug);
    assert GetField(a, Tag) == GetField(b, Tag);
    assert GetField(a, BuildUrl) == GetField(b, BuildUrl);
    assert GetField(a, BuildId) == GetField(b, BuildId);
    assert GetField(a, JobId) == GetField(b, JobId);
    assert GetField(a, AuthorName) == GetField(b, AuthorName);
    assert GetField(a, AuthorAvatar) == GetField(b, AuthorAvatar);
    assert GetField(a, AuthorEmail) == GetField(b, AuthorEmail);
    assert GetField(a, CiProvider) == GetField(b, CiProvider);
    assert GetField(a, AuthorEmailDomain) == GetField(b, AuthorEmailDomain);
  }

  /** Redacting twice with the same mask changes nothing more. */
  lemma RedactIdempotent(h: Hello, mask: map<string, bool>)
    ensures Redact(Redact(h, mask), mask) == Redact(h, mask)
  {
  }

  /** Only the keys of the mask matter, not the booleans they map to. */
  lemma RedactDependsOnKeysOnly(h: Hello, m1: map<string, bool>, m2: map<string, bool>)
    requires m1.Keys == m2.Keys
    ensures Redact(h, m1) == Redact(h, m2)
  {
  }

  /** Redacting with two masks in turn is redacting with their union. */
  lemma RedactComposes(h: Hello, m1: map<string, bool>, m2: map<string, bool>)
    ensures Redact(Redact(h, m1), m2) == Redact(h, m1 + m2)
  {
  }
}
