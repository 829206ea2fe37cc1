/** The parts of a GitHub webhook payload the translators read. Objects an event kind may
    lack (the issue of a push, say) are optional: reading a field of a missing one throws.
    Inside an object, fields GitHub always sends are plain values, and the fields the
    translators test before use (bodies, labels, assignees, the pull-request link of an
    issue, the name of a release) are optional. */
module GitHub {
  import opened Common

  datatype User = User(login: string, avatarUrl: string, htmlUrl: string)

  datatype Repository = Repository(
    name: string,
    fullName: string,
    htmlUrl: string,
    ownerAvatarUrl: string,
    stargazersCount: nat)

  /** A pushed commit; `authorName` is `author.name`. */
  datatype Commit = Commit(id: string, message: string, url: string, authorName: string)

  /** An issue; `labels` holds the label names, `assignees` the logins, and
      `isPullRequest` says whether the issue carries a `pull_request` back-reference. */
  datatype Issue = Issue(
    number: nat,
    title: string,
    htmlUrl: string,
    body: Option<string>,
    labels: Option<seq<string>>,
    assignees: Option<seq<string>>,
    isPullRequest: bool)

  /** A pull request; `headRef` and `baseRef` are the source and target branches. */
  datatype PullRequest = PullRequest(
    number: nat,
    title: string,
    htmlUrl: string,
    merged: bool,
    headRef: string,
    baseRef: string,
    additions: nat,
    deletions: nat,
    changedFiles: nat)

  datatype Review = Review(state: string, body: Option<string>, htmlUrl: string)

  /** A comment; `path` and `diffHunk` locate a review comment in the diff. */
  datatype Comment = Comment(body: string, htmlUrl: string, path: string, diffHunk: string)

  datatype Release = Release(tagName: string, name: Option<string>, body: Option<string>, htmlUrl: string)

  /** The parsed payload. `forced` is the truthiness of the push's `forced` flag. */
  datatype Payload = Payload(
    action: Option<string>,
    ref: Option<string>,
    compare: Option<string>,
    forced: bool,
    commits: Option<seq<Commit>>,
    issue: Option<Issue>,
    pullRequest: Option<PullRequest>,
    review: Option<Review>,
    comment: Option<Comment>,
    release: Option<Release>,
    sender: Option<User>,
    repository: Option<Repository>)

  /** `commits && commits.length > 0` */
  predicate HasCommits(p: Payload) {
    p.commits.Some? && |p.commits.value| > 0
  }

  /** Whether the payload's action is one of `actions`; a missing action is none of them. */
  predicate ActionIn(p: Payload, actions: set<string>) {
    p.action.Some? && p.action.value in actions
  }
}
