/** The GitHub Action script (`src/index.js`): an `if/else` chain on the event name that
    builds one English-language embed, and the POST of that embed when there is one.
    Unlike the Lambda handler it reports every action of an event, builds no message for a
    ping, and lists assignees for issues. */
module ActionScript {
  import opened Common
  import opened Text
  import opened GitHub
  import opened Discord
  import opened Render

  /** The `dict` of `translateAction`: each known action and its English word. */
  const Translations: map<string, string> :=
    map["opened" := "Opened", "closed" := "Closed", "reopened" := "Reopened",
        "created" := "Created", "edited" := "Edited", "deleted" := "Deleted",
        "submitted" := "Submitted"]

  /** The actions `translateAction` knows. */
  const TranslatedActions := {"opened", "closed", "reopened", "created", "edited", "deleted", "submitted"}

  /** Every word of the dictionary is its action capitalised, and the dictionary knows
      exactly the translated actions. */
  lemma TranslationsCapitalize()
    ensures Translations.Keys == TranslatedActions
    ensures forall a :: a in Translations ==> Translations[a] == Capitalize(a)
  {
    forall a | a in Translations
      ensures Translations[a] == Capitalize(a)
    {
      assert a in TranslatedActions;
      var w := Translations[a];
      if a == "opened" { assert w == "Opened" == Capitalize(a); }
      else if a == "closed" { assert w == "Closed" == Capitalize(a); }
      else if a == "reopened" { assert w == "Reopened" == Capitalize(a); }
      else if a == "created" { assert w == "Created" == Capitalize(a); }
      else if a == "edited" { assert w == "Edited" == Capitalize(a); }
      else if a == "deleted" { assert w == "Deleted" == Capitalize(a); }
      else { assert a == "submitted"; assert w == "Submitted" == Capitalize(a); }
    }
  }

  /** `translateAction`: a known action as its capitalised English word, any other action
      as it is. */
  function TranslateAction(action: string): (word: string)
    ensures action in TranslatedActions ==> word == Capitalize(action)
    ensures action !in TranslatedActions ==> word == action
  {
    TranslationsCapitalize();
    if action in Translations then Translations[action] else action
  }

  const Wording := PushWording("...and ", " more.", "⚠️ **FORCE PUSH** (History overwritten!)")

  const IssueCap := 300

  /** A list field of an issue: the items joined by commas, or `None` when the list is
      missing (an empty list gives an empty text). */
  function ListOrNone(items: Option<seq<string>>): (v: string)
    ensures items.None? ==> v == "None"
    ensures items.Some? ==> v == Join(items.value, ", ")
  {
    match items
    case None => "None"
    case Some(xs) => Join(xs, ", ")
  }

  /** The `issues` branch: every action gets a message; the colour falls back to grey for
      actions other than opened, closed and reopened. */
  function IssueEmbed(p: Payload, now: string): (r: Attempt<Embed>)
    ensures r.Throws? <==> p.action.None? || p.issue.None? || p.sender.None? || p.repository.None?
    ensures r.Done? ==>
              && r.value.description == Some(IssueBody(p.issue.value.body, IssueCap, "*No description*"))
              && r.value.color == Some(IssueColor(p.action))
              && r.value.fields.Some? && |r.value.fields.value| == 3
              && r.value.fields.value[1].value == "`" + ListOrNone(p.issue.value.labels) + "`"
              && r.value.fields.value[2].value == ListOrNone(p.issue.value.assignees)
              && r.value.footer == Some(Footer("GitHub Issues • " + Upper(p.action.value), Some(GitHubMark)))
              && r.value.author.Some?
              && r.value.author.value.name
                   == p.sender.value.login + " " + TranslateAction(p.action.value) + " issue #" + NatToString(p.issue.value.number)
  {
    var action :- Read(p.action);
    var issue :- Read(p.issue);
    var repository :- Read(p.repository);
    var sender :- Read(p.sender);
    Done(Blank.(
      title := Some("[Issue] " + issue.title),
      url := Some(issue.htmlUrl),
      description := Some(IssueBody(issue.body, IssueCap, "*No description*")),
      color := Some(IssueColor(p.action)),
      timestamp := Some(now),
      author := Some(Author(sender.login + " " + TranslateAction(action) + " issue #" + NatToString(issue.number),
                            Some(sender.avatarUrl), Some(sender.htmlUrl))),
      fields := Some([Field("Repository", repository.fullName, Some(true)),
                      Field("Labels", "`" + ListOrNone(issue.labels) + "`", Some(true)),
                      Field("Assignees", ListOrNone(issue.assignees), Some(true))]),
      footer := Some(Footer("GitHub Issues • " + Upper(action), Some(GitHubMark)))))
  }

  /** The status text and colour of a pull-request action: closed splits into merged and
      rejected, every other action (a missing one renders as `undefined`) is translated
      and blue. */
  function PullRequestStatus(action: Option<string>, merged: bool): (status: (string, int))
    ensures action == Some("closed") && merged ==> status == ("Merged", Amethyst)
    ensures action == Some("closed") && !merged ==> status == ("Rejected / Closed", DarkRed)
    ensures action.Some? && action.value != "closed" ==> status == (TranslateAction(action.value), PeterRiver)
    ensures action.None? ==> status == ("undefined", PeterRiver)
  {
    if action == Some("closed") then
      if merged then ("Merged", Amethyst) else ("Rejected / Closed", DarkRed)
    else
      (Interpolate(if action.Some? then Some(TranslateAction(action.value)) else None), PeterRiver)
  }

  /** The `pull_request` branch. */
  function PullRequestEmbed(p: Payload, now: string): (r: Attempt<Embed>)
    ensures r.Throws? <==> p.pullRequest.None? || p.sender.None? || p.repository.None?
    ensures r.Done? ==>
              var pr := p.pullRequest.value;
              var status := PullRequestStatus(p.action, pr.merged);
              && r.value.color == Some(status.1)
              && r.value.author.Some?
              && r.value.author.value.name == p.sender.value.login + " " + status.0 + " PR #" + NatToString(pr.number)
              && r.value.fields == Some([Field("Repository", p.repository.value.fullName, Some(true)),
                                         Field("Branches", BranchesValue(pr), Some(false)),
                                         Field("Changes", ChangesValue(pr), Some(true))])
  {
    var pr :- Read(p.pullRequest);
    var repository :- Read(p.repository);
    var sender :- Read(p.sender);
    var status := PullRequestStatus(p.action, pr.merged);
    Done(Blank.(
      title := Some("[PR] " + pr.title),
      url := Some(pr.htmlUrl),
      color := Some(status.1),
      timestamp := Some(now),
      author := Some(Author(sender.login + " " + status.0 + " PR #" + NatToString(pr.number),
                            Some(sender.avatarUrl), Some(sender.htmlUrl))),
      fields := Some([Field("Repository", repository.fullName, Some(true)),
                      Field("Branches", BranchesValue(pr), Some(false)),
                      Field("Changes", ChangesValue(pr), Some(true))]),
      footer := Some(Footer("GitHub PR • " + repository.name, Some(GitHubMark)))))
  }

  /** The title prefix and colour of a review: approval green, requested changes red,
      anything else a grey comment. */
  function ReviewStyle(state: string): (style: (string, int))
    ensures state == "APPROVED" ==> style == ("✅ Approved", Emerald)
    ensures state == "CHANGES_REQUESTED" ==> style == ("🛑 Requested changes on", Alizarin)
    ensures state !in {"APPROVED", "CHANGES_REQUESTED"} ==> style == ("Commented on", Concrete)
  {
    if state == "APPROVED" then ("✅ Approved", Emerald)
    else if state == "CHANGES_REQUESTED" then ("🛑 Requested changes on", Alizarin)
    else ("Commented on", Concrete)
  }

  /** The `pull_request_review` branch: reported whatever the action. */
  function ReviewEmbed(p: Payload, now: string): (r: Attempt<Embed>)
    ensures r.Throws? <==> p.review.None? || p.pullRequest.None? || p.sender.None? || p.repository.None?
    ensures r.Done? ==>
              var style := ReviewStyle(p.review.value.state);
              && r.value.color == Some(style.1)
              && r.value.title == Some(style.0 + " PR #" + NatToString(p.pullRequest.value.number))
              && r.value.description
                   == Some("**" + p.pullRequest.value.title + "**\n\n" + OrElse(p.review.value.body, ""))
  {
    var review :- Read(p.review);
    var pr :- Read(p.pullRequest);
    var repository :- Read(p.repository);
    var sender :- Read(p.sender);
    var style := ReviewStyle(review.state);
    Done(Blank.(
      title := Some(style.0 + " PR #" + NatToString(pr.number)),
      url := Some(review.htmlUrl),
      description := Some("**" + pr.title + "**\n\n" + OrElse(review.body, "")),
      color := Some(style.1),
      timestamp := Some(now),
      author := Some(Author(sender.login, Some(sender.avatarUrl), Some(sender.htmlUrl))),
      footer := Some(Footer(repository.fullName, Some(GitHubMark)))))
  }

  /** The `push` branch: no message without commits. */
  function PushEmbed(p: Payload, now: string): (r: Attempt<Option<Embed>>)
    ensures r == Done(None) <==> !HasCommits(p)
    ensures r.Throws? <==> HasCommits(p) && (p.ref.None? || p.sender.None? || p.repository.None?)
    ensures r.Done? && r.value.Some? ==>
              && r.value.value.color == Some(if p.forced then Alert else Blurple)
              && r.value.value.description == Some(PushDescription(Wording, p.commits.value, p.forced))
              && r.value.value.title
                   == Some("[Push] " + NatToString(|p.commits.value|) + " new commits to `" + Branch(p.ref.value) + "`")
              && r.value.value.url == p.compare
  {
    if !HasCommits(p) then Done(None)
    else
      var ref :- Read(p.ref);
      var sender :- Read(p.sender);
      var repository :- Read(p.repository);
      var commits := p.commits.value;
      Done(Some(Blank.(
        title := Some("[Push] " + NatToString(|commits|) + " new commits to `" + Branch(ref) + "`"),
        url := p.compare,
        description := Some(PushDescription(Wording, commits, p.forced)),
        color := Some(PushColor(p.forced)),
        timestamp := Some(now),
        author := Some(Author(sender.login, Some(sender.avatarUrl), Some(sender.htmlUrl))),
        footer := Some(Footer(repository.fullName, Some(GitHubMark))))))
  }

  /** The `pull_request_review_comment` branch: reported whatever the action. */
  function ReviewCommentEmbed(p: Payload, now: string): (r: Attempt<Embed>)
    ensures r.Throws? <==> p.comment.None? || p.pullRequest.None? || p.sender.None? || p.repository.None?
    ensures r.Done? ==>
              && r.value.fields == Some([Field("File", "`" + p.comment.value.path + "`", Some(false)),
                                         Field("Code", CodeBlock(p.comment.value.diffHunk), Some(false))])
              && r.value.description == Some("**Comment:** " + p.comment.value.body)
  {
    var comment :- Read(p.comment);
    var pr :- Read(p.pullRequest);
    var repository :- Read(p.repository);
    var sender :- Read(p.sender);
    Done(Blank.(
      title := Some("👀 Code Review in PR #" + NatToString(pr.number)),
      url := Some(comment.htmlUrl),
      description := Some("**Comment:** " + comment.body),
      color := Some(Carrot),
      timestamp := Some(now),
      author := Some(Author(sender.login + " on code", Some(sender.avatarUrl), None)),
      fields := Some([Field("File", "`" + comment.path + "`", Some(false)),
                      Field("Code", CodeBlock(comment.diffHunk), Some(false))]),
      footer := Some(Footer(repository.fullName, Some(GitHubMark)))))
  }

  /** The `issue_comment` branch: the first 300 characters of the comment, without an
      ellipsis; the title says whether the thread is a pull request. */
  function IssueCommentEmbed(p: Payload, now: string): (r: Attempt<Embed>)
    ensures r.Throws? <==> p.comment.None? || p.issue.None? || p.sender.None? || p.repository.None?
    ensures r.Done? ==>
              var body := p.comment.value.body;
              && r.value.description.Some?
              && |r.value.description.value| <= CommentCap
              && r.value.description.value <= body
              && (|body| <= CommentCap ==> r.value.description.value == body)
              && (|body| > CommentCap ==> r.value.description.value == body[..CommentCap])
              && r.value.title == Some("💬 Comment in " + ThreadKind(p.issue.value) + " #" + NatToString(p.issue.value.number))
  {
    var comment :- Read(p.comment);
    var issue :- Read(p.issue);
    var repository :- Read(p.repository);
    var sender :- Read(p.sender);
    Done(Blank.(
      title := Some("💬 Comment in " + ThreadKind(issue) + " #" + NatToString(issue.number)),
      url := Some(comment.htmlUrl),
      description := Some(Prefix(comment.body, CommentCap)),
      color := Some(Sunflower),
      timestamp := Some(now),
      author := Some(Author(sender.login, Some(sender.avatarUrl), Some(sender.htmlUrl))),
      footer := Some(Footer(repository.fullName, Some(GitHubMark)))))
  }

  /** The `release` branch: the release name alone as description, whatever the action. */
  function ReleaseEmbed(p: Payload, now: string): (r: Attempt<Embed>)
    ensures r.Throws? <==> p.release.None? || p.repository.None? || p.sender.None?
    ensures r.Done? ==>
              && r.value.description == p.release.value.name
              && r.value.thumbnail == Some(p.repository.value.ownerAvatarUrl)
              && r.value.footer.None?
  {
    var release :- Read(p.release);
    var repository :- Read(p.repository);
    var sender :- Read(p.sender);
    Done(Blank.(
      title := Some("🚀 New Release: " + release.tagName),
      url := Some(release.htmlUrl),
      description := release.name,
      color := Some(Gold),
      thumbnail := Some(repository.ownerAvatarUrl),
      author := Some(Author(sender.login, Some(sender.avatarUrl), None)),
      timestamp := Some(now)))
  }

  /** The `watch` branch: a star, whatever the action, without a timestamp. */
  function WatchEmbed(p: Payload): (r: Attempt<Embed>)
    ensures r.Throws? <==> p.repository.None? || p.sender.None?
    ensures r.Done? ==>
              && r.value.fields == Some([Field("Stars", StarsValue(p.repository.value), None)])
              && r.value.timestamp.None?
  {
    var repository :- Read(p.repository);
    var sender :- Read(p.sender);
    Done(Blank.(
      title := Some("🌟 New Star!"),
      color := Some(Yellow),
      author := Some(Author(sender.login, Some(sender.avatarUrl), None)),
      fields := Some([Field("Stars", StarsValue(repository), None)]),
      url := Some(repository.htmlUrl)))
  }

  /** The event names the `if/else` chain has a branch for. */
  const ScriptEvents := {"issues", "pull_request", "pull_request_review", "push",
                         "pull_request_review_comment", "issue_comment", "release", "watch"}

  /** A branch that always builds an embed, as a translation that may build none. */
  function AsOptional(r: Attempt<Embed>): Attempt<Option<Embed>> {
    match r
    case Done(e) => Done(Some(e))
    case Throws => Throws
  }

  /** Whether a translation is what a branch that always builds an embed gives: its
      embed, or its throw. */
  predicate Builds(r: Attempt<Option<Embed>>, branch: Attempt<Embed>) {
    && (r.Throws? <==> branch.Throws?)
    && (branch.Done? ==> r == Done(Some(branch.value)))
  }

  /** The embed the `if/else` chain of `run` builds, if any. */
  function Translate(eventName: Option<string>, p: Payload, now: string): (r: Attempt<Option<Embed>>)
    ensures r == Done(None) <==>
              eventName.None? || eventName.value !in ScriptEvents || (eventName == Some("push") && !HasCommits(p))
    ensures eventName == Some("issues") ==> Builds(r, IssueEmbed(p, now))
    ensures eventName == Some("pull_request") ==> Builds(r, PullRequestEmbed(p, now))
    ensures eventName == Some("pull_request_review") ==> Builds(r, ReviewEmbed(p, now))
    ensures eventName == Some("push") ==> r == PushEmbed(p, now)
    ensures eventName == Some("pull_request_review_comment") ==> Builds(r, ReviewCommentEmbed(p, now))
    ensures eventName == Some("issue_comment") ==> Builds(r, IssueCommentEmbed(p, now))
    ensures eventName == Some("release") ==> Builds(r, ReleaseEmbed(p, now))
    ensures eventName == Some("watch") ==> Builds(r, WatchEmbed(p))
  {
    if eventName == Some("issues") then AsOptional(IssueEmbed(p, now))
    else if eventName == Some("pull_request") then AsOptional(PullRequestEmbed(p, now))
    else if eventName == Some("pull_request_review") then AsOptional(ReviewEmbed(p, now))
    else if eventName == Some("push") then PushEmbed(p, now)
    else if eventName == Some("pull_request_review_comment") then AsOptional(ReviewCommentEmbed(p, now))
    else if eventName == Some("issue_comment") then AsOptional(IssueCommentEmbed(p, now))
    else if eventName == Some("release") then AsOptional(ReleaseEmbed(p, now))
    else if eventName == Some("watch") then AsOptional(WatchEmbed(p))
    else Done(None)
  }

  /** How a run of the script ends: it POSTs a message, sends nothing, or exits with an
      error because building the embed threw. */
  datatype RunOutcome = Posted(message: Message) | NothingSent | Crashed

  /** `run` after configuration and the event file are loaded: a built embed is POSTed as
      the only embed of a message; otherwise nothing is sent. */
  function Run(eventName: Option<string>, p: Payload, now: string): (o: RunOutcome)
    ensures o.Posted? ==> o.message.Embeds? && |o.message.embeds| == 1
    ensures Translate(eventName, p, now).Done? && Translate(eventName, p, now).value.Some? ==>
              o == Posted(Embeds([Translate(eventName, p, now).value.value]))
    ensures o == Crashed <==> Translate(eventName, p, now).Throws?
    ensures o == NothingSent <==>
              eventName.None? || eventName.value !in ScriptEvents || (eventName == Some("push") && !HasCommits(p))
  {
    match Translate(eventName, p, now)
    case Throws => Crashed
    case Done(None) => NothingSent
    case Done(Some(e)) => Posted(Embeds([e]))
  }
}
