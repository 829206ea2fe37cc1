/** The AWS Lambda handler (`index.mjs`): the signature gate, the dispatch on the
    `X-GitHub-Event` header, and one translator per event kind producing Polish-language
    embeds. Each translator declines (`Done(None)`) for actions it does not report and
    throws when a field it reads belongs to an object the payload lacks. */
module LambdaHandler {
  import opened Common
  import opened Text
  import opened GitHub
  import opened Discord
  import opened Render
  import Signature

  const Wording := PushWording("...i ", " więcej.", "⚠️ **FORCE PUSH** (Historia nadpisana!)")

  /** The actions the issue and pull-request translators report. */
  const LifecycleActions := {"opened", "closed", "reopened"}

  /** Whether a translation completed with an embed. */
  predicate Emits(r: Attempt<Option<Embed>>) {
    r.Done? && r.value.Some?
  }

  /** `handlePush`: the commits of a push, the first five listed. */
  function HandlePush(p: Payload, now: string): (r: Attempt<Option<Embed>>)
    ensures r == Done(None) <==> !HasCommits(p)
    ensures r.Throws? <==> HasCommits(p) && (p.ref.None? || p.sender.None? || p.repository.None?)
    ensures Emits(r) ==>
              && r.value.value.color == Some(if p.forced then Alert else Blurple)
              && r.value.value.description == Some(PushDescription(Wording, p.commits.value, p.forced))
              && r.value.value.title
                   == Some("[Push] " + NatToString(|p.commits.value|) + " nowych commitów do `" + Branch(p.ref.value) + "`")
              && r.value.value.url == p.compare
  {
    if !HasCommits(p) then Done(None)
    else
      var ref :- Read(p.ref);
      var sender :- Read(p.sender);
      var repository :- Read(p.repository);
      var commits := p.commits.value;
      Done(Some(Blank.(
        title := Some("[Push] " + NatToString(|commits|) + " nowych commitów do `" + Branch(ref) + "`"),
        url := p.compare,
        description := Some(PushDescription(Wording, commits, p.forced)),
        color := Some(PushColor(p.forced)),
        timestamp := Some(now),
        author := Some(Author(sender.login, Some(sender.avatarUrl), Some(sender.htmlUrl))),
        footer := Some(Footer(repository.fullName, Some(GitHubMark))))))
  }

  /** `actionPL`: how the author line words an issue action. */
  function IssueVerb(action: string): string {
    match action
    case "opened" => "Zgłosił(a)"
    case "closed" => "Zamknął(ęła)"
    case _ => "Wznowił(a)"
  }

  /** The labels field: the names joined by commas, or `Brak` when that join is empty. */
  function LabelList(labels: seq<string>): (v: string)
    ensures labels == [] || labels == [""] ==> v == "Brak"
    ensures !(labels == [] || labels == [""]) ==> v == Join(labels, ", ")
  {
    JoinEmpty(labels, ", ");
    OrElse(Some(Join(labels, ", ")), "Brak")
  }

  const IssueCap := 200

  /** `handleIssue`: an issue opened, closed or reopened. The issue's labels must be
      present. */
  function HandleIssue(p: Payload, now: string): (r: Attempt<Option<Embed>>)
    ensures r == Done(None) <==> !ActionIn(p, LifecycleActions)
    ensures r.Throws? <==>
              ActionIn(p, LifecycleActions)
              && (p.issue.None? || p.sender.None? || p.repository.None? || p.issue.value.labels.None?)
    ensures Emits(r) ==>
              && r.value.value.description == Some(IssueBody(p.issue.value.body, IssueCap, "*Brak opisu*"))
              && r.value.value.title == Some(p.issue.value.title)
              && r.value.value.fields.Some? && |r.value.value.fields.value| == 2
              && r.value.value.fields.value[1].value == LabelList(p.issue.value.labels.value)
              && r.value.value.author.Some?
              && r.value.value.author.value.name
                   == p.sender.value.login + " " + IssueVerb(p.action.value) + " Issue #" + NatToString(p.issue.value.number)
    ensures Emits(r) && p.action == Some("opened") ==> r.value.value.color == Some(Emerald)
    ensures Emits(r) && p.action == Some("closed") ==> r.value.value.color == Some(Alizarin)
    ensures Emits(r) && p.action == Some("reopened") ==> r.value.value.color == Some(Carrot)
  {
    if !ActionIn(p, LifecycleActions) then Done(None)
    else
      var action := p.action.value;
      var issue :- Read(p.issue);
      var repository :- Read(p.repository);
      var sender :- Read(p.sender);
      var labels :- Read(issue.labels);
      Done(Some(Blank.(
        author := Some(Author(sender.login + " " + IssueVerb(action) + " Issue #" + NatToString(issue.number),
                              Some(sender.avatarUrl), None)),
        title := Some(issue.title),
        url := Some(issue.htmlUrl),
        description := Some(IssueBody(issue.body, IssueCap, "*Brak opisu*")),
        color := Some(IssueColor(p.action)),
        timestamp := Some(now),
        fields := Some([Field("Repozytorium", repository.fullName, Some(true)),
                        Field("Etykiety", LabelList(labels), Some(true))]),
        footer := Some(Footer("GitHub Issues", None)))))
  }

  /** The wording and colour of a pull-request action: `Otworzył(a)` only for opened, a
      merge reported as `Zmergował(a)`; the colour marks merged, closed unmerged, or open. */
  function PullRequestStatus(action: string, merged: bool): (status: (string, int))
    ensures action == "closed" && merged ==> status == ("Zmergował(a)", Amethyst)
    ensures action == "closed" && !merged ==> status == ("Zamknął(ęła)", DarkRed)
    ensures action == "opened" ==> status == ("Otworzył(a)", PeterRiver)
    ensures action == "reopened" ==> status == ("Zamknął(ęła)", PeterRiver)
  {
    var verb := if action == "opened" then "Otworzył(a)" else "Zamknął(ęła)";
    if action == "closed" && merged then ("Zmergował(a)", Amethyst)
    else if action == "closed" && !merged then (verb, DarkRed)
    else (verb, PeterRiver)
  }

  /** `handlePullRequest`: a pull request opened, closed or reopened. */
  function HandlePullRequest(p: Payload, now: string): (r: Attempt<Option<Embed>>)
    ensures r == Done(None) <==> !ActionIn(p, LifecycleActions)
    ensures r.Throws? <==>
              ActionIn(p, LifecycleActions) && (p.pullRequest.None? || p.sender.None? || p.repository.None?)
    ensures Emits(r) ==>
              var pr := p.pullRequest.value;
              var status := PullRequestStatus(p.action.value, pr.merged);
              && r.value.value.color == Some(status.1)
              && r.value.value.author.Some?
              && r.value.value.author.value.name
                   == p.sender.value.login + " " + status.0 + " Pull Request #" + NatToString(pr.number)
              && r.value.value.fields == Some([Field("Gałęzie", BranchesValue(pr), Some(false)),
                                               Field("Zmiany", ChangesValue(pr), Some(true))])
  {
    if !ActionIn(p, LifecycleActions) then Done(None)
    else
      var pr :- Read(p.pullRequest);
      var sender :- Read(p.sender);
      var repository :- Read(p.repository);
      var status := PullRequestStatus(p.action.value, pr.merged);
      Done(Some(Blank.(
        author := Some(Author(sender.login + " " + status.0 + " Pull Request #" + NatToString(pr.number),
                              Some(sender.avatarUrl), None)),
        title := Some(pr.title),
        url := Some(pr.htmlUrl),
        color := Some(status.1),
        timestamp := Some(now),
        fields := Some([Field("Gałęzie", BranchesValue(pr), Some(false)),
                        Field("Zmiany", ChangesValue(pr), Some(true))]),
        footer := Some(Footer(repository.fullName, None)))))
  }

  /** `handleReviewComment`: a new comment on a line of a pull request's diff. */
  function HandleReviewComment(p: Payload, now: string): (r: Attempt<Option<Embed>>)
    ensures r == Done(None) <==> p.action != Some("created")
    ensures r.Throws? <==>
              p.action == Some("created")
              && (p.comment.None? || p.pullRequest.None? || p.sender.None? || p.repository.None?)
    ensures Emits(r) ==>
              && r.value.value.fields == Some([Field("📂 Plik", "`" + p.comment.value.path + "`", Some(false)),
                                               Field("💻 Kod", CodeBlock(p.comment.value.diffHunk), Some(false))])
              && r.value.value.description == Some("**Komentarz:** " + p.comment.value.body)
              && r.value.value.color == Some(Carrot)
  {
    if p.action != Some("created") then Done(None)
    else
      var comment :- Read(p.comment);
      var pr :- Read(p.pullRequest);
      var sender :- Read(p.sender);
      var repository :- Read(p.repository);
      Done(Some(Blank.(
        title := Some("👀 Code Review w PR #" + NatToString(pr.number)),
        url := Some(comment.htmlUrl),
        description := Some("**Komentarz:** " + comment.body),
        color := Some(Carrot),
        timestamp := Some(now),
        author := Some(Author(sender.login + " skomentował(a) linię kodu", Some(sender.avatarUrl), Some(sender.htmlUrl))),
        fields := Some([Field("📂 Plik", "`" + comment.path + "`", Some(false)),
                        Field("💻 Kod", CodeBlock(comment.diffHunk), Some(false))]),
        footer := Some(Footer(repository.fullName, None)))))
  }

  /** `handleComment`: a new comment on an issue or a pull request, its body cut to 300
      characters plus an ellipsis when longer. */
  function HandleComment(p: Payload, now: string): (r: Attempt<Option<Embed>>)
    ensures r == Done(None) <==> p.action != Some("created")
    ensures r.Throws? <==>
              p.action == Some("created")
              && (p.comment.None? || p.issue.None? || p.sender.None? || p.repository.None?)
    ensures Emits(r) ==>
              var body := p.comment.value.body;
              var d := r.value.value.description;
              && d.Some? && |d.value| <= CommentCap + |Ellipsis|
              && (|body| <= CommentCap ==> d.value == body)
              && (|body| > CommentCap ==> d.value == body[..CommentCap] + Ellipsis)
              && r.value.value.author.Some?
              && r.value.value.author.value.name
                   == p.sender.value.login + " skomentował " + ThreadKind(p.issue.value) + " #" + NatToString(p.issue.value.number)
  {
    if p.action != Some("created") then Done(None)
    else
      var comment :- Read(p.comment);
      var issue :- Read(p.issue);
      var sender :- Read(p.sender);
      var repository :- Read(p.repository);
      Done(Some(Blank.(
        author := Some(Author(sender.login + " skomentował " + ThreadKind(issue) + " #" + NatToString(issue.number),
                              Some(sender.avatarUrl), Some(comment.htmlUrl))),
        description := Some(Ellipsize(comment.body, CommentCap)),
        color := Some(Sunflower),
        timestamp := Some(now),
        footer := Some(Footer(repository.fullName, None)))))
  }

  const ReleaseNotesCap := 500

  /** `body ? body.substring(0, 500) : ''`: at most 500 characters of the release notes,
      cut without an ellipsis. */
  function ReleaseNotes(body: Option<string>): (notes: string)
    ensures |notes| <= ReleaseNotesCap
    ensures !Truthy(body) ==> notes == ""
    ensures Truthy(body) ==> notes <= body.value
    ensures Truthy(body) && |body.value| <= ReleaseNotesCap ==> notes == body.value
    ensures Truthy(body) && |body.value| > ReleaseNotesCap ==> notes == body.value[..ReleaseNotesCap]
  {
    if Truthy(body) then Prefix(body.value, ReleaseNotesCap) else ""
  }

  /** `handleRelease`: a published release. */
  function HandleRelease(p: Payload, now: string): (r: Attempt<Option<Embed>>)
    ensures r == Done(None) <==> p.action != Some("published")
    ensures r.Throws? <==>
              p.action == Some("published") && (p.release.None? || p.sender.None? || p.repository.None?)
    ensures Emits(r) ==>
              && r.value.value.description
                   == Some("**" + OrElse(p.release.value.name, "") + "**\n\n" + ReleaseNotes(p.release.value.body))
              && r.value.value.thumbnail == Some(p.repository.value.ownerAvatarUrl)
  {
    if p.action != Some("published") then Done(None)
    else
      var release :- Read(p.release);
      var repository :- Read(p.repository);
      var sender :- Read(p.sender);
      Done(Some(Blank.(
        title := Some("🚀 Nowa wersja: " + release.tagName),
        url := Some(release.htmlUrl),
        description := Some("**" + OrElse(release.name, "") + "**\n\n" + ReleaseNotes(release.body)),
        color := Some(Gold),
        thumbnail := Some(repository.ownerAvatarUrl),
        timestamp := Some(now),
        author := Some(Author("Release Manager: " + sender.login, Some(sender.avatarUrl), None)),
        footer := Some(Footer("Produkcja", None)))))
  }

  /** `handleStar`: a new star. The message carries no timestamp. */
  function HandleStar(p: Payload): (r: Attempt<Option<Embed>>)
    ensures r == Done(None) <==> p.action != Some("started")
    ensures r.Throws? <==> p.action == Some("started") && (p.sender.None? || p.repository.None?)
    ensures Emits(r) ==>
              && r.value.value.thumbnail == Some(p.sender.value.avatarUrl)
              && r.value.value.fields == Some([Field("Liczba gwiazdek", StarsValue(p.repository.value), Some(true))])
              && r.value.value.timestamp.None?
  {
    if p.action != Some("started") then Done(None)
    else
      var sender :- Read(p.sender);
      var repository :- Read(p.repository);
      Done(Some(Blank.(
        title := Some("🌟 Nowa gwiazdka!"),
        description := Some("**" + sender.login + "** polubił repozytorium."),
        color := Some(Yellow),
        thumbnail := Some(sender.avatarUrl),
        fields := Some([Field("Liczba gwiazdek", StarsValue(repository), Some(true))]),
        url := Some(repository.htmlUrl))))
  }

  const PingText := "✅ Webhook GitHuba połączony pomyślnie!"

  /** The event kinds the switch has a case for. */
  const HandledEvents := {"push", "issues", "pull_request", "issue_comment", "pull_request_review_comment",
                          "release", "watch", "ping"}

  /** What the dispatch decides: an unknown event is ignored; a known one sends a message,
      sends nothing, or crashes because its translator threw. */
  datatype Outcome = Ignored | Send(message: Message) | Quiet | Crash

  /** Whether the translator for a known event kind declines this payload: the gate each
      handler states as its own `r == Done(None)` condition, gathered per event so that
      `Dispatch` can say when a known event stays silent without naming its handler. */
  predicate Declines(eventType: string, p: Payload) {
    match eventType
    case "push" => !HasCommits(p)
    case "issues" => !ActionIn(p, LifecycleActions)
    case "pull_request" => !ActionIn(p, LifecycleActions)
    case "issue_comment" => p.action != Some("created")
    case "pull_request_review_comment" => p.action != Some("created")
    case "release" => p.action != Some("published")
    case "watch" => p.action != Some("started")
    case _ => false
  }

  /** Whether an outcome carries a translator's result: its embed sent alone, its
      declining as silence, its throw as a crash. */
  predicate Delivers(o: Outcome, r: Attempt<Option<Embed>>) {
    && (o == Crash <==> r.Throws?)
    && (o == Quiet <==> r == Done(None))
    && (r.Done? && r.value.Some? ==> o == Send(Embeds([r.value.value])))
  }

  function Deliverable(r: Attempt<Option<Embed>>): Outcome {
    match r
    case Throws => Crash
    case Done(None) => Quiet
    case Done(Some(e)) => Send(Embeds([e]))
  }

  /** The event `switch` of `handler`, for a request that names its event. */
  function Dispatch(eventType: string, p: Payload, now: string): (o: Outcome)
    ensures o == Ignored <==> eventType !in HandledEvents
    ensures o == Quiet <==> Declines(eventType, p)
    ensures o.Send? && eventType != "ping" ==> o.message.Embeds? && |o.message.embeds| == 1
    ensures eventType == "ping" ==> o == Send(Content(PingText))
    ensures eventType == "push" ==> Delivers(o, HandlePush(p, now))
    ensures eventType == "issues" ==> Delivers(o, HandleIssue(p, now))
    ensures eventType == "pull_request" ==> Delivers(o, HandlePullRequest(p, now))
    ensures eventType == "issue_comment" ==> Delivers(o, HandleComment(p, now))
    ensures eventType == "pull_request_review_comment" ==> Delivers(o, HandleReviewComment(p, now))
    ensures eventType == "release" ==> Delivers(o, HandleRelease(p, now))
    ensures eventType == "watch" ==> Delivers(o, HandleStar(p))
  {
    match eventType
    case "push" => Deliverable(HandlePush(p, now))
    case "issues" => Deliverable(HandleIssue(p, now))
    case "pull_request" => Deliverable(HandlePullRequest(p, now))
    case "issue_comment" => Deliverable(HandleComment(p, now))
    case "pull_request_review_comment" => Deliverable(HandleReviewComment(p, now))
    case "release" => Deliverable(HandleRelease(p, now))
    case "watch" => Deliverable(HandleStar(p))
    case "ping" => Send(Content(PingText))
    case _ => Ignored
  }

  /** The event `switch` of `handler`: a request without an event header falls to the
      default case. */
  function Route(eventType: Option<string>, p: Payload, now: string): (o: Outcome)
    ensures o == Ignored <==> eventType.None? || eventType.value !in HandledEvents
    ensures o == Quiet <==> eventType.Some? && Declines(eventType.value, p)
    ensures o.Send? && eventType != Some("ping") ==> o.message.Embeds? && |o.message.embeds| == 1
    ensures eventType == Some("ping") ==> o == Send(Content(PingText))
    ensures eventType.Some? ==> o == Dispatch(eventType.value, p, now)
  {
    if eventType.None? then Ignored else Dispatch(eventType.value, p, now)
  }

  /** The request as the Lambda runtime hands it over: its headers object, which may be missing, and its body. */
  datatype Request = Request(headers: Option<map<string, string>>, body: Option<string>)

  /** The reply, and the message POSTed to Discord on the way, if any. */
  datatype Response = Response(statusCode: int, body: string, sent: Option<Message>)

  /** `headers[lower] || headers[canonical]`: a header under either spelling. */
  function Header(headers: map<string, string>, lower: string, canonical: string): (v: Option<string>)
    ensures lower in headers && headers[lower] != "" ==> v == Some(headers[lower])
    ensures !(lower in headers && headers[lower] != "") ==>
              v == (if canonical in headers then Some(headers[canonical]) else None)
  {
    if lower in headers && headers[lower] != "" then Some(headers[lower])
    else if canonical in headers then Some(headers[canonical])
    else None
  }

  function SignatureHeader(headers: map<string, string>): Option<string> {
    Header(headers, "x-hub-signature-256", "X-Hub-Signature-256")
  }

  function EventHeader(headers: map<string, string>): Option<string> {
    Header(headers, "x-github-event", "X-GitHub-Event")
  }

  const ServerError := Response(500, "Internal Server Error", None)

  /** `handler`: verify the signature, parse the body, dispatch, send. `parseJson` is
      `JSON.parse` (`None` when it throws) and `delivered` whether the POST to Discord
      succeeded; any throw becomes a 500. */
  function Handle(req: Request, secret: Option<string>, hmacHex: (string, string) -> string,
                  parseJson: string -> Option<Payload>, delivered: Message -> bool, now: string): (resp: Response)
    ensures req.headers.None? ==> resp == ServerError
    ensures resp.sent.Some? ==>
              && req.headers.Some? && Truthy(req.body) && Truthy(secret)
              && SignatureHeader(req.headers.value) == Some(Signature.Expected(req.body.value, secret.value, hmacHex))
    ensures resp.statusCode == 401 <==>
              req.headers.Some? &&
              Signature.VerifySignature(SignatureHeader(req.headers.value), req.body, secret, hmacHex) == Done(false)
    ensures req.headers.Some? && (!Truthy(SignatureHeader(req.headers.value)) || !Truthy(req.body) || !Truthy(secret)) ==>
              resp == Response(401, "Błąd weryfikacji podpisu", None)
    ensures resp.statusCode in {200, 401, 500}
    ensures req.headers.Some? &&
            Signature.VerifySignature(SignatureHeader(req.headers.value), req.body, secret, hmacHex).Throws?
            ==> resp == ServerError
    ensures && req.headers.Some?
            && Signature.VerifySignature(SignatureHeader(req.headers.value), req.body, secret, hmacHex) == Done(true)
            ==> && (parseJson(req.body.value).None? ==> resp == ServerError)
                && (parseJson(req.body.value).Some? ==>
                      var o := Route(EventHeader(req.headers.value), parseJson(req.body.value).value, now);
                      && (o == Crash ==> resp == ServerError)
                      && (o == Quiet ==> resp == Response(200, "OK", None)))
    ensures resp.statusCode == 200 && resp.sent.Some? ==> delivered(resp.sent.value)
    ensures && req.headers.Some?
            && Signature.VerifySignature(SignatureHeader(req.headers.value), req.body, secret, hmacHex) == Done(true)
            && parseJson(req.body.value).Some?
            && EventHeader(req.headers.value) !in (set e | e in HandledEvents :: Some(e))
            ==> resp == Response(200, "Ignored", None)
    ensures && req.headers.Some?
            && Signature.VerifySignature(SignatureHeader(req.headers.value), req.body, secret, hmacHex) == Done(true)
            && parseJson(req.body.value).Some?
            && Route(EventHeader(req.headers.value), parseJson(req.body.value).value, now).Send?
            ==> var m := Route(EventHeader(req.headers.value), parseJson(req.body.value).value, now).message;
                resp.sent == Some(m) && (resp.statusCode == 200 <==> delivered(m))
  {
    // Reading a header of a missing headers object throws before anything else.
    if req.headers.None? then ServerError
    else
      var headers := req.headers.value;
      match Signature.VerifySignature(SignatureHeader(headers), req.body, secret, hmacHex)
      case Throws => ServerError
      case Done(false) => Response(401, "Błąd weryfikacji podpisu", None)
      case Done(true) =>
        match parseJson(req.body.value)
        case None => ServerError
        case Some(payload) =>
          match Route(EventHeader(headers), payload, now)
          case Ignored => Response(200, "Ignored", None)
          case Quiet => Response(200, "OK", None)
          case Crash => ServerError
          case Send(m) =>
            if delivered(m) then Response(200, "OK", Some(m))
            else Response(500, "Internal Server Error", Some(m))
  }
}
