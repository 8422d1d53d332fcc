/** The pull-request claim validator `verify` (src/verify.js). The two GitHub fetches are
    inputs: the result of `GET /repos/{owner}/{repo}/pulls/{n}` and of
    `GET /repos/{owner}/{repo}/issues/{n}/comments` for the groups the link matched.
    The three callbacks become one returned `Outcome`. */
module Verification {
  import opened Wrappers
  import opened Strings
  import PullUrl

  /** GitHub user id of the bot whose comments carry the performance score. */
  const HELIX_BOT_ID := 43241697
  /** Marker tokens, either of which makes a bot comment an approval. */
  const PERFORMANCE_MARKER := "PERFORMANCE-97"
  const SCORE_MARKER := "SCORE-100"

  const WRONG_LINK := "Wrong link buddy, try again \U{1F622}"
  const PR_NOT_FOUND := "I could not find that PR. \U{1F622}"
  const NOT_MERGED := "This PR has not been merged. \U{1F614}"
  const CHECK_FAILED := "An error occurred while checking your PR. \U{1F62D}"
  const CODE_MISSING := "I could not verify that PR. Make sure to include the verification code in the PR comments. \U{1F622}"
  const NOT_BY_AUTHOR := "I could not verify that PR. The verification code comment was not commented by the PR author. Are you sure it is really you? \U{1F622}"
  const SCORE_MISSING := "Sorry, couldn't find a performance score of 100. Ask in #aem-chat for help"

  /** The fields of the pull-request JSON that `verify` reads: `user.id` and `merged`. */
  datatype PullRequest = PullRequest(authorId: int, merged: bool)

  /** One issue comment: `user.id` and `body`. */
  datatype Comment = Comment(userId: int, body: string)

  /** What a fetch delivers: a response whose `ok` is false, an exception, or the parsed
      data. An exception is a network failure, a body that is not JSON, a pull request
      without `user`, or a comments body that is not an array. A pull request without
      `merged` does not throw: `!undefined` holds, so it is `Ok` with `merged` false. */
  datatype Fetched<T> = NotOk | Threw | Ok(value: T)

  /** Which callback fires, with its argument: `onsuccess({prData, performance100Comment})`,
      `onreject(message)` or `onerror(message)`. */
  datatype Outcome = Accepted(pr: PullRequest, approval: Comment) | Rejected(reason: string) | Errored(reason: string)

  /** The two `Array.find` predicates. */
  datatype CommentQuery = WithCode(code: string) | ApprovedByBot

  /** The approval test on a comment body, kept apart from the search. */
  predicate IsApprovalBody(body: string)
  {
    Contains(body, PERFORMANCE_MARKER) || Contains(body, SCORE_MARKER)
  }

  predicate Matches(c: Comment, q: CommentQuery)
  {
    match q
    case WithCode(code) => Contains(c.body, code)
    case ApprovedByBot => c.userId == HELIX_BOT_ID && IsApprovalBody(c.body)
  }

  /** Reference meaning of "`find` stops at index i". */
  ghost predicate IsFirstMatch(cs: seq<Comment>, q: CommentQuery, i: int)
  {
    0 <= i < |cs| && Matches(cs[i], q) && forall j :: 0 <= j < i ==> !Matches(cs[j], q)
  }

  /** `cs.find(q)`, as the index of the element found. */
  function FindFirst(cs: seq<Comment>, q: CommentQuery): (r: Option<nat>)
    ensures r.Some? ==> r.value < |cs| && Matches(cs[r.value], q)
    ensures r.Some? ==> forall j :: 0 <= j < r.value ==> !Matches(cs[j], q)
    ensures r.None? ==> forall j :: 0 <= j < |cs| ==> !Matches(cs[j], q)
    decreases |cs|
  {
    if |cs| == 0 then None
    else if Matches(cs[0], q) then Some(0)
    else match FindFirst(cs[1..], q)
      case None => None
      case Some(k) => Some(k + 1)
  }

  /** The checks on the comment list of a merged pull request (src/verify.js:56-91). */
  function CheckComments(p: PullRequest, cs: seq<Comment>, code: string): Outcome
  {
    match FindFirst(cs, WithCode(code))
    case None => Rejected(CODE_MISSING)
    case Some(v) =>
      if cs[v].userId != p.authorId then Rejected(NOT_BY_AUTHOR)
      else match FindFirst(cs, ApprovedByBot)
        case None => Rejected(SCORE_MISSING)
        case Some(a) => Accepted(p, cs[a])
  }

  /** The checks on a fetched pull request, and then on its comments (src/verify.js:29-93). */
  function CheckPull(pr: Fetched<PullRequest>, comments: Fetched<seq<Comment>>, code: string): Outcome
  {
    match pr
    case NotOk => Errored(PR_NOT_FOUND)
    case Threw => Errored(CHECK_FAILED)
    case Ok(p) =>
      if !p.merged then Rejected(NOT_MERGED)
      else match comments
        case NotOk => Errored(CHECK_FAILED)
        case Threw => Errored(CHECK_FAILED)
        case Ok(cs) => CheckComments(p, cs, code)
  }

  /** `verify(url, verificationCode, token, callbacks)`: the checks in source order, the
      first failing one deciding. Each outcome names one of the source's messages, and
      an acceptance carries the fetched pull request and a bot approval comment. */
  function Verify(url: string, code: string, pr: Fetched<PullRequest>, comments: Fetched<seq<Comment>>): (o: Outcome)
    ensures o.Errored? ==> o.reason in {WRONG_LINK, PR_NOT_FOUND, CHECK_FAILED}
    ensures o.Rejected? ==> o.reason in {NOT_MERGED, CODE_MISSING, NOT_BY_AUTHOR, SCORE_MISSING}
    ensures o.Accepted? ==> pr == Ok(o.pr) && o.pr.merged && comments.Ok?
    ensures o.Accepted? ==> o.approval in comments.value && Matches(o.approval, ApprovedByBot)
  {
    if PullUrl.Parse(url).None? then Errored(WRONG_LINK) else CheckPull(pr, comments, code)
  }

  /** Past a matching link, `verify` is decided by the fetched data alone. */
  lemma MatchedLink(url: string, code: string, pr: Fetched<PullRequest>, comments: Fetched<seq<Comment>>)
    requires PullUrl.IsPullUrl(url)
    ensures Verify(url, code, pr, comments) == CheckPull(pr, comments, code)
  {
    PullUrl.ParseIff(url);
  }

  /** A link that does not match the pattern is answered with the wrong-link error whatever
      the fetches would have returned, and only such a link is. */
  lemma WrongLinkIff(url: string, code: string, pr: Fetched<PullRequest>, comments: Fetched<seq<Comment>>)
    ensures Verify(url, code, pr, comments) == Errored(WRONG_LINK) <==> !PullUrl.IsPullUrl(url)
  {
    PullUrl.ParseIff(url);
    assert WRONG_LINK[0] != PR_NOT_FOUND[0] && WRONG_LINK[0] != CHECK_FAILED[0];
  }

  /** A pull request the token cannot fetch is an error, whatever the comments are. */
  lemma PrNotFoundErrors(url: string, code: string, comments: Fetched<seq<Comment>>)
    requires PullUrl.Parse(url).Some?
    ensures Verify(url, code, NotOk, comments) == Errored(PR_NOT_FOUND)
  {
  }

  /** An exception while fetching or reading the pull request is the generic error. */
  lemma PrFetchThrewErrors(url: string, code: string, comments: Fetched<seq<Comment>>)
    requires PullUrl.Parse(url).Some?
    ensures Verify(url, code, Threw, comments) == Errored(CHECK_FAILED)
  {
  }

  /** An unmerged pull request is rejected before the comments are looked at. */
  lemma UnmergedRejected(url: string, code: string, p: PullRequest, comments: Fetched<seq<Comment>>)
    requires PullUrl.Parse(url).Some? && !p.merged
    ensures Verify(url, code, Ok(p), comments) == Rejected(NOT_MERGED)
  {
  }

  /** For a merged pull request, a failed comments fetch is the generic error. */
  lemma CommentsFailedErrors(url: string, code: string, p: PullRequest, comments: Fetched<seq<Comment>>)
    requires PullUrl.Parse(url).Some? && p.merged && !comments.Ok?
    ensures Verify(url, code, Ok(p), comments) == Errored(CHECK_FAILED)
  {
  }

  /** No comment body holds the code at any position: rejected for the missing code. */
  lemma CodeMissingRejected(url: string, code: string, p: PullRequest, cs: seq<Comment>)
    requires PullUrl.Parse(url).Some? && p.merged
    requires forall i, k :: 0 <= i < |cs| ==> !OccursAt(cs[i].body, code, k)
    ensures Verify(url, code, Ok(p), Ok(cs)) == Rejected(CODE_MISSING)
  {
    forall i | 0 <= i < |cs| ensures !Matches(cs[i], WithCode(code)) {
      ContainsIffOccurs(cs[i].body, code);
    }
    assert FindFirst(cs, WithCode(code)).None?;
    assert CheckComments(p, cs, code) == Rejected(CODE_MISSING);
  }

  /** Only the first comment holding the code is checked: if someone other than the pull
      request's author wrote it, the claim is rejected, even when a later comment by the
      author also holds the code. */
  lemma FirstCodeCommentByOtherRejected(url: string, code: string, p: PullRequest, cs: seq<Comment>, i: int)
    requires PullUrl.Parse(url).Some? && p.merged
    requires IsFirstMatch(cs, WithCode(code), i) && cs[i].userId != p.authorId
    ensures Verify(url, code, Ok(p), Ok(cs)) == Rejected(NOT_BY_AUTHOR)
  {
    CommentsByOther(p, cs, code, i);
  }

  lemma CommentsByOther(p: PullRequest, cs: seq<Comment>, code: string, i: int)
    requires IsFirstMatch(cs, WithCode(code), i) && cs[i].userId != p.authorId
    ensures CheckComments(p, cs, code) == Rejected(NOT_BY_AUTHOR)
  {
    FirstMatchUnique(cs, WithCode(code), i);
  }

  /** The author check passed but no comment is a bot approval: rejected for the score. */
  lemma ScoreMissingRejected(url: string, code: string, p: PullRequest, cs: seq<Comment>, i: int)
    requires PullUrl.Parse(url).Some? && p.merged
    requires IsFirstMatch(cs, WithCode(code), i) && cs[i].userId == p.authorId
    requires forall j :: 0 <= j < |cs| ==> !(cs[j].userId == HELIX_BOT_ID && IsApprovalBody(cs[j].body))
    ensures Verify(url, code, Ok(p), Ok(cs)) == Rejected(SCORE_MISSING)
  {
    CommentsLackScore(p, cs, code, i);
  }

  lemma CommentsLackScore(p: PullRequest, cs: seq<Comment>, code: string, i: int)
    requires IsFirstMatch(cs, WithCode(code), i) && cs[i].userId == p.authorId
    requires forall j :: 0 <= j < |cs| ==> !Matches(cs[j], ApprovedByBot)
    ensures CheckComments(p, cs, code) == Rejected(SCORE_MISSING)
  {
    FirstMatchUnique(cs, WithCode(code), i);
  }

  /** `find` stops at the one first match. */
  lemma FirstMatchUnique(cs: seq<Comment>, q: CommentQuery, i: int)
    requires IsFirstMatch(cs, q, i)
    ensures FindFirst(cs, q) == Some(i)
  {
    var r := FindFirst(cs, q);
    assert r.Some?;
    assert !(r.value < i) && !(i < r.value);
  }

  /** The comment checks accept with `a` exactly when the first code comment is by the
      author and `a` is the first bot approval. */
  lemma CommentsAcceptIff(p: PullRequest, cs: seq<Comment>, code: string, a: Comment)
    ensures CheckComments(p, cs, code) == Accepted(p, a) <==>
      && (exists i :: IsFirstMatch(cs, WithCode(code), i) && cs[i].userId == p.authorId)
      && (exists j :: IsFirstMatch(cs, ApprovedByBot, j) && cs[j] == a)
  {
    if CheckComments(p, cs, code) == Accepted(p, a) {
      var v := FindFirst(cs, WithCode(code)).value;
      var k := FindFirst(cs, ApprovedByBot).value;
      assert IsFirstMatch(cs, WithCode(code), v);
      assert IsFirstMatch(cs, ApprovedByBot, k);
    }
    if && (exists i :: IsFirstMatch(cs, WithCode(code), i) && cs[i].userId == p.authorId)
       && (exists j :: IsFirstMatch(cs, ApprovedByBot, j) && cs[j] == a)
    {
      var i :| IsFirstMatch(cs, WithCode(code), i) && cs[i].userId == p.authorId;
      var j :| IsFirstMatch(cs, ApprovedByBot, j) && cs[j] == a;
      FirstMatchUnique(cs, WithCode(code), i);
      FirstMatchUnique(cs, ApprovedByBot, j);
    }
  }

  /** The full acceptance condition: a matching link, a fetched and merged pull request,
      fetched comments whose first code-holding comment is by the pull request's author,
      and a bot approval; the approval reported is the first one. */
  lemma AcceptedIff(url: string, code: string, pr: Fetched<PullRequest>, comments: Fetched<seq<Comment>>,
                    q: PullRequest, a: Comment)
    ensures Verify(url, code, pr, comments) == Accepted(q, a) <==>
      && PullUrl.IsPullUrl(url)
      && pr == Ok(q) && q.merged
      && comments.Ok?
      && (exists i :: IsFirstMatch(comments.value, WithCode(code), i) && comments.value[i].userId == q.authorId)
      && (exists j :: IsFirstMatch(comments.value, ApprovedByBot, j) && comments.value[j] == a)
  {
    PullUrl.ParseIff(url);
    if comments.Ok? {
      CommentsAcceptIff(q, comments.value, code, a);
    }
  }

  /** The approval test is "a marker occurs somewhere in the body". */
  lemma ApprovalBodyIff(body: string)
    ensures IsApprovalBody(body) <==>
      (exists k :: OccursAt(body, PERFORMANCE_MARKER, k)) || (exists k :: OccursAt(body, SCORE_MARKER, k))
  {
    ContainsIffOccurs(body, PERFORMANCE_MARKER);
    ContainsIffOccurs(body, SCORE_MARKER);
  }
}
