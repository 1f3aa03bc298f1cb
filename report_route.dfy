/** `POST /api/extension/report`: the extension reports whether a comment was
    posted; the route checks the token, the rate limit, the body and the
    ownership, then records the outcome on that comment. */
module ReportRoute {
  import opened Wrappers
  import opened Schema
  import opened Database
  import opened Json
  import RateLimit

  datatype Response =
    | NoToken          // 401 "No token"
    | TooManyRequests  // 429
    | InvalidToken     // 401 "Invalid token"
    | BadRequest       // 400, the schema's issues
    | NotFound         // 404 "Comment not found"
    | Reported         // 200 { ok: true }
    | InternalError    // 500

  /** The fields of `reportSchema` the route uses; `error` is checked but dropped. */
  datatype ReportFields = ReportFields(commentId: string, success: bool, platformUrl: Option<string>)

  const ReportLimit: int := 30
  const ReportWindowMs: int := 60 * 1000

  /** The rate-limit key of a token. */
  function RateKey(token: string): (k: string)
    ensures |k| == |token| + 4 && k[..4] == "ext:" && k[4..] == token
  {
    "ext:" + token
  }

  /** `reportSchema.parse(body)`: an object with a string `commentId`, a
      boolean `success`, and `platformUrl` and `error` absent or strings. */
  function ParseReport(v: Json): (r: Option<ReportFields>)
    ensures r.Some? <==>
      && v.JObject? && StringField(v, "commentId").Some? && BoolField(v, "success").Some?
      && OptionalStringOk(v, "platformUrl") && OptionalStringOk(v, "error")
    ensures r.Some? ==>
      && r.value.commentId == StringField(v, "commentId").value
      && r.value.success == BoolField(v, "success").value
      && r.value.platformUrl == StringField(v, "platformUrl")
  {
    if v.JObject? && StringField(v, "commentId").Some? && BoolField(v, "success").Some?
       && OptionalStringOk(v, "platformUrl") && OptionalStringOk(v, "error")
    then Some(ReportFields(StringField(v, "commentId").value, BoolField(v, "success").value, StringField(v, "platformUrl")))
    else None
  }

  /** The comment with that id text owned by the user. */
  function OwnedComment(comments: seq<Comment>, commentId: string, userId: Id): (r: Option<Comment>)
    ensures r.Some? ==> r.value in comments && IdText(r.value.id) == commentId && r.value.userId == userId
    ensures r.None? <==> forall m :: m in comments ==> IdText(m.id) != commentId || m.userId != userId
  {
    Seqs.FindFirst(comments, (m: Comment) => IdText(m.id) == commentId && m.userId == userId)
  }

  /** The row update for a report at time `now`. */
  function Outcome(rep: ReportFields, now: Time): Comment -> Comment
  {
    (m: Comment) => m.(status := if rep.success then Posted else Failed,
                       postedAt := if rep.success then Some(now) else None,
                       platformUrl := rep.platformUrl,
                       updatedAt := now)
  }

  lemma OutcomeKeepsKeys(rep: ReportFields, now: Time)
    ensures KeepsKeys(Outcome(rep, now))
  {
  }

  predicate HasToken(token: Option<string>)
  {
    token.Some? && token.value != ""
  }

  /** The reply and the new tables, given the rate limiter's verdict `allowed`. */
  function Respond(t: Tables, token: Option<string>, allowed: bool, body: Body, now: Time): (r: (Response, Tables))
    ensures r.0 != Reported ==> r.1 == t
    ensures r.0 == Reported ==> HasToken(token) && allowed && body.Parsed?
    ensures r.1.users == t.users && r.1.campaigns == t.campaigns && r.1.posts == t.posts
    ensures |r.1.comments| == |t.comments|
  {
    if !HasToken(token) then (NoToken, t)
    else if !allowed then (TooManyRequests, t)
    else
      match UserByToken(t.users, token.value)
      case None => (InvalidToken, t)
      case Some(user) =>
        match body
        case Malformed => (InternalError, t)
        case Parsed(v) =>
          match ParseReport(v)
          case None => (BadRequest, t)
          case Some(rep) =>
            if OwnedComment(t.comments, rep.commentId, user.id).None? then (NotFound, t)
            else
              (Reported, t.(comments := CommentsWhere(t.comments, (m: Comment) => IdText(m.id) == rep.commentId, Outcome(rep, now))))
  }

  /** `POST` with header `x-extension-token` = `token` and body `body`, at `now`. */
  method Report(store: Store, limiter: RateLimit.RateLimiter, token: Option<string>, body: Body, now: Time)
    returns (r: Response)
    requires store.Valid()
    modifies store, limiter
    ensures store.Valid() && store.nextId == old(store.nextId)
    ensures !HasToken(token) ==> limiter.entries == old(limiter.entries)
    ensures HasToken(token) ==>
      limiter.entries == RateLimit.Step(old(limiter.entries), RateKey(token.value), ReportLimit, ReportWindowMs, now).1
    ensures var allowed := HasToken(token) &&
      RateLimit.Step(old(limiter.entries), RateKey(token.value), ReportLimit, ReportWindowMs, now).0.success;
      (r, store.tables) == Respond(old(store.tables), token, allowed, body, now)
  {
    if token.None? || token.value == "" {
      return NoToken;
    }
    var verdict := limiter.RateLimit(RateKey(token.value), ReportLimit, ReportWindowMs, now);
    if !verdict.success {
      return TooManyRequests;
    }
    var user := UserByToken(store.tables.users, token.value);
    if user.None? {
      return InvalidToken;
    }
    if body.Malformed? {
      return InternalError;
    }
    var report := ParseReport(body.value);
    if report.None? {
      return BadRequest;
    }
    var rep := report.value;
    var comment := OwnedComment(store.tables.comments, rep.commentId, user.value.id);
    if comment.None? {
      return NotFound;
    }
    OutcomeKeepsKeys(rep, now);
    store.UpdateCommentsWhere((m: Comment) => IdText(m.id) == rep.commentId, Outcome(rep, now));
    r := Reported;
  }

  /** Every reply but success leaves the tables as they were. */
  lemma RefusalsChangeNothing(t: Tables, token: Option<string>, allowed: bool, body: Body, now: Time)
    ensures Respond(t, token, allowed, body, now).0 != Reported ==> Respond(t, token, allowed, body, now).1 == t
  {
  }

  /** The report succeeds exactly when a token is given, the limiter allows
      it, the token is a user's, the body parses and names one of that
      user's comments, whatever that comment's current status. */
  lemma ReportedIff(t: Tables, token: Option<string>, allowed: bool, body: Body, now: Time)
    ensures Respond(t, token, allowed, body, now).0 == Reported <==>
      && HasToken(token) && allowed
      && UserByToken(t.users, token.value).Some?
      && body.Parsed? && ParseReport(body.value).Some?
      && OwnedComment(t.comments, ParseReport(body.value).value.commentId, UserByToken(t.users, token.value).value.id).Some?
  {
  }

  /** On success exactly one row changes: the user's comment named in the
      body, which becomes `posted` (stamped `now`) or `failed` (no
      `postedAt`), with the reported URL or none. */
  lemma ReportChangesOneRow(t: Tables, token: Option<string>, allowed: bool, body: Body, now: Time)
    requires WellFormed(t) && Respond(t, token, allowed, body, now).0 == Reported
    ensures var t' := Respond(t, token, allowed, body, now).1;
      var user := UserByToken(t.users, token.value).value;
      var rep := ParseReport(body.value).value;
      var m := OwnedComment(t.comments, rep.commentId, user.id).value;
      && t'.users == t.users && t'.campaigns == t.campaigns && t'.posts == t.posts
      && |t'.comments| == |t.comments|
      && forall i :: 0 <= i < |t.comments| ==>
           if t.comments[i] == m then
             && t'.comments[i].id == m.id && t'.comments[i].userId == user.id
             && t'.comments[i].status == (if rep.success then Posted else Failed)
             && t'.comments[i].postedAt == (if rep.success then Some(now) else None)
             && t'.comments[i].platformUrl == rep.platformUrl
           else t'.comments[i] == t.comments[i]
  {
    var t' := Respond(t, token, allowed, body, now).1;
    var user := UserByToken(t.users, token.value).value;
    var rep := ParseReport(body.value).value;
    var m := OwnedComment(t.comments, rep.commentId, user.id).value;
    forall i | 0 <= i < |t.comments| && t.comments[i] != m ensures t'.comments[i] == t.comments[i] {
      if IdText(t.comments[i].id) == rep.commentId {
        IdTextInjective(t.comments[i].id, m.id);
        UniqueKeyedRow(t.comments, CommentIdKey, m, i);
      }
    }
  }

  /** The limiter is consulted before the token is looked up, so a token
      that belongs to no user still takes its key's quota. */
  lemma UnknownTokenUsesQuota(m: map<string, RateLimit.Entry>, t: Tables, token: string, body: Body, now: Time)
    requires token != "" && UserByToken(t.users, token).None?
    ensures var (v, m') := RateLimit.Step(m, RateKey(token), ReportLimit, ReportWindowMs, now);
      && Respond(t, Some(token), v.success, body, now) == (if v.success then InvalidToken else TooManyRequests, t)
      && RateKey(token) in m'
      && (v.success ==> m'[RateKey(token)].count == (if RateKey(token) in m && now <= m[RateKey(token)].resetAt then m[RateKey(token)].count + 1 else 1))
  {
    RateLimit.StepOnlyTouchesKey(m, RateKey(token), ReportLimit, ReportWindowMs, now);
  }
}
