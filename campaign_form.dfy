/** The campaign form: its initial state, the comma-separated keyword and
    subreddit fields, and `handleSubmit`. */
module CampaignForm {
  import opened Wrappers
  import opened Seqs
  import opened Strings
  import opened Json

  // ------------------------------------------------------------ list fields

  predicate NonEmpty(s: string)
  {
    s != ""
  }

  /** `.replace(/^r\//, "")`: one leading `r/` removed. */
  function StripSubredditPrefix(s: string): (r: string)
    ensures StartsWith(s, "r/") ==> r == s[2..]
    ensures !StartsWith(s, "r/") ==> r == s
  {
    if StartsWith(s, "r/") then s[2..] else s
  }

  /** One subreddit piece: trimmed, then one leading `r/` removed. */
  function CleanSubreddit(s: string): (r: string)
    ensures |r| <= |s|
    ensures forall c :: c in r ==> c in s
  {
    TrimSubstring(s);
    StripSubredditPrefix(Trim(s))
  }

  /** `text.split(",").map(clean).filter(Boolean)`. */
  function Pieces(text: string, clean: string -> string): (r: seq<string>)
    ensures forall x :: x in r ==> x != "" && exists piece :: piece in Split(text, ',') && x == clean(piece)
  {
    var cleaned := Map(Split(text, ','), clean);
    var r := Filter(cleaned, NonEmpty);
    assert forall x :: x in cleaned ==> exists i :: 0 <= i < |cleaned| && cleaned[i] == x;
    r
  }

  /** The keywords field: the pieces between commas, trimmed, empties dropped. */
  function ParseKeywords(text: string): (r: seq<string>)
    ensures forall k :: k in r ==> k != "" && ',' !in k && Trim(k) == k
  {
    var r := Pieces(text, Trim);
    forall k | k in r ensures ',' !in k && Trim(k) == k {
      var piece :| piece in Split(text, ',') && k == Trim(piece);
      TrimmedIsFixed(k);
      TrimSubstring(piece);
    }
    r
  }

  /** The subreddits field: like the keywords, but each trimmed piece also
      loses one leading `r/` before empties are dropped. */
  function ParseSubreddits(text: string): (r: seq<string>)
    ensures forall s :: s in r ==> s != "" && ',' !in s
  {
    var r := Pieces(text, CleanSubreddit);
    forall s | s in r ensures ',' !in s {
      var piece :| piece in Split(text, ',') && s == CleanSubreddit(piece);
    }
    r
  }

  /** Cleaning a subreddit piece only removes characters. */
  /** Trimming only removes characters. */
  lemma TrimSubstring(s: string)
    ensures forall c :: c in Trim(s) ==> c in s
  {
    var t := TrimStart(s);
    assert forall c :: c in t ==> c in s;
  }

  /** The stored lists shown in the form: `list.join(", ")`. */
  function ShowList(list: seq<string>): (r: string)
    ensures list == [] ==> r == ""
    ensures list != [] ==> |list[0]| <= |r| && r[..|list[0]|] == list[0]
  {
    Join(list, ", ")
  }

  /** A stored entry that survives showing and re-parsing: non-empty, trimmed
      and free of commas. */
  predicate CleanEntry(s: string)
  {
    s != "" && !IsSpace(s[0]) && !IsSpace(s[|s| - 1]) && ',' !in s
  }

  /** The pieces of `parts.join(", ")` split at the commas. */
  function Spaced(parts: seq<string>): (r: seq<string>)
    requires |parts| >= 1
    ensures |r| == |parts| && r[0] == parts[0]
    ensures forall i :: 1 <= i < |parts| ==> r[i] == " " + parts[i]
  {
    [parts[0]] + seq(|parts| - 1, i requires 0 <= i < |parts| - 1 => " " + parts[i + 1])
  }

  lemma {:induction false} JoinSpaced(parts: seq<string>)
    requires |parts| >= 1
    ensures Join(parts, ", ") == Join(Spaced(parts), ",")
  {
    if |parts| > 1 {
      JoinSpaced(parts[1..]);
      var rest := Spaced(parts[1..]);
      var sp := Spaced(parts);
      assert sp[1..] == [" " + rest[0]] + rest[1..];
      calc {
        Join(sp, ",");
        sp[0] + "," + Join(sp[1..], ",");
        parts[0] + "," + Join([" " + rest[0]] + rest[1..], ",");
        { JoinConsSpace(rest); }
        parts[0] + "," + " " + Join(rest, ",");
        parts[0] + ", " + Join(parts[1..], ", ");
      }
    }
  }

  lemma Assoc3(a: string, b: string, c: string, d: string)
    ensures (a + b) + c + d == a + (b + c + d)
  {
  }

  /** A leading space on the first piece leads the joined string. */
  lemma JoinConsSpace(rest: seq<string>)
    requires |rest| >= 1
    ensures Join([" " + rest[0]] + rest[1..], ",") == " " + Join(rest, ",")
  {
    var l := [" " + rest[0]] + rest[1..];
    if |rest| > 1 {
      assert l[1..] == rest[1..];
      var tail := Join(rest[1..], ",");
      assert Join(l, ",") == (" " + rest[0]) + "," + tail;
      assert Join(rest, ",") == rest[0] + "," + tail;
      Assoc3(" ", rest[0], ",", tail);
    }
  }

  /** Splitting the shown list at the commas and cleaning each piece with
      `clean` gives the list back, when `clean` undoes the space. */
  lemma {:induction false} ShowThenPieces(list: seq<string>, clean: string -> string)
    requires forall s :: s in list ==> CleanEntry(s)
    requires forall s :: s in list ==> clean(s) == s && clean(" " + s) == s
    requires clean("") == ""
    ensures Pieces(ShowList(list), clean) == list
  {
    if list == [] {
      assert Map(Split("", ','), clean) == [""];
      FilterSingleton("", NonEmpty);
    } else {
      var sp := Spaced(list);
      JoinSpaced(list);
      forall i | 0 <= i < |sp| ensures ',' !in sp[i] {
        assert list[i] in list;
      }
      SplitJoin(sp, ',');
      var cleaned := Map(sp, clean);
      assert cleaned == list by {
        forall i | 0 <= i < |list| ensures cleaned[i] == list[i] {
          assert list[i] in list;
        }
      }
      FilterAll(list, NonEmpty);
    }
  }

  /** Showing a stored keyword list and submitting it unchanged stores the
      same list. */
  lemma KeywordsRoundTrip(list: seq<string>)
    requires forall s :: s in list ==> CleanEntry(s)
    ensures ParseKeywords(ShowList(list)) == list
  {
    forall s | s in list ensures Trim(s) == s && Trim(" " + s) == s {
      TrimmedIsFixed(s);
      TrimAfterSpace(" ", s);
    }
    TrimmedIsFixed("");
    ShowThenPieces(list, Trim);
  }

  /** The same for subreddits, whose entries must also not start with `r/`. */
  lemma SubredditsRoundTrip(list: seq<string>)
    requires forall s :: s in list ==> CleanEntry(s) && !StartsWith(s, "r/")
    ensures ParseSubreddits(ShowList(list)) == list
  {
    forall s | s in list ensures CleanSubreddit(s) == s && CleanSubreddit(" " + s) == s {
      TrimmedIsFixed(s);
      TrimAfterSpace(" ", s);
    }
    TrimmedIsFixed("");
    ShowThenPieces(list, CleanSubreddit);
  }

  /** The `r/` prefix is removed after trimming and before empties are
      dropped: `"r/"` alone disappears and `"r/ foo"` keeps its space. */
  lemma SubredditPrefixExamples()
    ensures ParseSubreddits("r/, r/ foo") == [" foo"]
  {
    SplitExample();
    CleanExamples();
    PiecesOfTwo("r/, r/ foo", CleanSubreddit, "r/", " r/ foo");
  }

  /** Two pieces, of which the first cleans to nothing. */
  lemma PiecesOfTwo(text: string, clean: string -> string, a: string, b: string)
    requires Split(text, ',') == [a, b]
    requires clean(a) == "" && clean(b) != ""
    ensures Pieces(text, clean) == [clean(b)]
  {
    var cleaned := Map([a, b], clean);
    assert cleaned == [clean(a)] + [clean(b)];
    FilterConcat([clean(a)], [clean(b)], NonEmpty);
    FilterSingleton(clean(a), NonEmpty);
    FilterSingleton(clean(b), NonEmpty);
  }

  lemma SplitExample()
    ensures Split("r/, r/ foo", ',') == ["r/", " r/ foo"]
  {
    var a: string, b: string := "r/", " r/ foo";
    assert "r/, r/ foo" == a + [','] + b;
    assert ',' !in a && ',' !in b;
    SplitAtSeparator(a, ',', b);
    SplitNoSeparator(b, ',');
  }

  lemma CleanExamples()
    ensures CleanSubreddit("r/") == ""
    ensures CleanSubreddit(" r/ foo") == " foo"
  {
    var sp: string, foo: string := [' '], " foo";
    assert "r/" == [] + "r/" + [];
    assert " r/ foo" == sp + "r/" + foo;
    assert foo[|foo| - 1] == 'o';
    assert AllSpace(sp);
    CleanPrefixed([], []);
    CleanPrefixed(sp, foo);
  }

  /** After leading white space, one `r/` is removed and everything after it,
      white space included, is kept. */
  lemma CleanPrefixed(lead: string, rest: string)
    requires AllSpace(lead)
    requires rest == [] || !IsSpace(rest[|rest| - 1])
    ensures CleanSubreddit(lead + "r/" + rest) == rest
  {
    var b := "r/" + rest;
    assert lead + "r/" + rest == lead + b;
    assert StartsWith(b, "r/") && b[2..] == rest;
    assert b[0] == 'r' && b[|b| - 1] == (if rest == [] then '/' else rest[|rest| - 1]);
    TrimmedIsFixed(b);
    TrimAfterSpace(lead, b);
  }

  // ------------------------------------------------------------ form state

  /** The stored campaign an edit form is opened with; its keyword and
      subreddit columns are given already decoded from JSON. */
  datatype InitialData = InitialData(
    id: string, brandName: string, productDescription: string,
    keywords: seq<string>, subreddits: seq<string>, tone: string,
    maxCommentsPerDay: int, autoApprove: bool)

  /** The values of the form's inputs. */
  datatype Fields = Fields(
    brandName: string, productDescription: string, keywordsText: string,
    subredditsText: string, tone: string, maxCommentsPerDay: int, autoApprove: bool)

  datatype HttpMethod = Post | Patch

  /** The JSON body sent to the campaigns API. */
  datatype CampaignBody = CampaignBody(
    brandName: string, productDescription: string, keywords: seq<string>,
    subreddits: seq<string>, tone: string, maxCommentsPerDay: int, autoApprove: bool)

  datatype Request = Request(verb: HttpMethod, url: string, body: CampaignBody)

  /** The server's answer: OK, or an error response whose JSON may carry an
      `error` field.  That field is any JSON value: the campaigns API sends a
      message, or zod's list of issues when it rejects the body. */
  datatype Reply = Ok | NotOk(error: Option<Json>)

  const NoKeywordsError: string := "At least one keyword is required"
  const FallbackError: string := "Something went wrong"
  const ValidationError: string := "Validation error"

  /** JavaScript truthiness of a JSON value (JSON has no `NaN`). */
  predicate Truthy(v: Json)
  {
    match v
    case JNull => false
    case JBool(b) => b
    case JNumber(n) => n != 0.0
    case JString(s) => s != ""
    case _ => true
  }

  /** The browser's constraint validation, which runs before the form's
      `submit` event: the `required` brand name and description must be
      non-empty and the number input must lie between its `min` and `max`. */
  predicate BrowserAccepts(f: Fields)
  {
    f.brandName != "" && f.productDescription != "" && 1 <= f.maxCommentsPerDay <= 50
  }

  /** The inputs' starting values: the stored campaign with its lists joined
      by `", "`, or the blank form with the schema's defaults. */
  function InitialFields(initial: Option<InitialData>): (f: Fields)
    ensures initial.None? ==>
      f == Fields("", "", "", "", "helpful", 5, false)
    ensures initial.Some? ==>
      && f.brandName == initial.value.brandName
      && f.productDescription == initial.value.productDescription
      && f.keywordsText == ShowList(initial.value.keywords)
      && f.subredditsText == ShowList(initial.value.subreddits)
      && f.tone == initial.value.tone
      && f.maxCommentsPerDay == initial.value.maxCommentsPerDay
      && f.autoApprove == initial.value.autoApprove
  {
    match initial
    case None => Fields("", "", "", "", "helpful", 5, false)
    case Some(d) =>
      Fields(d.brandName, d.productDescription, ShowList(d.keywords), ShowList(d.subreddits),
             d.tone, d.maxCommentsPerDay, d.autoApprove)
  }

  /** The request `handleSubmit` sends, or `None` when no keyword survives
      parsing.  Edit mode is the presence of initial data. */
  function SubmitRequest(initial: Option<InitialData>, f: Fields): (r: Option<Request>)
    ensures r.None? <==> ParseKeywords(f.keywordsText) == []
    ensures r.Some? ==> (r.value.verb == Patch <==> initial.Some?)
  {
    var keywords := ParseKeywords(f.keywordsText);
    var subreddits := ParseSubreddits(f.subredditsText);
    if keywords == [] then None
    else
      var body := CampaignBody(f.brandName, f.productDescription, keywords, subreddits,
                               f.tone, f.maxCommentsPerDay, f.autoApprove);
      match initial
      case Some(d) => Some(Request(Patch, "/api/campaigns/" + d.id, body))
      case None => Some(Request(Post, "/api/campaigns", body))
  }

  /** A request is sent exactly when some keyword survives parsing.  In
      edit mode it is a PATCH of `/api/campaigns/{id}`, otherwise a POST of
      `/api/campaigns`; it carries the parsed lists and every other input as
      it stands (`handleSubmit` itself checks nothing else; the browser's
      check is `BrowserAccepts`). */
  lemma SubmitTarget(initial: Option<InitialData>, f: Fields)
    ensures SubmitRequest(initial, f).None? <==> ParseKeywords(f.keywordsText) == []
    ensures SubmitRequest(initial, f).Some? ==>
      var r := SubmitRequest(initial, f).value;
      && (initial.Some? ==> r.verb == Patch && r.url == "/api/campaigns/" + initial.value.id)
      && (initial.None? ==> r.verb == Post && r.url == "/api/campaigns")
      && r.body == CampaignBody(f.brandName, f.productDescription,
                                ParseKeywords(f.keywordsText), ParseSubreddits(f.subredditsText),
                                f.tone, f.maxCommentsPerDay, f.autoApprove)
  {
  }

  /** `data.error || "Something went wrong"`: the value a refused save
      stores in the `error` state.  It is always truthy, so the banner
      always shows. */
  function ReplyError(error: Option<Json>): (e: Json)
    ensures Truthy(e)
    ensures error.Some? && Truthy(error.value) ==> e == error.value
    ensures error.None? || !Truthy(error.value) ==> e == JString(FallbackError)
  {
    if error.Some? && Truthy(error.value) then error.value else JString(FallbackError)
  }

  /** The banner: hidden for a falsy `error`, the text itself for a string,
      "Validation error" for any other value. */
  function BannerText(error: Json): Option<string>
  {
    if !Truthy(error) then None
    else if error.JString? then Some(error.s)
    else Some(ValidationError)
  }

  /** What a refused save shows: the server's message when it sent a
      non-empty text, "Validation error" when it sent some other truthy value
      (zod's issues, even an empty list), and the fallback otherwise. */
  lemma RefusedSaveMessage(error: Option<Json>)
    ensures BannerText(ReplyError(error)).Some?
    ensures BannerText(ReplyError(error)).value != ""
    ensures error.Some? && error.value.JString? && error.value.s != "" ==>
      BannerText(ReplyError(error)) == Some(error.value.s)
    ensures error.Some? && Truthy(error.value) && !error.value.JString? ==>
      BannerText(ReplyError(error)) == Some(ValidationError)
    ensures error.None? || !Truthy(error.value) ==>
      BannerText(ReplyError(error)) == Some(FallbackError)
  {
  }

  /** Clearing the subreddits of an edit form (or leaving only "r/") sends an
      empty list, which the campaign update route refuses with zod's issues;
      the form then shows "Validation error". */
  lemma ClearedSubredditsShowValidationError(d: InitialData, f: Fields, issues: seq<Json>)
    requires ParseKeywords(f.keywordsText) != []
    requires f.subredditsText == "" || f.subredditsText == "r/"
    ensures SubmitRequest(Some(d), f).Some?
    ensures SubmitRequest(Some(d), f).value.verb == Patch
    ensures SubmitRequest(Some(d), f).value.body.subreddits == []
    ensures var (_, navigated, banner) := AfterSubmit(Some(d), f, NotOk(Some(JArray(issues))));
      !navigated && !banner.loading && BannerText(banner.error) == Some(ValidationError)
  {
    NoSubredditsLeft(f.subredditsText);
    var sent := SubmitRequest(Some(d), f);
    assert sent.value.body.subreddits == ParseSubreddits(f.subredditsText);
    RefusedSaveMessage(Some(JArray(issues)));
  }

  /** An empty subreddit field, or one holding only "r/", parses to no
      subreddit. */
  lemma NoSubredditsLeft(text: string)
    requires text == "" || text == "r/"
    ensures ParseSubreddits(text) == []
  {
    assert Split(text, ',') == [text] by {
      SplitNoSeparator(text, ',');
    }
    if text == "" {
      assert CleanSubreddit(text) == "";
    } else {
      CleanExamples();
    }
    PiecesOfOne(text, CleanSubreddit);
  }

  /** Opening an edit form and saving it without touching the list inputs
      sends the stored lists back, provided the stored entries are trimmed,
      non-empty and comma-free (and the subreddits have no `r/` prefix). */
  lemma UnchangedEditResubmits(d: InitialData)
    requires d.keywords != []
    requires forall s :: s in d.keywords ==> CleanEntry(s)
    requires forall s :: s in d.subreddits ==> CleanEntry(s) && !StartsWith(s, "r/")
    ensures SubmitRequest(Some(d), InitialFields(Some(d))).Some?
    ensures SubmitRequest(Some(d), InitialFields(Some(d))).value.body ==
      CampaignBody(d.brandName, d.productDescription, d.keywords, d.subreddits,
                   d.tone, d.maxCommentsPerDay, d.autoApprove)
  {
    KeywordsRoundTrip(d.keywords);
    SubredditsRoundTrip(d.subreddits);
  }

  /** A blank form has no keyword, so submitting it at once sends nothing. */
  lemma BlankFormSendsNothing()
    ensures SubmitRequest(None, InitialFields(None)) == None
  {
    assert Split("", ',') == [""];
    PiecesOfOne("", Trim);
  }

  /** A single piece that cleans to nothing leaves no entry. */
  lemma PiecesOfOne(text: string, clean: string -> string)
    requires Split(text, ',') == [text] && clean(text) == ""
    ensures Pieces(text, clean) == []
  {
    var cleaned := Map([text], clean);
    assert cleaned == [clean(text)];
    FilterSingleton(clean(text), NonEmpty);
  }

  /** What the form shows after a submit: the `loading` flag and the
      `error` state behind the banner. */
  datatype Banner = Banner(loading: bool, error: Json)

  /** `handleSubmit` as a whole: the request sent, whether the page navigates
      to the campaign list, and the banner left behind. */
  function AfterSubmit(initial: Option<InitialData>, f: Fields, reply: Reply): (r: (Option<Request>, bool, Banner))
    ensures r.0 == SubmitRequest(initial, f)
    ensures r.1 <==> r.0.Some? && reply.Ok?
    ensures !r.1 ==> !r.2.loading && Truthy(r.2.error)
  {
    var sent := SubmitRequest(initial, f);
    if sent.None? then (None, false, Banner(false, JString(NoKeywordsError)))
    else if reply.NotOk? then (sent, false, Banner(false, ReplyError(reply.error)))
    else (sent, true, Banner(true, JString("")))
  }

  /** With no keyword nothing is sent and the keyword error shows; an OK
      reply navigates away with the banner hidden; a refused save stays on
      the page, no longer loading, with the banner showing the message of
      `RefusedSaveMessage`. */
  lemma SubmitOutcomes(initial: Option<InitialData>, f: Fields, reply: Reply)
    ensures var (sent, navigated, banner) := AfterSubmit(initial, f, reply);
      && sent == SubmitRequest(initial, f)
      && (sent.None? ==> !navigated && !banner.loading && BannerText(banner.error) == Some(NoKeywordsError))
      && (sent.Some? && reply.Ok? ==> navigated && BannerText(banner.error).None?)
      && (sent.Some? && reply.NotOk? ==>
            !navigated && !banner.loading && BannerText(banner.error) == BannerText(ReplyError(reply.error))
            && BannerText(banner.error).Some?)
  {
    if reply.NotOk? {
      RefusedSaveMessage(reply.error);
    }
  }

  /** A press of the submit button (or of Enter in a field): nothing happens
      while a save is under way (the button is disabled) or when the
      browser refuses the inputs; otherwise `handleSubmit` runs. */
  function Press(initial: Option<InitialData>, f: Fields, before: Banner, reply: Reply): (r: (Option<Request>, bool, Banner))
    ensures r.0.Some? ==> !before.loading && BrowserAccepts(f)
    ensures r.1 ==> r.0.Some? && reply.Ok?
  {
    if before.loading || !BrowserAccepts(f) then (None, false, before)
    else AfterSubmit(initial, f, reply)
  }

  /** Every request the form sends carries a non-empty brand name,
      description and keyword list and a daily maximum between 1 and 50; a
      blocked press changes nothing. */
  lemma PressSendsOnlyValid(initial: Option<InitialData>, f: Fields, before: Banner, reply: Reply)
    ensures var (sent, navigated, after) := Press(initial, f, before, reply);
      && (before.loading || !BrowserAccepts(f) ==> sent.None? && !navigated && after == before)
      && (sent.Some? ==>
            && !before.loading
            && sent.value.body.brandName != "" && sent.value.body.productDescription != ""
            && sent.value.body.keywords != []
            && 1 <= sent.value.body.maxCommentsPerDay <= 50)
  {
  }

  /** `CampaignForm`: the input values, the `loading` flag and the `error`
      state behind the banner.  The inputs' change handlers are assignments
      to `inputs`. */
  class Form {
    const initial: Option<InitialData>
    var inputs: Fields
    var loading: bool
    var error: Json

    constructor (initial: Option<InitialData>)
      ensures this.initial == initial
      ensures inputs == InitialFields(initial)
      ensures !loading && error == JString("")
    {
      this.initial := initial;
      inputs := InitialFields(initial);
      loading := false;
      error := JString("");
    }

    /** A press of the submit button, with the server's `reply` as a
        parameter: the browser's gate, then `handleSubmit`.  The inputs are
        never changed. */
    method Submit(reply: Reply) returns (sent: Option<Request>, navigated: bool)
      modifies this
      ensures (sent, navigated, Banner(loading, error)) == Press(initial, old(inputs), Banner(old(loading), old(error)), reply)
      ensures inputs == old(inputs)
    {
      var f := inputs;
      if loading || !BrowserAccepts(f) {
        return None, false;
      }
      loading, error := true, JString("");
      sent := SubmitRequest(initial, f);
      if sent.None? {
        error, loading, navigated := JString(NoKeywordsError), false, false;
      } else if reply.NotOk? {
        error, loading, navigated := ReplyError(reply.error), false, false;
      } else {
        navigated := true;
      }
    }
  }
}
