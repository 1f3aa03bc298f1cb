/** `calculateRelevance`: how well a Reddit post matches a campaign's keywords,
    as points out of `4 * |keywords| + 4`.  The score is an exact ratio; the
    JavaScript double division is not modelled. */
module Discovery {
  import opened Strings

  /** The fields of a Reddit listing entry that the core reads. */
  datatype RedditPost = RedditPost(
    id: string, title: string, selftext: string, url: string, permalink: string,
    subreddit: string, createdUtc: int, numComments: int, score: int)

  /** Points one keyword earns: 3 for a title match, 1 for a body match,
      both compared in lower case. */
  function KeywordPoints(post: RedditPost, keyword: string): (n: nat)
    ensures n <= 4
  {
    var kw := ToLower(keyword);
    (if Contains(ToLower(post.title), kw) then 3 else 0)
      + (if Contains(ToLower(post.selftext), kw) then 1 else 0)
  }

  /** Points earned by all the keywords. */
  function KeywordsPoints(post: RedditPost, keywords: seq<string>): (n: nat)
    ensures n <= 4 * |keywords|
  {
    if keywords == [] then 0
    else KeywordsPoints(post, keywords[..|keywords| - 1]) + KeywordPoints(post, keywords[|keywords| - 1])
  }

  /** The phrases that signal a request for a product. */
  const IntentPhrases: seq<string> :=
    ["looking for", "recommend", "suggestions", "help me", "what do you use", "best way to"]

  /** The title asks a question or the lower-cased text uses one of the six
      intent phrases. */
  function HasIntent(post: RedditPost): (b: bool)
    ensures b <==> (|| Contains(post.title, "?")
                    || exists i :: 0 <= i < |IntentPhrases| && Contains(ToLower(post.title + " " + post.selftext), IntentPhrases[i]))
  {
    var text := ToLower(post.title + " " + post.selftext);
    AnyIntentPhrase(text);
    || Contains(post.title, "?")
    || Contains(text, "looking for")
    || Contains(text, "recommend")
    || Contains(text, "suggestions")
    || Contains(text, "help me")
    || Contains(text, "what do you use")
    || Contains(text, "best way to")
  }

  /** Some phrase of the list occurs in `text` exactly when one of the six
      written out does. */
  lemma AnyIntentPhrase(text: string)
    ensures (exists i :: 0 <= i < |IntentPhrases| && Contains(text, IntentPhrases[i])) <==>
      (|| Contains(text, "looking for")
       || Contains(text, "recommend")
       || Contains(text, "suggestions")
       || Contains(text, "help me")
       || Contains(text, "what do you use")
       || Contains(text, "best way to"))
  {
    if exists i :: 0 <= i < |IntentPhrases| && Contains(text, IntentPhrases[i]) {
      var i :| 0 <= i < |IntentPhrases| && Contains(text, IntentPhrases[i]);
      assert i == 0 || i == 1 || i == 2 || i == 3 || i == 4 || i == 5;
    }
    if Contains(text, "looking for") { assert Contains(text, IntentPhrases[0]); }
    if Contains(text, "recommend") { assert Contains(text, IntentPhrases[1]); }
    if Contains(text, "suggestions") { assert Contains(text, IntentPhrases[2]); }
    if Contains(text, "help me") { assert Contains(text, IntentPhrases[3]); }
    if Contains(text, "what do you use") { assert Contains(text, IntentPhrases[4]); }
    if Contains(text, "best way to") { assert Contains(text, IntentPhrases[5]); }
  }

  /** The intent bonus (2, at most once) and the engagement bonuses (1 each,
      for more than 5 comments and for a score above 10). */
  function Bonus(post: RedditPost): (n: nat)
    ensures n <= 4
    ensures HasIntent(post) ==> n >= 2
    ensures !HasIntent(post) ==> n <= 2
    ensures n % 2 == 1 <==> (post.numComments > 5) != (post.score > 10)
  {
    (if HasIntent(post) then 2 else 0)
      + (if post.numComments > 5 then 1 else 0)
      + (if post.score > 10 then 1 else 0)
  }

  /** The raw score: keyword points plus bonuses, never more than the
      denominator. */
  function Points(post: RedditPost, keywords: seq<string>): (n: nat)
    ensures n <= MaxPossible(keywords)
    ensures n >= KeywordsPoints(post, keywords)
  {
    KeywordsPoints(post, keywords) + Bonus(post)
  }

  /** The denominator, `keywords.length * 4 + 4`. */
  function MaxPossible(keywords: seq<string>): (m: nat)
    ensures m >= 4
  {
    |keywords| * 4 + 4
  }

  /** The relevance of `post`: points over the most possible. */
  function Relevance(post: RedditPost, keywords: seq<string>): (r: real)
    ensures 0.0 <= r <= 1.0
    ensures r == 0.0 <==> Points(post, keywords) == 0
  {
    RatioFacts(Points(post, keywords), MaxPossible(keywords));
    Points(post, keywords) as real / MaxPossible(keywords) as real
  }

  /** The points never exceed the denominator, so the relevance lies in
      `[0, 1]` and the `Math.min(…, 1)` clamp never changes it. */
  lemma RelevanceInUnitInterval(post: RedditPost, keywords: seq<string>)
    ensures Points(post, keywords) <= MaxPossible(keywords)
    ensures 0.0 <= Relevance(post, keywords) <= 1.0
  {
    RatioFacts(Points(post, keywords), MaxPossible(keywords));
  }

  /** The threshold `relevance < 0.1`, stated on the integer points. */
  lemma BelowThresholdIff(post: RedditPost, keywords: seq<string>)
    ensures Relevance(post, keywords) < 0.1 <==> 10 * Points(post, keywords) < MaxPossible(keywords)
  {
    RatioFacts(Points(post, keywords), MaxPossible(keywords));
  }

  /** Comparing the ratio `p / m` with 1 and with 0.1 is comparing `p` with `m`. */
  lemma RatioFacts(p: nat, m: nat)
    requires m > 0
    ensures 0.0 <= p as real / m as real
    ensures p as real / m as real <= 1.0 <==> p <= m
    ensures p as real / m as real < 0.1 <==> 10 * p < m
  {
    var pr, mr := p as real, m as real;
    var q := pr / mr;
    assert q * mr == pr;
    RatioNonNegative(q, mr, pr);
    RatioVersusOne(q, mr, pr);
    RatioVersusTenth(q, mr, pr);
    assert (10 * p) as real == 10.0 * pr;
  }

  lemma RatioNonNegative(q: real, m: real, p: real)
    requires m > 0.0 && p >= 0.0 && q * m == p
    ensures q >= 0.0
  {
    if q < 0.0 {
      ScaleStrict(q, 0.0, m);
    }
  }

  lemma RatioVersusOne(q: real, m: real, p: real)
    requires m > 0.0 && q * m == p
    ensures q <= 1.0 <==> p <= m
  {
    if q <= 1.0 {
      Scale(q, 1.0, m);
    } else {
      ScaleStrict(1.0, q, m);
    }
  }

  lemma RatioVersusTenth(q: real, m: real, p: real)
    requires m > 0.0 && q * m == p
    ensures q < 0.1 <==> 10.0 * p < m
  {
    if q < 0.1 {
      ScaleStrict(q, 0.1, m);
    } else {
      Scale(0.1, q, m);
    }
  }

  lemma Scale(a: real, b: real, c: real)
    requires a <= b && c > 0.0
    ensures a * c <= b * c
  {
  }

  lemma ScaleStrict(a: real, b: real, c: real)
    requires a < b && c > 0.0
    ensures a * c < b * c
  {
  }

  /** With no keywords only the bonuses count, out of 4. */
  lemma NoKeywordsScoresBonusOnly(post: RedditPost)
    ensures Relevance(post, []) == Bonus(post) as real / 4.0
  {
    assert KeywordsPoints(post, []) == 0;
  }

  /** Each keyword contributes independently of the others. */
  lemma {:induction false} KeywordsPointsConcat(post: RedditPost, a: seq<string>, b: seq<string>)
    ensures KeywordsPoints(post, a + b) == KeywordsPoints(post, a) + KeywordsPoints(post, b)
    decreases |b|
  {
    if b == [] {
      assert a + b == a;
    } else {
      var b' := b[..|b| - 1];
      assert (a + b)[..|a + b| - 1] == a + b';
      assert (a + b)[|a + b| - 1] == b[|b| - 1];
      KeywordsPointsConcat(post, a, b');
    }
  }

  /** `calculateRelevance(post, keywords)`. */
  method CalculateRelevance(post: RedditPost, keywords: seq<string>) returns (r: real)
    ensures r == Relevance(post, keywords)
    ensures 0.0 <= r <= 1.0
  {
    var text := ToLower(post.title + " " + post.selftext);
    var score := 0;
    var i := 0;
    while i < |keywords|
      invariant 0 <= i <= |keywords|
      invariant score == KeywordsPoints(post, keywords[..i])
    {
      var kw := ToLower(keywords[i]);
      assert keywords[..i + 1][..i] == keywords[..i];
      if Contains(ToLower(post.title), kw) {
        score := score + 3;
      }
      if Contains(ToLower(post.selftext), kw) {
        score := score + 1;
      }
      i := i + 1;
    }
    assert keywords[..i] == keywords;
    if || Contains(post.title, "?")
       || Contains(text, "looking for")
       || Contains(text, "recommend")
       || Contains(text, "suggestions")
       || Contains(text, "help me")
       || Contains(text, "what do you use")
       || Contains(text, "best way to")
    {
      score := score + 2;
    }
    if post.numComments > 5 {
      score := score + 1;
    }
    if post.score > 10 {
      score := score + 1;
    }
    var maxPossible := |keywords| * 4 + 4;
    var ratio := score as real / maxPossible as real;
    RelevanceInUnitInterval(post, keywords);
    r := if ratio < 1.0 then ratio else 1.0;
  }
}
