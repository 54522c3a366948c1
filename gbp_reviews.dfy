/** The Business Profile review puller: star-rating mapping, the `max` clamp,
    the pagination loop, review normalisation and the average rating. */
module GbpReviews {
  import Js

  // ---------------------------------------------------------------------
  // Star ratings
  // ---------------------------------------------------------------------

  /** A normalised star rating. */
  type Stars = n: int | 0 <= n <= 5

  /** The enum names the star map knows, in rating order. */
  const StarNames: seq<string> := ["ONE", "TWO", "THREE", "FOUR", "FIVE"]

  /** `STAR_MAP[r.starRating] || 0`. */
  function StarValue(star: Js.Option<string>): (n: Stars)
    ensures n == 0 <==> !(star.Some? && star.value in StarNames)
    ensures n != 0 ==> StarNames[n - 1] == star.value
  {
    match star
    case None => 0
    case Some(s) =>
      if s == "ONE" then 1
      else if s == "TWO" then 2
      else if s == "THREE" then 3
      else if s == "FOUR" then 4
      else if s == "FIVE" then 5
      else 0
  }

  // ---------------------------------------------------------------------
  // Query parameters
  // ---------------------------------------------------------------------

  /** What `parseInt(qs.max || "200", 10)` sees: no usable `max` (absent or
      empty, so "200" is parsed), a parsed integer, or NaN. */
  datatype MaxParam = MaxAbsent | MaxNumber(n: int) | MaxNaN

  datatype Query = Query(accountId: Js.Option<string>, locationId: Js.Option<string>, max: MaxParam)

  /** `Math.min(parseInt(...), 500)`; `None` is NaN, which no count is below. */
  function EffectiveMax(p: MaxParam): (m: Js.Option<int>)
    ensures m.None? <==> p.MaxNaN?
    ensures m.Some? ==> m.value <= 500
    ensures p.MaxAbsent? ==> m == Js.Some(200)
    ensures p.MaxNumber? && p.n <= 500 ==> m == Js.Some(p.n)
    ensures p.MaxNumber? && p.n > 500 ==> m == Js.Some(500)
  {
    match p
    case MaxAbsent => Js.Some(200)
    case MaxNumber(n) => Js.Some(if n < 500 then n else 500)
    case MaxNaN => Js.None
  }

  /** `count < max`, which is false whenever `max` is NaN. */
  predicate Below(count: int, max: Js.Option<int>)
  {
    max.Some? && count < max.value
  }

  /** The characters `String.prototype.trim` removes (white space and line terminators). */
  predicate IsJsSpace(c: char)
  {
    c == '\t' || c == '\n' || c == '\U{000B}' || c == '\U{000C}' || c == '\r' || c == ' '
    || c == '\U{00A0}' || c == '\U{1680}' || ('\U{2000}' <= c <= '\U{200A}')
    || c == '\U{2028}' || c == '\U{2029}' || c == '\U{202F}' || c == '\U{205F}'
    || c == '\U{3000}' || c == '\U{FEFF}'
  }

  function TrimStart(s: string): (r: string)
    ensures |r| <= |s| && r == s[|s| - |r|..]
    ensures forall i :: 0 <= i < |s| - |r| ==> IsJsSpace(s[i])
    ensures r != [] ==> !IsJsSpace(r[0])
    decreases |s|
  {
    if s != [] && IsJsSpace(s[0]) then TrimStart(s[1..]) else s
  }

  function TrimEnd(s: string): (r: string)
    ensures |r| <= |s| && r == s[..|r|]
    ensures forall i :: |r| <= i < |s| ==> IsJsSpace(s[i])
    ensures r != [] ==> !IsJsSpace(r[|r| - 1])
    decreases |s|
  {
    if s != [] && IsJsSpace(s[|s| - 1]) then TrimEnd(s[..|s| - 1]) else s
  }

  function Trim(s: string): string
  {
    TrimEnd(TrimStart(s))
  }

  /** A parameter is missing after trimming exactly when it is made of white space only. */
  lemma TrimEmpty(s: string)
    ensures Trim(s) == "" <==> forall i :: 0 <= i < |s| ==> IsJsSpace(s[i])
  {
    var t := TrimStart(s);
    if t != [] {
      assert !IsJsSpace(t[0]);
      assert s[|s| - |t|] == t[0];
    }
  }

  /** `(qs.p || "").trim()` */
  function Param(p: Js.Option<string>): string
  {
    Trim(Js.OrElse(p, ""))
  }

  // ---------------------------------------------------------------------
  // Reviews
  // ---------------------------------------------------------------------

  datatype Reviewer = Reviewer(displayName: Js.Option<string>, profilePhotoUrl: Js.Option<string>)

  /** A review as the v4 reviews endpoint returns it. */
  datatype RawReview = RawReview(reviewer: Js.Option<Reviewer>, starRating: Js.Option<string>,
                                 createTime: Js.Value, comment: Js.Option<string>)

  /** One page of the reviews endpoint. */
  datatype PageJson = PageJson(error: Js.Value, reviews: Js.Option<seq<RawReview>>,
                               nextPageToken: Js.Option<string>)

  /** A review in the widget's shape. */
  datatype Review = Review(authorName: string, profilePhotoUrl: string, rating: Stars,
                           relativeTime: string, text: string, authorUrl: string)

  const DefaultAuthor := "Google User"

  /** Per-review normalisation. `localeDate` stands for
      `new Date(createTime).toLocaleDateString()`, which is locale-dependent. */
  function Normalise(r: RawReview, localeDate: Js.Value -> string): (n: Review)
    ensures n.authorName != ""
    ensures r.reviewer.Some? && Js.Truthy(r.reviewer.value.displayName) ==>
      n.authorName == r.reviewer.value.displayName.value
    ensures !(r.reviewer.Some? && Js.Truthy(r.reviewer.value.displayName)) ==>
      n.authorName == DefaultAuthor
    ensures n.profilePhotoUrl == "" <==> !(r.reviewer.Some? && Js.Truthy(r.reviewer.value.profilePhotoUrl))
    ensures n.profilePhotoUrl != "" ==> n.profilePhotoUrl == r.reviewer.value.profilePhotoUrl.value
    ensures n.text == "" <==> !Js.Truthy(r.comment)
    ensures n.text != "" ==> n.text == r.comment.value
    ensures n.rating == StarValue(r.starRating)
    ensures n.relativeTime == localeDate(r.createTime)
    ensures n.authorUrl == ""
  {
    var name := if r.reviewer.Some? then r.reviewer.value.displayName else Js.None;
    var photo := if r.reviewer.Some? then r.reviewer.value.profilePhotoUrl else Js.None;
    Review(Js.OrElse(name, DefaultAuthor), Js.OrElse(photo, ""), StarValue(r.starRating),
           localeDate(r.createTime), Js.OrElse(r.comment, ""), "")
  }

  // ---------------------------------------------------------------------
  // Pagination
  // ---------------------------------------------------------------------

  /** Node's fetch rejects with this message when the endpoint cannot be reached;
      the model uses it when more pages are requested than the upstream answered. */
  const FetchFailed := "fetch failed"
  /** The ReferenceError raised at the 502 return, whose helper is not defined. */
  const JsonOutUndefined := "jsonOut is not defined"

  /** `json.reviews || []` */
  function PageReviews(j: PageJson): seq<RawReview>
  {
    if j.reviews.Some? then j.reviews.value else []
  }

  /** A page that the loop accepts: it arrived and carries no error. */
  predicate PageOk(c: Js.Call<PageJson>)
  {
    c.Returned? && !Js.IsTruthy(c.value.error)
  }

  /** The reviews of pages lo..hi-1, in page order then in-page order. */
  function Gathered(pages: seq<Js.Call<PageJson>>, lo: nat, hi: nat): seq<RawReview>
    requires lo <= hi <= |pages|
    requires forall j :: lo <= j < hi ==> PageOk(pages[j])
    decreases hi - lo
  {
    if lo == hi then []
    else assert PageOk(pages[lo]); PageReviews(pages[lo].value) + Gathered(pages, lo + 1, hi)
  }

  /** A finished pull: the reviews and the number of pages read, or the
      failure and the number of page requests made, the failing one included. */
  datatype Pulled = Pulled(raw: seq<RawReview>, pagesRead: nat) | PullFailed(message: string, pagesRequested: nat)

  /** How many review pages a pull requested. */
  function PagesRequested(p: Pulled): nat
  {
    if p.Pulled? then p.pagesRead else p.pagesRequested
  }

  /** The pagination loop as a function: `pages` are the upstream's answers to
      successive page requests, `i` pages have been read and `acc` gathered. */
  function Pull(pages: seq<Js.Call<PageJson>>, i: nat, max: Js.Option<int>, acc: seq<RawReview>): Pulled
    requires i <= |pages|
    decreases |pages| - i
  {
    if !Below(|acc|, max) then Pulled(acc, i)
    else if i == |pages| then PullFailed(FetchFailed, i + 1)
    else match pages[i]
      case Threw(m) => PullFailed(m, i + 1)
      case Returned(j) =>
        if Js.IsTruthy(j.error) then PullFailed(JsonOutUndefined, i + 1)
        else if !Js.Truthy(j.nextPageToken) then Pulled(acc + PageReviews(j), i + 1)
        else Pull(pages, i + 1, max, acc + PageReviews(j))
  }

  /** What the loop gathers: whole pages, in page order, each read without error. */
  lemma {:induction false} PullShape(pages: seq<Js.Call<PageJson>>, i: nat, max: Js.Option<int>, acc: seq<RawReview>)
    requires i <= |pages|
    ensures var p := Pull(pages, i, max, acc);
      p.Pulled? ==>
        && i <= p.pagesRead <= |pages|
        && (forall j :: i <= j < p.pagesRead ==> PageOk(pages[j]))
        && p.raw == acc + Gathered(pages, i, p.pagesRead)
    decreases |pages| - i
  {
    if !Below(|acc|, max) || i == |pages| || pages[i].Threw? || Js.IsTruthy(pages[i].value.error) {
    } else {
      var j := pages[i].value;
      assert Gathered(pages, i, i + 1) == PageReviews(j);
      if Js.Truthy(j.nextPageToken) {
        PullShape(pages, i + 1, max, acc + PageReviews(j));
        var p := Pull(pages, i + 1, max, acc + PageReviews(j));
        if p.Pulled? {
          assert Gathered(pages, i, p.pagesRead) == PageReviews(j) + Gathered(pages, i + 1, p.pagesRead);
        }
      }
    }
  }

  /** Where the loop stops: at the cap, or after a page without a next-page
      token, and not earlier. */
  lemma {:induction false} PullStops(pages: seq<Js.Call<PageJson>>, i: nat, max: Js.Option<int>, acc: seq<RawReview>)
    requires i <= |pages|
    ensures var p := Pull(pages, i, max, acc);
      p.Pulled? ==>
        && i <= p.pagesRead <= |pages|
        && (forall j :: i <= j < p.pagesRead ==> PageOk(pages[j]))
        // it stops at the cap, or after a page without a next-page token
        && (!Below(|p.raw|, max)
            || (i < p.pagesRead && !Js.Truthy(pages[p.pagesRead - 1].value.nextPageToken)))
        // and not earlier: every page before the last had a token ...
        && (forall j :: i <= j < p.pagesRead - 1 ==> Js.Truthy(pages[j].value.nextPageToken))
        // ... and the count was below the cap before every fetch
        && (forall j :: i <= j < p.pagesRead ==> Below(|acc| + |Gathered(pages, i, j)|, max))
    decreases |pages| - i
  {
    PullShape(pages, i, max, acc);
    if !Below(|acc|, max) || i == |pages| || pages[i].Threw? || Js.IsTruthy(pages[i].value.error) {
    } else {
      var j := pages[i].value;
      if Js.Truthy(j.nextPageToken) {
        var acc' := acc + PageReviews(j);
        PullStops(pages, i + 1, max, acc');
        var p := Pull(pages, i + 1, max, acc');
        if p.Pulled? {
          forall m | i < m < p.pagesRead
            ensures Below(|acc| + |Gathered(pages, i, m)|, max)
          {
            assert Gathered(pages, i, m) == PageReviews(j) + Gathered(pages, i + 1, m);
          }
        }
      }
    }
  }

  /** The pagination loop from its start: the reviews are the concatenation of
      the pages read; a NaN or non-positive `max` reads no page; the result
      overshoots `max` by less than the size of the last page read. */
  lemma PullFromStart(pages: seq<Js.Call<PageJson>>, max: Js.Option<int>)
    ensures var p := Pull(pages, 0, max, []);
      p.Pulled? ==>
        && p.pagesRead <= |pages|
        && (forall j :: 0 <= j < p.pagesRead ==> PageOk(pages[j]))
        && p.raw == Gathered(pages, 0, p.pagesRead)
        && (!Below(0, max) ==> p == Pulled([], 0))
        && (p.pagesRead > 0 ==> |p.raw| < max.value + |PageReviews(pages[p.pagesRead - 1].value)|)
  {
    var p := Pull(pages, 0, max, []);
    PullShape(pages, 0, max, []);
    PullStops(pages, 0, max, []);
    if p.Pulled? && p.pagesRead > 0 {
      var k := p.pagesRead;
      var before := Gathered(pages, 0, k - 1);
      assert Below(|before|, max);
      GatheredSnoc(pages, 0, k - 1);
      assert p.raw == before + PageReviews(pages[k - 1].value);
    }
  }

  lemma {:induction false} GatheredSnoc(pages: seq<Js.Call<PageJson>>, lo: nat, hi: nat)
    requires lo <= hi < |pages|
    requires forall j :: lo <= j <= hi ==> PageOk(pages[j])
    ensures Gathered(pages, lo, hi + 1) == Gathered(pages, lo, hi) + PageReviews(pages[hi].value)
    decreases hi - lo
  {
    if lo < hi {
      GatheredSnoc(pages, lo + 1, hi);
      var first, last := PageReviews(pages[lo].value), PageReviews(pages[hi].value);
      calc {
        Gathered(pages, lo, hi + 1);
        first + Gathered(pages, lo + 1, hi + 1);
        first + (Gathered(pages, lo + 1, hi) + last);
        (first + Gathered(pages, lo + 1, hi)) + last;
        Gathered(pages, lo, hi) + last;
      }
    }
  }

  /** A page carrying `error` that the loop reaches ends the request without
      a result: everything gathered so far is discarded, and no later page
      is requested. */
  lemma {:induction false} PullErrorPage(pages: seq<Js.Call<PageJson>>, i: nat, max: Js.Option<int>,
                                         acc: seq<RawReview>, e: nat)
    requires i <= e < |pages|
    requires forall j :: i <= j < e ==> PageOk(pages[j]) && Js.Truthy(pages[j].value.nextPageToken)
    requires Below(|acc| + |Gathered(pages, i, e)|, max)
    requires pages[e].Returned? && Js.IsTruthy(pages[e].value.error)
    ensures Pull(pages, i, max, acc) == PullFailed(JsonOutUndefined, e + 1)
    decreases e - i
  {
    if i < e {
      var j := pages[i].value;
      assert Gathered(pages, i, e) == PageReviews(j) + Gathered(pages, i + 1, e);
      PullErrorPage(pages, i + 1, max, acc + PageReviews(j), e);
    }
  }

  /** One step of the loop: a page that arrived without error and with a
      next-page token hands over to the next page with its reviews appended. */
  lemma PullStep(pages: seq<Js.Call<PageJson>>, i: nat, max: Js.Option<int>, acc: seq<RawReview>)
    requires i < |pages| && Below(|acc|, max) && PageOk(pages[i])
    ensures Js.Truthy(pages[i].value.nextPageToken) ==>
      Pull(pages, i, max, acc) == Pull(pages, i + 1, max, acc + PageReviews(pages[i].value))
    ensures !Js.Truthy(pages[i].value.nextPageToken) ==>
      Pull(pages, i, max, acc) == Pulled(acc + PageReviews(pages[i].value), i + 1)
  {
  }

  /** The `forEach` over one page: push each review, normalised, in order. */
  method PushNormalised(reviews: seq<Review>, rs: seq<RawReview>, localeDate: Js.Value -> string)
    returns (out: seq<Review>)
    ensures |out| == |reviews| + |rs|
    ensures out[..|reviews|] == reviews
    ensures forall k :: 0 <= k < |rs| ==> out[|reviews| + k] == Normalise(rs[k], localeDate)
  {
    out := reviews;
    var n := 0;
    while n < |rs|
      invariant 0 <= n <= |rs|
      invariant |out| == |reviews| + n
      invariant out[..|reviews|] == reviews
      invariant forall k :: 0 <= k < n ==> out[|reviews| + k] == Normalise(rs[k], localeDate)
    {
      out := out + [Normalise(rs[n], localeDate)];
      n := n + 1;
    }
  }

  datatype Collected = Collected(reviews: seq<Review>, pagesRead: nat)
                     | CollectFailed(message: string, pagesRequested: nat)

  /** The `while (reviews.length < max)` loop: fetch a page, append its
      normalised reviews, stop when the page has no next-page token. */
  method CollectReviews(pages: seq<Js.Call<PageJson>>, max: Js.Option<int>, localeDate: Js.Value -> string)
    returns (out: Collected)
    ensures var p := Pull(pages, 0, max, []);
      && (p.PullFailed? ==> out == CollectFailed(p.message, p.pagesRequested))
      && (p.Pulled? ==>
            && out.Collected? && out.pagesRead == p.pagesRead && |out.reviews| == |p.raw|
            && forall k :: 0 <= k < |p.raw| ==> out.reviews[k] == Normalise(p.raw[k], localeDate))
  {
    var i := 0;
    var reviews: seq<Review> := [];
    ghost var acc: seq<RawReview> := [];
    ghost var goal := Pull(pages, 0, max, []);
    while max.Some? && |reviews| < max.value
      invariant i <= |pages|
      invariant |reviews| == |acc|
      invariant forall k :: 0 <= k < |acc| ==> reviews[k] == Normalise(acc[k], localeDate)
      invariant Pull(pages, i, max, acc) == goal
      decreases |pages| - i
    {
      if i == |pages| {
        return CollectFailed(FetchFailed, i + 1);
      }
      var res := pages[i];
      if res.Threw? {
        return CollectFailed(res.message, i + 1);
      }
      var json := res.value;
      if Js.IsTruthy(json.error) {
        return CollectFailed(JsonOutUndefined, i + 1);
      }
      var rs := if json.reviews.Some? then json.reviews.value else [];
      var pushed := PushNormalised(reviews, rs, localeDate);
      PullStep(pages, i, max, acc);
      forall k | 0 <= k < |acc + rs|
        ensures pushed[k] == Normalise((acc + rs)[k], localeDate)
      {
        if k < |acc| {
          assert pushed[k] == pushed[..|reviews|][k];
        } else {
          assert pushed[|reviews| + (k - |acc|)] == Normalise(rs[k - |acc|], localeDate);
        }
      }
      reviews := pushed;
      acc := acc + rs;
      i := i + 1;
      if !Js.Truthy(json.nextPageToken) {
        return Collected(reviews, i);
      }
    }
    return Collected(reviews, i);
  }

  // ---------------------------------------------------------------------
  // Average rating
  // ---------------------------------------------------------------------

  function SumRatings(rs: seq<Review>): (s: int)
    ensures 0 <= s <= 5 * |rs|
    decreases |rs|
  {
    if rs == [] then 0 else rs[0].rating + SumRatings(rs[1..])
  }

  /** The mean rating in tenths, rounded half up; 0 for no reviews. */
  function RatingTenths(rs: seq<Review>): int
  {
    if rs == [] then 0 else RoundedTenths(|rs|, SumRatings(rs))
  }

  /** `s / n` in tenths, rounded half up. */
  function RoundedTenths(n: int, s: int): int
    requires n > 0
  {
    (20 * s + n) / (2 * n)
  }

  /** The rating rounded to one decimal lies in 0.0..5.0 and is within half
      a tenth of the exact mean. */
  lemma RatingTenthsBounds(rs: seq<Review>)
    ensures 0 <= RatingTenths(rs) <= 50
    ensures rs == [] ==> RatingTenths(rs) == 0
    ensures rs != [] ==>
      20 * SumRatings(rs) - |rs| < 2 * |rs| * RatingTenths(rs) <= 20 * SumRatings(rs) + |rs|
  {
    if rs != [] {
      TenthsArith(|rs|, SumRatings(rs));
    }
  }

  /** Rounding a mean of values in 0..5 to tenths, over integers. */
  lemma TenthsArith(n: int, s: int)
    requires n > 0 && 0 <= s <= 5 * n
    ensures 0 <= RoundedTenths(n, s) <= 50
    ensures 20 * s - n < 2 * n * RoundedTenths(n, s) <= 20 * s + n
  {
    var a, d := 20 * s + n, 2 * n;
    var t := a / d;
    FloorDiv(a, d);
    assert a < d * 51;
    if t > 50 {
      MulMono(d, 51, t);
    }
  }

  lemma FloorDiv(a: int, d: int)
    requires a >= 0 && d > 0
    ensures 0 <= a / d
    ensures d * (a / d) <= a < d * (a / d) + d
  {
  }

  lemma MulMono(d: int, x: int, y: int)
    requires d >= 0 && x <= y
    ensures d * x <= d * y
  {
    assert d * y - d * x == d * (y - x);
  }

  function Digit(d: int): char
    requires 0 <= d <= 9
  {
    (48 + d) as char
  }

  /** `toFixed(1)` of the mean, "0.0" when there are no reviews. */
  function RatingText(rs: seq<Review>): (text: string)
    ensures |text| == 3 && text[1] == '.'
    ensures '0' <= text[0] <= '5' && '0' <= text[2] <= '9'
    ensures rs == [] ==> text == "0.0"
    ensures 10 * (text[0] as int - 48) + (text[2] as int - 48) == RatingTenths(rs)
  {
    RatingTenthsBounds(rs);
    var t := RatingTenths(rs);
    [Digit(t / 10), '.', Digit(t % 10)]
  }

  // ---------------------------------------------------------------------
  // The handler
  // ---------------------------------------------------------------------

  /** The location-info response, as far as `infoJson?.title` reads it. */
  datatype InfoJson = InfoJson(title: Js.Option<string>)

  const DefaultTitle := "Google Reviews"

  datatype Body =
    | Error(message: string)
    | Summary(name: string, rating: string, userRatingsTotal: nat, reviews: seq<Review>)

  /** Both location parameters are present once trimmed. */
  predicate HasLocation(q: Query)
  {
    Param(q.accountId) != "" && Param(q.locationId) != ""
  }

  /** An outbound call the handler makes. */
  datatype Request =
    | TokenExchange
    | TitleLookup(accountId: string, locationId: string)
    | ReviewPage(accountId: string, locationId: string, page: nat)

  /** The requests for review pages 0..n-1 of one location. */
  function PageRequests(accountId: string, locationId: string, n: nat): (rs: seq<Request>)
    ensures |rs| == n
    ensures forall k :: 0 <= k < n ==> rs[k] == ReviewPage(accountId, locationId, k)
  {
    seq(n, k requires 0 <= k < n => ReviewPage(accountId, locationId, k))
  }

  /** The handler. `token` is the OAuth token exchange, `info` the location
      title lookup, `pages` the answers to successive review-page requests.
      `calls` lists the outbound calls made, in order. */
  method HandleReviews(env: Js.OAuthEnv, q: Query, token: Js.Call<string>, info: Js.Call<InfoJson>,
                       pages: seq<Js.Call<PageJson>>, localeDate: Js.Value -> string)
    returns (resp: Js.Response<Body>, calls: seq<Request>)
    // configuration and parameter errors come before any call
    ensures !Js.OAuthConfigured(env) ==>
      resp == Js.Response(500, Error("Missing OAuth env vars")) && calls == []
    ensures Js.OAuthConfigured(env) && !HasLocation(q) ==>
      resp == Js.Response(400, Error("Missing accountId or locationId")) && calls == []
    ensures Js.OAuthConfigured(env) && HasLocation(q) && token.Threw? ==>
      resp == Js.Response(500, Error(token.message)) && calls == [TokenExchange]
    ensures Js.OAuthConfigured(env) && HasLocation(q) && token.Returned? && info.Threw? ==>
      resp == Js.Response(500, Error(info.message))
      && calls == [TokenExchange, TitleLookup(Param(q.accountId), Param(q.locationId))]
    ensures var p := Pull(pages, 0, EffectiveMax(q.max), []);
      && (Js.OAuthConfigured(env) && HasLocation(q) && token.Returned? && info.Returned? ==>
            // the token, the title, then one request per page the loop asked for
            calls == [TokenExchange, TitleLookup(Param(q.accountId), Param(q.locationId))]
                     + PageRequests(Param(q.accountId), Param(q.locationId), PagesRequested(p)))
      && (Js.OAuthConfigured(env) && HasLocation(q) && token.Returned? && info.Returned? && p.PullFailed? ==>
            resp == Js.Response(500, Error(p.message)))
      && (resp.status == 200 <==>
            Js.OAuthConfigured(env) && HasLocation(q) && token.Returned? && info.Returned? && p.Pulled?)
      && (resp.status == 200 ==>
            && resp.body.Summary?
            && resp.body.name == Js.OrElse(info.value.title, DefaultTitle)
            && resp.body.userRatingsTotal == |resp.body.reviews| == |p.raw|
            && (forall k :: 0 <= k < |p.raw| ==> resp.body.reviews[k] == Normalise(p.raw[k], localeDate))
            && resp.body.rating == RatingText(resp.body.reviews))
    // a NaN or non-positive cap requests no review page
    ensures q.max.MaxNaN? || (q.max.MaxNumber? && q.max.n <= 0) ==>
      forall k :: 0 <= k < |calls| ==> !calls[k].ReviewPage?
    ensures resp.status == 200 || resp.status == 400 || resp.status == 500
  {
    calls := [];
    if !Js.OAuthConfigured(env) {
      return Js.Response(500, Error("Missing OAuth env vars")), calls;
    }
    var accountId := Param(q.accountId);
    var locationId := Param(q.locationId);
    var max := EffectiveMax(q.max);
    assert q.max.MaxNaN? || (q.max.MaxNumber? && q.max.n <= 0) ==> !Below(0, max);
    if accountId == "" || locationId == "" {
      return Js.Response(400, Error("Missing accountId or locationId")), calls;
    }
    resp, calls := Retrieve(token, info, pages, max, accountId, locationId, localeDate);
  }

  /** The part of the handler after the parameter checks: the token exchange,
      the title lookup, then the pages. */
  method Retrieve(token: Js.Call<string>, info: Js.Call<InfoJson>, pages: seq<Js.Call<PageJson>>,
                  max: Js.Option<int>, accountId: string, locationId: string, localeDate: Js.Value -> string)
    returns (resp: Js.Response<Body>, calls: seq<Request>)
    ensures token.Threw? ==> resp == Js.Response(500, Error(token.message)) && calls == [TokenExchange]
    ensures token.Returned? && info.Threw? ==>
      resp == Js.Response(500, Error(info.message)) && calls == [TokenExchange, TitleLookup(accountId, locationId)]
    ensures var p := Pull(pages, 0, max, []);
      && (token.Returned? && info.Returned? ==>
            calls == [TokenExchange, TitleLookup(accountId, locationId)]
                     + PageRequests(accountId, locationId, PagesRequested(p)))
      && (token.Returned? && info.Returned? && p.PullFailed? ==> resp == Js.Response(500, Error(p.message)))
      && (resp.status == 200 <==> token.Returned? && info.Returned? && p.Pulled?)
      && (resp.status == 200 ==>
            && resp.body.Summary?
            && resp.body.name == Js.OrElse(info.value.title, DefaultTitle)
            && resp.body.userRatingsTotal == |resp.body.reviews| == |p.raw|
            && (forall k :: 0 <= k < |p.raw| ==> resp.body.reviews[k] == Normalise(p.raw[k], localeDate))
            && resp.body.rating == RatingText(resp.body.reviews))
    ensures !Below(0, max) ==> forall k :: 0 <= k < |calls| ==> !calls[k].ReviewPage?
    ensures resp.status == 200 || resp.status == 500
  {
    if token.Threw? {
      return Js.Response(500, Error(token.message)), [TokenExchange];
    }
    calls := [TokenExchange, TitleLookup(accountId, locationId)];
    if info.Threw? {
      return Js.Response(500, Error(info.message)), calls;
    }
    var title := Js.OrElse(info.value.title, DefaultTitle);
    var pageCalls;
    resp, pageCalls := Summarise(title, pages, max, accountId, locationId, localeDate);
    calls := calls + pageCalls;
  }

  /** The part of the handler after the title lookup: the pagination loop,
      then the summary or the loop's failure. `pageCalls` lists the page
      requests made. */
  method Summarise(title: string, pages: seq<Js.Call<PageJson>>, max: Js.Option<int>,
                   accountId: string, locationId: string, localeDate: Js.Value -> string)
    returns (resp: Js.Response<Body>, pageCalls: seq<Request>)
    ensures var p := Pull(pages, 0, max, []);
      && pageCalls == PageRequests(accountId, locationId, PagesRequested(p))
      && (p.PullFailed? ==> resp == Js.Response(500, Error(p.message)))
      && (p.Pulled? ==>
            && resp.status == 200 && resp.body.Summary?
            && resp.body.name == title
            && resp.body.userRatingsTotal == |resp.body.reviews| == |p.raw|
            && (forall k :: 0 <= k < |p.raw| ==> resp.body.reviews[k] == Normalise(p.raw[k], localeDate))
            && resp.body.rating == RatingText(resp.body.reviews))
    ensures !Below(0, max) ==> pageCalls == []
    ensures resp.status == 200 || resp.status == 500
  {
    var collected := CollectReviews(pages, max, localeDate);
    var requested := if collected.Collected? then collected.pagesRead else collected.pagesRequested;
    pageCalls := PageRequests(accountId, locationId, requested);
    if collected.CollectFailed? {
      return Js.Response(500, Error(collected.message)), pageCalls;
    }
    var reviews := collected.reviews;
    resp := Js.Response(200, Summary(title, RatingText(reviews), |reviews|, reviews));
  }

  /** A NaN or non-positive `max` fetches no page: no reviews, rating "0.0". */
  lemma NoPagesWithoutMax(pages: seq<Js.Call<PageJson>>, p: MaxParam)
    requires p.MaxNaN? || (p.MaxNumber? && p.n <= 0)
    ensures Pull(pages, 0, EffectiveMax(p), []) == Pulled([], 0)
    ensures RatingText([]) == "0.0"
  {
  }
}
