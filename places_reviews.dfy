/** The Places Details wrapper: the method and parameter ladder, the upstream
    status check, and the reshaping of at most five reviews. */
module PlacesReviews {
  import Js

  /** A review as Places Details returns it; the fields are copied, never inspected. */
  datatype PlaceReview = PlaceReview(authorName: Js.Value, profilePhotoUrl: Js.Value, rating: Js.Value,
                                     text: Js.Value, relativeTimeDescription: Js.Value)

  /** The `result` object of a Places Details response. */
  datatype PlaceResult = PlaceResult(name: Js.Value, rating: Js.Value, userRatingsTotal: Js.Value,
                                     url: Js.Value, reviews: Js.Option<seq<PlaceReview>>)

  /** A Places Details response: its `status` and its `result`, when present. */
  datatype PlacesJson = PlacesJson(status: Js.Option<string>, result: Js.Option<PlaceResult>)

  /** A review in the widget's shape. */
  datatype OutReview = OutReview(author: Js.Value, avatar: Js.Value, rating: Js.Value,
                                 text: Js.Value, when: Js.Value)

  datatype Body =
    | Empty
    | Error(message: string)
    | ApiError(detail: string)
    | Place(name: Js.Value, rating: Js.Value, total: Js.Value, url: Js.Value, reviews: seq<OutReview>)

  /** The Places Details request the handler issues (URL encoding is not modelled). */
  datatype PlaceRequest = PlaceRequest(placeId: string, sort: string)

  /** The response, and the upstream request made on the way, if any. */
  datatype Outcome = Outcome(response: Js.Response<Body>, request: Js.Option<PlaceRequest>)

  /** The number of reviews the widget shows. */
  const ShownReviews := 5

  function Reshape(rv: PlaceReview): OutReview
  {
    OutReview(rv.authorName, rv.profilePhotoUrl, rv.rating, rv.text, rv.relativeTimeDescription)
  }

  /** `rs.map(...)` with the field renaming. */
  function ReshapeAll(rs: seq<PlaceReview>): (out: seq<OutReview>)
    ensures |out| == |rs|
    ensures forall k :: 0 <= k < |rs| ==>
      && out[k].author == rs[k].authorName
      && out[k].avatar == rs[k].profilePhotoUrl
      && out[k].rating == rs[k].rating
      && out[k].text == rs[k].text
      && out[k].when == rs[k].relativeTimeDescription
    decreases |rs|
  {
    if rs == [] then [] else [Reshape(rs[0])] + ReshapeAll(rs[1..])
  }

  /** `(result.reviews || []).slice(0, 5)` */
  function Shown(r: PlaceResult): seq<PlaceReview>
  {
    var rs := if r.reviews.Some? then r.reviews.value else [];
    if |rs| <= ShownReviews then rs else rs[..ShownReviews]
  }

  /** The success body: top-level fields copied, reviews cut to five and renamed. */
  function PlaceBody(r: PlaceResult): (b: Body)
    ensures b.Place?
    ensures b.name == r.name && b.rating == r.rating && b.total == r.userRatingsTotal && b.url == r.url
    ensures var n := if r.reviews.Some? then |r.reviews.value| else 0;
      |b.reviews| == if n < ShownReviews then n else ShownReviews
    ensures forall k :: 0 <= k < |b.reviews| ==>
      && r.reviews.Some?
      && b.reviews[k].author == r.reviews.value[k].authorName
      && b.reviews[k].avatar == r.reviews.value[k].profilePhotoUrl
      && b.reviews[k].rating == r.reviews.value[k].rating
      && b.reviews[k].text == r.reviews.value[k].text
      && b.reviews[k].when == r.reviews.value[k].relativeTimeDescription
  {
    Place(r.name, r.rating, r.userRatingsTotal, r.url, ReshapeAll(Shown(r)))
  }

  /** The handler. `placeId` and `sort` are the query parameters (`None` when
      absent) and `upstream` is the awaited fetch and JSON decoding. */
  function HandlePlaces(httpMethod: string, apiKey: Js.Option<string>, placeId: Js.Option<string>,
                        sort: Js.Option<string>, upstream: Js.Call<PlacesJson>): (o: Outcome)
    // preflight and method check come before anything else
    ensures httpMethod == "OPTIONS" ==> o == Outcome(Js.Response(200, Empty), Js.None)
    ensures httpMethod != "OPTIONS" && httpMethod != "GET" ==>
      o == Outcome(Js.Response(405, Error("Method not allowed")), Js.None)
    // configuration and parameter errors come before the upstream call
    ensures httpMethod == "GET" && !Js.Truthy(apiKey) ==>
      o == Outcome(Js.Response(500, Error("Missing GOOGLE_MAPS_API_KEY")), Js.None)
    ensures httpMethod == "GET" && Js.Truthy(apiKey) && !Js.Truthy(placeId) ==>
      o == Outcome(Js.Response(400, Error("Missing placeId")), Js.None)
    // exactly one request otherwise, sorted by relevance unless a sort is given
    ensures o.request.Some? <==> httpMethod == "GET" && Js.Truthy(apiKey) && Js.Truthy(placeId)
    ensures o.request.Some? ==>
      o.request.value.placeId == placeId.value
      && (Js.Truthy(sort) ==> o.request.value.sort == sort.value)
      && (!Js.Truthy(sort) ==> o.request.value.sort == "most_relevant")
    ensures o.request.Some? && upstream.Threw? ==>
      o.response == Js.Response(500, Error(if upstream.message != "" then upstream.message else "Unknown error"))
    // an upstream status other than OK, or no result, is a 502 naming the status
    ensures o.request.Some? && upstream.Returned?
            && (upstream.value.status != Js.Some("OK") || upstream.value.result.None?) ==>
      o.response == Js.Response(502, ApiError(Js.OrElse(upstream.value.status, "NO_RESULT")))
    ensures o.response.status == 200 && o.response.body.Place? <==>
      o.request.Some? && upstream.Returned?
      && upstream.value.status == Js.Some("OK") && upstream.value.result.Some?
    ensures o.response.body.Place? ==> o.response == Js.Response(200, PlaceBody(upstream.value.result.value))
    ensures o.response.body.Place? ==> |o.response.body.reviews| <= ShownReviews
    ensures o.response.status in {200, 400, 405, 500, 502}
  {
    if httpMethod == "OPTIONS" then Outcome(Js.Response(200, Empty), Js.None)
    else if httpMethod != "GET" then Outcome(Js.Response(405, Error("Method not allowed")), Js.None)
    else if !Js.Truthy(apiKey) then Outcome(Js.Response(500, Error("Missing GOOGLE_MAPS_API_KEY")), Js.None)
    else if !Js.Truthy(placeId) then Outcome(Js.Response(400, Error("Missing placeId")), Js.None)
    else
      var request := Js.Some(PlaceRequest(placeId.value, Js.OrElse(sort, "most_relevant")));
      match upstream
      case Threw(m) =>
        Outcome(Js.Response(500, Error(if m != "" then m else "Unknown error")), request)
      case Returned(j) =>
        if j.status != Js.Some("OK") || j.result.None? then
          Outcome(Js.Response(502, ApiError(Js.OrElse(j.status, "NO_RESULT"))), request)
        else
          Outcome(Js.Response(200, PlaceBody(j.result.value)), request)
  }

  /** The shown reviews are the in-order prefix of the upstream reviews. */
  lemma ShownIsPrefix(r: PlaceResult)
    requires r.reviews.Some?
    ensures var rs := r.reviews.value;
      var n := if |rs| < ShownReviews then |rs| else ShownReviews;
      |PlaceBody(r).reviews| == n && PlaceBody(r).reviews == ReshapeAll(rs[..n])
  {
    var rs := r.reviews.value;
    if |rs| <= ShownReviews {
      assert rs[..|rs|] == rs;
    }
  }
}
