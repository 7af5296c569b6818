/**
 * `POST /api/ai/search` (server/src/routes/aiRoutes.ts): request defaults, the call into the
 * search flow, the normalisation of every raw item, and the mapping of a thrown error to 500.
 */
module AiRoutes {
  import opened Wrappers
  import opened Restaurants
  import opened Genkit

  /** The JSON body the client posts; `None` is an absent property. */
  datatype SearchBody = SearchBody(
    location: Option<string>,
    keywords: Option<string>,
    radius: Option<string>,
    limit: Option<int>,
    model: Option<string>,
    language: Option<string>,
    excludeNames: Option<seq<string>>)

  /** The HTTP answer: 200 with the list, or an error status with `{ error: message }`. */
  datatype SearchResponse = Found(restaurants: seq<Restaurant>) | Error(status: int, message: string)

  const RouteDefaultRadius := "1km"
  const RouteDefaultLimit := 6
  const RouteDefaultLanguage := "zh-TW"

  /** The destructuring with defaults, and the object handed to the flow. The client's
   *  `model` is read but not forwarded, and no personal context is sent. */
  function FlowInputOf(body: SearchBody): (input: FlowInput)
    ensures input.location == body.location && input.keywords == body.keywords
    ensures input.radius == Some(body.radius.GetOr(RouteDefaultRadius))
    ensures input.limit == Some(body.limit.GetOr(RouteDefaultLimit))
    ensures input.language == Some(body.language.GetOr(RouteDefaultLanguage))
    ensures input.excludeNames == Some(body.excludeNames.GetOr([]))
    ensures input.model.None? && input.context.None?
  {
    FlowInput(
      location := body.location,
      keywords := body.keywords,
      radius := Some(body.radius.GetOr(RouteDefaultRadius)),
      limit := Some(body.limit.GetOr(RouteDefaultLimit)),
      language := Some(body.language.GetOr(RouteDefaultLanguage)),
      excludeNames := Some(body.excludeNames.GetOr([])),
      context := None,
      model := None)
  }

  /** `error.message || "Internal Server Error"` */
  function ErrorText(message: string): (r: string)
    ensures r != ""
    ensures message != "" ==> r == message
  {
    if message != "" then message else "Internal Server Error"
  }

  /** The route handler. `generate` is the model behind the flow; `ids(i)` is the random id
   *  generated for the i-th item. */
  function Search(body: SearchBody, generate: GenerateRequest -> Result<Option<seq<RawItem>>>, ids: nat -> string): (r: SearchResponse)
    ensures var flow := SearchFlow(FlowInputOf(body), generate);
      && (flow.Failure? ==> r == Error(500, ErrorText(flow.error)))
      && (flow.Success? ==> r == Found(NormaliseAll(flow.value, ids, body.location.GetOr(""), body.language.GetOr(RouteDefaultLanguage))))
  {
    match SearchFlow(FlowInputOf(body), generate)
    case Failure(e) => Error(500, ErrorText(e))
    case Success(raw) => Found(NormaliseAll(raw, ids, body.location.GetOr(""), body.language.GetOr(RouteDefaultLanguage)))
  }

  /** Every failure of the route is a 500 with a non-empty message. */
  lemma SearchErrorsAre500(body: SearchBody, generate: GenerateRequest -> Result<Option<seq<RawItem>>>, ids: nat -> string)
    ensures Search(body, generate, ids).Error? ==>
      Search(body, generate, ids).status == 500 && Search(body, generate, ids).message != ""
  {
  }

  /** The model the client asks for never reaches the flow: the answer is the same whatever
   *  `model` the body carries. */
  lemma SearchIgnoresClientModel(body: SearchBody, other: Option<string>, generate: GenerateRequest -> Result<Option<seq<RawItem>>>, ids: nat -> string)
    ensures Search(body, generate, ids) == Search(body.(model := other), generate, ids)
  {
    assert FlowInputOf(body) == FlowInputOf(body.(model := other));
  }

  /** A missing location or an unsupported language is rejected by the flow's schema before
   *  the model is asked anything. */
  lemma SearchRejectsInvalidInput(body: SearchBody, generate: GenerateRequest -> Result<Option<seq<RawItem>>>, ids: nat -> string)
    requires body.location.None? || (body.language.Some? && body.language.value !in Languages)
    ensures Search(body, generate, ids) == Error(500, SchemaViolation)
  {
  }

  /** On success the answer has one restaurant per item the model produced, in the model's
   *  order, each with at most three tags, a non-empty name, non-zero coordinates and the
   *  distance "nearby". */
  lemma SearchShape(body: SearchBody, generate: GenerateRequest -> Result<Option<seq<RawItem>>>, ids: nat -> string)
    requires body.location.Some? && (body.language.None? || body.language.value in Languages)
    ensures var v := ParseInput(FlowInputOf(body)).value;
      var out := generate(RequestFor(v));
      out.Success? && out.value.Some? && AllConform(out.value.value) ==>
        var r := Search(body, generate, ids);
        && r.Found? && |r.restaurants| == |out.value.value|
        && forall i :: 0 <= i < |r.restaurants| ==>
             && r.restaurants[i].id == ids(i)
             && r.restaurants[i].name != "" && |r.restaurants[i].tags| <= 3
             && r.restaurants[i].lat != 0.0 && r.restaurants[i].lng != 0.0
             && r.restaurants[i].distance == "nearby"
  {
  }

  /** Without a `keywords` property the flow is asked for the language's default keywords, and
   *  without `limit` and `radius` for six restaurants within 1km. */
  lemma SearchRequestDefaults(body: SearchBody)
    requires body.location.Some? && body.keywords.None? && body.limit.None? && body.radius.None?
    requires body.language.None? || body.language.value in Languages
    ensures var v := ParseInput(FlowInputOf(body)).value;
      && v.limit == 6 && v.radius == "1km"
      && FinalKeywords(v.keywords, v.language) == DefaultKeywords(body.language.GetOr("zh-TW"))
      && RequestFor(v).model == "googleai/gemini-2.0-flash-exp"
  {
  }
}
