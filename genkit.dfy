/**
 * The server's restaurant-search flow (server/src/genkit.ts): input-schema defaults and
 * validation, prompt assembly, model choice, and the handling of the model's structured output.
 * The generative model itself is the parameter `generate`.
 */
module Genkit {
  import opened Wrappers
  import opened Text
  import opened Restaurants

  /** The flow's input as the caller supplies it; `None` is an absent property. */
  datatype FlowInput = FlowInput(
    location: Option<string>,
    keywords: Option<string>,
    radius: Option<string>,
    limit: Option<int>,
    language: Option<string>,
    excludeNames: Option<seq<string>>,
    context: Option<string>,
    model: Option<string>)

  /** The input after the schema has checked it and filled in its defaults. */
  datatype ValidInput = ValidInput(
    location: string,
    keywords: Option<string>,
    radius: string,
    limit: int,
    language: string,
    excludeNames: seq<string>,
    context: Option<string>,
    model: Option<string>)

  /** What the flow hands to the generative model. */
  datatype GenerateRequest = GenerateRequest(prompt: string, model: string, temperature: real)

  /** The three locales the input schema's enum admits. */
  const Languages: seq<string> := ["zh-TW", "en", "ja"]
  const DefaultRadius := "1km"
  const DefaultLimit := 6
  const DefaultLanguage := "zh-TW"
  const DefaultModel := "googleai/gemini-2.0-flash-exp"
  const Temperature: real := 0.2

  /** Stands for the (non-empty) message of the error the framework throws when a value does
   *  not satisfy a schema. */
  const SchemaViolation := "Schema validation failed"

  /** The input schema: `location` is required, `language` must be one of the enum's values,
   *  and absent optional fields take their defaults. */
  function ParseInput(input: FlowInput): (r: Result<ValidInput>)
    ensures r.Failure? <==> input.location.None? || (input.language.Some? && input.language.value !in Languages)
    ensures r.Failure? ==> r.error == SchemaViolation
    ensures r.Success? ==> var v := r.value;
      && v.location == input.location.value
      && v.keywords == input.keywords && v.context == input.context && v.model == input.model
      && v.radius == input.radius.GetOr(DefaultRadius)
      && v.limit == input.limit.GetOr(DefaultLimit)
      && v.language == input.language.GetOr(DefaultLanguage) && v.language in Languages
      && v.excludeNames == input.excludeNames.GetOr([])
  {
    if input.location.None? then Failure(SchemaViolation)
    else if input.language.Some? && input.language.value !in Languages then Failure(SchemaViolation)
    else Success(ValidInput(
      location := input.location.value,
      keywords := input.keywords,
      radius := input.radius.GetOr(DefaultRadius),
      limit := input.limit.GetOr(DefaultLimit),
      language := input.language.GetOr(DefaultLanguage),
      excludeNames := input.excludeNames.GetOr([]),
      context := input.context,
      model := input.model))
  }

  /** The keywords used when the caller gave none: English for 'en', Chinese otherwise. */
  function DefaultKeywords(language: string): string {
    if language == "en" then "good food, high rating" else "美食, 高評分"
  }

  /** `finalKeywords`: the caller's keywords, untrimmed, when they are not blank. */
  function FinalKeywords(keywords: Option<string>, language: string): (r: string)
    ensures keywords.Some? && Trim(keywords.value) != "" ==> r == keywords.value
    ensures keywords.None? || Trim(keywords.value) == "" ==> r == DefaultKeywords(language)
  {
    if keywords.Some? && Trim(keywords.value) != "" then keywords.value else DefaultKeywords(language)
  }

  /** The prompt never asks for blank keywords. */
  lemma FinalKeywordsNotBlank(keywords: Option<string>, language: string)
    ensures Trim(FinalKeywords(keywords, language)) != ""
  {
    var d := DefaultKeywords(language);
    assert !IsSpace(d[0]) && !IsSpace(d[|d| - 1]);
  }

  /** `excludeInstruction`: empty exactly when there is nothing to exclude, and otherwise
   *  naming every excluded restaurant. */
  function ExcludeInstruction(names: seq<string>): (r: string)
    ensures r == "" <==> names == []
    ensures names != [] ==> r == "DO NOT include these restaurants: " + Join(names, ", ") + "."
  {
    if |names| > 0 then "DO NOT include these restaurants: " + Join(names, ", ") + "." else ""
  }

  lemma ExcludeInstructionNamesAll(names: seq<string>, k: nat)
    requires k < |names|
    ensures Contains(ExcludeInstruction(names), names[k])
  {
    var joined := Join(names, ", ");
    JoinHasPart(names, ", ", k);
    ContainsMiddle("DO NOT include these restaurants: ", joined, ".");
    ContainsTransitive(ExcludeInstruction(names), joined, names[k]);
  }

  /** `radiusConstraint`: only the literal 'unlimited' relaxes the distance requirement. */
  function RadiusConstraint(radius: string): (r: string)
    ensures radius == "unlimited" ==> r == "Location: Prioritize nearby but allow wider search if needed."
    ensures radius != "unlimited" ==> r == "Location: Must be strictly within " + radius + " of the center point."
  {
    if radius == "unlimited" then "Location: Prioritize nearby but allow wider search if needed."
    else "Location: Must be strictly within " + radius + " of the center point."
  }

  /** `langMap[language] || langMap['zh-TW']` */
  function TargetLanguage(language: string): (r: string)
    ensures language == "zh-TW" ==> r == "Traditional Chinese (繁體中文)"
    ensures language == "en" ==> r == "English"
    ensures language == "ja" ==> r == "Japanese (日本語)"
    ensures language !in Languages ==> r == "Traditional Chinese (繁體中文)"
    ensures r != ""
  {
    var langMap := map["zh-TW" := "Traditional Chinese (繁體中文)", "en" := "English", "ja" := "Japanese (日本語)"];
    if language in langMap then langMap[language] else langMap["zh-TW"]
  }

  /** The personal-preferences clause: present only for a non-empty context. */
  function ContextClause(context: Option<string>): (r: string)
    ensures r == "" <==> context.None? || context.value == ""
    ensures context.Some? && context.value != "" ==> r == "\n      User Personal Preferences:\n      " + context.value
  {
    if context.Some? && context.value != "" then "\n      User Personal Preferences:\n      " + context.value else ""
  }

  /** The fixed text of the template literal `promptText`, between its interpolations. */
  const TaskOpen := "\n      Task: Find exactly "
  const TaskNear := " real, existing restaurants near \""
  const TaskMatching := "\" matching \""
  const TaskClose := "\".\n      "
  const LineBreak := "\n      "
  const ConstraintsLanguage := "\n      \n      Constraints:\n      1. Language: Output ONLY in "
  const ConstraintsSort := ".\n      2. Sort Order: Sort strictly by Recommendation Strength (Highest Rating + Best Keyword Match) DESCENDING.\n      3. "
  const ConstraintsCoordinates := "\n      4. Ensure coordinates (lat/lng) are accurate for the specific restaurant.\n    "

  /** The fixed texts of `promptText`, between its interpolations. */
  const PromptFixed: seq<string> := [
    TaskOpen, TaskNear, TaskMatching, TaskClose, LineBreak, ConstraintsLanguage, ConstraintsSort,
    ConstraintsCoordinates ]

  /** The values interpolated into `promptText`, in order. */
  function PromptValues(v: ValidInput): seq<string> {
    [ IntToString(v.limit), v.location, FinalKeywords(v.keywords, v.language),
      ExcludeInstruction(v.excludeNames), ContextClause(v.context), TargetLanguage(v.language),
      RadiusConstraint(v.radius) ]
  }

  /** The template literal `promptText`, character for character. */
  function PromptText(v: ValidInput): string {
    Template(PromptFixed, PromptValues(v))
  }

  /** The prompt embeds the limit, the location, the keywords, the exclusions, the target
   *  language, the radius sentence and the personal-preferences clause. */
  lemma PromptMentions(v: ValidInput)
    ensures Contains(PromptText(v), IntToString(v.limit))
    ensures Contains(PromptText(v), v.location)
    ensures Contains(PromptText(v), FinalKeywords(v.keywords, v.language))
    ensures Contains(PromptText(v), ExcludeInstruction(v.excludeNames))
    ensures Contains(PromptText(v), ContextClause(v.context))
    ensures Contains(PromptText(v), TargetLanguage(v.language))
    ensures Contains(PromptText(v), RadiusConstraint(v.radius))
  {
    var values := PromptValues(v);
    TemplateHasValue(PromptFixed, values, 0);
    TemplateHasValue(PromptFixed, values, 1);
    TemplateHasValue(PromptFixed, values, 2);
    TemplateHasValue(PromptFixed, values, 3);
    TemplateHasValue(PromptFixed, values, 4);
    TemplateHasValue(PromptFixed, values, 5);
    TemplateHasValue(PromptFixed, values, 6);
  }

  /** Every excluded name is in the prompt. */
  lemma PromptExcludesAll(v: ValidInput, k: nat)
    requires k < |v.excludeNames|
    ensures Contains(PromptText(v), v.excludeNames[k])
  {
    PromptMentions(v);
    ExcludeInstructionNamesAll(v.excludeNames, k);
    ContainsTransitive(PromptText(v), ExcludeInstruction(v.excludeNames), v.excludeNames[k]);
  }

  /** Without a (non-empty) context the prompt is exactly the one built with no context. */
  lemma PromptWithoutContext(v: ValidInput)
    requires v.context.None? || v.context.value == ""
    ensures PromptText(v) == PromptText(v.(context := None))
  {
  }

  /** `model || "googleai/gemini-2.0-flash-exp"` */
  function ModelName(model: Option<string>): (r: string)
    ensures model.Some? && model.value != "" ==> r == model.value
    ensures model.None? || model.value == "" ==> r == DefaultModel
    ensures r != ""
  {
    if model.Some? && model.value != "" then model.value else DefaultModel
  }

  /** An item that satisfies the output schema (`RestaurantSchema`): every field is required. */
  predicate Conforms(item: RawItem) {
    && item.name.Some? && item.address.Some? && item.rating.Some? && item.priceLevel.Some?
    && item.tags.Some? && item.description.Some? && item.recommendedDishes.Some?
    && item.isOpen.Some? && item.lat.Some? && item.lng.Some?
  }

  /** The `ai.generate` call: the built prompt, the requested model or the default one, and
   *  temperature 0.2. */
  function RequestFor(v: ValidInput): (r: GenerateRequest)
    ensures r.prompt == PromptText(v) && r.temperature == 0.2 && r.model != ""
    ensures v.model.None? || v.model == Some("") ==> r.model == "googleai/gemini-2.0-flash-exp"
    ensures v.model.Some? && v.model.value != "" ==> r.model == v.model.value
  {
    GenerateRequest(PromptText(v), ModelName(v.model), Temperature)
  }

  /** What the flow returns for the model's answer `out`: a thrown error propagates, no
   *  output becomes the empty list, and the output schema rejects a non-conforming item. */
  function FlowOutput(out: Result<Option<seq<RawItem>>>): (r: Result<seq<RawItem>>)
    ensures out.Failure? ==> r == Failure(out.error)
    ensures out == Success(None) ==> r == Success([])
    ensures out.Success? && out.value.Some? && AllConform(out.value.value) ==> r == Success(out.value.value)
    ensures out.Success? && out.value.Some? && !AllConform(out.value.value) ==> r == Failure(SchemaViolation)
    ensures r.Success? ==> AllConform(r.value)
  {
    match out
    case Failure(e) => Failure(e)
    case Success(None) => Success([])
    case Success(Some(items)) => if AllConform(items) then Success(items) else Failure(SchemaViolation)
  }

  /** `searchRestaurantsFlow`: `generate` is the model call; it may throw (`Failure`) or yield
   *  no output (`Success(None)`). */
  function SearchFlow(input: FlowInput, generate: GenerateRequest -> Result<Option<seq<RawItem>>>): (r: Result<seq<RawItem>>)
    ensures ParseInput(input).Failure? ==> r == Failure(SchemaViolation)
    ensures ParseInput(input).Success? ==> r == FlowOutput(generate(RequestFor(ParseInput(input).value)))
  {
    match ParseInput(input)
    case Failure(e) => Failure(e)
    case Success(v) => var request := RequestFor(v); FlowOutput(generate(request))
  }

  predicate AllConform(items: seq<RawItem>) {
    forall i :: 0 <= i < |items| ==> Conforms(items[i])
  }}
