/**
 * The legacy browser-side search (services/geminiService.ts): the API-key check, the prompt,
 * the abort checks around the model call, the JSON guard, the shared item normalisation and the
 * classification of a failed call into a user-facing message.
 */
module GeminiService {
  import opened Wrappers
  import opened Text
  import opened Restaurants
  import opened Genkit

  /** A JavaScript error value: its `name` and `message`. */
  datatype JsError = JsError(name: string, message: string)

  /** `Error.prototype.toString`: the name and the message joined by ": ", either one alone
   *  when the other is empty. */
  function ErrorToString(e: JsError): (r: string)
    ensures e.message == "" ==> r == e.name
    ensures e.name == "" ==> r == e.message
    ensures e.name != "" && e.message != "" ==> r == e.name + ": " + e.message
  {
    if e.message == "" then e.name else if e.name == "" then e.message else e.name + ": " + e.message
  }

  /** `new DOMException('Aborted', 'AbortError')` */
  const AbortErr := JsError("AbortError", "Aborted")
  const MissingKey := JsError("Error", "API Key not found")

  /** The optional arguments of `fetchRestaurants`; `None` takes the parameter's default. */
  datatype FetchArgs = FetchArgs(
    location: string,
    keywords: string,
    radius: Option<string>,
    limit: Option<int>,
    model: Option<string>,
    language: Option<string>,
    excludeNames: Option<seq<string>>)

  const LegacyDefaultModel := "gemini-3-pro-preview"

  /** The call the service makes: model, prompt and temperature. */
  datatype ModelCall = ModelCall(model: string, prompt: string, temperature: real)

  /** What the model call does: it answers with a (possibly absent) text, or throws. */
  datatype CallOutcome = Answered(text: Option<string>) | Threw(error: JsError)

  /** What `JSON.parse` makes of the response text. An array element is `None` when it is
   *  `null`, the one value on which reading `item.name` throws; any other element is read as an
   *  object (a number, string or boolean one with every property missing). */
  datatype Parsed = ParseError | NotArray | Items(items: seq<Option<RawItem>>)

  /** The `TypeError` the `map` callback throws when it reads `item.name` of a `null` element
   *  (the message as Chromium words it, kept in short pieces for the proofs below). */
  const NullReadMessage := "Cannot read " + "properties " + "of null " + "(reading 'name')"
  const NullRead := JsError("TypeError", NullReadMessage)

  /** Every element of the parsed array is an object the callback can read. */
  predicate AllObjects(items: seq<Option<RawItem>>) {
    forall k :: 0 <= k < |items| ==> items[k].Some?
  }

  /** The elements of an array that holds no `null`. */
  function Objects(items: seq<Option<RawItem>>): (r: seq<RawItem>)
    requires AllObjects(items)
    ensures |r| == |items|
    ensures forall k :: 0 <= k < |items| ==> items[k] == Some(r[k])
  {
    seq(|items|, k requires 0 <= k < |items| => items[k].value)
  }

  /** The generic message in the UI language. */
  function ConnectionError(language: string): string {
    if language == "en" then "Connection error." else "連線發生錯誤，請稍後再試。"
  }

  /** How the returned promise settles. */
  datatype FetchOutcome = Resolved(restaurants: seq<Restaurant>) | Rejected(error: JsError)

  /** `langMap[language]`; this copy has no fallback, so an unknown language reads "undefined". */
  function LegacyTargetLanguage(language: string): (r: string)
    ensures language in Languages ==> r == TargetLanguage(language)
    ensures language !in Languages ==> r == "undefined"
  {
    if language == "zh-TW" then "Traditional Chinese (繁體中文)"
    else if language == "en" then "English"
    else if language == "ja" then "Japanese (日本語)"
    else "undefined"
  }

  /** The fixed text of the template literal `prompt`, between its interpolations. */
  const LegacyTaskOpen := "\n    Task: Find exactly "
  const LegacyTaskClose := "\".\n    "
  const LegacyConstraintsLanguage := "\n    \n    Constraints:\n    1. Language: Output ONLY in "
  const LegacyConstraintsSort := ".\n    2. Sort Order: Sort strictly by Recommendation Strength (Highest Rating + Best Keyword Match) DESCENDING.\n    3. "
  const LegacyConstraintsCoordinates := "\n    4. Ensure coordinates (lat/lng) are accurate for the specific restaurant.\n  "

  const LegacyPromptFixed: seq<string> := [
    LegacyTaskOpen, TaskNear, TaskMatching, LegacyTaskClose, LegacyConstraintsLanguage,
    LegacyConstraintsSort, LegacyConstraintsCoordinates ]

  /** The values interpolated into `prompt`, in order. */
  function LegacyPromptValues(location: string, keywords: string, radius: string, limit: int, language: string, excludeNames: seq<string>): seq<string> {
    [ IntToString(limit), location, FinalKeywords(Some(keywords), language), ExcludeInstruction(excludeNames),
      LegacyTargetLanguage(language), RadiusConstraint(radius) ]
  }

  /** The template literal `prompt`: the server prompt's sentences with four-space indentation
   *  and no personal-preferences clause. */
  function LegacyPrompt(location: string, keywords: string, radius: string, limit: int, language: string, excludeNames: seq<string>): string {
    Template(LegacyPromptFixed, LegacyPromptValues(location, keywords, radius, limit, language, excludeNames))
  }

  /** The legacy prompt embeds the limit, the location, the final keywords, the exclusion
   *  sentence and every name it lists, the language label and the radius sentence. */
  lemma LegacyPromptMentions(location: string, keywords: string, radius: string, limit: int, language: string, excludeNames: seq<string>)
    ensures var p := LegacyPrompt(location, keywords, radius, limit, language, excludeNames);
      && Contains(p, IntToString(limit)) && Contains(p, location)
      && Contains(p, FinalKeywords(Some(keywords), language))
      && Contains(p, ExcludeInstruction(excludeNames))
      && Contains(p, LegacyTargetLanguage(language))
      && Contains(p, RadiusConstraint(radius))
      && forall k :: 0 <= k < |excludeNames| ==> Contains(p, excludeNames[k])
  {
    var values := LegacyPromptValues(location, keywords, radius, limit, language, excludeNames);
    TemplateHasValue(LegacyPromptFixed, values, 0);
    TemplateHasValue(LegacyPromptFixed, values, 1);
    TemplateHasValue(LegacyPromptFixed, values, 2);
    TemplateHasValue(LegacyPromptFixed, values, 3);
    TemplateHasValue(LegacyPromptFixed, values, 4);
    TemplateHasValue(LegacyPromptFixed, values, 5);
    var p := LegacyPrompt(location, keywords, radius, limit, language, excludeNames);
    forall k | 0 <= k < |excludeNames| ensures Contains(p, excludeNames[k]) {
      ExcludeInstructionNamesAll(excludeNames, k);
      ContainsTransitive(p, ExcludeInstruction(excludeNames), excludeNames[k]);
    }
  }

  /** The user-facing message for a failed call whose `toString()` is `errorStr`: checked in
   *  order overload, rate limit, API key, and otherwise a generic message in the UI language. */
  function ClassifyError(errorStr: string, language: string): (r: string)
    ensures Contains(errorStr, "503") || Contains(errorStr, "Overloaded") ==> r == "Model Overloaded (503)"
    ensures !Contains(errorStr, "503") && !Contains(errorStr, "Overloaded") && Contains(errorStr, "429") ==>
      r == "Rate Limit Exceeded (429)"
    ensures (!Contains(errorStr, "503") && !Contains(errorStr, "Overloaded") && !Contains(errorStr, "429")
             && Contains(errorStr, "API Key")) ==> r == "Invalid API Key"
    ensures (!Contains(errorStr, "503") && !Contains(errorStr, "Overloaded") && !Contains(errorStr, "429")
             && !Contains(errorStr, "API Key")) ==> r == (if language == "en" then "Connection error." else "連線發生錯誤，請稍後再試。")
  {
    if Contains(errorStr, "503") || Contains(errorStr, "Overloaded") then "Model Overloaded (503)"
    else if Contains(errorStr, "429") then "Rate Limit Exceeded (429)"
    else if Contains(errorStr, "API Key") then "Invalid API Key"
    else if language == "en" then "Connection error." else "連線發生錯誤，請稍後再試。"
  }

  /** The message is one of five fixed texts, and the generic one is used exactly when no
   *  known marker occurs. */
  lemma ClassifyErrorGenericIff(errorStr: string, language: string)
    ensures var r := ClassifyError(errorStr, language);
      (r == "Connection error." || r == "連線發生錯誤，請稍後再試。") <==>
        !Contains(errorStr, "503") && !Contains(errorStr, "Overloaded") && !Contains(errorStr, "429") && !Contains(errorStr, "API Key")
  {
  }

  /** A `null` element becomes the generic message: the `TypeError` text carries none of the
   *  markers the classification looks for. */
  lemma NullReadIsGeneric(language: string)
    ensures ClassifyError(ErrorToString(NullRead), language) == ConnectionError(language)
  {
    var e := ErrorToString(NullRead);
    assert e == "TypeError: " + NullReadMessage;
    NullReadLacks('5');
    LacksFirstChar(e, "503");
    NullReadLacks('O');
    LacksFirstChar(e, "Overloaded");
    NullReadLacks('4');
    LacksFirstChar(e, "429");
    NullReadLacks('A');
    LacksFirstChar(e, "API Key");
  }

  /** A character the `TypeError` text is not built from: it uses lower-case letters, `T`, `E`,
   *  `C`, the colon, the space, parentheses and the apostrophe only. */
  predicate OutsideNullRead(c: char) {
    && !('a' <= c <= 'z') && c != 'T' && c != 'E' && c != 'C'
    && c != ':' && c != ' ' && c != '(' && c != ')' && c != '\''
  }

  /** Such a character does not occur in the `TypeError` text. */
  lemma NullReadLacks(c: char)
    requires OutsideNullRead(c)
    ensures c !in "TypeError: " + NullReadMessage
  {
  }

  /** An overload marker wins over every other marker in the same text. */
  lemma ClassifyOverloadFirst(a: string, b: string, language: string)
    ensures ClassifyError(a + "503" + b, language) == "Model Overloaded (503)"
  {
    ContainsMiddle(a, "503", b);
  }

  /** The `errorMessage` if-chain of the catch block, with its reassignments. */
  method ErrorMessage(errorStr: string, language: string) returns (errorMessage: string)
    ensures errorMessage == ClassifyError(errorStr, language)
  {
    errorMessage := if language == "en" then "Connection error." else "連線發生錯誤，請稍後再試。";
    if Contains(errorStr, "503") || Contains(errorStr, "Overloaded") {
      errorMessage := "Model Overloaded (503)";
    } else if Contains(errorStr, "429") {
      errorMessage := "Rate Limit Exceeded (429)";
    } else if Contains(errorStr, "API Key") {
      errorMessage := "Invalid API Key";
    }
  }

  /** `error.name === 'AbortError' || error.message === 'Aborted'` */
  predicate IsAbort(e: JsError) {
    e.name == "AbortError" || e.message == "Aborted"
  }

  /** The part of the `try` block after the model answered: the JSON guard and the `map` over
   *  the items. `Rejected` carries the error the block throws. */
  method ReadAnswer(text: Option<string>, parse: string -> Parsed, ids: nat -> string, location: string, language: string)
    returns (out: FetchOutcome)
    ensures match parse(OrString(text, "[]"))
      case Items(items) =>
        if AllObjects(items) then out == Resolved(NormaliseAll(Objects(items), ids, location, language))
        else out == Rejected(NullRead)
      case _ => out == Resolved([])
  {
    var jsonStr := OrString(text, "[]");
    var rawData := parse(jsonStr);
    if !rawData.Items? {
      return Resolved([]);
    }
    if AllObjects(rawData.items) {
      return Resolved(NormaliseAll(Objects(rawData.items), ids, location, language));
    }
    // reading `item.name` of a `null` element throws
    out := Rejected(NullRead);
  }

  /** `fetchRestaurants`. `apiKey` is `process.env.API_KEY`; `abortedBefore` and `abortedAfter`
   *  are `signal?.aborted` before and after the model call; `call` is the model, `parse` is
   *  `JSON.parse` and `ids(i)` the random id of the i-th item. */
  method FetchRestaurants(args: FetchArgs, apiKey: Option<string>, abortedBefore: bool, abortedAfter: bool,
                          call: ModelCall -> CallOutcome, parse: string -> Parsed, ids: nat -> string)
    returns (out: FetchOutcome)
    ensures apiKey.None? || apiKey.value == "" ==> out == Rejected(MissingKey)
    ensures apiKey.Some? && apiKey.value != "" && abortedBefore ==> out == Rejected(AbortErr)
    ensures apiKey.Some? && apiKey.value != "" && !abortedBefore ==>
      var language := args.language.GetOr("zh-TW");
      var prompt := LegacyPrompt(args.location, args.keywords, args.radius.GetOr("1km"), args.limit.GetOr(6),
                                 language, args.excludeNames.GetOr([]));
      match call(ModelCall(args.model.GetOr(LegacyDefaultModel), prompt, 0.2))
      case Threw(e) =>
        out == (if IsAbort(e) then Rejected(e) else Rejected(JsError("Error", ClassifyError(ErrorToString(e), language))))
      case Answered(text) =>
        if abortedAfter then out == Rejected(AbortErr)
        else match parse(OrString(text, "[]"))
          case Items(items) =>
            if AllObjects(items) then out == Resolved(NormaliseAll(Objects(items), ids, args.location, language))
            else out == Rejected(JsError("Error", ConnectionError(language)))
          case _ => out == Resolved([])
  {
    if apiKey.None? || apiKey.value == "" {
      return Rejected(MissingKey);
    }
    var radius := args.radius.GetOr("1km");
    var limit := args.limit.GetOr(6);
    var model := args.model.GetOr(LegacyDefaultModel);
    var language := args.language.GetOr("zh-TW");
    var excludeNames := args.excludeNames.GetOr([]);
    var prompt := LegacyPrompt(args.location, args.keywords, radius, limit, language, excludeNames);
    if abortedBefore {
      return Rejected(AbortErr);
    }
    var error: JsError;
    var response := call(ModelCall(model, prompt, 0.2));
    if response.Threw? {
      error := response.error;
    } else if abortedAfter {
      error := AbortErr;
    } else {
      var read := ReadAnswer(response.text, parse, ids, args.location, language);
      if read.Resolved? {
        return read;
      }
      error := read.error;
    }
    if error == NullRead {
      NullReadIsGeneric(language);
    }
    out := Catch(error, language);
  }

  /** The `catch` block: an abort is rethrown as it is, any other error is replaced by an
   *  `Error` carrying the classified message. */
  method Catch(error: JsError, language: string) returns (out: FetchOutcome)
    ensures IsAbort(error) ==> out == Rejected(error)
    ensures !IsAbort(error) ==> out == Rejected(JsError("Error", ClassifyError(ErrorToString(error), language)))
  {
    if IsAbort(error) {
      return Rejected(error);
    }
    var errorMessage := ErrorMessage(ErrorToString(error), language);
    out := Rejected(JsError("Error", errorMessage));
  }
}
