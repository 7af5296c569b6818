/**
 * The Restaurant record and the normalisation of one raw model-generated item into it, with
 * the localised price-level table. The server route (server/src/routes/aiRoutes.ts) and the
 * legacy browser service (services/geminiService.ts) carry identical copies of this code; the
 * model defines it once and both callers use it.
 */
module Restaurants {
  import opened Wrappers

  /** One recommendation, as the client displays it. */
  datatype Restaurant = Restaurant(
    id: string,
    name: string,
    address: string,
    rating: real,
    priceLevel: string,
    tags: seq<string>,
    description: string,
    recommendedDishes: seq<string>,
    distance: string,
    isOpen: bool,
    lat: real,
    lng: real)

  /** One element of the array the model returned, before normalisation. `None` stands for a
   *  property that is missing, `null`, or of another type than the one the schema names; a
   *  truthy value of another type (a number or an object where a string is expected) is
   *  collapsed into `None` as well. */
  datatype RawItem = RawItem(
    name: Option<string>,
    address: Option<string>,
    rating: Option<real>,
    priceLevel: Option<string>,
    tags: Option<seq<string>>,
    description: Option<string>,
    recommendedDishes: Option<seq<string>>,
    isOpen: Option<bool>,
    lat: Option<real>,
    lng: Option<real>)

  /** The coordinate used when an item has none (or a zero one): central Taipei. */
  const FallbackLat: real := 25.0330
  const FallbackLng: real := 121.5654
  const DefaultRating: real := 4.0
  const MaxTags: nat := 3

  /** The raw price symbols the schema asks the model for. */
  const PriceSymbols: seq<string> := ["$", "$$", "$$$", "$$$$", "-"]

  /** `a || b` on an optional string: a non-empty string `a` is kept, and an absent or empty one
   *  gives `b`. A truthy value of another type, which JavaScript would also keep, is `None`
   *  here. */
  function OrString(a: Option<string>, b: string): string {
    if a.Some? && a.value != "" then a.value else b
  }

  /** `a || b` on an optional number: `0` is falsy and is replaced too. */
  function OrNumber(a: Option<real>, b: real): real {
    if a.Some? && a.value != 0.0 then a.value else b
  }

  /** The display string for each known symbol in language `lang`; every language other
   *  than 'en' and 'ja' reads the Traditional Chinese column. */
  function PriceTable(lang: string): (table: map<string, string>)
    ensures table.Keys == set s | s in PriceSymbols
  {
    map[
      "$" := if lang == "en" then "$ (Cheap)" else if lang == "ja" then "$ (安い)" else "$ (平價)",
      "$$" := if lang == "en" then "$$ (Moderate)" else if lang == "ja" then "$$ (普通)" else "$$ (稍貴)",
      "$$$" := if lang == "en" then "$$$ (Expensive)" else if lang == "ja" then "$$$ (高い)" else "$$$ (昂貴)",
      "$$$$" := if lang == "en" then "$$$$ (Very Expensive)" else if lang == "ja" then "$$$$ (高級)" else "$$$$ (天價)",
      "-" := "-"]
  }

  /** `formatPriceLevel(level, lang)`: the table entry for a known symbol, otherwise the
   *  entry for `$` (the table has no empty entries, so the final `|| '-'` is never reached). */
  function FormatPriceLevel(level: Option<string>, lang: string): (r: string)
    ensures level.Some? && level.value in PriceSymbols ==> r == PriceTable(lang)[level.value]
    ensures !(level.Some? && level.value in PriceSymbols) ==> r == PriceTable(lang)["$"]
  {
    var table := PriceTable(lang);
    if level.Some? && level.value in table && table[level.value] != "" then table[level.value]
    else if table["$"] != "" then table["$"]
    else "-"
  }

  /** A display price level starts with the raw symbol it was made from; an unknown symbol
   *  is shown as `$`. */
  lemma PriceLevelKeepsSymbol(level: Option<string>, lang: string)
    ensures var r := FormatPriceLevel(level, lang);
            if level.Some? && level.value in PriceSymbols then level.value <= r
            else "$ " <= r
  {
    var table := PriceTable(lang);
    if level.Some? && level.value in PriceSymbols {
      var v := level.value;
      assert v == "$" || v == "$$" || v == "$$$" || v == "$$$$" || v == "-";
      assert v <= table[v];
    } else {
      assert "$ " <= table["$"];
    }
  }

  /** The table depends on the language only through 'en', 'ja' and "anything else". */
  lemma PriceLevelLanguageFallback(level: Option<string>, lang: string)
    requires lang != "en" && lang != "ja"
    ensures FormatPriceLevel(level, lang) == FormatPriceLevel(level, "zh-TW")
  {
  }

  /** `'-'` is shown as `'-'` in every language. */
  lemma PriceLevelDash(lang: string)
    ensures FormatPriceLevel(Some("-"), lang) == "-"
  {
    assert "-" in PriceSymbols;
  }

  /** The object literal the route builds for each raw item. */
  function Normalise(item: RawItem, id: string, location: string, lang: string): (r: Restaurant)
    ensures r.id == id
    ensures r.name != "" && (item.name.Some? && item.name.value != "" ==> r.name == item.name.value)
    ensures item.name.None? || item.name == Some("") ==> r.name == "Unknown"
    ensures item.address.Some? && item.address.value != "" ==> r.address == item.address.value
    ensures !(item.address.Some? && item.address.value != "") ==> r.address == location
    ensures r.rating == if item.rating.Some? then item.rating.value else DefaultRating
    ensures r.priceLevel == FormatPriceLevel(item.priceLevel, lang)
    ensures |r.tags| <= MaxTags && r.tags <= item.tags.GetOr([])
    ensures item.tags.Some? && |item.tags.value| <= MaxTags ==> r.tags == item.tags.value
    ensures item.tags.Some? && |item.tags.value| > MaxTags ==> r.tags == item.tags.value[..MaxTags]
    ensures item.tags.None? ==> r.tags == []
    ensures r.recommendedDishes == item.recommendedDishes.GetOr([])
    ensures r.description == item.description.GetOr("")
    ensures r.distance == "nearby"
    ensures r.isOpen <==> item.isOpen != Some(false)
    ensures r.lat != 0.0 && r.lng != 0.0
    ensures item.lat.Some? && item.lat.value != 0.0 ==> r.lat == item.lat.value
    ensures item.lng.Some? && item.lng.value != 0.0 ==> r.lng == item.lng.value
    ensures !(item.lat.Some? && item.lat.value != 0.0) ==> r.lat == FallbackLat
    ensures !(item.lng.Some? && item.lng.value != 0.0) ==> r.lng == FallbackLng
  {
    Restaurant(
      id := id,
      name := OrString(item.name, "Unknown"),
      address := OrString(item.address, location),
      rating := if item.rating.Some? then item.rating.value else DefaultRating,
      priceLevel := FormatPriceLevel(item.priceLevel, lang),
      tags := if item.tags.Some? then (if |item.tags.value| <= MaxTags then item.tags.value else item.tags.value[..MaxTags]) else [],
      description := OrString(item.description, ""),
      recommendedDishes := item.recommendedDishes.GetOr([]),
      distance := "nearby",
      isOpen := item.isOpen != Some(false),
      lat := OrNumber(item.lat, FallbackLat),
      lng := OrNumber(item.lng, FallbackLng))
  }

  /** `rawRestaurants.map(...)`: ids come from `ids(i)` (a random string in the source; nothing
   *  makes them unique). */
  function NormaliseAll(items: seq<RawItem>, ids: nat -> string, location: string, lang: string): (rs: seq<Restaurant>)
    ensures |rs| == |items|
    ensures forall i :: 0 <= i < |items| ==> rs[i] == Normalise(items[i], ids(i), location, lang)
  {
    seq(|items|, i requires 0 <= i < |items| => Normalise(items[i], ids(i), location, lang))
  }

  /** The raw item a restaurant would have been generated from, given its raw price symbol. */
  function ToRaw(r: Restaurant, symbol: string): RawItem {
    RawItem(Some(r.name), Some(r.address), Some(r.rating), Some(symbol), Some(r.tags),
            Some(r.description), Some(r.recommendedDishes), Some(r.isOpen), Some(r.lat), Some(r.lng))
  }

  /** A restaurant is in normal form when normalisation would leave it as it is. */
  predicate WellFormed(r: Restaurant, symbol: string, lang: string) {
    && r.name != "" && r.address != "" && |r.tags| <= MaxTags
    && r.lat != 0.0 && r.lng != 0.0 && r.distance == "nearby"
    && r.priceLevel == FormatPriceLevel(Some(symbol), lang)
  }

  /** Normalisation is the identity on items that already satisfy the schema: it only fills
   *  in defaults. */
  lemma NormaliseRoundTrip(r: Restaurant, symbol: string, location: string, lang: string)
    requires WellFormed(r, symbol, lang)
    ensures Normalise(ToRaw(r, symbol), r.id, location, lang) == r
  {
  }
}
