/**
 * The preference editing of the settings screen (client/components/SettingsView.tsx): the
 * legacy unwrap of loaded preferences, `updateField`, the blacklist, rating submission, the
 * ordering of the rated list and the colour band of a rating.
 */
module Settings {
  import opened Wrappers
  import opened Text
  import UserRoutes

  /** One rated restaurant (`RestaurantRating`). */
  datatype Rating = Rating(restaurantId: string, name: string, rating: real, comment: Option<string>, timestamp: int)

  /** A restaurant visited but not yet rated. */
  datatype Pending = Pending(id: string, name: string, timestamp: int)

  /** `UserPreferences`; every field is optional. */
  datatype Prefs = Prefs(
    language: Option<string>,
    defaultModel: Option<string>,
    blacklist: Option<seq<string>>,
    ratings: Option<map<string, Rating>>,
    pendingReviews: Option<seq<Pending>>,
    devMode: Option<bool>)

  const NoPrefs := Prefs(None, None, None, None, None, None)

  /** A call `updateField(field, value)`: the field named and its new value. */
  datatype Edit =
    | SetLanguage(language: string)
    | SetDefaultModel(model: string)
    | SetBlacklist(blacklist: seq<string>)
    | SetRatings(ratings: map<string, Rating>)
    | SetPendingReviews(pending: seq<Pending>)
    | SetDevMode(devMode: bool)

  /** The preference fields an edit can name (`keyof UserPreferences`). */
  datatype Field = LanguageField | DefaultModelField | BlacklistField | RatingsField | PendingReviewsField | DevModeField

  function FieldOf(edit: Edit): Field {
    match edit
    case SetLanguage(_) => LanguageField
    case SetDefaultModel(_) => DefaultModelField
    case SetBlacklist(_) => BlacklistField
    case SetRatings(_) => RatingsField
    case SetPendingReviews(_) => PendingReviewsField
    case SetDevMode(_) => DevModeField
  }

  /** `{ ...prefs, [field]: value }` */
  function Apply(prefs: Prefs, edit: Edit): Prefs {
    match edit
    case SetLanguage(v) => prefs.(language := Some(v))
    case SetDefaultModel(v) => prefs.(defaultModel := Some(v))
    case SetBlacklist(v) => prefs.(blacklist := Some(v))
    case SetRatings(v) => prefs.(ratings := Some(v))
    case SetPendingReviews(v) => prefs.(pendingReviews := Some(v))
    case SetDevMode(v) => prefs.(devMode := Some(v))
  }

  /** An edit changes only the field it names: every field the edit does not name keeps its
   *  value, and the named field is set. */
  lemma ApplyOnlyNamedField(prefs: Prefs, edit: Edit)
    ensures var r := Apply(prefs, edit);
      && (FieldOf(edit) != LanguageField ==> r.language == prefs.language)
      && (FieldOf(edit) != DefaultModelField ==> r.defaultModel == prefs.defaultModel)
      && (FieldOf(edit) != BlacklistField ==> r.blacklist == prefs.blacklist)
      && (FieldOf(edit) != RatingsField ==> r.ratings == prefs.ratings)
      && (FieldOf(edit) != PendingReviewsField ==> r.pendingReviews == prefs.pendingReviews)
      && (FieldOf(edit) != DevModeField ==> r.devMode == prefs.devMode)
      && Apply(r, edit) == r
  {
  }

  /** Editing one field twice keeps only the second value. */
  lemma ApplyLastWins(prefs: Prefs, first: Edit, second: Edit)
    requires FieldOf(first) == FieldOf(second)
    ensures Apply(Apply(prefs, first), second) == Apply(prefs, second)
  {
  }

  /** Edits of different fields can be made in either order. */
  lemma ApplyCommutes(prefs: Prefs, first: Edit, second: Edit)
    requires FieldOf(first) != FieldOf(second)
    ensures Apply(Apply(prefs, first), second) == Apply(Apply(prefs, second), first)
  {
  }

  /** What loading keeps of a stored user document: its `preferences`, or the `preferences`
   *  nested inside that when a legacy write double-nested them; `None` leaves the screen's
   *  preferences empty. */
  function Unwrap(data: UserRoutes.Doc): (r: Option<UserRoutes.Value>)
    ensures r.Some? <==> "preferences" in data && UserRoutes.Truthy(data["preferences"])
  {
    if "preferences" in data && UserRoutes.Truthy(data["preferences"]) then
      var outer := data["preferences"];
      if outer.MapVal? && "preferences" in outer.fields && UserRoutes.Truthy(outer.fields["preferences"])
      then Some(outer.fields["preferences"])
      else Some(outer)
    else None
  }

  /** Whatever else the stored document and the outer preferences object hold, a document
   *  written once (`{ preferences }`) and one written with the legacy double nesting
   *  (`{ preferences: { preferences } }`) load the same preferences. */
  lemma UnwrapUndoesNesting(rest: UserRoutes.Doc, outer: UserRoutes.Doc, p: UserRoutes.Doc)
    requires !("preferences" in p && UserRoutes.Truthy(p["preferences"]))
    ensures Unwrap(rest["preferences" := UserRoutes.MapVal(p)]) == Some(UserRoutes.MapVal(p))
    ensures Unwrap(rest["preferences" := UserRoutes.MapVal(outer["preferences" := UserRoutes.MapVal(p)])]) == Some(UserRoutes.MapVal(p))
  {
  }

  predicate Distinct(xs: seq<string>) {
    forall i, j :: 0 <= i < j < |xs| ==> xs[i] != xs[j]
  }

  /** A blacklist as the screen keeps it: trimmed, non-empty, distinct entries. */
  predicate TidyBlacklist(xs: seq<string>) {
    Distinct(xs) && forall i :: 0 <= i < |xs| ==> xs[i] != "" && Trim(xs[i]) == xs[i]
  }

  /** The new blacklist after adding `input`, or `None` when nothing is saved: the trimmed entry
   *  is appended only when it is non-empty and not yet listed. */
  function AddedBlacklist(current: seq<string>, input: string): (r: Option<seq<string>>)
    ensures r.Some? <==> Trim(input) != "" && Trim(input) !in current
    ensures r.Some? ==> r.value == current + [Trim(input)]
  {
    var entry := Trim(input);
    if entry == "" || entry in current then None else Some(current + [entry])
  }

  lemma TidyAppend(current: seq<string>, entry: string)
    requires TidyBlacklist(current) && entry != "" && Trim(entry) == entry && entry !in current
    ensures TidyBlacklist(current + [entry])
  {
    var next := current + [entry];
    forall i | 0 <= i < |next|
      ensures next[i] != "" && Trim(next[i]) == next[i]
    {
      if i < |current| {
        assert next[i] == current[i];
      }
    }
    forall i, j | 0 <= i < j < |next|
      ensures next[i] != next[j]
    {
      assert next[i] == current[i];
      if j == |current| {
        assert next[i] in current;
      }
    }
  }

  /** Adding keeps a tidy blacklist tidy. */
  lemma AddKeepsTidy(current: seq<string>, input: string)
    requires TidyBlacklist(current)
    ensures AddedBlacklist(current, input).Some? ==> TidyBlacklist(AddedBlacklist(current, input).value)
  {
    var entry := Trim(input);
    if entry != "" && entry !in current {
      TrimIdempotent(input);
      TidyAppend(current, entry);
    }
  }

  /** `current.filter(i => i !== item)` */
  function Without(xs: seq<string>, item: string): (r: seq<string>)
    ensures forall x :: x in r <==> x in xs && x != item
    ensures |r| <= |xs|
  {
    if xs == [] then []
    else if xs[0] == item then Without(xs[1..], item)
    else [xs[0]] + Without(xs[1..], item)
  }

  /** Removal keeps the remaining entries in their order: it distributes over concatenation. */
  lemma {:induction false} WithoutConcat(xs: seq<string>, ys: seq<string>, item: string)
    ensures Without(xs + ys, item) == Without(xs, item) + Without(ys, item)
  {
    if xs == [] {
      assert xs + ys == ys;
    } else {
      assert (xs + ys)[0] == xs[0] && (xs + ys)[1..] == xs[1..] + ys;
      WithoutConcat(xs[1..], ys, item);
      if xs[0] != item {
        assert [xs[0]] + (Without(xs[1..], item) + Without(ys, item)) == ([xs[0]] + Without(xs[1..], item)) + Without(ys, item);
      }
    }
  }

  /** Removing an entry that is not listed changes nothing. */
  lemma {:induction false} WithoutAbsent(xs: seq<string>, item: string)
    requires item !in xs
    ensures Without(xs, item) == xs
  {
    if xs != [] {
      WithoutAbsent(xs[1..], item);
    }
  }

  /** Removing an entry just added gives back the blacklist before the addition. */
  lemma RemoveUndoesAdd(current: seq<string>, input: string)
    requires AddedBlacklist(current, input).Some?
    ensures Without(AddedBlacklist(current, input).value, Trim(input)) == current
  {
    var entry := Trim(input);
    WithoutConcat(current, [entry], entry);
    WithoutAbsent(current, entry);
  }

  /** `currentPending.filter(item => item.id !== id)` */
  function PendingWithout(ps: seq<Pending>, id: string): (r: seq<Pending>)
    ensures forall p :: p in r <==> p in ps && p.id != id
    ensures |r| <= |ps|
  {
    if ps == [] then []
    else if ps[0].id == id then PendingWithout(ps[1..], id)
    else [ps[0]] + PendingWithout(ps[1..], id)
  }

  /** The filter keeps the other entries in their order. */
  lemma {:induction false} PendingWithoutConcat(xs: seq<Pending>, ys: seq<Pending>, id: string)
    ensures PendingWithout(xs + ys, id) == PendingWithout(xs, id) + PendingWithout(ys, id)
  {
    if xs == [] {
      assert xs + ys == ys;
    } else {
      assert (xs + ys)[0] == xs[0] && (xs + ys)[1..] == xs[1..] + ys;
      PendingWithoutConcat(xs[1..], ys, id);
      if xs[0].id != id {
        assert [xs[0]] + (PendingWithout(xs[1..], id) + PendingWithout(ys, id)) == ([xs[0]] + PendingWithout(xs[1..], id)) + PendingWithout(ys, id);
      }
    }
  }

  /** The preferences after rating the target `(id, name)`: the rating is stored under `id`
   *  (replacing any earlier one, without a comment), every other rating is kept, every pending
   *  entry for `id` is dropped and the other fields are unchanged. */
  function Rated(prefs: Prefs, id: string, name: string, rating: real, timestamp: int): (r: Prefs)
    ensures r.ratings.Some? && r.pendingReviews.Some?
    ensures r.ratings.value.Keys == prefs.ratings.GetOr(map[]).Keys + {id}
    ensures r.ratings.value[id] == Rating(id, name, rating, None, timestamp)
    ensures forall k :: k in prefs.ratings.GetOr(map[]) && k != id ==> r.ratings.value[k] == prefs.ratings.GetOr(map[])[k]
    ensures forall p :: p in r.pendingReviews.value <==> p in prefs.pendingReviews.GetOr([]) && p.id != id
    ensures r == prefs.(ratings := r.ratings, pendingReviews := r.pendingReviews)
  {
    var newRatings := prefs.ratings.GetOr(map[])[id := Rating(id, name, rating, None, timestamp)];
    var newPending := PendingWithout(prefs.pendingReviews.GetOr([]), id);
    prefs.(ratings := Some(newRatings), pendingReviews := Some(newPending))
  }

  /** Rated lists are shown newest first. */
  predicate NewestFirst(rs: seq<Rating>) {
    forall i, j :: 0 <= i < j < |rs| ==> rs[i].timestamp >= rs[j].timestamp
  }

  /** Puts `r` before the first entry that is not newer than it. */
  function InsertByTime(r: Rating, sorted: seq<Rating>): (s: seq<Rating>)
    requires NewestFirst(sorted)
    ensures NewestFirst(s)
    ensures multiset(s) == multiset(sorted) + multiset{r}
    ensures forall x :: x in s ==> x == r || x in sorted
    decreases |sorted|
  {
    if sorted == [] || sorted[0].timestamp <= r.timestamp then
      InsertFront(r, sorted);
      [r] + sorted
    else
      var tail := InsertByTime(r, sorted[1..]);
      InsertStep(r, sorted, tail);
      [sorted[0]] + tail
  }

  /** An entry at least as new as the first of a newest-first list can go in front. */
  lemma InsertFront(r: Rating, sorted: seq<Rating>)
    requires NewestFirst(sorted)
    requires sorted == [] || sorted[0].timestamp <= r.timestamp
    ensures NewestFirst([r] + sorted)
    ensures multiset([r] + sorted) == multiset(sorted) + multiset{r}
  {
    forall x | x in sorted ensures x.timestamp <= r.timestamp {
      var i :| 0 <= i < |sorted| && sorted[i] == x;
      if i > 0 {
        assert sorted[0].timestamp >= sorted[i].timestamp;
      }
    }
    PrependNewest(r, sorted);
  }

  /** The recursive step of `InsertByTime`: the old head stays in front of the insertion into
   *  the rest. */
  lemma InsertStep(r: Rating, sorted: seq<Rating>, tail: seq<Rating>)
    requires NewestFirst(sorted) && sorted != [] && r.timestamp < sorted[0].timestamp
    requires NewestFirst(tail) && multiset(tail) == multiset(sorted[1..]) + multiset{r}
    requires forall x :: x in tail ==> x == r || x in sorted[1..]
    ensures NewestFirst([sorted[0]] + tail)
    ensures multiset([sorted[0]] + tail) == multiset(sorted) + multiset{r}
    ensures forall x :: x in [sorted[0]] + tail ==> x == r || x in sorted
  {
    var head := sorted[0];
    var rest := sorted[1..];
    assert sorted == [head] + rest;
    forall x | x in tail ensures x.timestamp <= head.timestamp {
      if x != r {
        var i :| 0 <= i < |rest| && rest[i] == x;
        assert sorted[i + 1] == x;
      }
    }
    PrependNewest(head, tail);
    assert multiset([head] + tail) == multiset{head} + multiset(tail);
  }

  /** An entry at least as new as every entry of a newest-first list can go in front. */
  lemma PrependNewest(head: Rating, tail: seq<Rating>)
    requires NewestFirst(tail)
    requires forall x :: x in tail ==> x.timestamp <= head.timestamp
    ensures NewestFirst([head] + tail)
  {
    var s := [head] + tail;
    forall i, j | 0 <= i < j < |s| ensures s[i].timestamp >= s[j].timestamp {
      assert s[j] == tail[j - 1];
      if i > 0 {
        assert s[i] == tail[i - 1];
      } else {
        assert tail[j - 1] in tail;
      }
    }
  }

  /** `.sort((a, b) => b.timestamp - a.timestamp)`: the same ratings, newest first. */
  function SortNewestFirst(rs: seq<Rating>): (s: seq<Rating>)
    ensures NewestFirst(s)
    ensures multiset(s) == multiset(rs)
    ensures |s| == |rs|
  {
    if rs == [] then []
    else
      assert rs == [rs[0]] + rs[1..];
      InsertByTime(rs[0], SortNewestFirst(rs[1..]))
  }

  /** The background of a rating's badge. */
  datatype Badge = Green | Red | Grey

  function BadgeFor(rating: real): (b: Badge)
    ensures b == Green <==> rating >= 4.0
    ensures b == Red <==> rating <= 2.0
    ensures b == Grey <==> 2.0 < rating < 4.0
  {
    if rating >= 4.0 then Green else if rating <= 2.0 then Red else Grey
  }

  /** The state of the settings screen that its handlers change. `saved` lists, in order, the
   *  preferences posted by each `handleSave`. */
  class SettingsScreen {
    var prefs: Prefs
    var newBlacklist: string
    var ratingTarget: Option<(string, string)>
    var saved: seq<Prefs>

    constructor ()
      ensures prefs == NoPrefs && newBlacklist == "" && ratingTarget.None? && saved == []
    {
      prefs := NoPrefs;
      newBlacklist := "";
      ratingTarget := None;
      saved := [];
    }

    /** `handleSave`: the screen shows the new preferences at once and posts them; a failed
     *  post is only logged. */
    method HandleSave(newPrefs: Prefs)
      modifies this
      ensures prefs == newPrefs && saved == old(saved) + [newPrefs]
      ensures newBlacklist == old(newBlacklist) && ratingTarget == old(ratingTarget)
    {
      prefs := newPrefs;
      saved := saved + [newPrefs];
    }

    method UpdateField(edit: Edit)
      modifies this
      ensures prefs == Apply(old(prefs), edit) && saved == old(saved) + [prefs]
      ensures newBlacklist == old(newBlacklist) && ratingTarget == old(ratingTarget)
    {
      var updated := Apply(prefs, edit);
      HandleSave(updated);
    }

    /** `handleAddBlacklist`: blank input returns early; otherwise the entry is added when new
     *  and the input box is cleared either way. */
    method HandleAddBlacklist()
      modifies this
      ensures Trim(old(newBlacklist)) == "" ==>
        prefs == old(prefs) && saved == old(saved) && newBlacklist == old(newBlacklist)
      ensures Trim(old(newBlacklist)) != "" ==> newBlacklist == ""
      ensures var added := AddedBlacklist(old(prefs).blacklist.GetOr([]), old(newBlacklist));
        && (added.None? ==> prefs == old(prefs) && saved == old(saved))
        && (added.Some? ==> prefs == old(prefs).(blacklist := added) && saved == old(saved) + [prefs])
      ensures ratingTarget == old(ratingTarget)
    {
      if Trim(newBlacklist) == "" {
        return;
      }
      var current := prefs.blacklist.GetOr([]);
      if Trim(newBlacklist) !in current {
        UpdateField(SetBlacklist(current + [Trim(newBlacklist)]));
      }
      newBlacklist := "";
    }

    method RemoveBlacklist(item: string)
      modifies this
      ensures prefs == old(prefs).(blacklist := Some(Without(old(prefs).blacklist.GetOr([]), item)))
      ensures saved == old(saved) + [prefs]
      ensures newBlacklist == old(newBlacklist) && ratingTarget == old(ratingTarget)
    {
      var current := prefs.blacklist.GetOr([]);
      UpdateField(SetBlacklist(Without(current, item)));
    }

    /** `submitRating`, with `now` for `Date.now()`. Without a target it does nothing. */
    method SubmitRating(rating: real, now: int)
      modifies this
      ensures old(ratingTarget).None? ==>
        prefs == old(prefs) && saved == old(saved) && ratingTarget == old(ratingTarget)
      ensures old(ratingTarget).Some? ==>
        && prefs == Rated(old(prefs), old(ratingTarget).value.0, old(ratingTarget).value.1, rating, now)
        && saved == old(saved) + [prefs]
        && ratingTarget.None?
      ensures newBlacklist == old(newBlacklist)
    {
      if ratingTarget.None? {
        return;
      }
      var (id, name) := ratingTarget.value;
      var updated := Rated(prefs, id, name, rating, now);
      HandleSave(updated);
      ratingTarget := None;
    }
  }
}
