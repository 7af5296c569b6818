/**
 * The behaviour of the result screen (client/components/ResultView.tsx): the visit check-in with
 * its pending-review deduplication, the random-mode carousel, the selected-card sync, the map
 * markers, and when the Next buttons are enabled.
 */
module ResultView {
  import opened Wrappers
  import opened Restaurants
  import opened Settings
  import App

  /** Some pending entry already has this id (`pending.some(p => p.id === id)`). */
  predicate HasPending(pending: seq<Pending>, id: string) {
    exists k :: 0 <= k < |pending| && pending[k].id == id
  }

  /** No two pending entries share an id. */
  predicate UniqueIds(pending: seq<Pending>) {
    forall i, j :: 0 <= i < j < |pending| ==> pending[i].id != pending[j].id
  }

  /** What a check-in shows the user. */
  datatype Notice = LogInFirst | Added | AlreadyPending | NoNotice

  /** `handleVisit(r)`: `loggedIn` is whether a user is signed in, `loaded` the preferences read
   *  back from the server (`None` when the read fails), `now` is `Date.now()` and `saved`
   *  whether the save that follows succeeds. `posted` is the preferences sent to be saved, if
   *  any; a failed save is only logged, so it shows no notice. */
  method HandleVisit(loggedIn: bool, loaded: Option<Prefs>, r: Restaurant, now: int, saved: bool)
    returns (posted: Option<Prefs>, notice: Notice)
    ensures !loggedIn ==> posted.None? && notice == LogInFirst
    ensures loggedIn && loaded.None? ==> posted.None? && notice == NoNotice
    ensures loggedIn && loaded.Some? && HasPending(loaded.value.pendingReviews.GetOr([]), r.id) ==>
      posted.None? && notice == AlreadyPending
    ensures loggedIn && loaded.Some? && !HasPending(loaded.value.pendingReviews.GetOr([]), r.id) ==>
      && posted == Some(loaded.value.(pendingReviews := Some(loaded.value.pendingReviews.GetOr([]) + [Pending(r.id, r.name, now)])))
      && notice == (if saved then Added else NoNotice)
  {
    if !loggedIn {
      return None, LogInFirst;
    }
    if loaded.None? {
      return None, NoNotice;
    }
    var prefs := loaded.value;
    var pending := prefs.pendingReviews.GetOr([]);
    var i := 0;
    var seen := false;
    while i < |pending|
      invariant 0 <= i <= |pending|
      invariant seen <==> exists k :: 0 <= k < i && pending[k].id == r.id
    {
      if pending[i].id == r.id {
        seen := true;
      }
      i := i + 1;
    }
    if seen {
      return None, AlreadyPending;
    }
    pending := pending + [Pending(r.id, r.name, now)];
    posted := Some(prefs.(pendingReviews := Some(pending)));
    if !saved {
      // the save rejects: the catch block only logs the error
      return posted, NoNotice;
    }
    notice := Added;
  }

  /** A check-in never puts a second entry for the same restaurant on the pending list. */
  lemma VisitKeepsIdsUnique(pending: seq<Pending>, r: Restaurant, now: int)
    requires UniqueIds(pending) && !HasPending(pending, r.id)
    ensures UniqueIds(pending + [Pending(r.id, r.name, now)])
  {
    var next := pending + [Pending(r.id, r.name, now)];
    forall i, j | 0 <= i < j < |next|
      ensures next[i].id != next[j].id
    {
      if j == |pending| {
        assert next[i] == pending[i];
        assert pending[i].id != r.id;
      } else {
        assert next[i] == pending[i] && next[j] == pending[j];
      }
    }
  }

  /** The random-mode card carousel. */
  class Carousel {
    var index: int

    predicate Valid()
      reads this
    {
      index >= 0
    }

    constructor ()
      ensures Valid() && index == 0
    {
      index := 0;
    }

    /** `handleCarouselNext` over `count` cards: step forward, or at the last card ask for
     *  more (`onNext`) and stay. */
    method Next(count: nat) returns (loadMore: bool)
      requires Valid()
      modifies this
      ensures Valid()
      ensures old(index) < count - 1 ==> index == old(index) + 1 && !loadMore
      ensures old(index) >= count - 1 ==> index == old(index) && loadMore
      ensures old(index) < count ==> index < count
    {
      if index < count - 1 {
        index := index + 1;
        loadMore := false;
      } else {
        loadMore := true;
      }
    }

    /** `handleCarouselPrev`: step back, never below the first card. */
    method Prev()
      requires Valid()
      modifies this
      ensures Valid()
      ensures old(index) > 0 ==> index == old(index) - 1
      ensures old(index) == 0 ==> index == 0
    {
      if index > 0 {
        index := index - 1;
      }
    }

    /** Clicking the pin of card `idx` in random mode jumps the carousel there. */
    method JumpTo(idx: nat)
      modifies this
      ensures Valid() && index == idx
    {
      index := idx;
    }
  }

  /** The selected id after the random-mode sync effect: the current card's id when that card
   *  exists, the previous selection otherwise. */
  function SyncSelected(isRandomMode: bool, restaurants: seq<Restaurant>, index: int, selected: Option<string>): (r: Option<string>)
    ensures isRandomMode && 0 <= index < |restaurants| ==> r == Some(restaurants[index].id)
    ensures !(isRandomMode && 0 <= index < |restaurants|) ==> r == selected
  {
    if isRandomMode && 0 <= index < |restaurants| then Some(restaurants[index].id) else selected
  }

  /** A restaurant's map pin, numbered by its list position + 1. */
  datatype Pin = RestaurantPin(number: nat, id: string, lat: real, lng: real, selected: bool)

  /** `r.lat && r.lng`: zero coordinates get no pin. */
  predicate HasCoordinates(r: Restaurant) {
    r.lat != 0.0 && r.lng != 0.0
  }

  /** The restaurant pins for a list, built from the front. */
  function RestaurantPins(rs: seq<Restaurant>, selectedId: Option<string>): seq<Pin>
    decreases |rs|
  {
    if rs == [] then []
    else
      var last := rs[|rs| - 1];
      RestaurantPins(rs[..|rs| - 1], selectedId)
        + (if HasCoordinates(last) then [RestaurantPin(|rs|, last.id, last.lat, last.lng, selectedId == Some(last.id))] else [])
  }

  /** Each pin stands for the restaurant it is numbered after, which has coordinates, and the
   *  pins are in list order. */
  predicate PinsFit(pins: seq<Pin>, rs: seq<Restaurant>, selectedId: Option<string>) {
    && (forall k :: 0 <= k < |pins| ==> PinFits(pins[k], rs, selectedId))
    && (forall k, l :: 0 <= k < l < |pins| ==> pins[k].number < pins[l].number)
  }

  /** One pin stands for the restaurant it is numbered after, which has coordinates. */
  predicate PinFits(pin: Pin, rs: seq<Restaurant>, selectedId: Option<string>) {
    && 1 <= pin.number <= |rs|
    && HasCoordinates(rs[pin.number - 1])
    && pin.id == rs[pin.number - 1].id
    && pin.lat == rs[pin.number - 1].lat && pin.lng == rs[pin.number - 1].lng
    && (pin.selected <==> selectedId == Some(pin.id))
  }

  lemma {:induction false} PinsSound(rs: seq<Restaurant>, selectedId: Option<string>)
    ensures PinsFit(RestaurantPins(rs, selectedId), rs, selectedId)
    decreases |rs|
  {
    if rs != [] {
      var front := rs[..|rs| - 1];
      PinsSound(front, selectedId);
      var before := RestaurantPins(front, selectedId);
      var pins := RestaurantPins(rs, selectedId);
      forall k | 0 <= k < |before| ensures PinFits(pins[k], rs, selectedId) {
        var n := before[k].number - 1;
        assert PinFits(before[k], front, selectedId);
        assert rs[n] == front[n];
        assert pins[k] == before[k];
      }
      assert forall k :: 0 <= k < |before| ==> pins[k] == before[k];
    }
  }

  /** Every restaurant with coordinates gets a pin. */
  lemma {:induction false} PinsComplete(rs: seq<Restaurant>, selectedId: Option<string>, i: nat)
    requires i < |rs| && HasCoordinates(rs[i])
    ensures exists k :: 0 <= k < |RestaurantPins(rs, selectedId)| && RestaurantPins(rs, selectedId)[k].number == i + 1
    decreases |rs|
  {
    var front := rs[..|rs| - 1];
    var pins := RestaurantPins(rs, selectedId);
    if i == |rs| - 1 {
      assert pins[|pins| - 1].number == i + 1;
    } else {
      PinsComplete(front, selectedId, i);
      var k :| 0 <= k < |RestaurantPins(front, selectedId)| && RestaurantPins(front, selectedId)[k].number == i + 1;
      assert pins[k] == RestaurantPins(front, selectedId)[k];
    }
  }

  /** The marker effect: `userPin` is the user's pin, which comes first in `markersRef` and is
   *  placed when both user coordinates are set; then one pin per restaurant with coordinates,
   *  in list order. */
  method BuildMarkers(restaurants: seq<Restaurant>, selectedId: Option<string>, userLat: real, userLng: real)
    returns (userPin: Option<(real, real)>, pins: seq<Pin>)
    ensures userPin == (if userLat != 0.0 && userLng != 0.0 then Some((userLat, userLng)) else None)
    ensures pins == RestaurantPins(restaurants, selectedId)
  {
    userPin := None;
    if userLat != 0.0 && userLng != 0.0 {
      userPin := Some((userLat, userLng));
    }
    pins := [];
    var idx := 0;
    while idx < |restaurants|
      invariant 0 <= idx <= |restaurants|
      invariant pins == RestaurantPins(restaurants[..idx], selectedId)
    {
      var r := restaurants[idx];
      assert restaurants[..idx + 1][..idx] == restaurants[..idx];
      if r.lat != 0.0 && r.lng != 0.0 {
        pins := pins + [RestaurantPin(idx + 1, r.id, r.lat, r.lng, selectedId == Some(r.id))];
      }
      idx := idx + 1;
    }
    assert restaurants[..idx] == restaurants;
  }

  /** The carousel's Next button is disabled while more results are on their way and the last
   *  card is showing. */
  function CarouselNextDisabled(isBackgroundFetching: bool, index: int, count: nat): bool {
    isBackgroundFetching && index >= count - 1
  }

  /** The list footer shows "no more results" in place of its Next button. */
  function ShowsNoMore(isExhausted: bool, isBackgroundFetching: bool): bool {
    isExhausted && !isBackgroundFetching
  }

  /** The footer's Next button waits while the second batch is loading, that is while fewer
   *  than fifteen but at least the first six are listed. */
  function FooterNextDisabled(isBackgroundFetching: bool, count: nat): bool {
    isBackgroundFetching && count >= 6 && count < 15
  }

  /** Once nothing is being fetched, no Next button is disabled; while fetching, the carousel's
   *  button is disabled exactly on the last card and the footer's exactly between six and
   *  fourteen restaurants. */
  lemma NextButtonsEnabled(index: int, count: nat)
    ensures !CarouselNextDisabled(false, index, count) && !FooterNextDisabled(false, count)
    ensures CarouselNextDisabled(true, index, count) <==> index >= count - 1
    ensures FooterNextDisabled(true, count) <==> 6 <= count <= 14
  {
  }

  /** The footer's extra `!isBackgroundFetching` test is redundant: "no more results" shows
   *  exactly when the page state is exhausted, that is when nothing is being fetched and every
   *  one of a non-empty list of restaurants has been shown. */
  lemma NoMoreIsExhausted(isBackgroundFetching: bool, all: seq<Restaurant>, shown: set<string>)
    ensures var exhausted := App.Exhausted(isBackgroundFetching, all, shown);
      ShowsNoMore(exhausted, isBackgroundFetching) <==> exhausted
    ensures ShowsNoMore(App.Exhausted(isBackgroundFetching, all, shown), isBackgroundFetching) <==>
      !isBackgroundFetching && all != [] && App.Unshown(all, shown) == []
  {
  }
}
