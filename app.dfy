/**
 * The client's search and pagination state machine (client/App.tsx). The `AppState` record
 * becomes the fields of `AppModel`; the `AbortController` ref becomes a controller number, and
 * every continuation of an asynchronous search (the phase-1 result, the 500 ms finishing timer,
 * the phase-2 result, a stream chunk) becomes an event method that the environment may call in
 * any order once the continuation has been scheduled.
 */
module App {
  import opened Wrappers
  import opened Restaurants
  import InputView
  import GeminiService

  datatype View = InputPage | ResultPage | SettingsPage

  const Phase1Limit := 6
  const Phase2Limit := 9
  const NoResultsEn := "No restaurants found."
  const NoResultsZh := "找不到符合條件的餐廳"

  /** The message thrown when phase 1 finds nothing: English for "en", Chinese otherwise. */
  function NoResultsMessage(language: string): (r: string)
    ensures language == "en" ==> r == NoResultsEn
    ensures language != "en" ==> r == NoResultsZh
  {
    if language == "en" then NoResultsEn else NoResultsZh
  }

  /** The ids of a list of restaurants. */
  function IdsOf(rs: seq<Restaurant>): (r: set<string>)
    ensures forall i :: 0 <= i < |rs| ==> rs[i].id in r
  {
    set i | 0 <= i < |rs| :: rs[i].id
  }

  lemma IdsOfAppend(xs: seq<Restaurant>, ys: seq<Restaurant>)
    ensures IdsOf(xs + ys) == IdsOf(xs) + IdsOf(ys)
  {
    var zs := xs + ys;
    forall id | id in IdsOf(zs) ensures id in IdsOf(xs) + IdsOf(ys) {
      var i :| 0 <= i < |zs| && zs[i].id == id;
      if i >= |xs| {
        assert ys[i - |xs|] == zs[i];
      } else {
        assert xs[i] == zs[i];
      }
    }
    forall id | id in IdsOf(xs) + IdsOf(ys) ensures id in IdsOf(zs) {
      if id in IdsOf(ys) {
        var j :| 0 <= j < |ys| && ys[j].id == id;
        assert zs[|xs| + j] == ys[j];
      } else {
        var i :| 0 <= i < |xs| && xs[i].id == id;
        assert zs[i] == xs[i];
      }
    }
  }

  /** The names of a list of restaurants, in order. */
  function Names(rs: seq<Restaurant>): (r: seq<string>)
    ensures |r| == |rs| && forall i :: 0 <= i < |rs| ==> r[i] == rs[i].name
  {
    seq(|rs|, i requires 0 <= i < |rs| => rs[i].name)
  }

  /** `allRestaurants.filter(r => !shownRestaurantIds.has(r.id))` */
  function Unshown(rs: seq<Restaurant>, shown: set<string>): (r: seq<Restaurant>)
    ensures |r| <= |rs|
    ensures forall x :: x in r <==> x in rs && x.id !in shown
  {
    if rs == [] then []
    else (if rs[0].id !in shown then [rs[0]] else []) + Unshown(rs[1..], shown)
  }

  lemma {:induction false} UnshownNone(rs: seq<Restaurant>, shown: set<string>)
    requires forall i :: 0 <= i < |rs| ==> rs[i].id in shown
    ensures Unshown(rs, shown) == []
  {
    if rs != [] {
      UnshownNone(rs[1..], shown);
    }
  }

  /** Once the ids of the unshown restaurants are marked as shown, nothing is unshown. */
  lemma UnshownAfterShowing(rs: seq<Restaurant>, shown: set<string>)
    ensures Unshown(rs, shown + IdsOf(Unshown(rs, shown))) == []
  {
    var u := Unshown(rs, shown);
    forall i | 0 <= i < |rs| ensures rs[i].id in shown + IdsOf(u) {
      if rs[i].id !in shown {
        assert rs[i] in u;
        var k :| 0 <= k < |u| && u[k] == rs[i];
      }
    }
    UnshownNone(rs, shown + IdsOf(u));
  }

  /** What the pages keep: every displayed restaurant comes from the full list and has its
   *  id marked as shown. */
  predicate PagesConsistent(displayed: seq<Restaurant>, all: seq<Restaurant>, shown: set<string>) {
    forall r :: r in displayed ==> r in all && r.id in shown
  }

  /** The current controller, every started search and every aborted controller are numbers
   *  already handed out. */
  predicate NumbersHandedOut(current: Option<nat>, next: nat, started: set<nat>, aborted: set<nat>) {
    && (current.Some? ==> current.value < next)
    && (forall c :: c in started ==> c < next)
    && (forall c :: c in aborted ==> c < next)
  }

  /** Each stage's pending continuations belong to searches that reached that stage. */
  predicate StagesNested(phase1: set<nat>, timer: set<nat>, phase2: set<nat>, resulted: set<nat>, started: set<nat>) {
    phase1 <= started && timer <= resulted && phase2 <= resulted && resulted <= started
  }

  /** `handleNext` keeps the pages consistent. */
  lemma NextKeepsPagesConsistent(displayed: seq<Restaurant>, all: seq<Restaurant>, shown: set<string>)
    requires PagesConsistent(displayed, all, shown)
    ensures var available := Unshown(all, shown);
      PagesConsistent(displayed + available, all, shown + IdsOf(available))
  {
    var available := Unshown(all, shown);
    forall r | r in displayed + available
      ensures r in all && r.id in shown + IdsOf(available)
    {
      if r !in displayed {
        var k :| 0 <= k < |available| && available[k] == r;
      }
    }
  }

  /** `isExhausted`: nothing is being fetched, there are restaurants, and every one of them
   *  has been shown. */
  function Exhausted(isBackgroundFetching: bool, all: seq<Restaurant>, shown: set<string>): (r: bool)
    ensures r <==> !isBackgroundFetching && all != [] && Unshown(all, shown) == []
  {
    assert (forall i :: 0 <= i < |all| ==> all[i].id in shown) <==> Unshown(all, shown) == [] by {
      if Unshown(all, shown) != [] {
        var x := Unshown(all, shown)[0];
        var k :| 0 <= k < |all| && all[k] == x;
      }
    }
    !isBackgroundFetching && |all| > 0 && forall i :: 0 <= i < |all| ==> all[i].id in shown
  }

  /** The arguments of the phase-1 call: six results, the caller's exclusions. */
  function Phase1Args(p: InputView.SearchParams): (r: GeminiService.FetchArgs)
    ensures r.location == p.location && r.keywords == p.keywords
    ensures r.radius == Some(p.radius) && r.model == Some(p.model) && r.language == Some(p.language)
    ensures r.limit == Some(Phase1Limit) && r.excludeNames == Some(p.excludedNames)
  {
    GeminiService.FetchArgs(p.location, p.keywords, Some(p.radius), Some(Phase1Limit), Some(p.model),
                            Some(p.language), Some(p.excludedNames))
  }

  /** The arguments of the phase-2 call: nine results, excluding the phase-1 names first and
   *  then the caller's exclusions. */
  function Phase2Args(p: InputView.SearchParams, first: seq<Restaurant>): (r: GeminiService.FetchArgs)
    ensures r.location == p.location && r.keywords == p.keywords
    ensures r.radius == Some(p.radius) && r.model == Some(p.model) && r.language == Some(p.language)
    ensures r.limit == Some(Phase2Limit)
    ensures r.excludeNames.Some? && |r.excludeNames.value| == |first| + |p.excludedNames|
    ensures forall i :: 0 <= i < |first| ==> r.excludeNames.value[i] == first[i].name
    ensures r.excludeNames.value[|first|..] == p.excludedNames
  {
    GeminiService.FetchArgs(p.location, p.keywords, Some(p.radius), Some(Phase2Limit), Some(p.model),
                            Some(p.language), Some(Names(first) + p.excludedNames))
  }

  /** `rs.forEach(r => ids.add(r.id))` on a copy of `ids`. */
  method AddIds(ids: set<string>, rs: seq<Restaurant>) returns (r: set<string>)
    ensures r == ids + IdsOf(rs)
  {
    r := ids;
    var k := 0;
    while k < |rs|
      invariant 0 <= k <= |rs|
      invariant r == ids + IdsOf(rs[..k])
    {
      IdsOfAppend(rs[..k], [rs[k]]);
      assert rs[..k + 1] == rs[..k] + [rs[k]];
      r := r + {rs[k].id};
      k := k + 1;
    }
    assert rs[..k] == rs;
  }

  class AppModel {
    var view: View
    var lastView: Option<View>
    var loading: bool
    var loadingError: Option<string>
    var params: InputView.SearchParams
    var allRestaurants: seq<Restaurant>
    var shownRestaurantIds: set<string>
    var displayedRestaurants: seq<Restaurant>
    var isBackgroundFetching: bool
    var isDeveloperMode: bool
    var streamOutput: string
    var isFinishing: bool
    var pendingResults: Option<seq<Restaurant>>
    var isLogoutTransition: bool

    /** `abortControllerRef.current`, as the number of the controller it holds. */
    var current: Option<nat>
    /** The controllers on which `abort()` has been called. */
    var aborted: set<nat>
    var nextController: nat
    /** What each search's continuations captured: its parameters and developer mode. */
    var searches: map<nat, InputView.Search>
    /** The phase-1 results of each search that got past phase 1. */
    var phase1Results: map<nat, seq<Restaurant>>
    /** The continuations scheduled and not yet run. */
    var phase1Pending: set<nat>
    var timerPending: set<nat>
    var phase2Pending: set<nat>

    /** The calls to the server made on the user's behalf, in order. */
    var savedPreferences: seq<InputView.SearchParams>
    var historyAdds: seq<(string, seq<string>)>

    /** `currentUser` as the memoised handlers see it: `handleSearch` is created once, by the
     *  first render, which the auth provider delays until the first auth state is known. */
    const signedInAtMount: bool
    /** `currentUser` as the auth provider holds it now. */
    var signedIn: bool

    /** What holds in every state: the pages' invariant and the controllers' invariant. */
    predicate Valid()
      reads this`displayedRestaurants, this`allRestaurants, this`shownRestaurantIds, this`current,
            this`nextController, this`searches, this`aborted, this`phase1Pending, this`timerPending,
            this`phase2Pending, this`phase1Results
    {
      ListsValid() && ControllersValid()
    }

    /** Everything displayed comes from `allRestaurants` and has its id marked as shown. */
    predicate ListsValid()
      reads this`displayedRestaurants, this`allRestaurants, this`shownRestaurantIds
    {
      PagesConsistent(displayedRestaurants, allRestaurants, shownRestaurantIds)
    }

    /** Every controller number handed out is below `nextController`, and every scheduled
     *  continuation belongs to a search that reached its stage. */
    predicate ControllersValid()
      reads this`current, this`nextController, this`searches, this`aborted, this`phase1Pending,
            this`timerPending, this`phase2Pending, this`phase1Results
    {
      && NumbersHandedOut(current, nextController, searches.Keys, aborted)
      && StagesNested(phase1Pending, timerPending, phase2Pending, phase1Results.Keys, searches.Keys)
    }

    constructor (userAtMount: bool)
      ensures signedInAtMount == userAtMount && signedIn == userAtMount
      ensures Valid()
      ensures view == InputPage && lastView.None? && !loading && loadingError.None?
      ensures params == InputView.SearchParams("", "", "1km", GeminiService.LegacyDefaultModel, "zh-TW", [], InputView.Random)
      ensures allRestaurants == [] && shownRestaurantIds == {} && displayedRestaurants == []
      ensures !isBackgroundFetching && !isDeveloperMode && streamOutput == "" && !isFinishing
      ensures pendingResults.None? && !isLogoutTransition
      ensures current.None? && aborted == {} && searches == map[] && phase1Results == map[]
      ensures phase1Pending == {} && timerPending == {} && phase2Pending == {}
      ensures savedPreferences == [] && historyAdds == []
    {
      view := InputPage;
      lastView := None;
      loading := false;
      loadingError := None;
      params := InputView.SearchParams("", "", "1km", GeminiService.LegacyDefaultModel, "zh-TW", [], InputView.Random);
      allRestaurants := [];
      shownRestaurantIds := {};
      displayedRestaurants := [];
      isBackgroundFetching := false;
      isDeveloperMode := false;
      streamOutput := "";
      isFinishing := false;
      pendingResults := None;
      isLogoutTransition := false;
      current := None;
      aborted := {};
      nextController := 0;
      searches := map[];
      phase1Results := map[];
      phase1Pending := {};
      timerPending := {};
      phase2Pending := {};
      savedPreferences := [];
      historyAdds := [];
      signedInAtMount := userAtMount;
      signedIn := userAtMount;
    }

    /** `onAuthStateChanged`: a sign-in or a sign-out after the page has loaded. */
    method AuthChanged(user: bool)
      modifies this`signedIn
      ensures signedIn == user
    {
      signedIn := user;
    }

    /** `handleSearch` up to the phase-1 call: a new controller becomes current (the previous
     *  one is not aborted), the results are emptied, and the phase-1 call is made. The save
     *  of the preferences reads the user captured at mount, not the one signed in now. */
    method StartSearch(search: InputView.Search) returns (c: nat, request: GeminiService.FetchArgs)
      requires Valid()
      modifies this`current, this`nextController, this`searches, this`phase1Pending, this`loading,
               this`loadingError, this`params, this`allRestaurants, this`displayedRestaurants,
               this`shownRestaurantIds, this`isDeveloperMode, this`streamOutput,
               this`isLogoutTransition, this`savedPreferences
      ensures Valid()
      ensures c == old(nextController) && c !in old(searches) && c !in aborted && current == Some(c)
      ensures nextController == c + 1 && searches == old(searches)[c := search]
      ensures phase1Pending == old(phase1Pending) + {c}
      ensures loading && loadingError.None? && params == search.params
      ensures allRestaurants == [] && displayedRestaurants == [] && shownRestaurantIds == {}
      ensures isDeveloperMode == search.devMode && streamOutput == "" && !isLogoutTransition
      ensures savedPreferences == old(savedPreferences) + (if signedInAtMount then [search.params] else [])
      ensures request == Phase1Args(search.params)
    {
      ResetForSearch(search);
      SavePreferences(search.params, signedInAtMount);
      c := NewController(search);
      request := Phase1Args(search.params);
      // The controller, the reset fields and the saved preferences are disjoint parts of the
      // state, so the order of these steps is immaterial.
    }

    /** `StartSearch` as intended: the preferences are saved for the user signed in when the
     *  search starts. */
    method StartSearchLive(search: InputView.Search) returns (c: nat, request: GeminiService.FetchArgs)
      requires Valid()
      modifies this`current, this`nextController, this`searches, this`phase1Pending, this`loading,
               this`loadingError, this`params, this`allRestaurants, this`displayedRestaurants,
               this`shownRestaurantIds, this`isDeveloperMode, this`streamOutput,
               this`isLogoutTransition, this`savedPreferences
      ensures Valid()
      ensures c == old(nextController) && c !in old(searches) && c !in aborted && current == Some(c)
      ensures nextController == c + 1 && searches == old(searches)[c := search]
      ensures phase1Pending == old(phase1Pending) + {c}
      ensures loading && loadingError.None? && params == search.params
      ensures allRestaurants == [] && displayedRestaurants == [] && shownRestaurantIds == {}
      ensures isDeveloperMode == search.devMode && streamOutput == "" && !isLogoutTransition
      ensures savedPreferences == old(savedPreferences) + (if signedIn then [search.params] else [])
      ensures request == Phase1Args(search.params)
    {
      ResetForSearch(search);
      SavePreferences(search.params, signedIn);
      c := NewController(search);
      request := Phase1Args(search.params);
    }

    /** `if (user) savePreferences(params)`. */
    method SavePreferences(p: InputView.SearchParams, loggedIn: bool)
      modifies this`savedPreferences
      ensures savedPreferences == old(savedPreferences) + (if loggedIn then [p] else [])
    {
      if loggedIn {
        savedPreferences := savedPreferences + [p];
      }
    }

    /** `new AbortController()` stored in the ref, with the phase-1 continuation scheduled. */
    method NewController(search: InputView.Search) returns (c: nat)
      requires ControllersValid()
      modifies this`current, this`nextController, this`searches, this`phase1Pending
      ensures ControllersValid()
      ensures c == old(nextController) && c !in old(searches) && c !in aborted && current == Some(c)
      ensures nextController == c + 1 && searches == old(searches)[c := search]
      ensures phase1Pending == old(phase1Pending) + {c}
    {
      c := nextController;
      nextController := nextController + 1;
      current := Some(c);
      searches := searches[c := search];
      phase1Pending := phase1Pending + {c};
    }

    /** The first `setState` of `handleSearch`. */
    method ResetForSearch(search: InputView.Search)
      modifies this`loading, this`loadingError, this`params, this`allRestaurants,
               this`displayedRestaurants, this`shownRestaurantIds, this`isDeveloperMode,
               this`streamOutput, this`isLogoutTransition
      ensures ListsValid()
      ensures loading && loadingError.None? && params == search.params
      ensures allRestaurants == [] && displayedRestaurants == [] && shownRestaurantIds == {}
      ensures isDeveloperMode == search.devMode && streamOutput == "" && !isLogoutTransition
    {
      loading := true;
      loadingError := None;
      params := search.params;
      allRestaurants := [];
      displayedRestaurants := [];
      shownRestaurantIds := {};
      isDeveloperMode := search.devMode;
      streamOutput := "";
      isLogoutTransition := false;
    }

    /** `onStreamUpdate`, which only a search in developer mode passes to the service. */
    method StreamChunk(c: nat, chunk: string)
      requires Valid() && c in phase1Pending && searches[c].devMode
      modifies this`streamOutput
      ensures Valid()
      ensures streamOutput == if c in aborted then old(streamOutput) else old(streamOutput) + chunk
    {
      if c in aborted {
        return;
      }
      streamOutput := streamOutput + chunk;
    }

    /** The phase-1 call of search `c` settles. An aborted search changes nothing. A rejection
     *  or an empty result keeps the overlay up with the error; otherwise the finishing
     *  animation starts, the commit timer is scheduled and the phase-2 call is made. */
    method Phase1Result(c: nat, outcome: GeminiService.FetchOutcome) returns (request: Option<GeminiService.FetchArgs>)
      requires Valid() && c in phase1Pending
      modifies this`phase1Pending, this`loading, this`loadingError, this`isFinishing,
               this`pendingResults, this`phase1Results, this`timerPending, this`phase2Pending
      ensures Valid()
      ensures phase1Pending == old(phase1Pending) - {c}
      ensures c in aborted ==>
        && request.None? && loading == old(loading) && loadingError == old(loadingError)
        && isFinishing == old(isFinishing) && pendingResults == old(pendingResults)
        && phase1Results == old(phase1Results) && timerPending == old(timerPending)
        && phase2Pending == old(phase2Pending)
      ensures c !in aborted && (outcome.Rejected? || outcome.restaurants == []) ==>
        && request.None? && loading
        && loadingError == Some(if outcome.Rejected? then outcome.error.message
                                else NoResultsMessage(searches[c].params.language))
        && isFinishing == old(isFinishing) && pendingResults == old(pendingResults)
        && phase1Results == old(phase1Results) && timerPending == old(timerPending)
        && phase2Pending == old(phase2Pending)
      ensures c !in aborted && outcome.Resolved? && outcome.restaurants != [] ==>
        && request == Some(Phase2Args(searches[c].params, outcome.restaurants))
        && loading == old(loading) && loadingError == old(loadingError)
        && isFinishing && pendingResults == Some(outcome.restaurants)
        && phase1Results == old(phase1Results)[c := outcome.restaurants]
        && timerPending == old(timerPending) + {c} && phase2Pending == old(phase2Pending) + {c}
    {
      phase1Pending := phase1Pending - {c};
      request := None;
      if c !in aborted {
        request := SettlePhaseOne(c, outcome);
      }
    }

    /** The unaborted continuation of the phase-1 call: the `catch` block on a rejection or an
     *  empty result, the finishing animation and the phase-2 call otherwise. */
    method SettlePhaseOne(c: nat, outcome: GeminiService.FetchOutcome) returns (request: Option<GeminiService.FetchArgs>)
      requires ControllersValid() && c in searches
      modifies this`loading, this`loadingError, this`isFinishing, this`pendingResults,
               this`phase1Results, this`timerPending, this`phase2Pending
      ensures ControllersValid()
      ensures outcome.Rejected? || outcome.restaurants == [] ==>
        && request.None? && loading
        && loadingError == Some(if outcome.Rejected? then outcome.error.message
                                else NoResultsMessage(searches[c].params.language))
        && isFinishing == old(isFinishing) && pendingResults == old(pendingResults)
        && phase1Results == old(phase1Results) && timerPending == old(timerPending)
        && phase2Pending == old(phase2Pending)
      ensures outcome.Resolved? && outcome.restaurants != [] ==>
        && request == Some(Phase2Args(searches[c].params, outcome.restaurants))
        && loading == old(loading) && loadingError == old(loadingError)
        && isFinishing && pendingResults == Some(outcome.restaurants)
        && phase1Results == old(phase1Results)[c := outcome.restaurants]
        && timerPending == old(timerPending) + {c} && phase2Pending == old(phase2Pending) + {c}
    {
      request := None;
      var p := searches[c].params;
      match outcome
      case Rejected(e) =>
        ShowLoadingError(e.message);
      case Resolved(results) =>
        if |results| == 0 {
          ShowLoadingError(NoResultsMessage(p.language));
          return;
        }
        BeginFinishing(c, results);
        request := Some(Phase2Args(p, results));
    }

    /** The `setState` of the `catch` block: the overlay stays up and shows the message. */
    method ShowLoadingError(message: string)
      modifies this`loading, this`loadingError
      ensures loading && loadingError == Some(message)
    {
      loading := true;
      loadingError := Some(message);
    }

    /** The "finishing" `setState`, with the commit timer and the phase-2 call scheduled. */
    method BeginFinishing(c: nat, results: seq<Restaurant>)
      requires ControllersValid() && c in searches
      modifies this`isFinishing, this`pendingResults, this`phase1Results, this`timerPending, this`phase2Pending
      ensures ControllersValid()
      ensures isFinishing && pendingResults == Some(results)
      ensures phase1Results == old(phase1Results)[c := results]
      ensures timerPending == old(timerPending) + {c} && phase2Pending == old(phase2Pending) + {c}
    {
      isFinishing := true;
      pendingResults := Some(results);
      phase1Results := phase1Results[c := results];
      timerPending := timerPending + {c};
      phase2Pending := phase2Pending + {c};
    }

    /** The 500 ms timer of search `c`: unless aborted, the result page shows the phase-1
     *  results, all marked as shown, with the background fetch flagged as running. The history
     *  post reads the user captured at mount. */
    method FinishTimer(c: nat)
      requires Valid() && c in timerPending
      modifies this`timerPending, this`view, this`loading, this`isFinishing, this`pendingResults,
               this`allRestaurants, this`shownRestaurantIds, this`displayedRestaurants,
               this`isBackgroundFetching, this`historyAdds
      ensures Valid()
      ensures timerPending == old(timerPending) - {c}
      ensures c in aborted ==>
        && view == old(view) && loading == old(loading) && isFinishing == old(isFinishing)
        && pendingResults == old(pendingResults) && allRestaurants == old(allRestaurants)
        && shownRestaurantIds == old(shownRestaurantIds)
        && displayedRestaurants == old(displayedRestaurants)
        && isBackgroundFetching == old(isBackgroundFetching) && historyAdds == old(historyAdds)
      ensures c !in aborted ==>
        var results := phase1Results[c];
        && view == ResultPage && !loading && !isFinishing && pendingResults.None?
        && allRestaurants == results && displayedRestaurants == results
        && shownRestaurantIds == IdsOf(results) && isBackgroundFetching
        && historyAdds == old(historyAdds) + (if signedInAtMount then [(searches[c].params.keywords, Names(results))] else [])
    {
      timerPending := timerPending - {c};
      if c !in aborted {
        CommitPhaseOne(c, signedInAtMount);
      }
    }

    /** `FinishTimer` as intended: the history is posted for the user signed in when the timer
     *  fires. */
    method FinishTimerLive(c: nat)
      requires Valid() && c in timerPending
      modifies this`timerPending, this`view, this`loading, this`isFinishing, this`pendingResults,
               this`allRestaurants, this`shownRestaurantIds, this`displayedRestaurants,
               this`isBackgroundFetching, this`historyAdds
      ensures Valid()
      ensures timerPending == old(timerPending) - {c}
      ensures c in aborted ==>
        && view == old(view) && loading == old(loading) && isFinishing == old(isFinishing)
        && pendingResults == old(pendingResults) && allRestaurants == old(allRestaurants)
        && shownRestaurantIds == old(shownRestaurantIds)
        && displayedRestaurants == old(displayedRestaurants)
        && isBackgroundFetching == old(isBackgroundFetching) && historyAdds == old(historyAdds)
      ensures c !in aborted ==>
        var results := phase1Results[c];
        && view == ResultPage && !loading && !isFinishing && pendingResults.None?
        && allRestaurants == results && displayedRestaurants == results
        && shownRestaurantIds == IdsOf(results) && isBackgroundFetching
        && historyAdds == old(historyAdds) + (if signedIn then [(searches[c].params.keywords, Names(results))] else [])
    {
      timerPending := timerPending - {c};
      if c !in aborted {
        CommitPhaseOne(c, signedIn);
      }
    }

    /** The unaborted branch of the timer: the phase-1 results are shown, and a logged-in
     *  user's search is added to the history. */
    method CommitPhaseOne(c: nat, loggedIn: bool)
      requires c in phase1Results && c in searches
      modifies this`view, this`loading, this`isFinishing, this`pendingResults,
               this`allRestaurants, this`shownRestaurantIds, this`displayedRestaurants,
               this`isBackgroundFetching, this`historyAdds
      ensures ListsValid()
      ensures var results := phase1Results[c];
        && view == ResultPage && !loading && !isFinishing && pendingResults.None?
        && allRestaurants == results && displayedRestaurants == results
        && shownRestaurantIds == IdsOf(results) && isBackgroundFetching
        && historyAdds == old(historyAdds) + (if loggedIn then [(searches[c].params.keywords, Names(results))] else [])
    {
      var results := phase1Results[c];
      var initialShownIds := AddIds({}, results);
      Commit(results, initialShownIds);
      if loggedIn {
        historyAdds := historyAdds + [(searches[c].params.keywords, Names(results))];
      }
    }

    /** The `setState` of the finishing timer. */
    method Commit(results: seq<Restaurant>, initialShownIds: set<string>)
      requires initialShownIds == IdsOf(results)
      modifies this`view, this`loading, this`isFinishing, this`pendingResults,
               this`allRestaurants, this`shownRestaurantIds, this`displayedRestaurants,
               this`isBackgroundFetching
      ensures ListsValid()
      ensures view == ResultPage && !loading && !isFinishing && pendingResults.None?
      ensures allRestaurants == results && displayedRestaurants == results
      ensures shownRestaurantIds == IdsOf(results) && isBackgroundFetching
    {
      view := ResultPage;
      loading := false;
      isFinishing := false;
      pendingResults := None;
      allRestaurants := results;
      shownRestaurantIds := initialShownIds;
      displayedRestaurants := results;
      isBackgroundFetching := true;
      forall r | r in results ensures r.id in initialShownIds {
        var k :| 0 <= k < |results| && results[k] == r;
      }
    }

    /** The phase-2 call of search `c` settles (`None` when it rejects). Its results are
     *  appended only while `c` is still the current, unaborted controller. */
    method Phase2Result(c: nat, more: Option<seq<Restaurant>>)
      requires Valid() && c in phase2Pending
      modifies this`phase2Pending, this`allRestaurants, this`isBackgroundFetching
      ensures Valid()
      ensures phase2Pending == old(phase2Pending) - {c}
      ensures more.Some? && current == Some(c) && c !in aborted ==>
        allRestaurants == old(allRestaurants) + more.value && !isBackgroundFetching
      ensures !(more.Some? && current == Some(c) && c !in aborted) ==>
        allRestaurants == old(allRestaurants) && isBackgroundFetching == old(isBackgroundFetching)
    {
      phase2Pending := phase2Pending - {c};
      if more.Some? && current == Some(c) && c !in aborted {
        allRestaurants := allRestaurants + more.value;
        isBackgroundFetching := false;
      }
    }

    /** `handleCancelSearch`: aborts and forgets the current controller, hides the overlay. */
    method Cancel()
      requires Valid()
      modifies this`aborted, this`current, this`loading, this`loadingError
      ensures Valid()
      ensures aborted == old(aborted) + (if old(current).Some? then {old(current).value} else {})
      ensures current.None? && !loading && loadingError.None?
    {
      AbortCurrent();
      loading := false;
      loadingError := None;
    }

    /** `abortControllerRef.current.abort()` followed by `abortControllerRef.current = null`,
     *  when there is a current controller. */
    method AbortCurrent()
      requires ControllersValid()
      modifies this`aborted, this`current
      ensures ControllersValid()
      ensures aborted == old(aborted) + (if old(current).Some? then {old(current).value} else {})
      ensures current.None?
    {
      if current.Some? {
        aborted := aborted + {current.value};
        current := None;
      }
    }

    /** `handleCloseLoading` */
    method CloseLoading()
      requires Valid()
      modifies this`loading, this`loadingError
      ensures Valid()
      ensures !loading && loadingError.None?
    {
      loading := false;
      loadingError := None;
    }

    /** `handleNext`: appends exactly the unshown restaurants, in order, and marks them as
     *  shown; with nothing unshown the state stays as it is. */
    method Next()
      requires Valid()
      modifies this`shownRestaurantIds, this`displayedRestaurants
      ensures Valid()
      ensures var available := Unshown(old(allRestaurants), old(shownRestaurantIds));
        && displayedRestaurants == old(displayedRestaurants) + available
        && shownRestaurantIds == old(shownRestaurantIds) + IdsOf(available)
      ensures Unshown(allRestaurants, shownRestaurantIds) == []
    {
      var available := Unshown(allRestaurants, shownRestaurantIds);
      UnshownAfterShowing(allRestaurants, shownRestaurantIds);
      NextKeepsPagesConsistent(displayedRestaurants, allRestaurants, shownRestaurantIds);
      if |available| == 0 {
        assert displayedRestaurants + available == displayedRestaurants;
        return;
      }
      var newShownIds := AddIds(shownRestaurantIds, available);
      shownRestaurantIds := newShownIds;
      displayedRestaurants := displayedRestaurants + available;
    }

    /** `handleBack`: aborts and forgets the current controller and returns to the input page
     *  with the lists emptied; the shown ids are kept. */
    method Back()
      requires Valid()
      modifies this`aborted, this`current, this`view, this`allRestaurants, this`displayedRestaurants,
               this`isBackgroundFetching, this`isLogoutTransition
      ensures Valid()
      ensures aborted == old(aborted) + (if old(current).Some? then {old(current).value} else {})
      ensures current.None? && view == InputPage && allRestaurants == [] && displayedRestaurants == []
      ensures !isBackgroundFetching && !isLogoutTransition
    {
      AbortCurrent();
      ClearLists();
      view := InputPage;
      isBackgroundFetching := false;
      isLogoutTransition := false;
    }

    /** Both lists emptied, which keeps the pages consistent whatever the shown ids. */
    method ClearLists()
      modifies this`allRestaurants, this`displayedRestaurants
      ensures ListsValid() && allRestaurants == [] && displayedRestaurants == []
    {
      allRestaurants := [];
      displayedRestaurants := [];
    }

    /** `handleGoToSettings`: remembers the page it came from when that was the input or the
     *  result page. */
    method GoToSettings()
      requires Valid()
      modifies this`view, this`lastView, this`isLogoutTransition
      ensures Valid()
      ensures view == SettingsPage && !isLogoutTransition
      ensures lastView == if old(view) == InputPage || old(view) == ResultPage then Some(old(view)) else old(lastView)
    {
      if view == InputPage || view == ResultPage {
        lastView := Some(view);
      }
      view := SettingsPage;
      isLogoutTransition := false;
    }

    /** `handleBackFromSettings`: back to the remembered page, or to the input page. */
    method BackFromSettings()
      requires Valid()
      modifies this`view
      ensures Valid()
      ensures view == old(lastView).GetOr(InputPage)
    {
      view := lastView.GetOr(InputPage);
    }

    /** `handleLogoutFromSettings` once `logout()` has settled (either way): the input page
     *  with everything cleared. The controller is left as it is. */
    method LogoutFromSettings()
      requires Valid()
      modifies this`view, this`allRestaurants, this`displayedRestaurants, this`shownRestaurantIds,
               this`lastView, this`isLogoutTransition
      ensures Valid()
      ensures view == InputPage && allRestaurants == [] && displayedRestaurants == []
      ensures shownRestaurantIds == {} && lastView.None? && isLogoutTransition
    {
      ClearLists();
      view := InputPage;
      shownRestaurantIds := {};
      lastView := None;
      isLogoutTransition := true;
    }
  }

  /** The back button goes where the settings button came from: from the input or the result
   *  page, a visit to the settings page and back returns to that page. */
  method SettingsRoundTrip(app: AppModel)
    requires app.Valid() && (app.view == InputPage || app.view == ResultPage)
    modifies app`view, app`lastView, app`isLogoutTransition
    ensures app.Valid() && app.view == old(app.view)
  {
    app.GoToSettings();
    app.BackFromSettings();
  }

  /** A fresh page where a search has got its first results: the commit timer and the
   *  phase-2 call are both pending. */
  method FirstResultsArrived(search: InputView.Search, first: seq<Restaurant>) returns (app: AppModel, c: nat)
    requires first != []
    ensures fresh(app) && app.Valid()
    ensures app.current == Some(c) && c !in app.aborted
    ensures c in app.timerPending && c in app.phase2Pending && app.phase1Results[c] == first
    ensures app.allRestaurants == [] && !app.isBackgroundFetching
  {
    app, c := SearchStarted(search);
    var second := app.Phase1Result(c, GeminiService.Resolved(first));
  }

  /** A fresh page where a search has just been started: its phase-1 call is pending. */
  method SearchStarted(search: InputView.Search) returns (app: AppModel, c: nat)
    ensures fresh(app) && app.Valid()
    ensures app.current == Some(c) && c !in app.aborted && c in app.phase1Pending
    ensures app.searches[c] == search && app.timerPending == {} && app.phase2Pending == {}
    ensures app.allRestaurants == [] && !app.isBackgroundFetching
  {
    app := new AppModel(false);
    var request;
    c, request := app.StartSearchLive(search);
  }

  /** A fresh page where the first results of a search have been committed and the phase-2
   *  call is still pending. */
  method FirstResultsShown(search: InputView.Search, first: seq<Restaurant>) returns (app: AppModel, c: nat)
    requires first != []
    ensures fresh(app) && app.Valid()
    ensures app.current == Some(c) && c !in app.aborted && c in app.phase2Pending
    ensures app.allRestaurants == first && app.displayedRestaurants == first
    ensures app.shownRestaurantIds == IdsOf(first) && app.isBackgroundFetching
  {
    app, c := FirstResultsArrived(search, first);
    app.FinishTimerLive(c);
  }

  /** Phase 2 settling before the 500 ms commit: the commit then overwrites the phase-2
   *  results with the phase-1 ones and flags the background fetch as running again, though
   *  nothing is left to fetch, so the page never reports the list as exhausted. */
  method PhaseTwoBeforeCommit(search: InputView.Search, first: seq<Restaurant>, more: seq<Restaurant>)
    returns (all: seq<Restaurant>, backgroundFetching: bool, exhausted: bool)
    requires first != []
    ensures all == first && backgroundFetching && !exhausted
  {
    var app, c := FirstResultsArrived(search, first);
    app.Phase2Result(c, Some(more));
    assert app.allRestaurants == more && !app.isBackgroundFetching;
    app.FinishTimerLive(c);
    all := app.allRestaurants;
    backgroundFetching := app.isBackgroundFetching;
    exhausted := Exhausted(app.isBackgroundFetching, app.allRestaurants, app.shownRestaurantIds);
  }

  /** In the order the code expects (commit, then phase 2), the page holds the restaurants of
   *  both phases with the first ones displayed, and is exhausted once `Next` has shown the
   *  rest. */
  method CommitBeforePhaseTwo(search: InputView.Search, first: seq<Restaurant>, more: seq<Restaurant>)
    returns (all: seq<Restaurant>, displayed: seq<Restaurant>, backgroundFetching: bool, exhausted: bool)
    requires first != []
    ensures all == first + more && displayed == first && !backgroundFetching
    ensures exhausted
  {
    var app, c := FirstResultsShown(search, first);
    app.Phase2Result(c, Some(more));
    all := app.allRestaurants;
    displayed := app.displayedRestaurants;
    backgroundFetching := app.isBackgroundFetching;
    app.Next();
    exhausted := Exhausted(app.isBackgroundFetching, app.allRestaurants, app.shownRestaurantIds);
  }

  /** A page mounted with `userAtMount` whose auth state has flipped since. */
  method FlippedPage(userAtMount: bool) returns (app: AppModel)
    ensures fresh(app) && app.Valid()
    ensures app.signedInAtMount == userAtMount && app.signedIn == !userAtMount
    ensures app.savedPreferences == [] && app.historyAdds == []
  {
    app := new AppModel(userAtMount);
    app.AuthChanged(!userAtMount);
  }

  /** A page mounted with `userAtMount`, on which the auth state then flips before a search
   *  starts, under the handler as written or, with `live`, as intended. */
  method StartedAfterAuthFlip(userAtMount: bool, live: bool, search: InputView.Search) returns (app: AppModel, c: nat)
    ensures fresh(app) && app.Valid()
    ensures app.signedInAtMount == userAtMount && app.signedIn == !userAtMount
    ensures app.current == Some(c) && c !in app.aborted && c in app.phase1Pending
    ensures app.searches[c] == search && app.historyAdds == []
    ensures app.savedPreferences == if (if live then !userAtMount else userAtMount) then [search.params] else []
  {
    app := FlippedPage(userAtMount);
    var request;
    if live {
      c, request := app.StartSearchLive(search);
    } else {
      c, request := app.StartSearch(search);
    }
  }

  /** The search of `StartedAfterAuthFlip` once its first results have arrived. */
  method ArrivedAfterAuthFlip(userAtMount: bool, live: bool, search: InputView.Search, first: seq<Restaurant>) returns (app: AppModel, c: nat)
    requires first != []
    ensures fresh(app) && app.Valid()
    ensures app.signedInAtMount == userAtMount && app.signedIn == !userAtMount
    ensures c !in app.aborted && c in app.timerPending && app.phase1Results[c] == first
    ensures app.searches[c] == search && app.historyAdds == []
    ensures app.savedPreferences == if (if live then !userAtMount else userAtMount) then [search.params] else []
  {
    app, c := StartedAfterAuthFlip(userAtMount, live, search);
    var second := app.Phase1Result(c, GeminiService.Resolved(first));
  }

  /** The search of `StartedAfterAuthFlip` run through its commit. */
  method RunAfterAuthFlip(userAtMount: bool, live: bool, search: InputView.Search, first: seq<Restaurant>) returns (app: AppModel)
    requires first != []
    ensures app.signedIn == !userAtMount
    ensures var posts := if live then !userAtMount else userAtMount;
      && app.savedPreferences == (if posts then [search.params] else [])
      && app.historyAdds == (if posts then [(search.params.keywords, Names(first))] else [])
  {
    var c;
    app, c := ArrivedAfterAuthFlip(userAtMount, live, search, first);
    if live {
      app.FinishTimerLive(c);
    } else {
      app.FinishTimer(c);
    }
  }

  /** As written, the search handler and its timer see the user of the first render: a user
   *  who signs in after the page has loaded gets neither the preferences saved nor the
   *  history posted, and a user who has signed out since still gets both. */
  method UserFrozenAtMount(search: InputView.Search, first: seq<Restaurant>) returns (late: AppModel, gone: AppModel)
    requires first != []
    ensures late.signedIn && late.savedPreferences == [] && late.historyAdds == []
    ensures !gone.signedIn && gone.savedPreferences == [search.params]
    ensures gone.historyAdds == [(search.params.keywords, Names(first))]
  {
    late := RunAfterAuthFlip(false, false, search, first);
    gone := RunAfterAuthFlip(true, false, search, first);
  }

  /** With the user read when each step runs, the server calls follow the user signed in at
   *  that moment. */
  method UserReadLive(search: InputView.Search, first: seq<Restaurant>) returns (late: AppModel, gone: AppModel)
    requires first != []
    ensures late.signedIn && late.savedPreferences == [search.params]
    ensures late.historyAdds == [(search.params.keywords, Names(first))]
    ensures !gone.signedIn && gone.savedPreferences == [] && gone.historyAdds == []
  {
    late := RunAfterAuthFlip(false, true, search, first);
    gone := RunAfterAuthFlip(true, true, search, first);
  }
}
