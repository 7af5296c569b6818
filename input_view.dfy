/**
 * The search form (client/components/InputView.tsx): the rotating history bubbles, the visibility
 * of a bubble, the intro icon cycle, and how the form's fields become the parameters of a search.
 */
module InputView {
  import opened Wrappers
  import opened Text

  /** One bubble slot of `HistoryBubbles`. */
  datatype Slot = Slot(text: string, visible: bool)

  datatype Phase = Hidden | Dropped | Sides

  datatype Side = Left | Right

  const SlotCount := 6

  /** The initial slots for a non-empty history: six slots cycling through the items, visible
   *  only for the first pass. */
  function InitialSlots(items: seq<string>): (slots: seq<Slot>)
    requires |items| > 0
    ensures |slots| == SlotCount
    ensures forall i :: 0 <= i < SlotCount ==> slots[i].text == items[i % |items|] && (slots[i].visible <==> i < |items|)
  {
    seq(SlotCount, i requires 0 <= i => Slot(items[i % |items|], i < |items|))
  }

  /** The slot indices on one side: even on the left, odd on the right, ascending. */
  function SideIndices(count: nat, side: Side): (r: seq<nat>)
    ensures forall i: nat :: i in r <==> i < count && (side == Left <==> i % 2 == 0)
    ensures forall k, l :: 0 <= k < l < |r| ==> r[k] < r[l]
  {
    if count == 0 then []
    else
      var front := SideIndices(count - 1, side);
      forall k | 0 <= k < |front| ensures front[k] < count - 1 {
        assert front[k] in front;
      }
      if (side == Left) == ((count - 1) % 2 == 0) then front + [count - 1] else front
  }

  /** The fade-out step: only the target slot turns invisible; a missing slot changes nothing. */
  function FadeOut(slots: seq<Slot>, target: nat): (r: seq<Slot>)
    ensures |r| == |slots|
    ensures target < |slots| ==> r[target] == slots[target].(visible := false)
    ensures forall i :: 0 <= i < |slots| && i != target ==> r[i] == slots[i]
  {
    if target < |slots| then slots[target := slots[target].(visible := false)] else slots
  }

  /** The texts currently in the slots, visible or not. */
  function Displayed(slots: seq<Slot>): set<string> {
    set i | 0 <= i < |slots| :: slots[i].text
  }

  /** `items.filter(item => !displayedSet.has(item))` */
  function Candidates(items: seq<string>, displayed: set<string>): (r: seq<string>)
    ensures forall x :: x in r <==> x in items && x !in displayed
  {
    if items == [] then []
    else (if items[0] in displayed then [] else [items[0]]) + Candidates(items[1..], displayed)
  }

  /** The swap step: the target slot gets an item not shown in any slot when there is one
   *  (else any item) and becomes visible; `pick` is the random choice. */
  function Swap(slots: seq<Slot>, items: seq<string>, target: nat, pick: nat): (r: seq<Slot>)
    requires |items| > 0
    ensures |r| == |slots|
    ensures forall i :: 0 <= i < |slots| && i != target ==> r[i] == slots[i]
    ensures target < |slots| ==> r[target].visible && r[target].text in items
    ensures target < |slots| && (exists x :: x in items && x !in Displayed(slots)) ==> r[target].text !in Displayed(slots)
  {
    if target >= |slots| then slots
    else
      var candidates := Candidates(items, Displayed(slots));
      var newItem := if |candidates| > 0 then candidates[pick % |candidates|] else items[pick % |items|];
      assert newItem in candidates ==> newItem !in Displayed(slots);
      assert forall x :: x in items && x !in Displayed(slots) ==> x in candidates;
      slots[target := Slot(newItem, true)]
  }

  /** The bubbles' slots and the side the last rotation step used. */
  class Bubbles {
    var slots: seq<Slot>
    var lastSide: Side

    constructor ()
      ensures slots == [] && lastSide == Right
    {
      slots := [];
      lastSide := Right;
    }

    /** The initialisation effect: an empty history leaves the slots as they are. */
    method Initialise(items: seq<string>)
      modifies this
      ensures |items| == 0 ==> slots == old(slots)
      ensures |items| > 0 ==> slots == InitialSlots(items)
      ensures lastSide == old(lastSide)
    {
      if |items| == 0 {
        return;
      }
      slots := InitialSlots(items);
    }

    /** One tick of the rotation interval, which runs only in the side phase with more than six
     *  items: switch sides, choose a slot on the new side with `pick`, and fade it out. The
     *  chosen slot is returned for the swap that follows. */
    method Tick(phase: Phase, items: seq<string>, pick: nat) returns (target: Option<nat>)
      modifies this
      ensures !(phase == Sides && |items| > SlotCount) ==>
        target.None? && slots == old(slots) && lastSide == old(lastSide)
      ensures phase == Sides && |items| > SlotCount ==>
        && lastSide != old(lastSide)
        && (target.Some? <==> |SideIndices(|old(slots)|, lastSide)| > 0)
        && (target.Some? ==> target.value in SideIndices(|old(slots)|, lastSide) && slots == FadeOut(old(slots), target.value))
        && (target.None? ==> slots == old(slots))
    {
      if phase != Sides || |items| <= SlotCount {
        return None;
      }
      var targetSide := if lastSide == Left then Right else Left;
      lastSide := targetSide;
      var availableIndices := SideIndices(|slots|, targetSide);
      if |availableIndices| == 0 {
        return None;
      }
      var targetIdx := availableIndices[pick % |availableIndices|];
      var next := slots;
      if targetIdx < |next| {
        next := next[targetIdx := next[targetIdx].(visible := false)];
      }
      slots := next;
      target := Some(targetIdx);
    }

    /** The swap scheduled by a tick (items are the rotating history, never empty here). */
    method SwapIn(items: seq<string>, target: nat, pick: nat)
      requires |items| > 0
      modifies this
      ensures slots == Swap(old(slots), items, target, pick) && lastSide == old(lastSide)
    {
      slots := Swap(slots, items, target, pick);
    }
  }

  /** Two ticks of the rotation in a row, with the swap between them: they fade out slots on
   *  opposite sides, one at an even index and one at an odd one, and with two slots or more
   *  both find a slot. */
  method TwoTicks(b: Bubbles, items: seq<string>, firstPick: nat, swapPick: nat, secondPick: nat)
    returns (first: Option<nat>, second: Option<nat>)
    requires |items| > SlotCount
    modifies b
    ensures first.Some? && second.Some? ==> first.value % 2 != second.value % 2
    ensures |old(b.slots)| >= 2 ==> first.Some? && second.Some?
  {
    ghost var count := |b.slots|;
    first := b.Tick(Sides, items, firstPick);
    ghost var firstSide := b.lastSide;
    if first.Some? {
      b.SwapIn(items, first.value, swapPick);
    }
    assert |b.slots| == count;
    second := b.Tick(Sides, items, secondPick);
    assert b.lastSide != firstSide;
    if count >= 2 {
      assert 0 in SideIndices(count, Left) && 1 in SideIndices(count, Right);
    }
  }

  /** A bubble's scale: full only when the bubbles are at the sides and the slot is visible. */
  function BubbleScale(phase: Phase, visible: bool): (r: real)
    ensures r == 1.0 <==> phase == Sides && visible
    ensures r != 1.0 ==> r == 0.01
  {
    if phase == Sides && visible then 1.0 else 0.01
  }

  function BubbleOpacity(phase: Phase, visible: bool): (r: real)
    ensures r == 1.0 <==> phase == Sides && visible
    ensures r != 1.0 ==> r == 0.0
  {
    if phase == Sides && visible then 1.0 else 0.0
  }

  /** A bubble is either fully shown or effectively gone. */
  lemma BubbleShownIff(phase: Phase, visible: bool)
    ensures (BubbleScale(phase, visible) == 1.0 && BubbleOpacity(phase, visible) == 1.0) <==> phase == Sides && visible
    ensures BubbleScale(phase, visible) < 1.0 <==> BubbleOpacity(phase, visible) == 0.0
  {
  }

  const IntroIconCount := 12

  /** One step of the intro icon cycle, which advances only on the intro screen before the
   *  user enters and while it is not animating out. */
  function NextIcon(index: nat, isIntro: bool, isEntering: bool, isAnimatingOut: bool): (r: nat)
    requires index < IntroIconCount
    ensures r < IntroIconCount
    ensures isIntro && !isEntering && !isAnimatingOut ==> r == (index + 1) % IntroIconCount
    ensures !(isIntro && !isEntering && !isAnimatingOut) ==> r == index
  {
    if isIntro && !isEntering && !isAnimatingOut then (index + 1) % IntroIconCount else index
  }

  /** Stepping through the whole cycle comes back to the first icon. */
  lemma {:induction false} IconCycleReturns(index: nat, steps: nat)
    requires index < IntroIconCount
    ensures Cycle(index, steps) == (index + steps) % IntroIconCount
  {
    if steps > 0 {
      IconCycleReturns(index, steps - 1);
      NextIconWraps(index + steps - 1);
    }
  }

  /** One step after `a` steps is `a + 1` steps, modulo the icon count. */
  lemma NextIconWraps(a: nat)
    ensures (a % IntroIconCount + 1) % IntroIconCount == (a + 1) % IntroIconCount
  {
    var q := a / IntroIconCount;
    var m := a % IntroIconCount;
    assert a == q * IntroIconCount + m;
    if m + 1 == IntroIconCount {
      assert a + 1 == (q + 1) * IntroIconCount;
    } else {
      assert a + 1 == q * IntroIconCount + (m + 1);
    }
  }

  function Cycle(index: nat, steps: nat): (r: nat)
    requires index < IntroIconCount
    ensures r < IntroIconCount
  {
    if steps == 0 then index else NextIcon(Cycle(index, steps - 1), true, false, false)
  }

  datatype Mode = List | Random

  /** The parameters handed to `onSearch` (the coordinates parsed from `hiddenCoords` are not
   *  part of this model). */
  datatype SearchParams = SearchParams(
    location: string, keywords: string, radius: string, model: string, language: string,
    excludedNames: seq<string>, mode: Mode)

  /** A search the form starts: its parameters and whether developer mode is on. */
  datatype Search = Search(params: SearchParams, devMode: bool)

  /** The form fields of `InputView`. */
  class SearchForm {
    var displayLocation: string
    var hiddenCoords: Option<string>
    var keywords: string
    var radius: string
    var selectedModel: string
    var selectedLanguage: string
    var isDevMode: bool
    var showError: bool
    var removeHistory: bool
    var recommendedHistory: seq<string>

    /** The initial state; `currentLanguage` is the prop, and an absent or empty one selects
     *  Traditional Chinese. */
    constructor (currentLanguage: Option<string>)
      ensures displayLocation == "" && hiddenCoords.None? && keywords == "" && radius == "1km"
      ensures currentLanguage.Some? && currentLanguage.value != "" ==> selectedLanguage == currentLanguage.value
      ensures currentLanguage.None? || currentLanguage.value == "" ==> selectedLanguage == "zh-TW"
      ensures selectedModel == "gemini-2.5-flash"
      ensures !isDevMode && !showError && !removeHistory && recommendedHistory == []
    {
      displayLocation := "";
      hiddenCoords := None;
      keywords := "";
      radius := "1km";
      selectedModel := "gemini-2.5-flash";
      selectedLanguage := if currentLanguage.Some? && currentLanguage.value != "" then currentLanguage.value else "zh-TW";
      isDevMode := false;
      showError := false;
      removeHistory := false;
      recommendedHistory := [];
    }

    /** The effect that follows the `currentLanguage` prop: a present, non-empty language is
     *  selected, otherwise the selection stays. */
    method SyncLanguage(currentLanguage: Option<string>)
      modifies this`selectedLanguage
      ensures currentLanguage.Some? && currentLanguage.value != "" ==> selectedLanguage == currentLanguage.value
      ensures currentLanguage.None? || currentLanguage.value == "" ==> selectedLanguage == old(selectedLanguage)
    {
      if currentLanguage.Some? && currentLanguage.value != "" {
        selectedLanguage := currentLanguage.value;
      }
    }

    /** `getCommonParams`, for a given search mode: the picked coordinates win over the typed
     *  location, and the recommended history is excluded only when asked. */
    function CommonParams(mode: Mode): (p: SearchParams)
      reads this`displayLocation, this`hiddenCoords, this`keywords, this`radius, this`selectedModel,
            this`selectedLanguage, this`removeHistory, this`recommendedHistory
      ensures hiddenCoords.Some? && hiddenCoords.value != "" ==> p.location == hiddenCoords.value
      ensures hiddenCoords.None? || hiddenCoords.value == "" ==> p.location == displayLocation
      ensures p.excludedNames == (if removeHistory then recommendedHistory else [])
      ensures p.keywords == keywords && p.radius == radius && p.model == selectedModel
      ensures p.language == selectedLanguage && p.mode == mode
    {
      var location := if hiddenCoords.Some? && hiddenCoords.value != "" then hiddenCoords.value else displayLocation;
      SearchParams(location, keywords, radius, selectedModel, selectedLanguage,
                   if removeHistory then recommendedHistory else [], mode)
    }

    /** `validateInput`: a blank location shows the error and stops the search. */
    method ValidateInput() returns (ok: bool)
      modifies this`showError
      ensures ok <==> Trim(displayLocation) != ""
      ensures !ok ==> showError
      ensures ok ==> showError == old(showError)
    {
      var location := Trim(displayLocation);
      ok := location != "";
      if !ok {
        showError := true;
      }
    }

    /** The form's submit: a list search with the common parameters. */
    method HandleSearch() returns (sent: Option<Search>)
      modifies this`showError
      ensures Trim(displayLocation) == "" ==> sent.None? && showError
      ensures Trim(displayLocation) != "" ==> sent == Some(Search(CommonParams(List), isDevMode)) && showError == old(showError)
    {
      var ok := ValidateInput();
      if !ok {
        return None;
      }
      sent := Some(Search(CommonParams(List), isDevMode));
    }

    /** The random button: the common parameters with no keywords, in random mode. */
    method HandleRandomSearch() returns (sent: Option<Search>)
      modifies this`showError
      ensures Trim(displayLocation) == "" ==> sent.None? && showError
      ensures Trim(displayLocation) != "" ==>
        sent == Some(Search(CommonParams(Random).(keywords := ""), isDevMode)) && showError == old(showError)
    {
      var ok := ValidateInput();
      if !ok {
        return None;
      }
      sent := Some(Search(CommonParams(Random).(keywords := ""), isDevMode));
    }

    /** A click on a history bubble: the name becomes the keywords (also when the search is then
     *  refused) and a list search for it starts. */
    method HandleHistoryClick(name: string) returns (sent: Option<Search>)
      modifies this`keywords, this`showError
      ensures keywords == name
      ensures Trim(displayLocation) == "" ==> sent.None? && showError
      ensures Trim(displayLocation) != "" ==> sent == Some(Search(CommonParams(List), isDevMode)) && showError == old(showError)
    {
      keywords := name;
      var ok := ValidateInput();
      if !ok {
        return None;
      }
      var p := CommonParams(List);
      assert p.keywords == name;
      sent := Some(Search(p.(keywords := name), isDevMode));
    }

    /** Typing a location drops the picked coordinates and the error. */
    method HandleLocationChange(value: string)
      modifies this`displayLocation, this`hiddenCoords, this`showError
      ensures displayLocation == value && hiddenCoords.None? && !showError
    {
      displayLocation := value;
      hiddenCoords := None;
      if showError {
        showError := false;
      }
    }
  }
}
