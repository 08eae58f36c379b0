/**
 * The home feed's logic: the momentum strip's opacity and vertical offset as
 * functions of the scroll offset, the dismissed/revealed hysteresis, and the
 * card action handlers that toggle a flag of the first card with a given id.
 * `scrollOffset` is the feed's `minY` in the scroll view's coordinate space:
 * it grows while the user pulls down and falls while the user scrolls down.
 */
module HomeFeedView {
  import opened Wrappers
  import opened Models
  import opened MomentumStrip

  function Max(a: real, b: real): real
  {
    if a >= b then a else b
  }

  function Min(a: real, b: real): real
  {
    if a <= b then a else b
  }

  // Momentum strip visibility

  /** `momentumStripOpacity`. */
  function StripOpacity(scrollOffset: real, isStripDismissed: bool): (r: real)
    ensures 0.0 <= r <= 1.0
  {
    if isStripDismissed then
      // Pull-to-reveal: fade in between 50 and 100 points of pull.
      if scrollOffset > 100.0 then 1.0
      else if scrollOffset > 50.0 then (scrollOffset - 50.0) / 50.0
      else 0.0
    else
      // Fade out over the first 50 points of scrolling down.
      if scrollOffset > 0.0 then 1.0
      else if scrollOffset > -50.0 then Max(0.0, 1.0 + scrollOffset / 50.0)
      else 0.0
  }

  /** Before dismissal: opaque above 0, a linear fade on (−50, 0], invisible at −50 and below. */
  lemma VisibleStripOpacity(scrollOffset: real)
    ensures scrollOffset > 0.0 ==> StripOpacity(scrollOffset, false) == 1.0
    ensures -50.0 < scrollOffset <= 0.0 ==> StripOpacity(scrollOffset, false) == 1.0 + scrollOffset / 50.0
    ensures scrollOffset <= -50.0 ==> StripOpacity(scrollOffset, false) == 0.0
  {
  }

  /** After dismissal: invisible up to 50, a linear fade-in on (50, 100], opaque above 100. */
  lemma DismissedStripOpacity(scrollOffset: real)
    ensures scrollOffset <= 50.0 ==> StripOpacity(scrollOffset, true) == 0.0
    ensures 50.0 < scrollOffset <= 100.0 ==> StripOpacity(scrollOffset, true) == (scrollOffset - 50.0) / 50.0
    ensures scrollOffset > 100.0 ==> StripOpacity(scrollOffset, true) == 1.0
  {
  }

  /** For a fixed dismissed flag, pulling further down never makes the strip fainter. */
  lemma StripOpacityMonotone(a: real, b: real, isStripDismissed: bool)
    requires a <= b
    ensures StripOpacity(a, isStripDismissed) <= StripOpacity(b, isStripDismissed)
  {
  }

  /**
   * The pieces meet at every threshold: each linear piece takes, at the ends
   * of its interval, the values of the constant pieces beside it.
   */
  lemma StripOpacityContinuous()
    ensures StripOpacity(0.0, false) == 1.0 && StripOpacity(-50.0, false) == 1.0 + -50.0 / 50.0
    ensures StripOpacity(50.0, true) == (50.0 - 50.0) / 50.0 && StripOpacity(100.0, true) == 1.0
  {
  }

  /** `momentumStripOffset`: a slight upward shift while fading out. */
  function StripOffset(scrollOffset: real, isStripDismissed: bool): (r: real)
    ensures r <= 0.0
    ensures scrollOffset < 0.0 && !isStripDismissed ==> r == 0.3 * scrollOffset
    ensures scrollOffset >= 0.0 || isStripDismissed ==> r == 0.0
  {
    if scrollOffset < 0.0 && !isStripDismissed then Min(0.0, scrollOffset * 0.3) else 0.0
  }

  /** `updateStripVisibility()` as a function of the old flag and the offset. */
  function NextDismissed(isStripDismissed: bool, scrollOffset: real): (r: bool)
    ensures scrollOffset < -100.0 ==> r
    ensures scrollOffset > 120.0 ==> !r
    ensures -100.0 <= scrollOffset <= 120.0 ==> r == isStripDismissed
  {
    var dismissed := if !isStripDismissed && scrollOffset < -100.0 then true else isStripDismissed;
    if dismissed && scrollOffset > 120.0 then false else dismissed
  }

  /** Updating twice at the same offset is updating once. */
  lemma NextDismissedIdempotent(isStripDismissed: bool, scrollOffset: real)
    ensures NextDismissed(NextDismissed(isStripDismissed, scrollOffset), scrollOffset)
         == NextDismissed(isStripDismissed, scrollOffset)
  {
  }

  // Card actions

  /** The card flag an action toggles. */
  datatype Flag = Playing | Looping

  /** `firstIndex(where: { $0.id == id })`. */
  function FirstIndex(cards: seq<Visualization>, id: Uuid): (r: Option<nat>)
    ensures r.Some? ==> r.value < |cards| && cards[r.value].id == id
    ensures r.Some? ==> forall j :: 0 <= j < r.value ==> cards[j].id != id
    ensures r.None? <==> forall j :: 0 <= j < |cards| ==> cards[j].id != id
  {
    if |cards| == 0 then None
    else if cards[0].id == id then Some(0)
    else match FirstIndex(cards[1..], id)
      case None => None
      case Some(i) => Some(i + 1)
  }

  /** The card with `flag` toggled: `isPlaying.toggle()` or `isLooping.toggle()`. */
  function Toggle(v: Visualization, flag: Flag): (r: Visualization)
    ensures SameRecord(r, v)
  {
    match flag
    case Playing => v.(isPlaying := !v.isPlaying)
    case Looping => v.(isLooping := !v.isLooping)
  }

  /** Toggling the same flag twice restores the card. */
  lemma ToggleInvolutive(v: Visualization, flag: Flag)
    ensures Toggle(Toggle(v, flag), flag) == v
  {
  }

  /** Exactly the chosen flag flips; the other flag and every `let` field stay. */
  lemma ToggleFlipsOneFlag(v: Visualization, flag: Flag)
    ensures flag == Playing ==> Toggle(v, flag).isPlaying == !v.isPlaying && Toggle(v, flag).isLooping == v.isLooping
    ensures flag == Looping ==> Toggle(v, flag).isLooping == !v.isLooping && Toggle(v, flag).isPlaying == v.isPlaying
    ensures SameRecord(Toggle(v, flag), v)
  {
  }

  /** The feed after toggling `flag` of the first card whose id is `id`. */
  function ToggledFirst(cards: seq<Visualization>, id: Uuid, flag: Flag): (r: seq<Visualization>)
    ensures |r| == |cards|
  {
    match FirstIndex(cards, id)
    case None => cards
    case Some(i) => cards[i := Toggle(cards[i], flag)]
  }

  /** Only the first card with the id changes, and only in the chosen flag. */
  lemma ToggledFirstChangesOneCard(cards: seq<Visualization>, id: Uuid, flag: Flag, j: nat)
    requires j < |cards|
    ensures FirstIndex(cards, id) == Some(j) ==> ToggledFirst(cards, id, flag)[j] == Toggle(cards[j], flag)
    ensures FirstIndex(cards, id) != Some(j) ==> ToggledFirst(cards, id, flag)[j] == cards[j]
    ensures SameRecord(ToggledFirst(cards, id, flag)[j], cards[j])
  {
  }

  /** An id that no card has leaves the feed unchanged. */
  lemma ToggledUnknownId(cards: seq<Visualization>, id: Uuid, flag: Flag)
    requires forall j :: 0 <= j < |cards| ==> cards[j].id != id
    ensures ToggledFirst(cards, id, flag) == cards
  {
  }

  /** The first index of an id depends only on the ids of the cards. */
  lemma FirstIndexByIds(a: seq<Visualization>, b: seq<Visualization>, id: Uuid)
    requires |a| == |b|
    requires forall j :: 0 <= j < |a| ==> a[j].id == b[j].id
    ensures FirstIndex(a, id) == FirstIndex(b, id)
  {
  }

  /** Tapping the same action twice on the same card restores the feed. */
  lemma ToggledFirstTwice(cards: seq<Visualization>, id: Uuid, flag: Flag)
    ensures ToggledFirst(ToggledFirst(cards, id, flag), id, flag) == cards
  {
    var once := ToggledFirst(cards, id, flag);
    FirstIndexByIds(once, cards, id);
    match FirstIndex(cards, id)
    case None =>
    case Some(i) =>
      ToggleInvolutive(cards[i], flag);
      assert once[i := Toggle(once[i], flag)] == cards;
  }

  /** In the initial feed, with the five generated ids distinct, card k is the one found for id k. */
  lemma MockCardFound(ids: seq<Uuid>, k: nat)
    requires |ids| == 5 && k < 5
    requires forall i, j :: 0 <= i < j < 5 ==> ids[i] != ids[j]
    ensures FirstIndex(MockData(ids), ids[k]) == Some(k)
  {
  }

  /** The feed's state: the cards, the momentum data, the scroll offset and the dismissed flag. */
  class HomeFeed {
    var visualizations: seq<Visualization>
    var currentIndex: int
    var momentumData: MomentumData
    var scrollOffset: real
    var isStripDismissed: bool

    /** The initial `@State`: the mock cards, 8 of 15 minutes with a 12-day streak, no scroll. */
    constructor (mockIds: seq<Uuid>)
      requires |mockIds| == 5
      ensures visualizations == MockData(mockIds)
      ensures currentIndex == 0 && momentumData == MomentumData(8, 15, 12)
      ensures scrollOffset == 0.0 && !isStripDismissed
    {
      visualizations := MockData(mockIds);
      currentIndex := 0;
      momentumData := MomentumData(8, 15, 12);
      scrollOffset := 0.0;
      isStripDismissed := false;
    }

    /** The current `momentumStripOpacity`. */
    function MomentumStripOpacity(): (r: real)
      reads this
      ensures 0.0 <= r <= 1.0
    {
      StripOpacity(scrollOffset, isStripDismissed)
    }

    /** The current `momentumStripOffset`. */
    function MomentumStripOffset(): (r: real)
      reads this
      ensures r <= 0.0
    {
      StripOffset(scrollOffset, isStripDismissed)
    }

    /** `updateStripVisibility()`: dismiss below −100, reveal above 120, else keep. */
    method UpdateStripVisibility()
      modifies this`isStripDismissed
      ensures isStripDismissed == NextDismissed(old(isStripDismissed), scrollOffset)
    {
      if !isStripDismissed && scrollOffset < -100.0 {
        isStripDismissed := true;
      }
      if isStripDismissed && scrollOffset > 120.0 {
        isStripDismissed := false;
      }
    }

    /** The `onPreferenceChange` handler: record the new offset, then update visibility. */
    method ScrollOffsetChanged(value: real)
      modifies this`scrollOffset, this`isStripDismissed
      ensures scrollOffset == value
      ensures isStripDismissed == NextDismissed(old(isStripDismissed), value)
    {
      scrollOffset := value;
      UpdateStripVisibility();
    }

    /** Toggle `flag` of the first card with `id`, in place. */
    method ToggleCard(id: Uuid, flag: Flag)
      modifies this`visualizations
      ensures visualizations == ToggledFirst(old(visualizations), id, flag)
    {
      var index := FirstIndex(visualizations, id);
      if index.Some? {
        var i := index.value;
        visualizations := visualizations[i := Toggle(visualizations[i], flag)];
      }
    }

    /** `handlePlayTapped(for:)`. */
    method HandlePlayTapped(id: Uuid)
      modifies this`visualizations
      ensures visualizations == ToggledFirst(old(visualizations), id, Playing)
    {
      ToggleCard(id, Playing);
    }

    /** `handleLoopTapped(for:)`. */
    method HandleLoopTapped(id: Uuid)
      modifies this`visualizations
      ensures visualizations == ToggledFirst(old(visualizations), id, Looping)
    {
      ToggleCard(id, Looping);
    }

    /**
     * `handleAudioTapped(for:)` and `handleMoreTapped(for:)` change no state:
     * they only look up the first card with the id and log its affirmation,
     * which is returned here.
     */
    method FirstAffirmation(id: Uuid) returns (logged: Option<string>)
      ensures logged.None? <==> forall j :: 0 <= j < |visualizations| ==> visualizations[j].id != id
      ensures logged.Some? ==> exists j :: 0 <= j < |visualizations| && FirstIndex(visualizations, id) == Some(j)
                                && logged.value == visualizations[j].affirmation
    {
      var index := FirstIndex(visualizations, id);
      if index.Some? {
        logged := Some(visualizations[index.value].affirmation);
      } else {
        logged := None;
      }
    }

    /** `handleAudioTapped(for:)`. */
    method HandleAudioTapped(id: Uuid) returns (logged: Option<string>)
      ensures logged == (match FirstIndex(visualizations, id)
                         case Some(j) => Some(visualizations[j].affirmation)
                         case None => None)
    {
      logged := FirstAffirmation(id);
    }

    /** `handleMoreTapped(for:)`. */
    method HandleMoreTapped(id: Uuid) returns (logged: Option<string>)
      ensures logged == (match FirstIndex(visualizations, id)
                         case Some(j) => Some(visualizations[j].affirmation)
                         case None => None)
    {
      logged := FirstAffirmation(id);
    }
  }
}
