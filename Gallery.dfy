/** The sample gallery (gallery.js): play buttons over audio elements with a
    single "current" track, the `ended` and page-hidden handlers, and the
    category filter over the cards. */
module Gallery {
  import opened Text
  import opened Orders

  /** The first position holding `id`: `getElementById` and `querySelector`
      return the first match in document order. */
  function FirstIndex(ids: seq<string>, id: string): (r: Option<nat>)
    ensures r.None? <==> id !in ids
    ensures r.Some? ==> r.value < |ids| && ids[r.value] == id && id !in ids[..r.value]
  {
    if id !in ids then None
    else if ids[0] == id then Some(0)
    else
      var r := FirstIndex(ids[1..], id);
      assert ids[..r.value + 1] == [ids[0]] + ids[1..][..r.value];
      Some(r.value + 1)
  }

  /** The label of a play button. */
  datatype Glyph = PlayGlyph | PauseGlyph

  class AudioGallery {
    /** The `id` of each audio element and the `data-audio` of each play
        button; the page never changes them. */
    const audioIds: seq<string>
    const buttonAudio: seq<string>
    // per audio element
    const paused: array<bool>
    const position: array<nat>      // currentTime, in whole units
    // per play button and the artwork card around it
    const glyph: array<Glyph>
    const playing: array<bool>      // the card's `playing` class
    // the closure variables of setupAudioPlayers
    var currentAudio: Option<nat>
    var currentButton: Option<nat>
    /** Every `ended` listener added so far, as (audio, button); a click
        adds one each time. */
    var endedListeners: seq<(nat, nat)>

    /** At most one audio is unpaused, and it is the current one. */
    ghost predicate SingleFlight()
      reads this, paused
    {
      forall k :: 0 <= k < paused.Length && !paused[k] ==> currentAudio == Some(k)
    }

    ghost predicate Valid()
      reads this, paused, position, glyph, playing
    {
      && paused.Length == position.Length == |audioIds|
      && glyph.Length == playing.Length == |buttonAudio|
      && paused != playing
      && (currentAudio.Some? ==> currentAudio.value < |audioIds|)
      && (currentButton.Some? ==> currentButton.value < |buttonAudio|)
      && (currentAudio.Some? <==> currentButton.Some?)
      && (forall j :: 0 <= j < |endedListeners| ==>
            endedListeners[j].0 < |audioIds| && endedListeners[j].1 < |buttonAudio|)
      && SingleFlight()
    }

    /** The button whose `data-audio` names audio `a`. */
    function ButtonOf(a: nat): Option<nat>
      reads this
      requires a < |audioIds|
    {
      FirstIndex(buttonAudio, audioIds[a])
    }

    /** The page as loaded: everything paused at the start, play glyphs. */
    constructor (audioIds: seq<string>, buttonAudio: seq<string>)
      ensures Valid()
      ensures this.audioIds == audioIds && this.buttonAudio == buttonAudio
      ensures forall k :: 0 <= k < paused.Length ==> paused[k] && position[k] == 0
      ensures forall k :: 0 <= k < glyph.Length ==> glyph[k] == PlayGlyph && !playing[k]
      ensures currentAudio == None && currentButton == None && endedListeners == []
      ensures fresh(paused) && fresh(position) && fresh(glyph) && fresh(playing)
    {
      this.audioIds := audioIds;
      this.buttonAudio := buttonAudio;
      paused := new bool[|audioIds|](_ => true);
      position := new nat[|audioIds|](_ => 0);
      glyph := new Glyph[|buttonAudio|](_ => PlayGlyph);
      playing := new bool[|buttonAudio|](_ => false);
      currentAudio, currentButton := None, None;
      endedListeners := [];
    }

    /** The click handler of play button `b`. With no audio of the named id
        nothing happens. Otherwise a different current audio is stopped and
        rewound and its button reset; then the clicked audio is toggled:
        played and made current, or paused and the tracker cleared; and
        another `ended` listener is added. */
    method Click(b: nat)
      requires Valid()
      requires b < |buttonAudio|
      modifies this, paused, position, glyph, playing
      ensures Valid()
      ensures SingleFlight()
      ensures FirstIndex(audioIds, buttonAudio[b]).None? ==>
        && paused[..] == old(paused[..]) && position[..] == old(position[..])
        && glyph[..] == old(glyph[..]) && playing[..] == old(playing[..])
        && currentAudio == old(currentAudio) && currentButton == old(currentButton)
        && endedListeners == old(endedListeners)
      ensures FirstIndex(audioIds, buttonAudio[b]).Some? ==>
        var a := FirstIndex(audioIds, buttonAudio[b]).value;
        var stopped := if old(currentAudio).Some? && old(currentAudio).value != a then old(currentAudio) else None;
        var reset := if stopped.Some? then old(currentButton) else None;
        && paused[a] == !old(paused[a])
        && (forall k :: 0 <= k < paused.Length && k != a ==>
              paused[k] == (old(paused[k]) || stopped == Some(k)))
        && (forall k :: 0 <= k < position.Length ==>
              position[k] == if stopped == Some(k) then 0 else old(position[k]))
        && (old(paused[a]) ==>
              currentAudio == Some(a) && currentButton == Some(b) && glyph[b] == PauseGlyph && playing[b])
        && (!old(paused[a]) ==>
              currentAudio == None && currentButton == None && glyph[b] == PlayGlyph && !playing[b])
        && (forall k :: 0 <= k < glyph.Length && k != b ==>
              glyph[k] == (if reset == Some(k) then PlayGlyph else old(glyph[k])) &&
              playing[k] == (if reset == Some(k) then false else old(playing[k])))
        && endedListeners == old(endedListeners) + [(a, b)]
    {
      var found := FirstIndex(audioIds, buttonAudio[b]);
      if found.None? {
        return;
      }
      var a := found.value;
      if currentAudio.Some? && currentAudio.value != a {
        var c := currentAudio.value;
        paused[c] := true;
        position[c] := 0;
        if currentButton.Some? {
          glyph[currentButton.value] := PlayGlyph;
          playing[currentButton.value] := false;
        }
      }
      if paused[a] {
        paused[a] := false;
        glyph[b] := PauseGlyph;
        playing[b] := true;
        currentAudio, currentButton := Some(a), Some(b);
      } else {
        paused[a] := true;
        glyph[b] := PlayGlyph;
        playing[b] := false;
        currentAudio, currentButton := None, None;
      }
      endedListeners := endedListeners + [(a, b)];
    }

    /** Audio `a` plays to its end: it becomes paused and each `ended`
        listener registered for it resets its button and clears the
        tracker. */
    method PlaybackEnds(a: nat)
      requires Valid()
      requires a < |audioIds| && !paused[a]
      modifies this`currentAudio, this`currentButton, paused, glyph, playing
      ensures Valid()
      ensures paused[a] && forall k :: 0 <= k < paused.Length && k != a ==> paused[k] == old(paused[k])
      ensures forall k :: 0 <= k < glyph.Length ==>
        glyph[k] == (if (a, k) in endedListeners then PlayGlyph else old(glyph[k])) &&
        playing[k] == (if (a, k) in endedListeners then false else old(playing[k]))
      ensures (exists k :: 0 <= k < glyph.Length && (a, k) in endedListeners) ==>
        currentAudio == None && currentButton == None
      ensures (forall k :: 0 <= k < glyph.Length ==> (a, k) !in endedListeners) ==>
        currentAudio == old(currentAudio) && currentButton == old(currentButton)
      ensures endedListeners == old(endedListeners)
    {
      paused[a] := true;
      for j := 0 to |endedListeners|
        invariant forall k :: 0 <= k < paused.Length && k != a ==> paused[k] == old(paused[k])
        invariant paused[a]
        invariant forall k :: 0 <= k < glyph.Length ==>
          glyph[k] == (if (a, k) in endedListeners[..j] then PlayGlyph else old(glyph[k])) &&
          playing[k] == (if (a, k) in endedListeners[..j] then false else old(playing[k]))
        invariant (exists k :: 0 <= k < glyph.Length && (a, k) in endedListeners[..j]) ==>
          currentAudio == None && currentButton == None
        invariant (forall k :: 0 <= k < glyph.Length ==> (a, k) !in endedListeners[..j]) ==>
          currentAudio == old(currentAudio) && currentButton == old(currentButton)
      {
        var listener := endedListeners[j];
        assert endedListeners[..j + 1] == endedListeners[..j] + [listener];
        if listener.0 == a {
          glyph[listener.1] := PlayGlyph;
          playing[listener.1] := false;
          currentAudio, currentButton := None, None;
        }
      }
      assert endedListeners[..|endedListeners|] == endedListeners;
    }

    /** The `visibilitychange` handler when the page is hidden: every
        playing audio is paused and the first button naming it is reset.
        The tracker is left as it was. */
    method PageHidden()
      requires Valid()
      modifies paused, glyph, playing
      ensures Valid()
      ensures forall k :: 0 <= k < paused.Length ==> paused[k]
      ensures currentAudio == old(currentAudio) && currentButton == old(currentButton)
      ensures forall k :: 0 <= k < glyph.Length ==>
        var reset := exists c :: 0 <= c < |audioIds| && !old(paused[c]) && ButtonOf(c) == Some(k);
        glyph[k] == (if reset then PlayGlyph else old(glyph[k])) &&
        playing[k] == (if reset then false else old(playing[k]))
    {
      for i := 0 to paused.Length
        invariant forall k :: 0 <= k < i ==> paused[k]
        invariant forall k :: i <= k < paused.Length ==> paused[k] == old(paused[k])
        invariant forall k :: 0 <= k < glyph.Length ==>
          var reset := exists c :: 0 <= c < i && !old(paused[c]) && ButtonOf(c) == Some(k);
          glyph[k] == (if reset then PlayGlyph else old(glyph[k])) &&
          playing[k] == (if reset then false else old(playing[k]))
      {
        if !paused[i] {
          paused[i] := true;
          var button := FirstIndex(buttonAudio, audioIds[i]);
          if button.Some? {
            glyph[button.value] := PlayGlyph;
            playing[button.value] := false;
          }
        }
      }
    }
  }

  /** Whether a card stays shown under `filter`: the filter is "all" or one
      of the card's space-separated categories. */
  predicate CardVisible(filter: string, category: string)
  {
    filter == "all" || filter in SplitOnSpace(category)
  }

  /** For a card whose categories are the space-joined `tags`, a filter
      other than "all" shows it exactly when it is one of the tags. */
  lemma CardVisibleTags(filter: string, tags: seq<string>)
    requires |tags| >= 1
    requires forall k :: 0 <= k < |tags| ==> ' ' !in tags[k]
    ensures CardVisible(filter, JoinWithSpace(tags)) <==> filter == "all" || filter in tags
  {
    SplitJoin(tags);
  }

  /** A filter holding a space shows no card, since no piece of a split
      contains a space. */
  lemma SpacedFilterHidesAll(filter: string, category: string)
    requires ' ' in filter
    ensures !CardVisible(filter, category)
  {
    var parts := SplitOnSpace(category);
    assert filter !in parts by {
      forall k | 0 <= k < |parts| ensures parts[k] != filter {
        assert ' ' !in parts[k];
      }
    }
  }

  /** The filter buttons and the cards. */
  class FilterBar {
    const filters: seq<string>      // data-filter of each button
    const categories: seq<string>   // data-category of each card
    const active: array<bool>
    const shown: array<bool>        // the card's final display: block or none

    ghost predicate Valid()
      reads this
    {
      active.Length == |filters| && shown.Length == |categories| && active != shown
    }

    constructor (filters: seq<string>, categories: seq<string>, initiallyActive: nat)
      ensures Valid()
      ensures this.filters == filters && this.categories == categories
      ensures forall k :: 0 <= k < active.Length ==> active[k] == (k == initiallyActive)
      ensures forall k :: 0 <= k < shown.Length ==> shown[k]
      ensures fresh(active) && fresh(shown)
    {
      this.filters := filters;
      this.categories := categories;
      active := new bool[|filters|](k => k == initiallyActive);
      shown := new bool[|categories|](_ => true);
    }

    /** The click handler of filter button `f`: only it is active, and each
        card ends up shown exactly when it matches the filter. */
    method Click(f: nat)
      requires Valid() && f < |filters|
      modifies active, shown
      ensures Valid()
      ensures forall k :: 0 <= k < active.Length ==> active[k] == (k == f)
      ensures forall k :: 0 <= k < shown.Length ==> shown[k] == CardVisible(filters[f], categories[k])
    {
      for i := 0 to active.Length
        invariant forall k :: 0 <= k < i ==> !active[k]
      {
        active[i] := false;
      }
      active[f] := true;
      var filter := filters[f];
      for i := 0 to shown.Length
        invariant forall k :: 0 <= k < active.Length ==> active[k] == (k == f)
        invariant forall k :: 0 <= k < i ==> shown[k] == CardVisible(filter, categories[k])
      {
        if filter == "all" {
          shown[i] := true;
        } else {
          var cardCategories := SplitOnSpace(categories[i]);
          shown[i] := filter in cardCategories;
        }
      }
    }
  }
}
