/** components/MobilePlayerView.tsx: circular next/previous navigation, the
    swipe classifier, the canRewind and hasEverPlayed latches, and the vinyl
    groove filter. Track selection is reported to the parent through
    onTrackSelect; here the selecting operations return the index they would
    pass (None when they pass nothing). The view can only render with a
    current track, so the playlist it is given is never empty. */
module MobilePlayerView {
  import opened Base
  import opened PlaylistTypes
  import StableSort

  // ---------------------------------------------------------------------
  // Circular navigation

  /** (findIndex(current) + 1) % allTracks.length: used by the next button
      and by a left swipe. */
  function NextIndex(allTracks: seq<Track>, currentId: string): (r: int)
    requires |allTracks| > 0
    ensures 0 <= r < |allTracks|
    ensures r == 0 <==> TrackIndex(allTracks, currentId) in {-1, |allTracks| - 1}
  {
    var i := TrackIndex(allTracks, currentId);
    var r := JsRem(i + 1, |allTracks|);
    assert r == if i == |allTracks| - 1 then 0 else i + 1 by {
      if i == |allTracks| - 1 { ModUnique(i + 1, |allTracks|, 1, 0); }
      else { ModUnique(i + 1, |allTracks|, 0, i + 1); }
    }
    r
  }

  /** The last track when the current one is first, otherwise the one before;
      used by the previous button and by a right swipe. */
  function PreviousIndex(allTracks: seq<Track>, currentId: string): (r: int)
    ensures r == -2 || 0 <= r < |allTracks|
    ensures r == -2 <==> TrackIndex(allTracks, currentId) == -1
  {
    var i := TrackIndex(allTracks, currentId);
    if i == 0 then |allTracks| - 1 else i - 1
  }

  /** For a track of the playlist, next is the following track and previous
      the preceding one, both wrapping around. */
  lemma NavigationIsCircular(allTracks: seq<Track>, i: int)
    requires DistinctIds(allTracks) && 0 <= i < |allTracks|
    ensures NextIndex(allTracks, allTracks[i].id) == if i == |allTracks| - 1 then 0 else i + 1
    ensures PreviousIndex(allTracks, allTracks[i].id) == if i == 0 then |allTracks| - 1 else i - 1
  {
    TrackIndexOfMember(allTracks, i);
    var n := |allTracks|;
    if i + 1 < n {
      ModUnique(i + 1, n, 0, i + 1);
    } else {
      ModUnique(n, n, 1, 0);
    }
  }

  /** Previous undoes next: from the track after the current one, previous
      leads back to the current one. */
  lemma PreviousUndoesNext(allTracks: seq<Track>, i: int)
    requires DistinctIds(allTracks) && 0 <= i < |allTracks|
    ensures var j := NextIndex(allTracks, allTracks[i].id);
      0 <= j < |allTracks| && PreviousIndex(allTracks, allTracks[j].id) == i
  {
    NavigationIsCircular(allTracks, i);
    var j := NextIndex(allTracks, allTracks[i].id);
    NavigationIsCircular(allTracks, j);
  }

  /** When the current track is not in the list, next selects the first
      track but previous passes the invalid index -2. */
  lemma MissingCurrentTrack(allTracks: seq<Track>, currentId: string)
    requires |allTracks| > 0 && forall i :: 0 <= i < |allTracks| ==> allTracks[i].id != currentId
    ensures NextIndex(allTracks, currentId) == 0
    ensures PreviousIndex(allTracks, currentId) == -2
  {
    ModUnique(0, |allTracks|, 0, 0);
  }

  // ---------------------------------------------------------------------
  // Swipes

  const SWIPE_THRESHOLD: real := 50.0
  const SWIPE_VELOCITY: real := 500.0

  datatype Swipe = SwipeNext | SwipePrevious | NoSwipe

  /** onDragEnd: a drag far or fast enough to the left means next; failing
      that, one far or fast enough to the right means previous. Offsets are
      in pixels, velocities in pixels per second. */
  function ClassifySwipe(offset: real, velocity: real): (r: Swipe)
    ensures r == SwipeNext <==> offset < -SWIPE_THRESHOLD || velocity < -SWIPE_VELOCITY
    ensures r == NoSwipe <==>
      -SWIPE_THRESHOLD <= offset <= SWIPE_THRESHOLD && -SWIPE_VELOCITY <= velocity <= SWIPE_VELOCITY
  {
    if offset < -SWIPE_THRESHOLD || velocity < -SWIPE_VELOCITY then SwipeNext
    else if offset > SWIPE_THRESHOLD || velocity > SWIPE_VELOCITY then SwipePrevious
    else NoSwipe
  }

  /** A drag within 50 pixels and 500 pixels per second in both directions
      does nothing, and any other drag changes track. */
  lemma SmallDragsIgnored(offset: real, velocity: real)
    ensures ClassifySwipe(offset, velocity) == NoSwipe
        <==> -50.0 <= offset <= 50.0 && -500.0 <= velocity <= 500.0
  {
  }

  /** Left and right are mirror images, except that a drag that meets both
      a left and a right criterion counts as left. */
  lemma SwipeMirror(offset: real, velocity: real)
    ensures ClassifySwipe(offset, velocity) == SwipePrevious ==> ClassifySwipe(-offset, -velocity) == SwipeNext
    ensures ClassifySwipe(offset, velocity) == SwipeNext && !(offset > 50.0 || velocity > 500.0)
            ==> ClassifySwipe(-offset, -velocity) == SwipePrevious
    ensures ClassifySwipe(-60.0, 600.0) == SwipeNext && ClassifySwipe(60.0, -600.0) == SwipeNext
  {
  }

  // ---------------------------------------------------------------------
  // The latches

  /** The view's navigation state across renders. `currentTrackId` and
      `isPlaying` are the latest props; `previousTrackId` is the ref the
      rewind effect compares against. */
  class MobilePlayer {
    const allTracks: seq<Track>
    var currentTrackId: string
    var isPlaying: bool
    var previousTrackId: string
    var canRewind: bool
    var hasEverPlayed: bool

    /** After every effect has run the ref holds the current id. */
    predicate Valid()
      reads this
    {
      |allTracks| > 0 && previousTrackId == currentTrackId
    }

    /** First render and mount effects: the ref starts at the current id, so
        the rewind effect does not fire; hasEverPlayed is set if the view
        mounts while playing. */
    constructor (allTracks: seq<Track>, currentTrackId: string, isPlaying: bool)
      requires |allTracks| > 0
      ensures this.allTracks == allTracks && this.currentTrackId == currentTrackId
      ensures this.isPlaying == isPlaying
      ensures !canRewind && hasEverPlayed == isPlaying
      ensures Valid()
    {
      this.allTracks := allTracks;
      this.currentTrackId := currentTrackId;
      this.isPlaying := isPlaying;
      previousTrackId := currentTrackId;
      canRewind := false;
      hasEverPlayed := isPlaying;
    }

    /** A re-render with new props, followed by the two latch effects. */
    method Rerender(newTrackId: string, newIsPlaying: bool)
      requires Valid()
      modifies this
      ensures Valid()
      ensures currentTrackId == newTrackId && isPlaying == newIsPlaying
      ensures hasEverPlayed == (old(hasEverPlayed) || newIsPlaying)
      ensures canRewind == (old(canRewind) || newTrackId != old(currentTrackId))
    {
      currentTrackId := newTrackId;
      isPlaying := newIsPlaying;
      if isPlaying && !hasEverPlayed {
        hasEverPlayed := true;
      }
      if previousTrackId != currentTrackId {
        canRewind := true;
        previousTrackId := currentTrackId;
      }
    }

    /** handleNextTrack */
    method NextButton() returns (selected: Option<int>)
      requires Valid()
      ensures selected.Some? && 0 <= selected.value < |allTracks|
      ensures selected.value == NextIndex(allTracks, currentTrackId)
    {
      var currentIndex := TrackIndex(allTracks, currentTrackId);
      selected := Some(JsRem(currentIndex + 1, |allTracks|));
    }

    /** handlePreviousTrack: nothing until the track has changed once. */
    method PreviousButton() returns (selected: Option<int>)
      requires Valid()
      ensures selected.Some? <==> canRewind
      ensures selected.Some? ==> selected.value == PreviousIndex(allTracks, currentTrackId)
      ensures selected.Some? ==> -2 <= selected.value < |allTracks|
    {
      if !canRewind {
        return None;
      }
      var currentIndex := TrackIndex(allTracks, currentTrackId);
      selected := Some(if currentIndex == 0 then |allTracks| - 1 else currentIndex - 1);
    }

    /** onDragEnd: a right swipe selects the previous track whether or not
        canRewind is set. */
    method DragEnd(offset: real, velocity: real) returns (selected: Option<int>)
      requires Valid()
      ensures selected.None? <==> ClassifySwipe(offset, velocity) == NoSwipe
      ensures ClassifySwipe(offset, velocity) == SwipeNext ==>
                selected == Some(NextIndex(allTracks, currentTrackId))
      ensures ClassifySwipe(offset, velocity) == SwipePrevious ==>
                selected == Some(PreviousIndex(allTracks, currentTrackId))
    {
      if offset < -SWIPE_THRESHOLD || velocity < -SWIPE_VELOCITY {
        selected := NextButton();
      } else if offset > SWIPE_THRESHOLD || velocity > SWIPE_VELOCITY {
        var currentIndex := TrackIndex(allTracks, currentTrackId);
        selected := Some(if currentIndex == 0 then |allTracks| - 1 else currentIndex - 1);
      } else {
        selected := None;
      }
    }
  }

  // ---------------------------------------------------------------------
  // Vinyl grooves

  const GROOVE_MIN: real := 3.0
  const GROOVE_MAX: real := 72.0
  const MINIMUM_SEPARATION: real := 3.5

  /** Math.max(3, Math.min(72, p)) */
  function ClampGroove(p: real): (r: real)
    ensures GROOVE_MIN <= r <= GROOVE_MAX
    ensures GROOVE_MIN <= p <= GROOVE_MAX ==> r == p
    ensures p < GROOVE_MIN ==> r == GROOVE_MIN
    ensures p > GROOVE_MAX ==> r == GROOVE_MAX
  {
    if p > GROOVE_MAX then GROOVE_MAX else if p < GROOVE_MIN then GROOVE_MIN else p
  }

  function ClampAll(raw: seq<real>): (r: seq<real>)
    ensures |r| == |raw|
    ensures forall i :: 0 <= i < |r| ==> r[i] == ClampGroove(raw[i])
  {
    if raw == [] then [] else [ClampGroove(raw[0])] + ClampAll(raw[1..])
  }

  function Identity(p: real): real { p }

  /** The greedy separation filter: keep a position when it lies at least
      MINIMUM_SEPARATION past the last kept one. Nothing is kept within a
      separation of `last`, and a first position that clears it is kept. */
  function Greedy(s: seq<real>, last: real): (r: seq<real>)
    ensures |r| <= |s|
    ensures forall x :: x in r ==> x - last >= MINIMUM_SEPARATION
    ensures s != [] && s[0] - last >= MINIMUM_SEPARATION ==> r != [] && r[0] == s[0]
  {
    if s == [] then []
    else if s[0] - last >= MINIMUM_SEPARATION then [s[0]] + Greedy(s[1..], s[0])
    else Greedy(s[1..], last)
  }

  /** The grooves drawn for the raw (already jittered) positions: at most one
      per position, and none below 0, since the filter starts a full
      separation below it. */
  function Grooves(raw: seq<real>): (r: seq<real>)
    ensures |r| <= |raw|
    ensures forall x :: x in r ==> x >= 0.0
  {
    Greedy(StableSort.SortBy(ClampAll(raw), Identity), -MINIMUM_SEPARATION)
  }

  predicate Separated(s: seq<real>) {
    forall i :: 0 < i < |s| ==> s[i] - s[i - 1] >= MINIMUM_SEPARATION
  }

  /** Every kept position lies a full separation past `last` and past the
      kept one before it, and each comes from the input. */
  lemma {:induction false} GreedySeparated(s: seq<real>, last: real)
    ensures var g := Greedy(s, last);
      Separated(g) && (g != [] ==> g[0] - last >= MINIMUM_SEPARATION) &&
      multiset(g) <= multiset(s)
  {
    if s != [] {
      assert s == [s[0]] + s[1..];
      if s[0] - last >= MINIMUM_SEPARATION {
        GreedySeparated(s[1..], s[0]);
      } else {
        GreedySeparated(s[1..], last);
      }
    }
  }

  /** The drawn grooves ascend with gaps of at least 3.5, lie in [3, 72]
      and are drawn from the clamped positions. */
  lemma GroovesProperties(raw: seq<real>)
    ensures var g := Grooves(raw);
      Separated(g) && multiset(g) <= multiset(ClampAll(raw)) &&
      forall i :: 0 <= i < |g| ==> GROOVE_MIN <= g[i] <= GROOVE_MAX
  {
    var clamped := ClampAll(raw);
    var sorted := StableSort.SortBy(clamped, Identity);
    StableSort.SortIsPermutation(clamped, Identity);
    GreedySeparated(sorted, -MINIMUM_SEPARATION);
    ClampedInRange(raw);
    var g := Greedy(sorted, -MINIMUM_SEPARATION);
    SubMultisetMembers(g, clamped);
  }

  /** An element of a sub-multiset is an element of the whole. */
  lemma SubMultisetMembers(a: seq<real>, b: seq<real>)
    requires multiset(a) <= multiset(b)
    ensures forall i :: 0 <= i < |a| ==> a[i] in b
  {
    forall i | 0 <= i < |a| ensures a[i] in b {
      assert a[i] in multiset(a);
    }
  }

  /** The smallest clamped position is always drawn, first. */
  lemma GroovesKeepSmallest(raw: seq<real>)
    requires raw != []
    ensures var g := Grooves(raw);
      g != [] && forall p :: p in ClampAll(raw) ==> g[0] <= p
  {
    var clamped := ClampAll(raw);
    var sorted := StableSort.SortBy(clamped, Identity);
    StableSort.SortIsPermutation(clamped, Identity);
    StableSort.SortIsSorted(clamped, Identity);
    SamePositions(sorted, clamped);
    SortedFirstIsLeast(sorted);
    ClampedInRange(raw);
    assert sorted[0] in sorted;
    assert Grooves(raw) == [sorted[0]] + Greedy(sorted[1..], sorted[0]);
  }

  /** Clamped positions lie in [3, 72]. */
  lemma ClampedInRange(raw: seq<real>)
    ensures forall p :: p in ClampAll(raw) ==> GROOVE_MIN <= p <= GROOVE_MAX
  {
    var clamped := ClampAll(raw);
    forall p | p in clamped ensures GROOVE_MIN <= p <= GROOVE_MAX {
      var j :| 0 <= j < |clamped| && clamped[j] == p;
    }
  }

  /** Permutations of each other hold the same positions. */
  lemma SamePositions(a: seq<real>, b: seq<real>)
    requires multiset(a) == multiset(b)
    ensures |a| == |b| && forall p :: p in a <==> p in b
  {
    assert |a| == |multiset(a)| == |multiset(b)| == |b|;
    forall p ensures p in a <==> p in b {
      assert p in a <==> p in multiset(a);
      assert p in b <==> p in multiset(b);
    }
  }

  /** The first of ascending positions is the least. */
  lemma SortedFirstIsLeast(sorted: seq<real>)
    requires sorted != [] && StableSort.SortedBy(sorted, Identity)
    ensures forall p :: p in sorted ==> sorted[0] <= p
  {
    forall p | p in sorted ensures sorted[0] <= p {
      var j :| 0 <= j < |sorted| && sorted[j] == p;
      if j > 0 {
        assert Identity(sorted[0]) <= Identity(sorted[j]);
      }
    }
  }

  /** The loop of the groove generator over the sorted positions. */
  method FilterGrooves(sorted: seq<real>) returns (finalGrooves: seq<real>)
    ensures finalGrooves == Greedy(sorted, -MINIMUM_SEPARATION)
  {
    finalGrooves := [];
    var lastPosition := -MINIMUM_SEPARATION;
    var i := 0;
    while i < |sorted|
      invariant 0 <= i <= |sorted|
      invariant finalGrooves + Greedy(sorted[i..], lastPosition) == Greedy(sorted, -MINIMUM_SEPARATION)
    {
      var position := sorted[i];
      assert sorted[i..] == [position] + sorted[i + 1..];
      if position - lastPosition >= MINIMUM_SEPARATION {
        finalGrooves := finalGrooves + [position];
        lastPosition := position;
      }
      i := i + 1;
    }
  }

  /** Clamp, sort, then filter. */
  method GenerateGrooves(raw: seq<real>) returns (finalGrooves: seq<real>)
    ensures finalGrooves == Grooves(raw)
    ensures Separated(finalGrooves)
    ensures forall i :: 0 <= i < |finalGrooves| ==> GROOVE_MIN <= finalGrooves[i] <= GROOVE_MAX
  {
    var groovePositions := ClampAll(raw);
    groovePositions := StableSort.SortBy(groovePositions, Identity);
    finalGrooves := FilterGrooves(groovePositions);
    GroovesProperties(raw);
  }
}
