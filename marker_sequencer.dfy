/**
 The marker playback sequencer of `LottieView`, on values: a cursor `position` over the
 animation's markers, advanced by taps that saturate at the last marker index, and a
 list of deferred configuration commands to which each position change and each
 appearance appends one play command.
 */
module MarkerSequencer {
  import opened Wrappers
  import opened Playback

  /** `Array[safe:]`: the element at `i` when `i` is a valid index, nil for every other index. */
  function SafeGet<T>(s: seq<T>, i: int): (r: Option<T>)
    ensures r != None <==> 0 <= i < |s|
    ensures r != None ==> r.value == s[i]
  {
    if i < |s| && i >= 0 then Some(s[i]) else None
  }

  /** `animation?.markers ?? []`. */
  function MarkersOf(animation: Option<Animation>): (r: seq<Marker>)
    ensures animation != None && animation.value.markers != None ==> r == animation.value.markers.value
    ensures animation == None || animation.value.markers == None ==> r == []
  {
    match animation
    case Some(a) => (match a.markers case Some(ms) => ms case None => [])
    case None => []
  }

  /** `animation?.markers?.count ?? 0`: the same count as the marker list read elsewhere. */
  function MarkerCount(animation: Option<Animation>): (n: nat)
    ensures n == |MarkersOf(animation)|
  {
    if animation != None && animation.value.markers != None then |animation.value.markers.value| else 0
  }

  /** The largest position taps can reach: the last marker index, or 0 without markers. */
  function LastIndex(markers: seq<Marker>): nat
  {
    if |markers| == 0 then 0 else |markers| - 1
  }

  /** The tap handler: advance the cursor by one unless it is already at `markerCount - 1`. */
  function AfterTap(position: int, markerCount: int): (r: int)
    ensures r == position + 1 <==> position < markerCount - 1
    ensures r != position + 1 ==> r == position
    ensures position <= markerCount - 1 ==> r <= markerCount - 1
  {
    if position < markerCount - 1 then position + 1 else position
  }

  /**
   The command `playNextMarker` appends: play the marker at `position - 1` when there is
   one, and play from the start otherwise (in particular at position 0).
   */
  function PlayCommandAt(markers: seq<Marker>, position: int): (c: Command)
    ensures c.PlayMarker? <==> 1 <= position <= |markers|
    ensures c.PlayMarker? ==> c.name == markers[position - 1].name
    ensures !c.PlayMarker? ==> c == PlayFromStart
  {
    match SafeGet(markers, position - 1)
    case Some(current) => PlayMarker(current.name)
    case None => PlayFromStart
  }

  /** The events delivered to the sequencer by SwiftUI. */
  datatype Event = Tapped | Appeared

  /** The sequencer's persistent state: the cursor and the configuration list. */
  datatype Cursor = Cursor(position: int, configurations: seq<Command>)

  /**
   One event. A tap runs the tap handler, and if `position` changed, `onChange` runs
   `playNextMarker`; an appearance runs `playNextMarker`.
   */
  function Step(markers: seq<Marker>, s: Cursor, e: Event): (r: Cursor)
    ensures s.configurations <= r.configurations
    ensures e.Tapped? ==> (|r.configurations| == |s.configurations| + 1 <==> r.position != s.position)
    ensures e.Tapped? ==> (|r.configurations| == |s.configurations| <==> r.position == s.position)
    ensures e.Tapped? ==> r.position == AfterTap(s.position, |markers|)
    ensures e.Tapped? && r.position != s.position ==>
      r.configurations == s.configurations + [PlayCommandAt(markers, r.position)]
    ensures e.Appeared? ==> r.position == s.position && r.configurations == s.configurations + [PlayCommandAt(markers, s.position)]
  {
    match e
    case Tapped =>
      var next := AfterTap(s.position, |markers|);
      if next != s.position then Cursor(next, s.configurations + [PlayCommandAt(markers, next)])
      else s
    case Appeared => Cursor(s.position, s.configurations + [PlayCommandAt(markers, s.position)])
  }

  /** A sequence of events, first to last. */
  function Run(markers: seq<Marker>, s: Cursor, events: seq<Event>): Cursor
    decreases |events|
  {
    if events == [] then s else Run(markers, Step(markers, s, events[0]), events[1..])
  }

  /** The number of appearances in a sequence of events. */
  function Appearances(events: seq<Event>): nat
    decreases |events|
  {
    if events == [] then 0 else (if events[0].Appeared? then 1 else 0) + Appearances(events[1..])
  }

  /**
   From any position in range, taps keep the cursor within `0 ..= max(0, markerCount - 1)`;
   the cursor never decreases, so it saturates rather than wrapping.
   */
  lemma {:induction false} RunStaysInRange(markers: seq<Marker>, s: Cursor, events: seq<Event>)
    requires 0 <= s.position <= LastIndex(markers)
    ensures s.position <= Run(markers, s, events).position <= LastIndex(markers)
    decreases |events|
  {
    if events != [] {
      RunStaysInRange(markers, Step(markers, s, events[0]), events[1..]);
    }
  }

  /**
   The list only grows at its end, by one command per appearance and one per position
   change; as every position change is a step of one, the growth is the appearances plus
   the distance the cursor moved.
   */
  lemma {:induction false} RunCounts(markers: seq<Marker>, s: Cursor, events: seq<Event>)
    ensures var r := Run(markers, s, events);
      s.configurations <= r.configurations &&
      |r.configurations| == |s.configurations| + Appearances(events) + (r.position - s.position)
    decreases |events|
  {
    if events != [] {
      var t := Step(markers, s, events[0]);
      RunCounts(markers, t, events[1..]);
    }
  }

  /**
   Without markers, a view that starts at position 0 never moves, and every command it
   appends, whatever the events, is a play from the start.
   */
  lemma {:induction false} RunWithoutMarkers(s: Cursor, events: seq<Event>)
    requires s.position == 0
    ensures var r := Run([], s, events);
      r.position == 0 && s.configurations <= r.configurations &&
      |r.configurations| == |s.configurations| + Appearances(events) &&
      forall k :: |s.configurations| <= k < |r.configurations| ==> r.configurations[k] == PlayFromStart
    decreases |events|
  {
    if events != [] {
      var t := Step([], s, events[0]);
      RunWithoutMarkers(t, events[1..]);
    }
  }

  /** A play command the sequencer may issue: from the start, or one of the markers before the last. */
  predicate BeforeLastMarker(markers: seq<Marker>, c: Command)
  {
    c == PlayFromStart || exists i :: 0 <= i < |markers| - 1 && c == PlayMarker(markers[i].name)
  }

  /**
   Since the cursor stops at `markerCount - 1` and the marker played is the one at
   `position - 1`, the sequencer never asks for the last marker by its index: every command
   it appends plays from the start or a marker before the last.
   */
  lemma {:induction false} RunSkipsLastMarker(markers: seq<Marker>, s: Cursor, events: seq<Event>)
    requires 0 <= s.position <= LastIndex(markers)
    ensures var r := Run(markers, s, events);
      forall k :: |s.configurations| <= k < |r.configurations| ==> BeforeLastMarker(markers, r.configurations[k])
    decreases |events|
  {
    if events != [] {
      var t := Step(markers, s, events[0]);
      var p := t.position;
      assert 0 <= p <= LastIndex(markers);
      if |t.configurations| > |s.configurations| {
        var c := t.configurations[|s.configurations|];
        assert c == PlayCommandAt(markers, p);
        if c.PlayMarker? {
          assert c == PlayMarker(markers[p - 1].name);
        }
        assert BeforeLastMarker(markers, c);
      }
      RunSkipsLastMarker(markers, t, events[1..]);
      RunCounts(markers, t, events[1..]);
    }
  }

  /**
   The walk-through with three markers: appearing plays from the start, the first two taps
   play the first and the second marker, and the third tap is saturated and appends nothing.
   A view that appears with its cursor already at 2 plays the marker at index 1.
   */
  lemma ThreeMarkerWalkThrough()
    ensures var markers := [Marker("intro"), Marker("mid"), Marker("end")];
      Run(markers, Cursor(0, []), [Appeared, Tapped, Tapped, Tapped])
      == Cursor(2, [PlayFromStart, PlayMarker("intro"), PlayMarker("mid")])
    ensures var markers := [Marker("intro"), Marker("mid"), Marker("end")];
      Step(markers, Cursor(2, []), Appeared) == Cursor(2, [PlayMarker("mid")])
  {
  }

  /**
   The cursor survives a change of animation. With three markers two taps reach position 2;
   if the animation is then replaced by one with markers `[x, y]`, the cursor is past the new
   last index, and an appearance plays the new last marker `y`.
   */
  lemma StaleCursorAfterMarkerChange()
    ensures var before := [Marker("intro"), Marker("mid"), Marker("end")];
      Run(before, Cursor(0, []), [Tapped, Tapped]).position == 2
    ensures var after := [Marker("x"), Marker("y")];
      2 > LastIndex(after) && Step(after, Cursor(2, []), Appeared) == Cursor(2, [PlayMarker("y")])
  {
    var before := [Marker("intro"), Marker("mid"), Marker("end")];
    var events := [Tapped, Tapped];
    assert events[1..] == [Tapped];
  }
}
