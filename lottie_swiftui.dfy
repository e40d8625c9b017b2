/**
 `LottieView`, the SwiftUI wrapper around `LottieAnimationView`. Its stored properties are a
 value (`LottieView` below) whose modifiers return modified copies; its `@State` storage
 (`position` and `configurations`) and the retained player survive re-evaluations and are
 held by `ViewState`. SwiftUI's events (appearance, a tap, a re-evaluation with a new value)
 are explicit method calls.
 */
module LottieSwiftUI {
  import opened Wrappers
  import opened Playback
  import opened MarkerSequencer

  /** How the hosting view measures itself. */
  datatype Sizing = Automatic | Proposed

  /** The stored properties of a `LottieView` value. Providers are identified by an id. */
  datatype LottieView = LottieView(
    animation: Option<Animation>,
    imageProvider: Option<nat>,
    textProvider: Option<nat>,
    fontProvider: Option<nat>,
    configuration: Configuration,
    valueProviders: map<string, nat>,
    accessibilityLabel: Option<string>,
    sizing: Sizing,
    configurations: seq<Command>)

  /** `LottieView.init`: providers and label default to none, the configuration to the shared one. */
  function Create(animation: Option<Animation>, imageProvider: Option<nat> := None,
                  textProvider: Option<nat> := None, fontProvider: Option<nat> := None,
                  configuration: Configuration := SharedConfiguration,
                  valueProviders: map<string, nat> := map[],
                  accessibilityLabel: Option<string> := None): (v: LottieView)
    ensures v.sizing == Automatic && v.configurations == []
    ensures v.animation == animation && v.accessibilityLabel == accessibilityLabel
    ensures v.imageProvider == imageProvider && v.textProvider == textProvider && v.fontProvider == fontProvider
    ensures v.configuration == configuration && v.valueProviders == valueProviders
  {
    LottieView(animation, imageProvider, textProvider, fontProvider, configuration,
               valueProviders, accessibilityLabel, Automatic, [])
  }

  /** `configure(_:)`: a copy with one more closure at the end of its configurations. */
  function Configure(v: LottieView, c: Command): (r: LottieView)
    ensures |r.configurations| == |v.configurations| + 1
    ensures v.configurations <= r.configurations && r.configurations[|v.configurations|] == c
    ensures r.(configurations := v.configurations) == v
  {
    v.(configurations := v.configurations + [c])
  }

  /** `resizable()`: a copy that scales to the size its parent proposes. */
  function Resizable(v: LottieView): (r: LottieView)
    ensures r.sizing == Proposed
    ensures r.(sizing := v.sizing) == v
  {
    v.(sizing := Proposed)
  }

  /** `backgroundBehavior(_:)`: `configure` with a closure that sets the player's background behaviour. */
  function BackgroundBehavior(v: LottieView, b: BackgroundBehavior): (r: LottieView)
    ensures r.configurations == v.configurations + [SetBackgroundBehavior(b)]
    ensures r.(configurations := v.configurations) == v
  {
    Configure(v, SetBackgroundBehavior(b))
  }

  /**
   The two kinds of modifier touch different fields, so the order in which a caller chains
   `resizable()` and `configure(_:)` does not matter, and `resizable()` is idempotent.
   */
  lemma ModifiersCommute(v: LottieView, c: Command)
    ensures Resizable(Configure(v, c)) == Configure(Resizable(v), c)
    ensures Resizable(Resizable(v)) == Resizable(v)
  {
  }

  /** Once applied, the configurations of `v.backgroundBehavior(b)` leave the player with behaviour `b`. */
  lemma BackgroundBehaviorTakesEffect(v: LottieView, b: BackgroundBehavior, p: Player)
    ensures ApplyAll(p, BackgroundBehavior(v, b).configurations).backgroundBehavior == Some(b)
  {
    ApplyAllBackground(p, BackgroundBehavior(v, b).configurations);
  }

  /**
   A closure added by `configure(_:)` runs after every closure that was already there, and
   adding it changes nothing else the earlier closures did.
   */
  lemma ConfigureRunsLast(v: LottieView, id: nat, p: Player)
    ensures var before := ApplyAll(p, v.configurations);
      ApplyAll(p, Configure(v, Custom(id)).configurations) == before.(customRuns := before.customRuns + [id])
  {
    ApplyAllConcat(p, v.configurations, [Custom(id)]);
  }

  /** A text or font provider argument, with the player's default standing in for nil. */
  function OrDefault(provider: Option<nat>): (r: Provider)
    ensures provider == None <==> r == DefaultProvider
    ensures provider != None ==> r == GivenProvider(provider.value)
  {
    match provider
    case Some(id) => GivenProvider(id)
    case None => DefaultProvider
  }

  /**
   The builder closure: a new player for `v`'s animation and providers, with each value
   provider set once under its keypath. A Swift dictionary's iteration order is unspecified,
   so the next key is chosen arbitrarily among those not yet set.
   */
  method BuildAnimationView(v: LottieView) returns (player: AnimationView)
    ensures fresh(player)
    ensures player.State() == Player(v.animation, 0, false, None, None, [], [])
    ensures player.imageProvider == v.imageProvider && player.configuration == v.configuration
    ensures player.textProvider == OrDefault(v.textProvider) && player.fontProvider == OrDefault(v.fontProvider)
    ensures player.valueProviders == v.valueProviders
    ensures multiset(player.providerLog) == multiset(v.valueProviders.Keys)
  {
    player := new AnimationView(v.animation, v.imageProvider, OrDefault(v.textProvider),
                                OrDefault(v.fontProvider), v.configuration);
    var pending := v.valueProviders.Keys;
    while pending != {}
      invariant pending <= v.valueProviders.Keys
      invariant player.State() == Player(v.animation, 0, false, None, None, [], [])
      invariant player.valueProviders.Keys == v.valueProviders.Keys - pending
      invariant forall k :: k in player.valueProviders ==> player.valueProviders[k] == v.valueProviders[k]
      invariant multiset(player.providerLog) == multiset(v.valueProviders.Keys - pending)
      decreases pending
    {
      var key :| key in pending;
      player.SetValueProvider(key, v.valueProviders[key]);
      assert v.valueProviders.Keys - (pending - {key}) == (v.valueProviders.Keys - pending) + {key};
      pending := pending - {key};
    }
  }

  /** The `@State` storage of a mounted `LottieView`, its latest value, and its retained player. */
  class ViewState {
    /** The value from the latest re-evaluation. */
    var view: LottieView
    /** `@State var position`. */
    var position: int
    /** `@State var configurations`. */
    var configurations: seq<Command>
    const player: AnimationView

    ghost predicate Valid()
      reads this
    {
      position >= 0
    }

    /** The markers of the current animation. */
    function Markers(): seq<Marker>
      reads this
    {
      MarkersOf(view.animation)
    }

    /** The sequencer's part of the state. */
    function SequencerState(): Cursor
      reads this
    {
      Cursor(position, configurations)
    }

    /** Mounting: the state starts at position 0 with the value's configurations, and the player is built. */
    constructor Mount(v: LottieView)
      ensures Valid() && view == v && position == 0 && configurations == v.configurations
      ensures fresh(player) && player.State() == Player(v.animation, 0, false, None, None, [], [])
      ensures player.imageProvider == v.imageProvider && player.configuration == v.configuration
      ensures player.textProvider == OrDefault(v.textProvider) && player.fontProvider == OrDefault(v.fontProvider)
      ensures player.valueProviders == v.valueProviders
      ensures multiset(player.providerLog) == multiset(v.valueProviders.Keys)
    {
      view := v;
      position := 0;
      configurations := v.configurations;
      var built := BuildAnimationView(v);
      player := built;
    }

    /** The tap gesture handler. */
    method OnTapGesture()
      requires Valid()
      modifies this`position
      ensures Valid()
      ensures position == AfterTap(old(position), MarkerCount(view.animation))
    {
      var markerCount: int := MarkerCount(view.animation);
      if position < markerCount - 1 {
        position := position + 1;
      }
    }

    /** `playNextMarker()`: append the play command for the marker at `position - 1`. */
    method PlayNextMarker()
      requires Valid()
      modifies this`configurations
      ensures Valid()
      ensures configurations == old(configurations) + [PlayCommandAt(Markers(), position)]
    {
      var markers := MarkersOf(view.animation);
      var current := SafeGet(markers, position - 1);
      if current != None {
        configurations := configurations + [PlayMarker(current.value.name)];
      } else {
        configurations := configurations + [PlayFromStart];
      }
    }

    /** A tap: the gesture handler, then the `onChange(of: position)` reaction if the position changed. */
    method Tap()
      requires Valid()
      modifies this`position, this`configurations
      ensures Valid()
      ensures SequencerState() == Step(Markers(), old(SequencerState()), Tapped)
    {
      var before := position;
      OnTapGesture();
      if position != before {
        PlayNextMarker();
      }
    }

    /** The `onAppear` reaction. */
    method Appear()
      requires Valid()
      modifies this`configurations
      ensures Valid()
      ensures SequencerState() == Step(Markers(), old(SequencerState()), Appeared)
    {
      PlayNextMarker();
    }

    /**
     A re-evaluation with a new value: the `@State` storage is kept as it is (the cursor is not
     reset even if the markers changed), and the reconcile block runs on the retained player.
     Only the fields the reconcile block assigns change on the player: its providers, value
     providers included, are kept from construction.
     */
    method Update(v: LottieView)
      requires Valid()
      modifies this`view, player`animation, player`assignments, player`isAccessibilityElement,
               player`accessibilityLabel
      ensures Valid()
      ensures view == v && position == old(position) && configurations == old(configurations)
      ensures player.valueProviders == old(player.valueProviders) && player.providerLog == old(player.providerLog)
      ensures player.State() == Reconciled(old(player.State()), v.animation, v.accessibilityLabel)
    {
      view := v;
      player.Reconcile(v.animation, v.accessibilityLabel);
    }

    /** `next`: the name of the marker at `position`, if there is one. */
    function Next(): (r: Option<string>)
      reads this
      requires Valid()
      ensures r != None <==> position < |Markers()|
      ensures r != None ==> r.value == Markers()[position].name
    {
      var markers := MarkersOf(view.animation);
      if position < |markers| then Some(markers[position].name) else None
    }
  }

  /**
   `next` names the marker the following tap plays, whenever that tap moves the cursor; at
   the last index it names the last marker, which a tap no longer reaches.
   */
  lemma NextIsPlayedOnNextTap(s: ViewState)
    requires s.Valid()
    ensures s.position < |s.Markers()| - 1 ==>
      s.Next() != None &&
      Step(s.Markers(), s.SequencerState(), Tapped).configurations == s.configurations + [PlayMarker(s.Next().value)]
    ensures s.position == |s.Markers()| - 1 ==>
      s.Next() == Some(s.Markers()[s.position].name) && Step(s.Markers(), s.SequencerState(), Tapped) == s.SequencerState()
  {
  }
}
