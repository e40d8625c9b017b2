/**
 The retained `LottieAnimationView` as seen from `LottieView`: the animation it holds, its
 accessibility fields, and the effect of the deferred configuration commands applied to it.
 Rendering and playback timing belong to the player itself and are not modelled; a play
 command only leaves an entry in the player's log of plays.
 */
module Playback {
  import opened Wrappers

  /** A named point on an animation's timeline. */
  datatype Marker = Marker(name: string)

  /**
   A loaded `LottieAnimation`. `id` stands for the object's identity; `markers` is optional
   as on the animation itself. Two values with the same `id` are the same object.
   */
  datatype Animation = Animation(id: nat, markers: Option<seq<Marker>>)

  /** Swift's `===` on `LottieAnimation?`: both nil, or both present and the same object. */
  predicate Identical(a: Option<Animation>, b: Option<Animation>): (r: bool)
    ensures a == b ==> r
    ensures r ==> (a == None <==> b == None)
    ensures r && a != None ==> a.value.id == b.value.id
    ensures (a == None && b == None) || (a != None && b != None && a.value.id == b.value.id) ==> r
  {
    match (a, b)
    case (None, None) => true
    case (Some(x), Some(y)) => x.id == y.id
    case _ => false
  }

  /** A `LottieBackgroundBehavior` value; the enumeration itself belongs to the player. */
  type BackgroundBehavior = nat

  /** A text, font or image provider: the player's default one, or one handed in by the caller. */
  datatype Provider = DefaultProvider | GivenProvider(id: nat)

  /** A `LottieConfiguration`: the shared process-wide default, or one handed in by the caller. */
  datatype Configuration = SharedConfiguration | GivenConfiguration(id: nat)

  /**
   A deferred configuration closure, as a tagged command. `Custom(id)` is a caller's closure
   passed to `configure`; running it is recorded by its id.
   */
  datatype Command =
    | PlayFromStart
    | PlayMarker(name: string)
    | SetBackgroundBehavior(behavior: BackgroundBehavior)
    | Custom(id: nat)

  /** One call of `play()` or `play(marker:)` on the player. */
  datatype Play = FromStart | FromMarker(name: string)

  /** The player's observable state. `assignments` counts assignments to `animation`. */
  datatype Player = Player(
    animation: Option<Animation>,
    assignments: nat,
    isAccessibilityElement: bool,
    accessibilityLabel: Option<string>,
    backgroundBehavior: Option<BackgroundBehavior>,
    plays: seq<Play>,
    customRuns: seq<nat>)

  /** The fields that configuration commands never touch. */
  predicate SameBinding(p: Player, q: Player)
  {
    q.animation == p.animation && q.assignments == p.assignments &&
    q.isAccessibilityElement == p.isAccessibilityElement &&
    q.accessibilityLabel == p.accessibilityLabel
  }

  /** Running one configuration closure on the player. */
  function Apply(p: Player, c: Command): (r: Player)
    ensures SameBinding(p, r)
    ensures |p.plays| <= |r.plays| <= |p.plays| + 1 && r.plays[..|p.plays|] == p.plays
  {
    match c
    case PlayFromStart => p.(plays := p.plays + [FromStart])
    case PlayMarker(name) => p.(plays := p.plays + [FromMarker(name)])
    case SetBackgroundBehavior(b) => p.(backgroundBehavior := Some(b))
    case Custom(id) => p.(customRuns := p.customRuns + [id])
  }

  /** Running a list of configuration closures on the player, first to last. */
  function ApplyAll(p: Player, cs: seq<Command>): (r: Player)
    ensures SameBinding(p, r)
    decreases |cs|
  {
    if cs == [] then p else ApplyAll(Apply(p, cs[0]), cs[1..])
  }

  /** The plays a list of commands asks for, in list order. */
  function PlaysOf(cs: seq<Command>): seq<Play>
    decreases |cs|
  {
    if cs == [] then []
    else
      match cs[0]
      case PlayFromStart => [FromStart] + PlaysOf(cs[1..])
      case PlayMarker(name) => [FromMarker(name)] + PlaysOf(cs[1..])
      case _ => PlaysOf(cs[1..])
  }

  /** The behaviour set by the last `SetBackgroundBehavior` in `cs`, or `current` if there is none. */
  function LastBehavior(cs: seq<Command>, current: Option<BackgroundBehavior>): Option<BackgroundBehavior>
    decreases |cs|
  {
    if cs == [] then current
    else if cs[|cs| - 1].SetBackgroundBehavior? then Some(cs[|cs| - 1].behavior)
    else LastBehavior(cs[..|cs| - 1], current)
  }

  /** Running `a` then `b` is running `a + b`: the commands are applied strictly in list order. */
  lemma {:induction false} ApplyAllConcat(p: Player, a: seq<Command>, b: seq<Command>)
    ensures ApplyAll(p, a + b) == ApplyAll(ApplyAll(p, a), b)
    decreases |a|
  {
    if a == [] {
      assert a + b == b;
    } else {
      assert (a + b)[0] == a[0];
      assert (a + b)[1..] == a[1..] + b;
      ApplyAllConcat(Apply(p, a[0]), a[1..], b);
    }
  }

  /** Every play command in the list is played exactly once, in list order, after earlier plays. */
  lemma {:induction false} ApplyAllPlays(p: Player, cs: seq<Command>)
    ensures ApplyAll(p, cs).plays == p.plays + PlaysOf(cs)
    decreases |cs|
  {
    if cs != [] {
      ApplyAllPlays(Apply(p, cs[0]), cs[1..]);
    }
  }

  /** The last background-behaviour command wins; without one the player keeps its own. */
  lemma {:induction false} ApplyAllBackground(p: Player, cs: seq<Command>)
    ensures ApplyAll(p, cs).backgroundBehavior == LastBehavior(cs, p.backgroundBehavior)
    decreases |cs|
  {
    if cs != [] {
      var init, last := cs[..|cs| - 1], cs[|cs| - 1];
      assert cs == init + [last];
      ApplyAllConcat(p, init, [last]);
      ApplyAllBackground(p, init);
    }
  }

  /**
   The list is never cleared, so applying it on a second update plays every play command again,
   after the first round.
   */
  lemma ReapplyRepeatsPlays(p: Player, cs: seq<Command>)
    ensures ApplyAll(ApplyAll(p, cs), cs).plays == p.plays + PlaysOf(cs) + PlaysOf(cs)
  {
    ApplyAllPlays(p, cs);
    ApplyAllPlays(ApplyAll(p, cs), cs);
  }

  /**
   One reconcile pass: the accessibility fields are set every time, the animation only when
   the incoming reference is not the one the player already holds.
   */
  function Reconciled(p: Player, animation: Option<Animation>, accLabel: Option<string>): (r: Player)
    ensures Identical(r.animation, animation)
    ensures Identical(p.animation, animation) ==> r.animation == p.animation && r.assignments == p.assignments
    ensures !Identical(p.animation, animation) ==> r.animation == animation && r.assignments == p.assignments + 1
    ensures r.isAccessibilityElement <==> accLabel != None
    ensures r.accessibilityLabel == accLabel
    ensures r.backgroundBehavior == p.backgroundBehavior && r.plays == p.plays && r.customRuns == p.customRuns
  {
    var q := p.(isAccessibilityElement := accLabel != None, accessibilityLabel := accLabel);
    if !Identical(animation, q.animation) then q.(animation := animation, assignments := q.assignments + 1)
    else q
  }

  /** Reconciling twice with the same inputs is reconciling once: the second pass assigns nothing. */
  lemma ReconcileIdempotent(p: Player, animation: Option<Animation>, accLabel: Option<string>)
    ensures Reconciled(Reconciled(p, animation, accLabel), animation, accLabel) == Reconciled(p, animation, accLabel)
  {
  }

  /** `n` reconcile passes with unchanged inputs. */
  function ReconcileTimes(p: Player, animation: Option<Animation>, accLabel: Option<string>, n: nat): Player
    decreases n
  {
    if n == 0 then p else ReconcileTimes(Reconciled(p, animation, accLabel), animation, accLabel, n - 1)
  }

  /**
   However many passes run with the same reference, the animation is assigned at most once,
   and not at all when the player already holds that reference.
   */
  lemma {:induction false} ReconcileRepeatedly(p: Player, animation: Option<Animation>, accLabel: Option<string>, n: nat)
    requires n >= 1
    decreases n
    ensures ReconcileTimes(p, animation, accLabel, n) == Reconciled(p, animation, accLabel)
    ensures ReconcileTimes(p, animation, accLabel, n).assignments
            == p.assignments + (if Identical(p.animation, animation) then 0 else 1)
  {
    if n > 1 {
      ReconcileRepeatedly(Reconciled(p, animation, accLabel), animation, accLabel, n - 1);
      ReconcileIdempotent(p, animation, accLabel);
    }
  }

  /** The retained `LottieAnimationView`. */
  class AnimationView {
    var animation: Option<Animation>
    var assignments: nat
    var isAccessibilityElement: bool
    var accessibilityLabel: Option<string>
    var backgroundBehavior: Option<BackgroundBehavior>
    var plays: seq<Play>
    var customRuns: seq<nat>
    /** Value providers by keypath, and the keypaths in the order they were set. */
    var valueProviders: map<string, nat>
    var providerLog: seq<string>

    const imageProvider: Option<nat>
    const textProvider: Provider
    const fontProvider: Provider
    const configuration: Configuration

    function State(): Player
      reads this
    {
      Player(animation, assignments, isAccessibilityElement, accessibilityLabel,
             backgroundBehavior, plays, customRuns)
    }

    /** `LottieAnimationView(animation:imageProvider:textProvider:fontProvider:configuration:)`. */
    constructor (animation: Option<Animation>, imageProvider: Option<nat>, textProvider: Provider,
                 fontProvider: Provider, configuration: Configuration)
      ensures State() == Player(animation, 0, false, None, None, [], [])
      ensures valueProviders == map[] && providerLog == []
      ensures this.imageProvider == imageProvider && this.textProvider == textProvider
      ensures this.fontProvider == fontProvider && this.configuration == configuration
    {
      this.animation := animation;
      assignments := 0;
      isAccessibilityElement := false;
      accessibilityLabel := None;
      backgroundBehavior := None;
      plays := [];
      customRuns := [];
      valueProviders := map[];
      providerLog := [];
      this.imageProvider := imageProvider;
      this.textProvider := textProvider;
      this.fontProvider := fontProvider;
      this.configuration := configuration;
    }

    /** `setValueProvider(_:keypath:)`. */
    method SetValueProvider(keypath: string, provider: nat)
      modifies this`valueProviders, this`providerLog
      ensures valueProviders == old(valueProviders)[keypath := provider]
      ensures providerLog == old(providerLog) + [keypath]
    {
      valueProviders := valueProviders[keypath := provider];
      providerLog := providerLog + [keypath];
    }

    /** The reconcile block run on every update of the SwiftUI view. */
    method Reconcile(newAnimation: Option<Animation>, accLabel: Option<string>)
      modifies this`animation, this`assignments, this`isAccessibilityElement, this`accessibilityLabel
      ensures State() == Reconciled(old(State()), newAnimation, accLabel)
    {
      isAccessibilityElement := accLabel != None;
      accessibilityLabel := accLabel;
      if !Identical(newAnimation, animation) {
        animation := newAnimation;
        assignments := assignments + 1;
      }
    }

    /** Running one deferred configuration closure on this view. */
    method Run(c: Command)
      modifies this`plays, this`backgroundBehavior, this`customRuns
      ensures State() == Apply(old(State()), c)
    {
      match c
      case PlayFromStart => plays := plays + [FromStart];
      case PlayMarker(name) => plays := plays + [FromMarker(name)];
      case SetBackgroundBehavior(b) => backgroundBehavior := Some(b);
      case Custom(id) => customRuns := customRuns + [id];
    }
  }
}
