/**
 * The animation manager's bookkeeping: the scroll-trigger and hover-timeline
 * registries keyed by element, the preset states and their reverse
 * animations, staggered registration, and the assembly of hover properties.
 * The animation library is reduced to handles that can be killed.
 */
module Animations {
  import opened Wrappers

  /** A page element, by identity. */
  type Element = nat

  /** Tween variables; an absent key is left as it is. */
  datatype Tween = Tween(opacity: Option<real>, x: Option<real>, y: Option<real>, scale: Option<real>, rotation: Option<real>)

  const Blank := Tween(None, None, None, None, None)

  /** An animation given by preset name, or a custom object of tween variables. */
  datatype Animation = Named(name: string) | Custom(props: Tween)

  const PresetNames: seq<string> := ["fadeInUp", "fadeInDown", "fadeInLeft", "fadeInRight", "scaleIn", "slideInUp", "rotateIn"]

  /** For a preset, the state the element is set to before the animation and the state it animates to. */
  function Preset(animation: Animation): (r: Option<(Tween, Tween)>)
    ensures r.Some? <==> animation.Named? && animation.name in PresetNames
  {
    if animation.Custom? then None
    else match animation.name
      case "fadeInUp" => Some((Blank.(opacity := Some(0.0), y := Some(60.0)), Blank.(opacity := Some(1.0), y := Some(0.0))))
      case "fadeInDown" => Some((Blank.(opacity := Some(0.0), y := Some(-60.0)), Blank.(opacity := Some(1.0), y := Some(0.0))))
      case "fadeInLeft" => Some((Blank.(opacity := Some(0.0), x := Some(-60.0)), Blank.(opacity := Some(1.0), x := Some(0.0))))
      case "fadeInRight" => Some((Blank.(opacity := Some(0.0), x := Some(60.0)), Blank.(opacity := Some(1.0), x := Some(0.0))))
      case "scaleIn" => Some((Blank.(opacity := Some(0.0), scale := Some(0.8)), Blank.(opacity := Some(1.0), scale := Some(1.0))))
      case "slideInUp" => Some((Blank.(y := Some(100.0)), Blank.(y := Some(0.0))))
      case "rotateIn" =>
        Some((Blank.(opacity := Some(0.0), rotation := Some(-180.0), scale := Some(0.5)),
              Blank.(opacity := Some(1.0), rotation := Some(0.0), scale := Some(1.0))))
      case _ => None
  }

  /** The tween played when a trigger with `reverseOnLeave` is left: fixed per preset, a fade-out otherwise. */
  function ReverseAnimation(animation: Animation): (t: Tween)
    ensures Preset(animation).None? ==> t == Blank.(opacity := Some(0.0))
  {
    if animation.Custom? then Blank.(opacity := Some(0.0))
    else match animation.name
      case "fadeInUp" => Blank.(opacity := Some(0.0), y := Some(30.0))
      case "fadeInDown" => Blank.(opacity := Some(0.0), y := Some(-30.0))
      case "fadeInLeft" => Blank.(opacity := Some(0.0), x := Some(-30.0))
      case "fadeInRight" => Blank.(opacity := Some(0.0), x := Some(30.0))
      case "scaleIn" => Blank.(opacity := Some(0.0), scale := Some(0.9))
      case "slideInUp" => Blank.(y := Some(50.0))
      case "rotateIn" => Blank.(opacity := Some(0.0), rotation := Some(-90.0), scale := Some(0.8))
      case _ => Blank.(opacity := Some(0.0))
  }

  /** `r` sets a key exactly when `from` does, to a value between `from`'s and `to`'s. */
  predicate Between(r: Option<real>, from: Option<real>, to: Option<real>) {
    && (r.Some? <==> from.Some?)
    && (r.Some? ==> to.Some? && (from.value <= r.value <= to.value || to.value <= r.value <= from.value))
  }

  /**
   * Every preset's reverse touches exactly the keys its starting state sets,
   * moves each of them part of the way back from the final state toward the
   * starting one, and fades out completely whenever the preset fades in.
   */
  lemma ReverseHeadsBackToStart(animation: Animation)
    requires Preset(animation).Some?
    ensures var (from, to) := Preset(animation).value; var r := ReverseAnimation(animation);
      && Between(r.opacity, from.opacity, to.opacity) && r.opacity == from.opacity
      && Between(r.x, from.x, to.x) && Between(r.y, from.y, to.y)
      && Between(r.scale, from.scale, to.scale) && Between(r.rotation, from.rotation, to.rotation)
  {
  }

  datatype HandleKind = ScrollHandle | HoverHandle

  /**
   * A handle of the animation library: which registry created it, for which
   * element, and a serial number that makes it new.
   */
  datatype Handle = Handle(kind: HandleKind, element: Element, serial: nat)

  /** A scroll trigger and what it was registered with. */
  datatype Trigger = Trigger(handle: Handle, animation: Animation, duration: real, delay: real, reverseOnLeave: bool)

  /** The options of `registerScrollAnimation` that the model keeps; an absent one takes its default. */
  datatype ScrollConfig = ScrollConfig(animation: Option<Animation>, duration: Option<real>, delay: Option<real>, reverseOnLeave: Option<bool>)

  /** The trigger created for `config`: "fadeInUp", 0.6 s and no delay unless given. */
  function TriggerFor(handle: Handle, config: ScrollConfig): (t: Trigger)
    ensures t.handle == handle
    ensures config.animation.None? ==> t.animation == Named("fadeInUp")
    ensures config.duration.None? ==> t.duration == 0.6
    ensures config.delay.None? ==> t.delay == 0.0
    ensures t.reverseOnLeave <==> config.reverseOnLeave == Some(true)
  {
    Trigger(handle, config.animation.GetOr(Named("fadeInUp")), config.duration.GetOr(0.6), config.delay.GetOr(0.0),
      config.reverseOnLeave == Some(true))
  }

  /** A tween played over `duration` seconds. */
  datatype Timed = Timed(props: Tween, duration: real)

  /** The tween played when a trigger is left, if any: the reverse, in half the entering time. */
  function LeaveTween(t: Trigger): (r: Option<Timed>)
    ensures r.Some? <==> t.reverseOnLeave
    ensures r.Some? ==> r.value.props == ReverseAnimation(t.animation) && r.value.duration * 2.0 == t.duration
  {
    if t.reverseOnLeave then Some(Timed(ReverseAnimation(t.animation), t.duration * 0.5)) else None
  }

  // ---------------------------------------------------------------------------
  // Hover properties

  /** The `customProps` keys the model follows. */
  datatype CustomProps = CustomProps(
    scale: Option<real>, rotation: Option<real>, duration: Option<real>, ease: Option<string>,
    y: Option<real>, boxShadow: Option<string>, filter: Option<string>)

  const NoCustomProps := CustomProps(None, None, None, None, None, None, None)

  datatype HoverConfig = HoverConfig(
    scale: Option<real>, rotation: Option<real>, duration: Option<real>, ease: Option<string>,
    lift: Option<bool>, glow: Option<bool>, customProps: CustomProps)

  datatype HoverProps = HoverProps(
    scale: real, rotation: real, duration: real, ease: string,
    y: Option<real>, boxShadow: Option<string>, filter: Option<string>)

  const LiftShadow := "0 20px 40px rgba(0,0,0,0.15)"
  const GlowFilter := "brightness(1.1) saturate(1.2)"

  /**
   * The hover tween: the options (with their defaults), then `customProps`
   * over them, then the lift offset and shadow (lift is on unless turned
   * off), then the glow filter.
   */
  function HoverPropsFor(config: HoverConfig): (p: HoverProps)
    ensures config.customProps.scale.Some? ==> p.scale == config.customProps.scale.value
    ensures config.customProps.scale.None? ==> p.scale == config.scale.GetOr(1.05)
    ensures config.customProps.rotation.Some? ==> p.rotation == config.customProps.rotation.value
    ensures config.customProps.rotation.None? ==> p.rotation == config.rotation.GetOr(0.0)
    ensures config.customProps.duration.Some? ==> p.duration == config.customProps.duration.value
    ensures config.customProps.duration.None? ==> p.duration == config.duration.GetOr(0.3)
    ensures config.customProps.ease.Some? ==> p.ease == config.customProps.ease.value
    ensures config.customProps.ease.None? ==> p.ease == config.ease.GetOr("power2.out")
    ensures config.lift != Some(false) ==> p.y == Some(-8.0) && p.boxShadow == Some(LiftShadow)
    ensures config.lift == Some(false) ==> p.y == config.customProps.y && p.boxShadow == config.customProps.boxShadow
    ensures config.glow == Some(true) ==> p.filter == Some(GlowFilter)
    ensures config.glow != Some(true) ==> p.filter == config.customProps.filter
  {
    var custom := config.customProps;
    var base := HoverProps(
      custom.scale.GetOr(config.scale.GetOr(1.05)),
      custom.rotation.GetOr(config.rotation.GetOr(0.0)),
      custom.duration.GetOr(config.duration.GetOr(0.3)),
      custom.ease.GetOr(config.ease.GetOr("power2.out")),
      custom.y, custom.boxShadow, custom.filter);
    var lifted := if config.lift.GetOr(true) then base.(y := Some(-8.0), boxShadow := Some(LiftShadow)) else base;
    if config.glow.GetOr(false) then lifted.(filter := Some(GlowFilter)) else lifted
  }

  /** With no options at all the hover scales to 1.05 and lifts by 8 over 0.3 s, without glow. */
  lemma DefaultHover()
    ensures HoverPropsFor(HoverConfig(None, None, None, None, None, None, NoCustomProps))
      == HoverProps(1.05, 0.0, 0.3, "power2.out", Some(-8.0), Some(LiftShadow), None)
  {
  }

  /** A hover timeline handle and the properties it plays. */
  datatype Timeline = Timeline(handle: Handle, props: HoverProps)

  // ---------------------------------------------------------------------------
  // The manager

  class AnimationManager {
    var scrollAnimations: map<Element, Trigger>
    var hoverAnimations: map<Element, Timeline>
    /** The handles killed so far. */
    var killed: set<Handle>
    /** The serial number the next handle created gets. */
    var nextSerial: nat

    /** A handle that was created and not yet killed. */
    predicate Live(h: Handle)
      reads this
    {
      h.serial < nextSerial && h !in killed
    }

    /**
     * Only created handles were killed, and each registry holds, for each
     * element, a live handle of its own kind created for that element.
     */
    ghost predicate Valid()
      reads this
    {
      && (forall h | h in killed :: h.serial < nextSerial)
      && (forall e | e in scrollAnimations ::
            scrollAnimations[e].handle.kind == ScrollHandle && scrollAnimations[e].handle.element == e && Live(scrollAnimations[e].handle))
      && (forall e | e in hoverAnimations ::
            hoverAnimations[e].handle.kind == HoverHandle && hoverAnimations[e].handle.element == e && Live(hoverAnimations[e].handle))
    }

    constructor()
      ensures Valid()
      ensures scrollAnimations == map[] && hoverAnimations == map[] && killed == {}
    {
      scrollAnimations := map[];
      hoverAnimations := map[];
      killed := {};
      nextSerial := 0;
    }

    /** Kills `e`'s scroll trigger and drops its entry, if it has one; every other entry stays. */
    method UnregisterScrollAnimation(e: Element)
      requires Valid()
      modifies this
      ensures Valid()
      ensures scrollAnimations == old(scrollAnimations) - {e}
      ensures killed == old(killed) + (if e in old(scrollAnimations) then {old(scrollAnimations)[e].handle} else {})
      ensures hoverAnimations == old(hoverAnimations) && nextSerial == old(nextSerial)
    {
      if e in scrollAnimations {
        killed := killed + {scrollAnimations[e].handle};
        scrollAnimations := scrollAnimations - {e};
      }
    }

    /** Kills `e`'s previous trigger, if any, and registers one new trigger for it. */
    method RegisterScrollAnimation(e: Element, config: ScrollConfig)
      requires Valid()
      modifies this
      ensures Valid()
      ensures e in old(scrollAnimations) ==> old(scrollAnimations)[e].handle in killed
      ensures scrollAnimations == old(scrollAnimations)[e := TriggerFor(Handle(ScrollHandle, e, old(nextSerial)), config)]
      ensures killed == old(killed) + (if e in old(scrollAnimations) then {old(scrollAnimations)[e].handle} else {})
      ensures hoverAnimations == old(hoverAnimations) && nextSerial == old(nextSerial) + 1
    {
      UnregisterScrollAnimation(e);
      var t := TriggerFor(Handle(ScrollHandle, e, nextSerial), config);
      nextSerial := nextSerial + 1;
      scrollAnimations := scrollAnimations[e := t];
    }

    /** Kills `e`'s previous hover timeline, if any, and stores a new one playing `HoverPropsFor(config)`. */
    method RegisterHoverEffect(e: Element, config: HoverConfig)
      requires Valid()
      modifies this
      ensures Valid()
      ensures e in old(hoverAnimations) ==> old(hoverAnimations)[e].handle in killed
      ensures hoverAnimations == old(hoverAnimations)[e := Timeline(Handle(HoverHandle, e, old(nextSerial)), HoverPropsFor(config))]
      ensures killed == old(killed) + (if e in old(hoverAnimations) then {old(hoverAnimations)[e].handle} else {})
      ensures scrollAnimations == old(scrollAnimations) && nextSerial == old(nextSerial) + 1
    {
      if e in hoverAnimations {
        killed := killed + {hoverAnimations[e].handle};
      }
      var timeline := Timeline(Handle(HoverHandle, e, nextSerial), HoverPropsFor(config));
      nextSerial := nextSerial + 1;
      hoverAnimations := hoverAnimations[e := timeline];
    }

    /** The registry after the first `i` elements of a staggered registration over `base`. */
    ghost predicate StaggeredUpTo(base: map<Element, Trigger>, els: seq<Element>, i: nat, animation: string, stagger: real, done: set<Element>)
      requires i <= |els|
      reads this
    {
      && done == (set k | 0 <= k < i :: els[k])
      && scrollAnimations.Keys == base.Keys + done
      && (forall e | e in base && e !in done :: e in scrollAnimations && scrollAnimations[e] == base[e])
      && (forall j | 0 <= j < i && LastAt(els, j, i) ::
            els[j] in scrollAnimations &&
            scrollAnimations[els[j]].animation == Named(animation) && scrollAnimations[els[j]].delay == StaggerDelay(j, stagger))
    }

    /** The body of the staggered loop: registers the `i`-th element with its delay. */
    method RegisterStaggered(ghost base: map<Element, Trigger>, els: seq<Element>, i: nat, animation: string, stagger: real, ghost done: set<Element>)
      requires Valid() && i < |els|
      requires StaggeredUpTo(base, els, i, animation, stagger, done)
      modifies this
      ensures Valid()
      ensures StaggeredUpTo(base, els, i + 1, animation, stagger, done + {els[i]})
      ensures hoverAnimations == old(hoverAnimations)
    {
      RegisterScrollAnimation(els[i], ScrollConfig(Some(Named(animation)), Some(0.6), Some(StaggerDelay(i, stagger)), None));
      forall j | 0 <= j < i + 1 && LastAt(els, j, i + 1)
        ensures els[j] in scrollAnimations
        ensures scrollAnimations[els[j]].animation == Named(animation) && scrollAnimations[els[j]].delay == StaggerDelay(j, stagger)
      {
        if j < i {
          assert els[j] != els[i] && LastAt(els, j, i);
        }
      }
      assert (set k | 0 <= k < i + 1 :: els[k]) == done + {els[i]};
    }

    /**
     * Registers `animation` on each element in turn, the i-th with a delay of
     * i times `stagger` (`DefaultStagger` seconds when not given). Afterwards
     * every element is registered; an element listed more than once keeps the
     * trigger of its last position.
     */
    method StaggerAnimation(els: seq<Element>, animation: string, stagger: Option<real>)
      requires Valid()
      modifies this
      ensures Valid()
      ensures forall e | e in els :: e in scrollAnimations
      ensures scrollAnimations.Keys == old(scrollAnimations).Keys + set e | e in els
      ensures forall e | e in old(scrollAnimations) && e !in els :: scrollAnimations[e] == old(scrollAnimations)[e]
      ensures forall i | 0 <= i < |els| && LastAt(els, i, |els|) ::
        scrollAnimations[els[i]].animation == Named(animation) && scrollAnimations[els[i]].delay == StaggerDelay(i, stagger.GetOr(DefaultStagger))
      ensures stagger.None? ==> forall i | 0 <= i < |els| && LastAt(els, i, |els|) ::
        scrollAnimations[els[i]].delay == i as real * 0.1
      ensures hoverAnimations == old(hoverAnimations)
    {
      var step := stagger.GetOr(DefaultStagger);
      var i := 0;
      ghost var done: set<Element> := {};
      while i < |els|
        invariant 0 <= i <= |els|
        invariant Valid()
        invariant StaggeredUpTo(old(scrollAnimations), els, i, animation, step, done)
        invariant hoverAnimations == old(hoverAnimations)
      {
        RegisterStaggered(old(scrollAnimations), els, i, animation, step, done);
        done := done + {els[i]};
        i := i + 1;
      }
      StaggeredAll(old(scrollAnimations), els, animation, step, done);
    }

    /** A staggered registration that went over every element leaves what `StaggerAnimation` promises. */
    lemma StaggeredAll(base: map<Element, Trigger>, els: seq<Element>, animation: string, stagger: real, done: set<Element>)
      requires StaggeredUpTo(base, els, |els|, animation, stagger, done)
      ensures forall e | e in els :: e in scrollAnimations
      ensures scrollAnimations.Keys == base.Keys + set e | e in els
      ensures forall e | e in base && e !in els :: scrollAnimations[e] == base[e]
      ensures forall i | 0 <= i < |els| && LastAt(els, i, |els|) ::
        scrollAnimations[els[i]].animation == Named(animation) && scrollAnimations[els[i]].delay == StaggerDelay(i, stagger)
    {
      assert done == set e | e in els;
    }

    /** Kills each handle of `handles`, one at a time. */
    method KillEach(handles: set<Handle>)
      requires forall h | h in handles :: h.serial < nextSerial
      modifies this
      ensures killed == old(killed) + handles
      ensures scrollAnimations == old(scrollAnimations) && hoverAnimations == old(hoverAnimations) && nextSerial == old(nextSerial)
    {
      var rest := handles;
      while rest != {}
        invariant rest <= handles
        invariant killed == old(killed) + (handles - rest)
        invariant scrollAnimations == old(scrollAnimations) && hoverAnimations == old(hoverAnimations) && nextSerial == old(nextSerial)
        decreases |rest|
      {
        var h :| h in rest;
        killed := killed + {h};
        rest := rest - {h};
      }
    }

    /** Kills every registered trigger and timeline and empties both registries. */
    method Destroy()
      requires Valid()
      modifies this
      ensures Valid()
      ensures scrollAnimations == map[] && hoverAnimations == map[]
      ensures forall e | e in old(scrollAnimations) :: old(scrollAnimations)[e].handle in killed
      ensures forall e | e in old(hoverAnimations) :: old(hoverAnimations)[e].handle in killed
      ensures killed == old(killed)
        + (set e | e in old(scrollAnimations) :: old(scrollAnimations)[e].handle)
        + (set e | e in old(hoverAnimations) :: old(hoverAnimations)[e].handle)
    {
      KillEach(set e | e in scrollAnimations :: scrollAnimations[e].handle);
      scrollAnimations := map[];
      KillEach(set e | e in hoverAnimations :: hoverAnimations[e].handle);
      hoverAnimations := map[];
    }
  }

  /** The default gap between two staggered elements, in seconds. */
  const DefaultStagger: real := 0.1

  /** The delay of the element at `index` in a staggered registration. */
  function StaggerDelay(index: nat, stagger: real): real {
    index as real * stagger
  }

  /** Position `i` is the last before `n` at which `els[i]` occurs. */
  predicate LastAt(els: seq<Element>, i: nat, n: nat)
    requires i < n <= |els|
  {
    forall k | i < k < n :: els[k] != els[i]
  }
}
