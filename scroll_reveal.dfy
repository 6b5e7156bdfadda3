/** `ScrollReveal` and `StaggerReveal`: content that is rendered in a hidden pose
    (transparent and offset) until its container first intersects the viewport, and
    from then on animates to, and stays in, a visible pose. */
module ScrollReveal {
  import opened Js

  /** The `direction` prop. */
  datatype Direction = Up | Down | Left | Right

  /** The axis a framer-motion target offsets along: `{ opacity, x }` or `{ opacity, y }`. */
  datatype Axis = X | Y

  /** An animation target: an opacity and an offset along one axis. */
  datatype Target = Target(opacity: int, axis: Axis, offset: int)

  /** The two named variants a `motion.div` switches between. */
  datatype Variants = Variants(hidden: Target, visible: Target)

  /** A framer-motion transition: its duration and its delay, in seconds. */
  datatype Transition = Transition(duration: real, delay: real)

  /** The `variants[direction]` table: every direction hides the content, transparent and
      60 units off along its axis, and shows it opaque at no offset on the same axis. */
  function VariantsFor(d: Direction): (v: Variants)
    ensures v.hidden.opacity == 0 && v.visible.opacity == 1
    ensures v.visible.axis == v.hidden.axis && v.visible.offset == 0
    ensures v.hidden.offset == 60 || v.hidden.offset == -60
    ensures v.hidden.axis == Y <==> d == Up || d == Down
  {
    match d
    case Up => Variants(Target(0, Y, 60), Target(1, Y, 0))
    case Down => Variants(Target(0, Y, -60), Target(1, Y, 0))
    case Left => Variants(Target(0, X, -60), Target(1, X, 0))
    case Right => Variants(Target(0, X, 60), Target(1, X, 0))
  }

  /** Revealing moves the content 60 units: up or down the screen for `Up` and `Down`, and in
      from the left or from the right edge for `Left` and `Right` (screen y grows downwards). */
  lemma RevealTravel(d: Direction)
    ensures VariantsFor(d).visible.offset - VariantsFor(d).hidden.offset ==
              match d
              case Up => -60
              case Down => 60
              case Left => 60
              case Right => -60
  {
  }

  /** What one `ScrollReveal` renders: its initial and current animation targets and its transition. */
  datatype MotionDiv = MotionDiv(initial: Target, animate: Target, transition: Transition)

  /** The `motion.div` of a `ScrollReveal` for its props (an omitted prop is `None`) and its
      `isVisible` state: the direction defaults to up and the delay to 0. */
  function Render(direction: Option<Direction>, delay: Option<real>, isVisible: bool): (r: MotionDiv)
    ensures r.initial == VariantsFor(direction.GetOr(Up)).hidden
    ensures r.animate == if isVisible then VariantsFor(direction.GetOr(Up)).visible else r.initial
    ensures r.transition == Transition(0.6, delay.GetOr(0.0))
  {
    var variants := VariantsFor(direction.GetOr(Up));
    MotionDiv(variants.hidden, if isVisible then variants.visible else variants.hidden, Transition(0.6, delay.GetOr(0.0)))
  }

  /** With no props and before the first intersection, the content rests in the hidden pose of
      `Up`: transparent, 60 units below its place, with no delay. */
  lemma InitiallyHidden(isVisible: bool)
    ensures Render(None, None, false).animate == Target(0, Y, 60)
    ensures Render(None, None, isVisible).transition.delay == 0.0
    ensures forall d, t :: Render(d, t, false).animate.opacity == 0
  {
  }

  /** Each wrapper `StaggerReveal` renders around one child. */
  datatype Wrapper<T> = Wrapper(key: nat, child: T, initial: Target, animate: Target, transition: Transition)

  /** The children's hidden pose, `{ opacity: 0, y: 30 }`. */
  const StaggerHidden := Target(0, Y, 30)

  /** The children's visible pose, `{ opacity: 1, y: 0 }`. */
  const StaggerVisible := Target(1, Y, 0)

  /** The `staggerDelay` prop's default, in seconds. */
  const DefaultStaggerDelay: real := 0.1

  /** `children.map((child, index) => <motion.div ...>)`: one wrapper per child, in order, keyed
      by its index, hidden until the container is visible, child `i` delayed by `i · staggerDelay`,
      where an omitted `staggerDelay` is 0.1. */
  function StaggerChildren<T>(children: seq<T>, staggerDelay: Option<real>, isVisible: bool): (r: seq<Wrapper<T>>)
    ensures |r| == |children|
    ensures forall i :: 0 <= i < |r| ==> r[i].key == i && r[i].child == children[i]
    ensures forall i :: 0 <= i < |r| ==>
              r[i].initial == StaggerHidden &&
              r[i].animate == (if isVisible then StaggerVisible else StaggerHidden)
    ensures forall i :: 0 <= i < |r| ==>
              r[i].transition == Transition(0.5, i as real * staggerDelay.GetOr(DefaultStaggerDelay))
    ensures staggerDelay == None ==> forall i :: 0 <= i < |r| ==> r[i].transition.delay == i as real * 0.1
  {
    var step := staggerDelay.GetOr(DefaultStaggerDelay);
    seq(|children|, i requires 0 <= i < |children| =>
      Wrapper(i, children[i], StaggerHidden, if isVisible then StaggerVisible else StaggerHidden,
              Transition(0.5, i as real * step)))
  }

  /** The children cascade: the first starts at once, and each starts `staggerDelay` (by default
      0.1 s) after the one before it. */
  lemma StaggerCascade<T>(children: seq<T>, staggerDelay: Option<real>, isVisible: bool)
    ensures var r := StaggerChildren(children, staggerDelay, isVisible);
            var step := staggerDelay.GetOr(DefaultStaggerDelay);
            (|r| > 0 ==> r[0].transition.delay == 0.0) &&
            forall i :: 0 < i < |r| ==> r[i].transition.delay == r[i - 1].transition.delay + step
  {
    var r := StaggerChildren(children, staggerDelay, isVisible);
    var step := staggerDelay.GetOr(DefaultStaggerDelay);
    forall i | 0 < i < |r|
      ensures r[i].transition.delay == r[i - 1].transition.delay + step
    {
      assert i as real * step == (i - 1) as real * step + step;
    }
  }

  /** The `isVisible` state of one `ScrollReveal` or `StaggerReveal` together with its
      intersection observer; both components use the same one-way latch. */
  class RevealLatch {
    var isVisible: bool
    var observing: bool

    /** Once visible, the observer has been disconnected. */
    ghost predicate Valid()
      reads this
    {
      isVisible ==> !observing
    }

    /** Mounting: hidden, observer connected. */
    constructor ()
      ensures Valid() && !isVisible && observing
    {
      isVisible := false;
      observing := true;
    }

    /** The observer reports one entry: an intersecting entry makes the content visible and
        disconnects the observer; a non-intersecting one changes nothing; a disconnected
        observer reports nothing. The flag never returns to false. */
    method OnEntry(isIntersecting: bool)
      requires Valid()
      modifies this
      ensures Valid()
      ensures isVisible == (old(isVisible) || (old(observing) && isIntersecting))
      ensures observing == (old(observing) && !isIntersecting)
      ensures old(isVisible) ==> isVisible
    {
      if observing && isIntersecting {
        isVisible := true;
        observing := false;
      }
    }

    /** Unmounting disconnects the observer and leaves the flag as it is. */
    method Unmount()
      requires Valid()
      modifies this
      ensures Valid() && !observing && isVisible == old(isVisible)
    {
      observing := false;
    }
  }

  /** A reveal seen twice: entries after the first intersecting one change nothing. */
  method RevealOnce() {
    var latch := new RevealLatch();
    latch.OnEntry(false);
    assert !latch.isVisible && Render(Some(Left), None, latch.isVisible).animate == Target(0, X, -60);
    latch.OnEntry(true);
    assert latch.isVisible && !latch.observing;
    latch.OnEntry(false);
    assert latch.isVisible && Render(Some(Left), None, latch.isVisible).animate == Target(1, X, 0);
  }
}
