/**
 * The two `ResizeSensor` callbacks of
 * `fix_Android_Mobile_Browser_Maximized_Bottom_Navbar_Overflow`. Both read
 * and write one piece of state, the inline `style.maxHeight` of the dialog
 * plugin element (the inner box); the heights they compare are DOM
 * measurements and come in as numbers:
 *   innerClient = element.clientHeight, innerScroll = element.scrollHeight,
 *   outerClient = elementParent.clientHeight.
 */
module BoundaryReconciler {

  /** Text of the form `N + 'px'` for a natural number N, as JavaScript
      renders it: decimal digits without a leading zero, then "px". */
  predicate PxShaped(s: string)
  {
    && |s| >= 3
    && s[|s| - 2..] == "px"
    && (forall i :: 0 <= i < |s| - 2 ==> '0' <= s[i] <= '9')
    && (s[0] == '0' ==> |s| == 3)
  }

  /** Inline max-height text that is not a pixel clamp. */
  type CssText = s: string | !PxShaped(s) witness ""

  /** The inline max-height: "N px" as the callbacks write it, or any other
      CSS text, such as the sentinel '100vh' or '' before anything was set.
      A pixel clamp has only the one form `Px`, so two values are equal
      exactly when their texts are. */
  datatype MaxHeight = Px(px: nat) | Css(text: CssText)

  /** `originalMaxHeight`, the fixed sentinel the callbacks compare with. */
  const Original: MaxHeight := Css("100vh")

  /** The measurements a callback sees. */
  datatype Layout = Layout(innerClient: nat, innerScroll: nat, outerClient: nat)

  /** The inner sensor's rule: clamp to the outer height when the inner box is
      taller, release the clamp when it is shorter; never write anything but
      the sentinel or the current outer height. */
  function InnerRule(m: MaxHeight, h: Layout): (r: MaxHeight)
    ensures r == m || r == Original || r == Px(h.outerClient)
    ensures r.Px? && r != m ==> r.px == h.outerClient
    ensures h.innerClient == h.outerClient ==> r == m
  {
    if h.innerClient > h.outerClient then Px(h.outerClient)
    else if h.innerClient < h.outerClient && m != Original then Original
    else m
  }

  /** The outer sensor's rule: only while a clamp (anything but the sentinel)
      is in place and the inner content is clipped, re-clamp to the outer
      height if the content is taller than it, else release. */
  function OuterRule(m: MaxHeight, h: Layout): (r: MaxHeight)
    ensures r == m || r == Original || r == Px(h.outerClient)
    ensures r.Px? && r != m ==> r.px == h.outerClient
    ensures m == Original ==> r == m
  {
    if m != Original && h.innerScroll > h.innerClient then
      if h.innerScroll > h.outerClient then Px(h.outerClient) else Original
    else m
  }

  // ---- the candidate properties, one rule at a time ----

  /** A taller inner box is clamped to exactly the outer height, whatever the
      max-height was before. */
  lemma InnerClamps(m: MaxHeight, h: Layout)
    requires h.innerClient > h.outerClient
    ensures InnerRule(m, h) == Px(h.outerClient)
  {
  }

  /** A shorter inner box gets the sentinel back unless it has it already;
      equal heights, or the sentinel already in place, change nothing. */
  lemma InnerReleases(m: MaxHeight, h: Layout)
    requires h.innerClient <= h.outerClient
    ensures h.innerClient < h.outerClient ==> InnerRule(m, h) == Original
    ensures h.innerClient == h.outerClient || m == Original ==> InnerRule(m, h) == m
  {
  }

  /** The outer sensor does nothing under the sentinel or when nothing is
      clipped. */
  lemma OuterIdle(m: MaxHeight, h: Layout)
    requires m == Original || h.innerScroll <= h.innerClient
    ensures OuterRule(m, h) == m
  {
  }

  /** When the outer sensor acts it clamps to the outer height if the content
      is taller than it, and otherwise restores the sentinel. */
  lemma OuterActs(m: MaxHeight, h: Layout)
    requires m != Original && h.innerScroll > h.innerClient
    ensures h.innerScroll > h.outerClient ==> OuterRule(m, h) == Px(h.outerClient)
    ensures h.innerScroll <= h.outerClient ==> OuterRule(m, h) == Original
  {
  }

  /** Each rule, applied again to unchanged measurements, changes nothing. */
  lemma RulesIdempotent(m: MaxHeight, h: Layout)
    ensures InnerRule(InnerRule(m, h), h) == InnerRule(m, h)
    ensures OuterRule(OuterRule(m, h), h) == OuterRule(m, h)
  {
  }

  // ---- the two rules together ----

  /** Which sensor fired. */
  datatype Notification = InnerResized | OuterResized

  function Step(m: MaxHeight, n: Notification, h: Layout): MaxHeight
  {
    match n
    case InnerResized => InnerRule(m, h)
    case OuterResized => OuterRule(m, h)
  }

  /** The max-height after a burst of notifications, in arrival order, while
      the measurements stay `h`. Every value it goes through is the starting
      one, the sentinel, or a clamp at exactly the outer height. */
  function Run(m: MaxHeight, ns: seq<Notification>, h: Layout): (r: MaxHeight)
    ensures r == m || r == Original || r == Px(h.outerClient)
    decreases |ns|
  {
    if ns == [] then m else Run(Step(m, ns[0], h), ns[1..], h)
  }

  ghost predicate InnerSettled(m: MaxHeight, h: Layout)
  {
    InnerRule(m, h) == m
  }

  ghost predicate OuterSettled(m: MaxHeight, h: Layout)
  {
    OuterRule(m, h) == m
  }

  /** A fixed point of both sensors. */
  ghost predicate Settled(m: MaxHeight, h: Layout)
  {
    InnerSettled(m, h) && OuterSettled(m, h)
  }

  /** The outer rule never undoes what the inner rule settled ... */
  lemma OuterKeepsInnerSettled(m: MaxHeight, h: Layout)
    requires InnerSettled(m, h)
    ensures InnerSettled(OuterRule(m, h), h)
  {
  }

  /** ... nor the inner rule what the outer rule settled. */
  lemma InnerKeepsOuterSettled(m: MaxHeight, h: Layout)
    requires OuterSettled(m, h)
    ensures OuterSettled(InnerRule(m, h), h)
  {
  }

  lemma {:induction false} RunKeepsSettled(m: MaxHeight, ns: seq<Notification>, h: Layout)
    ensures InnerSettled(m, h) ==> InnerSettled(Run(m, ns, h), h)
    ensures OuterSettled(m, h) ==> OuterSettled(Run(m, ns, h), h)
    decreases |ns|
  {
    if ns != [] {
      var m' := Step(m, ns[0], h);
      RulesIdempotent(m, h);
      if InnerSettled(m, h) {
        if ns[0] == OuterResized { OuterKeepsInnerSettled(m, h); }
      }
      if OuterSettled(m, h) {
        if ns[0] == InnerResized { InnerKeepsOuterSettled(m, h); }
      }
      RunKeepsSettled(m', ns[1..], h);
    }
  }

  /** Once each sensor has fired at least once with the final measurements,
      the max-height is a fixed point of both rules. */
  lemma {:induction false} RunSettles(m: MaxHeight, ns: seq<Notification>, h: Layout)
    requires InnerResized in ns && OuterResized in ns
    ensures Settled(Run(m, ns, h), h)
  {
    InnerAfterInner(m, ns, h);
    OuterAfterOuter(m, ns, h);
  }

  lemma {:induction false} InnerAfterInner(m: MaxHeight, ns: seq<Notification>, h: Layout)
    requires InnerResized in ns
    ensures InnerSettled(Run(m, ns, h), h)
    decreases |ns|
  {
    var m' := Step(m, ns[0], h);
    if ns[0] == InnerResized {
      RulesIdempotent(m, h);
      RunKeepsSettled(m', ns[1..], h);
    } else {
      assert InnerResized in ns[1..];
      InnerAfterInner(m', ns[1..], h);
    }
  }

  lemma {:induction false} OuterAfterOuter(m: MaxHeight, ns: seq<Notification>, h: Layout)
    requires OuterResized in ns
    ensures OuterSettled(Run(m, ns, h), h)
    decreases |ns|
  {
    var m' := Step(m, ns[0], h);
    if ns[0] == OuterResized {
      RulesIdempotent(m, h);
      RunKeepsSettled(m', ns[1..], h);
    } else {
      assert OuterResized in ns[1..];
      OuterAfterOuter(m', ns[1..], h);
    }
  }

  /** A settled max-height survives any further burst. */
  lemma {:induction false} SettledRunIdle(m: MaxHeight, ns: seq<Notification>, h: Layout)
    requires Settled(m, h)
    ensures Run(m, ns, h) == m
    decreases |ns|
  {
    if ns != [] {
      SettledRunIdle(Step(m, ns[0], h), ns[1..], h);
    }
  }

  lemma {:induction false} RunAppend(m: MaxHeight, a: seq<Notification>, b: seq<Notification>,
                                     h: Layout)
    ensures Run(m, a + b, h) == Run(Run(m, a, h), b, h)
    decreases |a|
  {
    if a != [] {
      assert (a + b)[0] == a[0] && (a + b)[1..] == a[1..] + b;
      RunAppend(Step(m, a[0], h), a[1..], b, h);
    } else {
      assert a + b == b;
    }
  }

  /** No oscillation: once the measurements are stable and each sensor has
      fired once, no later notification, in any order, changes the
      max-height. */
  lemma NoOscillation(m: MaxHeight, settle: seq<Notification>, later: seq<Notification>,
                      h: Layout)
    requires InnerResized in settle && OuterResized in settle
    ensures Run(m, settle + later, h) == Run(m, settle, h)
  {
    RunAppend(m, settle, later, h);
    RunSettles(m, settle, h);
    SettledRunIdle(Run(m, settle, h), later, h);
  }

  // ---- order independence ----

  /** The two rules commute: with the same measurements, inner-then-outer and
      outer-then-inner commit the same max-height. */
  lemma RulesCommute(m: MaxHeight, h: Layout)
    ensures OuterRule(InnerRule(m, h), h) == InnerRule(OuterRule(m, h), h)
  {
  }

  /** A burst of inner notifications only acts as one inner notification. */
  lemma {:induction false} RunOnlyInner(m: MaxHeight, ns: seq<Notification>, h: Layout)
    requires InnerResized in ns && OuterResized !in ns
    ensures Run(m, ns, h) == InnerRule(m, h)
    decreases |ns|
  {
    assert ns[0] == InnerResized;
    var rest := ns[1..];
    if rest != [] {
      assert ns == [ns[0]] + rest;
      assert rest[0] in ns && rest[0] in rest;
      assert rest[0] == InnerResized;
      RunOnlyInner(InnerRule(m, h), rest, h);
      RulesIdempotent(m, h);
    }
  }

  /** A burst of outer notifications only acts as one outer notification. */
  lemma {:induction false} RunOnlyOuter(m: MaxHeight, ns: seq<Notification>, h: Layout)
    requires OuterResized in ns && InnerResized !in ns
    ensures Run(m, ns, h) == OuterRule(m, h)
    decreases |ns|
  {
    assert ns[0] == OuterResized;
    var rest := ns[1..];
    if rest != [] {
      assert ns == [ns[0]] + rest;
      assert rest[0] in ns && rest[0] in rest;
      assert rest[0] == OuterResized;
      RunOnlyOuter(OuterRule(m, h), rest, h);
      RulesIdempotent(m, h);
    }
  }

  /** Any burst holding both kinds of notification, in whatever order and
      interleaving, commits the inner rule followed by the outer rule. */
  lemma {:induction false} RunBothKinds(m: MaxHeight, ns: seq<Notification>, h: Layout)
    requires InnerResized in ns && OuterResized in ns
    ensures Run(m, ns, h) == OuterRule(InnerRule(m, h), h)
    decreases |ns|
  {
    var rest := ns[1..];
    assert forall n :: n in ns && n != ns[0] ==> n in rest;
    var m' := Step(m, ns[0], h);
    RulesIdempotent(m, h);
    if ns[0] == InnerResized {
      if InnerResized in rest {
        RunBothKinds(m', rest, h);
      } else {
        RunOnlyOuter(m', rest, h);
      }
    } else {
      RulesCommute(m, h);
      if OuterResized in rest {
        RunBothKinds(m', rest, h);
        RulesIdempotent(InnerRule(m, h), h);
      } else {
        RunOnlyInner(m', rest, h);
      }
    }
  }

  /** Arrival order does not matter: two bursts that each hold both kinds of
      notification commit the same max-height. */
  lemma OrderIndependent(m: MaxHeight, a: seq<Notification>, b: seq<Notification>,
                         h: Layout)
    requires InnerResized in a && OuterResized in a
    requires InnerResized in b && OuterResized in b
    ensures Run(m, a, h) == Run(m, b, h)
  {
    RunBothKinds(m, a, h);
    RunBothKinds(m, b, h);
  }

  /** Outer box 600 high, inner box 800 high, nothing set yet: clamped to 600. */
  lemma ClampScenario()
    ensures InnerRule(Css(""), Layout(800, 800, 600)) == Px(600)
  {
  }

  /** Clamped to 600, the inner box shrinks to 500: the clamp is released. */
  lemma ReleaseScenario()
    ensures InnerRule(Px(600), Layout(500, 500, 600)) == Original
  {
  }

  /** The dialog plugin element (`.q-dialog-plugin`), of which the two
      callbacks change only the inline max-height. */
  class DialogPlugin {
    var maxHeight: MaxHeight

    /** `initial` is whatever inline max-height the element has when the
        sensors are installed. */
    constructor (initial: MaxHeight)
      ensures maxHeight == initial
    {
      maxHeight := initial;
    }

    /** The callback of the sensor on the inner element. */
    method OnInnerResize(h: Layout)
      modifies this`maxHeight
      ensures maxHeight == InnerRule(old(maxHeight), h)
    {
      if h.innerClient > h.outerClient {
        maxHeight := Px(h.outerClient);
      } else if h.innerClient < h.outerClient && maxHeight != Original {
        maxHeight := Original;
      }
    }

    /** The callback of the sensor on the outer element. */
    method OnOuterResize(h: Layout)
      modifies this`maxHeight
      ensures maxHeight == OuterRule(old(maxHeight), h)
    {
      if maxHeight != Original && h.innerScroll > h.innerClient {
        if h.innerScroll > h.outerClient {
          maxHeight := Px(h.outerClient);
        } else {
          maxHeight := Original;
        }
      }
    }
  }
}
