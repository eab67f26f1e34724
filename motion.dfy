/** The motion layer: attributes that mark page sections for animation, the
    rule that reveals them as they scroll into view, the navbar that hides
    on the way down, the bounded magnetic pull on buttons, and the
    reduced-motion switch that turns the decorative parts off. */
module Motion {
  import opened Text

  // ---------------------------------------------------------------------
  // Settings and numeric helpers
  // ---------------------------------------------------------------------

  /** Scroll offset past which the navbar may hide. */
  const NavHideThreshold: real := 100.0
  /** Scroll offset past which the navbar carries its shadow. */
  const NavShadowThreshold: real := 50.0
  const MagneticStrength: real := 0.3
  const MagneticLimit: real := 15.0

  function Min(a: real, b: real): real { if a <= b then a else b }
  function Max(a: real, b: real): real { if a >= b then a else b }

  /** Math.min(Math.max(value, lo), hi). */
  function Clamp(value: real, lo: real, hi: real): (r: real)
    ensures lo <= hi ==> lo <= r <= hi
    ensures lo <= value <= hi ==> r == value
    ensures lo <= hi && value < lo ==> r == lo
    ensures value > hi ==> r == hi
    ensures lo > hi ==> r == hi
  {
    Min(Max(value, lo), hi)
  }

  /** How far a button follows the pointer along one axis: the pointer's
      distance from the button's centre, scaled, then held within 15 pixels
      either way. */
  function MagneticOffset(pointer: real, start: real, size: real): (r: real)
    ensures -MagneticLimit <= r <= MagneticLimit
    ensures var raw := (pointer - start - size / 2.0) * MagneticStrength;
      -MagneticLimit <= raw <= MagneticLimit ==> r == raw
  {
    Clamp((pointer - start - size / 2.0) * MagneticStrength, -MagneticLimit, MagneticLimit)
  }

  // ---------------------------------------------------------------------
  // Motion attributes of one element
  // ---------------------------------------------------------------------

  /** An element of the page, by identity. */
  type ElementId = nat

  type Attrs = map<string, string>

  const DataMotion := "data-motion"
  const DataMotionOnce := "data-motion-once"
  const DataMotionDelay := "data-motion-delay"

  /** An element's attributes after it is marked with a motion: one that
      already has a motion is left exactly as it was; any other gets the
      motion and is marked to play once. */
  function Marked(attrs: Attrs, motion: string): (r: Attrs)
    ensures DataMotion in r
    ensures DataMotion in attrs ==> r == attrs
    ensures DataMotion !in attrs ==> r[DataMotion] == motion && DataMotionOnce in r && r[DataMotionOnce] == "true"
    ensures forall k :: k != DataMotion && k != DataMotionOnce ==> (k in r <==> k in attrs)
    ensures forall k :: k in attrs && k != DataMotion && k != DataMotionOnce ==> r[k] == attrs[k]
  {
    if DataMotion in attrs then attrs
    else attrs[DataMotion := motion][DataMotionOnce := "true"]
  }

  /** The delay step of the element at position `index` among the matches:
      positions cycle through 1..period. */
  function StaggerStep(index: nat, period: nat): (d: nat)
    requires period > 0
    ensures 1 <= d <= period
  {
    index % period + 1
  }

  /** Marked, with the element's delay step as well. */
  function StaggerMarked(attrs: Attrs, motion: string, index: nat, period: nat): (r: Attrs)
    requires period > 0
    ensures DataMotion in r
    ensures DataMotion in attrs ==> r == attrs
    ensures DataMotion !in attrs ==>
      r == Marked(attrs, motion)[DataMotionDelay := DecimalString(StaggerStep(index, period))]
  {
    if DataMotion in attrs then attrs
    else attrs[DataMotion := motion][DataMotionDelay := DecimalString(index % period + 1)][DataMotionOnce := "true"]
  }

  /** A multiple of b other than zero is at least b away from zero. */
  lemma {:induction false} MultipleBound(k: int, b: nat)
    requires k != 0
    ensures k > 0 ==> k * b >= b
    ensures k < 0 ==> k * b + b <= 0
    decreases if k > 0 then k else -k
  {
    if k > 1 {
      MultipleBound(k - 1, b);
      assert k * b == (k - 1) * b + b;
    } else if k < -1 {
      MultipleBound(k + 1, b);
      assert k * b == (k + 1) * b - b;
    }
  }

  /** Positions `period` apart share a delay step. */
  lemma StaggerStepCycles(index: nat, period: nat)
    requires period > 0
    ensures StaggerStep(index + period, period) == StaggerStep(index, period)
  {
    var q, m := index / period, index % period;
    var q2, m2 := (index + period) / period, (index + period) % period;
    var k := q2 - q - 1;
    assert k * period == m - m2;
    if k != 0 {
      MultipleBound(k, period);
    }
  }

  /** The delay attribute reads back as the step of the position, a number
      in 1..period, and positions `period` apart share the same delay. */
  lemma StaggerDelayCycles(attrs: Attrs, motion: string, index: nat, period: nat)
    requires period > 0 && DataMotion !in attrs
    ensures var r := StaggerMarked(attrs, motion, index, period);
      DataMotionDelay in r && AllDigits(r[DataMotionDelay]) &&
      DigitsValue(r[DataMotionDelay]) == index % period + 1 &&
      1 <= DigitsValue(r[DataMotionDelay]) <= period &&
      r[DataMotionDelay] == StaggerMarked(attrs, motion, index + period, period)[DataMotionDelay]
  {
    var d := StaggerStep(index, period);
    assert StaggerMarked(attrs, motion, index, period)[DataMotionDelay] == DecimalString(d);
    DecimalStringRoundTrip(d);
    StaggerStepCycles(index, period);
    assert StaggerMarked(attrs, motion, index + period, period)[DataMotionDelay] == DecimalString(d);
  }

  // ---------------------------------------------------------------------
  // Marking passes over the page
  // ---------------------------------------------------------------------

  /** The attributes of every element of the page. */
  type AttrTable = map<ElementId, Attrs>

  predicate AllIn(ids: seq<ElementId>, t: AttrTable) {
    forall i :: 0 <= i < |ids| ==> ids[i] in t
  }

  /** apply: the first match, if there is one, is marked. */
  function MarkFirst(t: AttrTable, el: Option<ElementId>, motion: string): (r: AttrTable)
    requires AllIn(OptSeq(el), t)
    ensures r.Keys == t.Keys
    ensures Keeps(t, r) && Covers(r, OptSeq(el))
  {
    if el.Some? then
      assert OptSeq(el)[0] == el.value;
      t[el.value := Marked(t[el.value], motion)]
    else t
  }

  /** applyAll: the matches are marked one after the other. */
  function MarkEach(t: AttrTable, ids: seq<ElementId>, motion: string): (r: AttrTable)
    requires AllIn(ids, t)
    ensures r.Keys == t.Keys
    decreases |ids|
  {
    if ids == [] then t
    else
      var before := MarkEach(t, ids[..|ids| - 1], motion);
      before[ids[|ids| - 1] := Marked(before[ids[|ids| - 1]], motion)]
  }

  /** applyStagger: the matches are marked one after the other, each with
      the delay step of its position among all the matches. */
  function StaggerEach(t: AttrTable, ids: seq<ElementId>, motion: string, period: nat): (r: AttrTable)
    requires period > 0 && AllIn(ids, t)
    ensures r.Keys == t.Keys
    decreases |ids|
  {
    if ids == [] then t
    else
      var before := StaggerEach(t, ids[..|ids| - 1], motion, period);
      var last := ids[|ids| - 1];
      before[last := StaggerMarked(before[last], motion, |ids| - 1, period)]
  }

  /** Every match ends up marked with the motion, exactly as if it had been
      marked alone; nothing else changes. A match listed twice is marked
      once. */
  lemma {:induction false} MarkEachSpec(t: AttrTable, ids: seq<ElementId>, motion: string)
    requires AllIn(ids, t)
    ensures forall id :: id in t ==>
      MarkEach(t, ids, motion)[id] == if id in ids then Marked(t[id], motion) else t[id]
    decreases |ids|
  {
    if ids != [] {
      var init := ids[..|ids| - 1];
      MarkEachSpec(t, init, motion);
      forall id | id in t
        ensures MarkEach(t, ids, motion)[id] == if id in ids then Marked(t[id], motion) else t[id]
      {
        if id != ids[|ids| - 1] {
          assert id in ids <==> id in init;
        }
      }
    }
  }

  /** With matches listed once each, the i-th match gets the delay step of
      position i; elements outside the list do not change. */
  lemma {:induction false} StaggerEachSpec(t: AttrTable, ids: seq<ElementId>, motion: string, period: nat)
    requires period > 0 && AllIn(ids, t)
    requires forall i, j :: 0 <= i < j < |ids| ==> ids[i] != ids[j]
    ensures forall i :: 0 <= i < |ids| ==>
      StaggerEach(t, ids, motion, period)[ids[i]] == StaggerMarked(t[ids[i]], motion, i, period)
    ensures forall id :: id in t && id !in ids ==> StaggerEach(t, ids, motion, period)[id] == t[id]
    decreases |ids|
  {
    if ids != [] {
      var init := ids[..|ids| - 1];
      StaggerEachSpec(t, init, motion, period);
      forall i | 0 <= i < |ids| - 1
        ensures StaggerEach(t, ids, motion, period)[ids[i]] == StaggerMarked(t[ids[i]], motion, i, period)
      {
        assert ids[i] == init[i];
      }
      forall id | id in t && id !in ids
        ensures StaggerEach(t, ids, motion, period)[id] == t[id]
      {
        assert id !in init;
      }
    }
  }

  /** A staggered pass also leaves every match marked, and one already
      marked untouched. */
  lemma {:induction false} StaggerEachMarks(t: AttrTable, ids: seq<ElementId>, motion: string, period: nat)
    requires period > 0 && AllIn(ids, t)
    ensures forall id :: id in t && id in ids ==> DataMotion in StaggerEach(t, ids, motion, period)[id]
    ensures forall id :: id in t && DataMotion in t[id] ==> StaggerEach(t, ids, motion, period)[id] == t[id]
    ensures forall id :: id in t && id !in ids ==> StaggerEach(t, ids, motion, period)[id] == t[id]
    decreases |ids|
  {
    if ids != [] {
      var init := ids[..|ids| - 1];
      StaggerEachMarks(t, init, motion, period);
      forall id | id in t && id in ids
        ensures DataMotion in StaggerEach(t, ids, motion, period)[id]
      {
        if id != ids[|ids| - 1] {
          assert id in init;
        }
      }
      forall id | id in t && id !in ids
        ensures StaggerEach(t, ids, motion, period)[id] == t[id]
      {
        assert id !in init;
      }
    }
  }

  /** One call of the auto-apply: apply (the first match), applyAll or
      applyStagger, with the matches and the motion. */
  datatype Pass =
    | First(el: Option<ElementId>, motion: string)
    | Every(ids: seq<ElementId>, motion: string)
    | Staggered(ids: seq<ElementId>, motion: string, period: nat)

  function OptSeq(el: Option<ElementId>): seq<ElementId> {
    if el.Some? then [el.value] else []
  }

  /** The elements one pass selects. */
  function PassIds(x: Pass): seq<ElementId> {
    match x
    case First(el, _) => OptSeq(el)
    case Every(ids, _) => ids
    case Staggered(ids, _, _) => ids
  }

  predicate PassFits(x: Pass, t: AttrTable) {
    AllIn(PassIds(x), t) && (x.Staggered? ==> x.period > 0)
  }

  function ApplyPass(t: AttrTable, x: Pass): (r: AttrTable)
    requires PassFits(x, t)
    ensures r.Keys == t.Keys
  {
    match x
    case First(el, m) => MarkFirst(t, el, m)
    case Every(ids, m) => MarkEach(t, ids, m)
    case Staggered(ids, m, k) => StaggerEach(t, ids, m, k)
  }

  predicate AllFit(xs: seq<Pass>, t: AttrTable) {
    forall i :: 0 <= i < |xs| ==> PassFits(xs[i], t)
  }

  /** Fitting a table depends only on its elements, not their attributes. */
  lemma FitsSameKeys(xs: seq<Pass>, t: AttrTable, u: AttrTable)
    requires AllFit(xs, t) && t.Keys == u.Keys
    ensures AllFit(xs, u)
  {
    forall i | 0 <= i < |xs| ensures PassFits(xs[i], u) {
      assert PassFits(xs[i], t);
    }
  }

  /** The passes run one after the other. */
  function RunPasses(t: AttrTable, xs: seq<Pass>): (r: AttrTable)
    requires AllFit(xs, t)
    ensures r.Keys == t.Keys
    decreases |xs|
  {
    if xs == [] then t
    else
      var u := ApplyPass(t, xs[0]);
      FitsSameKeys(xs[1..], t, u);
      RunPasses(u, xs[1..])
  }

  /** Every element some pass selects. */
  function SelectedBy(xs: seq<Pass>): seq<ElementId>
    decreases |xs|
  {
    if xs == [] then [] else PassIds(xs[0]) + SelectedBy(xs[1..])
  }

  /** What the auto-apply selects on a page, in the order it runs. */
  datatype Page = Page(
    aboutText: Option<ElementId>,
    aboutImage: Option<ElementId>,
    sectionHeaders: seq<ElementId>,
    serviceCards: seq<ElementId>,
    stepCards: seq<ElementId>,
    testimonialCards: seq<ElementId>,
    aboutFeatures: seq<ElementId>,
    ctaContainer: Option<ElementId>,
    footerColumns: seq<ElementId>)

  /** The nine calls the auto-apply makes, in order. */
  function Passes(p: Page): seq<Pass> {
    [First(p.aboutText, "fade-left"),
     First(p.aboutImage, "fade-right"),
     Every(p.sectionHeaders, "fade-up"),
     Staggered(p.serviceCards, "fade-up", 3),
     Staggered(p.stepCards, "fade-up", 4),
     Staggered(p.testimonialCards, "scale-up", 3),
     Staggered(p.aboutFeatures, "fade-left", 4),
     First(p.ctaContainer, "fade-up"),
     Staggered(p.footerColumns, "fade-up", 4)]
  }

  /** What a pass keeps, from one table to the next: the same elements, and
      every element that had a motion exactly as it was. */
  predicate Keeps(before: AttrTable, after: AttrTable) {
    before.Keys == after.Keys &&
    forall id :: id in before && DataMotion in before[id] ==> after[id] == before[id]
  }

  /** Every listed element has a motion. */
  predicate Covers(t: AttrTable, ids: seq<ElementId>) {
    forall i :: 0 <= i < |ids| ==> ids[i] in t && DataMotion in t[ids[i]]
  }

  /** One pass keeps what was marked and covers what it selects. */
  lemma PassKeepsAndCovers(t: AttrTable, x: Pass)
    requires PassFits(x, t)
    ensures Keeps(t, ApplyPass(t, x)) && Covers(ApplyPass(t, x), PassIds(x))
  {
    var ids := PassIds(x);
    match x
    case First(_, _) =>
    case Every(_, m) =>
      MarkEachSpec(t, ids, m);
      assert forall i :: 0 <= i < |ids| ==> ids[i] in ids;
    case Staggered(_, m, k) =>
      StaggerEachMarks(t, ids, m, k);
      assert forall i :: 0 <= i < |ids| ==> ids[i] in ids;
  }

  /** A pass whose matches all have a motion changes nothing. */
  lemma CoveredPassIsIdentity(t: AttrTable, x: Pass)
    requires PassFits(x, t) && Covers(t, PassIds(x))
    ensures ApplyPass(t, x) == t
  {
    var ids := PassIds(x);
    forall id | id in t && id in ids ensures DataMotion in t[id] {
      var i :| 0 <= i < |ids| && ids[i] == id;
    }
    match x
    case First(el, _) =>
      if el.Some? {
        assert ids[0] == el.value;
      }
    case Every(_, m) => MarkEachSpec(t, ids, m);
    case Staggered(_, m, k) => StaggerEachMarks(t, ids, m, k);
  }

  /** Running the passes leaves every selected element with a motion and
      never changes a motion already present. */
  lemma {:induction false} RunPassesMarksAll(t: AttrTable, xs: seq<Pass>)
    requires AllFit(xs, t)
    ensures Keeps(t, RunPasses(t, xs))
    ensures Covers(RunPasses(t, xs), SelectedBy(xs))
    decreases |xs|
  {
    if xs != [] {
      var u := ApplyPass(t, xs[0]);
      FitsSameKeys(xs[1..], t, u);
      PassKeepsAndCovers(t, xs[0]);
      RunPassesMarksAll(u, xs[1..]);
      var r := RunPasses(u, xs[1..]);
      assert Covers(r, PassIds(xs[0])) by {
        forall i | 0 <= i < |PassIds(xs[0])|
          ensures PassIds(xs[0])[i] in r && DataMotion in r[PassIds(xs[0])[i]]
        {
          assert PassIds(xs[0])[i] in u && DataMotion in u[PassIds(xs[0])[i]];
        }
      }
    }
  }

  /** Passes whose matches all have a motion change nothing. */
  lemma {:induction false} CoveredRunIsIdentity(t: AttrTable, xs: seq<Pass>)
    requires AllFit(xs, t) && Covers(t, SelectedBy(xs))
    ensures RunPasses(t, xs) == t
    decreases |xs|
  {
    if xs != [] {
      var s := SelectedBy(xs);
      assert s == PassIds(xs[0]) + SelectedBy(xs[1..]);
      assert Covers(t, PassIds(xs[0])) by {
        forall i | 0 <= i < |PassIds(xs[0])| ensures PassIds(xs[0])[i] in t && DataMotion in t[PassIds(xs[0])[i]] {
          assert s[i] == PassIds(xs[0])[i];
        }
      }
      assert Covers(t, SelectedBy(xs[1..])) by {
        forall i | 0 <= i < |SelectedBy(xs[1..])|
          ensures SelectedBy(xs[1..])[i] in t && DataMotion in t[SelectedBy(xs[1..])[i]]
        {
          assert s[|PassIds(xs[0])| + i] == SelectedBy(xs[1..])[i];
        }
      }
      CoveredPassIsIdentity(t, xs[0]);
      CoveredRunIsIdentity(t, xs[1..]);
    }
  }

  /** Running `a + b` is running `a`, then `b` on what `a` left. */
  lemma {:induction false} RunPassesSplit(t: AttrTable, a: seq<Pass>, b: seq<Pass>)
    requires AllFit(a + b, t)
    ensures AllFit(a, t)
    ensures AllFit(b, RunPasses(t, a))
    ensures RunPasses(t, a + b) == RunPasses(RunPasses(t, a), b)
    decreases |a|
  {
    assert AllFit(a, t) by {
      forall i | 0 <= i < |a| ensures PassFits(a[i], t) {
        assert (a + b)[i] == a[i];
      }
    }
    if a == [] {
      assert a + b == b;
    } else {
      var u := ApplyPass(t, a[0]);
      assert (a + b)[0] == a[0] && (a + b)[1..] == a[1..] + b;
      FitsSameKeys((a + b)[1..], t, u);
      RunPassesSplit(u, a[1..], b);
    }
  }

  /** Three passes run one after the other. */
  lemma RunThree(t: AttrTable, x: Pass, y: Pass, z: Pass)
    requires AllFit([x, y, z], t)
    ensures PassFits(x, t) && PassFits(y, ApplyPass(t, x))
    ensures PassFits(z, ApplyPass(ApplyPass(t, x), y))
    ensures RunPasses(t, [x, y, z]) == ApplyPass(ApplyPass(ApplyPass(t, x), y), z)
  {
    var xs := [x, y, z];
    assert PassFits(xs[0], t) && PassFits(xs[1], t) && PassFits(xs[2], t);
    var u := ApplyPass(t, x);
    var v := ApplyPass(u, y);
    FitsSameKeys([y, z], t, u);
    FitsSameKeys([z], t, v);
    assert xs[1..] == [y, z] && [y, z][1..] == [z] && [z][1..] == [];
    assert RunPasses(t, xs) == RunPasses(u, [y, z]);
    assert RunPasses(u, [y, z]) == RunPasses(v, [z]);
    assert RunPasses(v, [z]) == ApplyPass(v, z);
  }

  /** Every element the auto-apply selects, in the order of its passes. */
  function Selected(p: Page): seq<ElementId> {
    SelectedBy(Passes(p))
  }

  predicate OnPage(p: Page, t: AttrTable) {
    AllFit(Passes(p), t)
  }

  /** The auto-apply's nine passes, as each call leaves the attributes. */
  function AutoApplied(t: AttrTable, p: Page): (r: AttrTable)
    requires OnPage(p, t)
    ensures r.Keys == t.Keys
  {
    var xs := Passes(p);
    assert PassFits(xs[0], t) && PassFits(xs[1], t) && PassFits(xs[2], t);
    assert PassFits(xs[3], t) && PassFits(xs[4], t) && PassFits(xs[5], t);
    assert PassFits(xs[6], t) && PassFits(xs[7], t) && PassFits(xs[8], t);
    var t1 := MarkFirst(t, p.aboutText, "fade-left");
    var t2 := MarkFirst(t1, p.aboutImage, "fade-right");
    var t3 := MarkEach(t2, p.sectionHeaders, "fade-up");
    var t4 := StaggerEach(t3, p.serviceCards, "fade-up", 3);
    var t5 := StaggerEach(t4, p.stepCards, "fade-up", 4);
    var t6 := StaggerEach(t5, p.testimonialCards, "scale-up", 3);
    var t7 := StaggerEach(t6, p.aboutFeatures, "fade-left", 4);
    var t8 := MarkFirst(t7, p.ctaContainer, "fade-up");
    StaggerEach(t8, p.footerColumns, "fade-up", 4)
  }

  /** The nine calls are the passes of the page run in order. */
  lemma AutoAppliedRunsPasses(t: AttrTable, p: Page)
    requires OnPage(p, t)
    ensures AutoApplied(t, p) == RunPasses(t, Passes(p))
  {
    var a := [First(p.aboutText, "fade-left"), First(p.aboutImage, "fade-right"),
              Every(p.sectionHeaders, "fade-up")];
    var b := [Staggered(p.serviceCards, "fade-up", 3), Staggered(p.stepCards, "fade-up", 4),
              Staggered(p.testimonialCards, "scale-up", 3)];
    var c := [Staggered(p.aboutFeatures, "fade-left", 4), First(p.ctaContainer, "fade-up"),
              Staggered(p.footerColumns, "fade-up", 4)];
    assert Passes(p) == (a + b) + c;
    RunPassesSplit(t, a + b, c);
    RunPassesSplit(t, a, b);
    RunThree(t, a[0], a[1], a[2]);
    RunThree(RunPasses(t, a), b[0], b[1], b[2]);
    RunThree(RunPasses(t, a + b), c[0], c[1], c[2]);
  }

  /** The auto-apply leaves every selected element with a motion, never
      changes a motion already present, and a second run changes nothing. */
  lemma AutoApplyIsIdempotent(t: AttrTable, p: Page)
    requires OnPage(p, t)
    ensures Keeps(t, AutoApplied(t, p))
    ensures Covers(AutoApplied(t, p), Selected(p))
    ensures OnPage(p, AutoApplied(t, p))
    ensures AutoApplied(AutoApplied(t, p), p) == AutoApplied(t, p)
  {
    var u := AutoApplied(t, p);
    AutoAppliedRunsPasses(t, p);
    RunPassesMarksAll(t, Passes(p));
    FitsSameKeys(Passes(p), t, u);
    AutoAppliedRunsPasses(u, p);
    CoveredRunIsIdentity(u, Passes(p));
  }

  // The page's elements as one mutable document
  // ---------------------------------------------------------------------

  /** Each element's attributes and classes. */
  class Document {
    var attrs: AttrTable
    var classes: map<ElementId, set<string>>

    constructor(attrs: AttrTable, classes: map<ElementId, set<string>>)
      ensures this.attrs == attrs && this.classes == classes
    {
      this.attrs := attrs;
      this.classes := classes;
    }

    method ApplyOne(el: Option<ElementId>, motion: string)
      requires AllIn(OptSeq(el), attrs)
      modifies this
      ensures attrs == MarkFirst(old(attrs), el, motion) && classes == old(classes)
    {
      if el.Some? {
        var id := el.value;
        assert OptSeq(el)[0] == id;
        var a := attrs[id];
        if DataMotion !in a {
          a := a[DataMotion := motion];
          a := a[DataMotionOnce := "true"];
          attrs := attrs[id := a];
        }
      }
    }

    method ApplyAll(ids: seq<ElementId>, motion: string)
      requires AllIn(ids, attrs)
      modifies this
      ensures attrs == MarkEach(old(attrs), ids, motion) && classes == old(classes)
    {
      for i := 0 to |ids|
        invariant attrs == MarkEach(old(attrs), ids[..i], motion)
        invariant classes == old(classes)
      {
        assert ids[..i + 1][..i] == ids[..i];
        var id := ids[i];
        var el := attrs[id];
        if DataMotion !in el {
          el := el[DataMotion := motion];
          el := el[DataMotionOnce := "true"];
          attrs := attrs[id := el];
        }
      }
      assert ids[..|ids|] == ids;
    }

    method ApplyStagger(ids: seq<ElementId>, motion: string, period: nat)
      requires period > 0 && AllIn(ids, attrs)
      modifies this
      ensures attrs == StaggerEach(old(attrs), ids, motion, period) && classes == old(classes)
    {
      for i := 0 to |ids|
        invariant attrs == StaggerEach(old(attrs), ids[..i], motion, period)
        invariant classes == old(classes)
      {
        assert ids[..i + 1][..i] == ids[..i];
        var id := ids[i];
        var el := attrs[id];
        if DataMotion !in el {
          el := el[DataMotion := motion];
          el := el[DataMotionDelay := DecimalString(i % period + 1)];
          el := el[DataMotionOnce := "true"];
          attrs := attrs[id := el];
        }
      }
      assert ids[..|ids|] == ids;
    }

    /** The auto-apply at start-up: skipped entirely under reduced motion,
        otherwise the nine passes in order. */
    method AutoApply(p: Page, reducedMotion: bool)
      requires OnPage(p, attrs)
      modifies this
      ensures attrs == (if reducedMotion then old(attrs) else AutoApplied(old(attrs), p))
      ensures classes == old(classes)
    {
      if reducedMotion {
        return;
      }
      ghost var xs := Passes(p);
      assert PassFits(xs[0], attrs) && PassFits(xs[1], attrs) && PassFits(xs[2], attrs);
      assert PassFits(xs[3], attrs) && PassFits(xs[4], attrs) && PassFits(xs[5], attrs);
      assert PassFits(xs[6], attrs) && PassFits(xs[7], attrs) && PassFits(xs[8], attrs);
      ApplyOne(p.aboutText, "fade-left");
      ApplyOne(p.aboutImage, "fade-right");
      ApplyAll(p.sectionHeaders, "fade-up");
      ApplyStagger(p.serviceCards, "fade-up", 3);
      ApplyStagger(p.stepCards, "fade-up", 4);
      ApplyStagger(p.testimonialCards, "scale-up", 3);
      ApplyStagger(p.aboutFeatures, "fade-left", 4);
      ApplyOne(p.ctaContainer, "fade-up");
      ApplyStagger(p.footerColumns, "fade-up", 4);
    }

    /** Adds a class to every listed element. */
    method AddClassToAll(ids: seq<ElementId>, c: string)
      requires forall i :: 0 <= i < |ids| ==> ids[i] in classes
      modifies this
      ensures classes.Keys == old(classes.Keys) && attrs == old(attrs)
      ensures forall id :: id in classes ==>
        classes[id] == if id in ids then old(classes[id]) + {c} else old(classes[id])
    {
      for i := 0 to |ids|
        invariant classes.Keys == old(classes.Keys) && attrs == old(attrs)
        invariant forall id :: id in classes ==>
          classes[id] == if id in ids[..i] then old(classes[id]) + {c} else old(classes[id])
      {
        assert forall id :: id in ids[..i + 1] <==> id in ids[..i] || id == ids[i];
        classes := classes[ids[i] := classes[ids[i]] + {c}];
      }
      assert ids[..|ids|] == ids;
    }

    /** The hover enhancer: cards lift and social icons scale, unless motion
        is reduced. */
    method EnhanceHover(reducedMotion: bool, cards: seq<ElementId>, icons: seq<ElementId>)
      requires forall i :: 0 <= i < |cards| ==> cards[i] in classes
      requires forall i :: 0 <= i < |icons| ==> icons[i] in classes
      modifies this
      ensures attrs == old(attrs) && classes.Keys == old(classes.Keys)
      ensures reducedMotion ==> classes == old(classes)
      ensures !reducedMotion ==> forall id :: id in classes ==>
        classes[id] == old(classes[id]) +
          (if id in cards then {"motion-hover-lift"} else {}) +
          (if id in icons then {"motion-icon-scale"} else {})
    {
      if reducedMotion {
        return;
      }
      AddClassToAll(cards, "motion-hover-lift");
      AddClassToAll(icons, "motion-icon-scale");
    }
  }

  // ---------------------------------------------------------------------
  // Reveal on scroll
  // ---------------------------------------------------------------------

  const MotionVisible := "motion-visible"

  /** The classes after one observer report: entering the viewport adds the
      visible class; leaving it removes the class again unless the element
      is marked to play once. */
  function RevealClasses(classes: set<string>, attrs: Attrs, isIntersecting: bool): (r: set<string>)
    ensures isIntersecting ==> MotionVisible in r
    ensures !isIntersecting ==>
      (MotionVisible in r <==> MotionVisible in classes && DataMotionOnce in attrs && attrs[DataMotionOnce] == "true")
    ensures forall c :: c != MotionVisible ==> (c in r <==> c in classes)
  {
    if isIntersecting then classes + {MotionVisible}
    else if DataMotionOnce !in attrs || attrs[DataMotionOnce] != "true" then classes - {MotionVisible}
    else classes
  }

  /** The classes after a run of reports for one element. */
  function RevealAfter(classes: set<string>, attrs: Attrs, reports: seq<bool>): set<string>
    decreases |reports|
  {
    if reports == [] then classes
    else RevealClasses(RevealAfter(classes, attrs, reports[..|reports| - 1]), attrs, reports[|reports| - 1])
  }

  /** An element that plays once stays visible through every later report
      once it has been seen; any other element is visible exactly when the
      last report said it intersects. */
  lemma {:induction false} RevealOnceStays(classes: set<string>, attrs: Attrs, reports: seq<bool>)
    ensures DataMotionOnce in attrs && attrs[DataMotionOnce] == "true" && MotionVisible in classes ==>
      MotionVisible in RevealAfter(classes, attrs, reports)
    ensures (DataMotionOnce !in attrs || attrs[DataMotionOnce] != "true") && reports != [] ==>
      (MotionVisible in RevealAfter(classes, attrs, reports) <==> reports[|reports| - 1])
    decreases |reports|
  {
    if reports != [] {
      RevealOnceStays(classes, attrs, reports[..|reports| - 1]);
    }
  }

  /** The elements `[data-motion]` selects. */
  function WithMotion(t: AttrTable): set<ElementId> {
    set id | id in t && DataMotion in t[id]
  }

  /** After the auto-apply, the reveal observer finds every element the
      auto-apply selected, and every element that had a motion before. */
  lemma AutoAppliedAreWatched(t: AttrTable, p: Page)
    requires OnPage(p, t)
    ensures forall i :: 0 <= i < |Selected(p)| ==> Selected(p)[i] in WithMotion(AutoApplied(t, p))
    ensures WithMotion(t) <= WithMotion(AutoApplied(t, p))
  {
    AutoApplyIsIdempotent(t, p);
  }

  /** The reveal observer: the document it works on and the elements it
      watches. */
  class ScrollReveal {
    const doc: Document
    var observed: set<ElementId>

    /** Watches every element that has a motion, unless motion is reduced
        or there is none. */
    constructor(doc: Document, reducedMotion: bool)
      ensures this.doc == doc
      ensures reducedMotion ==> observed == {}
      ensures !reducedMotion ==> observed == WithMotion(doc.attrs)
      ensures forall id :: id in observed <==> !reducedMotion && id in doc.attrs && DataMotion in doc.attrs[id]
    {
      this.doc := doc;
      var elements := WithMotion(doc.attrs);
      if reducedMotion || |elements| == 0 {
        observed := {};
      } else {
        observed := elements;
      }
    }

    /** One report for one watched element. */
    method OnEntry(id: ElementId, isIntersecting: bool)
      requires id in observed && id in doc.classes && id in doc.attrs
      modifies doc
      ensures doc.classes == old(doc.classes)[id := RevealClasses(old(doc.classes[id]), old(doc.attrs[id]), isIntersecting)]
      ensures doc.attrs == old(doc.attrs)
    {
      if isIntersecting {
        doc.classes := doc.classes[id := doc.classes[id] + {MotionVisible}];
      } else if DataMotionOnce !in doc.attrs[id] || doc.attrs[id][DataMotionOnce] != "true" {
        doc.classes := doc.classes[id := doc.classes[id] - {MotionVisible}];
      }
    }
  }

  // ---------------------------------------------------------------------
  // Navbar hide and shadow
  // ---------------------------------------------------------------------

  /** The navbar's two classes and the offset of the previous scroll event. */
  class NavbarScroll {
    var hidden: bool
    var shadow: bool
    var lastY: real

    constructor(hidden: bool, shadow: bool)
      ensures this.hidden == hidden && this.shadow == shadow && lastY == 0.0
    {
      this.hidden := hidden;
      this.shadow := shadow;
      lastY := 0.0;
    }

    /** Near the top the navbar always shows; further down it hides while
        scrolling down and shows again on the way up. The shadow follows its
        own, lower threshold. */
    method OnScroll(y: real)
      modifies this
      ensures y <= NavHideThreshold ==> !hidden
      ensures y > NavHideThreshold ==> (hidden <==> y > old(lastY))
      ensures shadow <==> y > NavShadowThreshold
      ensures lastY == y
    {
      var down := y > lastY;
      if y > NavHideThreshold {
        hidden := down;
      } else {
        hidden := false;
      }
      shadow := y > NavShadowThreshold;
      lastY := y;
    }
  }

  // ---------------------------------------------------------------------
  // Start-up
  // ---------------------------------------------------------------------

  /** Which of the motion layer's effects are set up at start-up. */
  datatype Installed = Installed(
    autoApply: bool,
    revealOnScroll: bool,
    parallax: bool,
    scrollProgress: bool,
    navbar: bool,
    cursorGlow: bool,
    magnetic: bool,
    hover: bool)

  /** The effects installed given the reduced-motion preference, a touch
      screen, and whether the page has elements with a motion, elements
      with a parallax speed, and a navbar. */
  function Startup(reducedMotion: bool, touch: bool, hasMotion: bool, hasParallax: bool, hasNavbar: bool): (r: Installed)
    ensures r.scrollProgress
    ensures r.navbar <==> hasNavbar
    ensures r.revealOnScroll ==> r.autoApply
  {
    Installed(
      !reducedMotion,
      !reducedMotion && hasMotion,
      !reducedMotion && hasParallax,
      true,
      hasNavbar,
      !reducedMotion && !touch,
      !reducedMotion && !touch,
      !reducedMotion)
  }

  /** Reduced motion turns off every decorative effect; the scroll progress
      bar and the navbar's hide-and-shadow behaviour stay. */
  lemma ReducedMotionSwitchesOff(touch: bool, hasMotion: bool, hasParallax: bool, hasNavbar: bool)
    ensures var r := Startup(true, touch, hasMotion, hasParallax, hasNavbar);
      !r.autoApply && !r.revealOnScroll && !r.parallax && !r.cursorGlow && !r.magnetic && !r.hover &&
      r.scrollProgress && (r.navbar <==> hasNavbar)
  {
  }
}
