/** The app-bar offset listener: moves the FAB out through the parent's bottom
    in step with the app bar collapsing, changing only its own share of the
    FAB's translation. */
module FabOffsetting {
  import opened Android

  /** How far the app bar has collapsed: 0 when fully expanded, 1 when the
      offset equals minus the app bar's height. */
  function DisplacementFraction(verticalOffset: int, appBarHeight: int): (f: real)
    requires appBarHeight > 0
    ensures verticalOffset == 0 <==> f == 0.0
    ensures verticalOffset == -appBarHeight <==> f == 1.0
    ensures -appBarHeight <= verticalOffset <= 0 <==> 0.0 <= f <= 1.0
  {
    (-verticalOffset) as real / appBarHeight as real
  }

  /** The offsetter's own share of the translation, as its tag records it. */
  function OwnShare(s: TranslationState): real {
    Coalesce(s.offsetTag, 0.0)
  }

  /** Everything in the translation that did not come from the offsetter. */
  function ExternalShare(s: TranslationState): real {
    s.translationY - OwnShare(s)
  }

  /** What one offset change does to the FAB's translation and tag. */
  function OffsetStep(parentBottom: int, top: int, s: TranslationState, verticalOffset: int, appBarHeight: int)
    : (r: TranslationState)
    requires appBarHeight > 0
    ensures r.offsetTag.Some?
    ensures ExternalShare(r) == ExternalShare(s)
  {
    var fraction := DisplacementFraction(verticalOffset, appBarHeight);
    var previous := Coalesce(s.offsetTag, 0.0);
    var topUntranslated := top as real + s.translationY - previous;
    var fullDisplacement := parentBottom as real - topUntranslated;
    var contribution := fullDisplacement * fraction;
    TranslationState(contribution - previous + s.translationY, Some(contribution))
  }

  /** The distance from the FAB's top, without the offsetter's share, to the parent's bottom. */
  function FullDisplacement(parentBottom: int, top: int, s: TranslationState): real {
    parentBottom as real - (top as real + ExternalShare(s))
  }

  /** The new share is the collapse fraction of the full displacement: a
      linear interpolation between 0 (expanded) and the full displacement. */
  lemma OffsetInterpolates(parentBottom: int, top: int, s: TranslationState, verticalOffset: int, appBarHeight: int)
    requires appBarHeight > 0
    ensures OwnShare(OffsetStep(parentBottom, top, s, verticalOffset, appBarHeight))
         == DisplacementFraction(verticalOffset, appBarHeight) * FullDisplacement(parentBottom, top, s)
    ensures OwnShare(OffsetStep(parentBottom, top, s, -appBarHeight, appBarHeight))
         == FullDisplacement(parentBottom, top, s)
  {
    var full := FullDisplacement(parentBottom, top, s);
    var computed := parentBottom as real - (top as real + s.translationY - Coalesce(s.offsetTag, 0.0));
    ScaleEqual(computed, full, DisplacementFraction(verticalOffset, appBarHeight));
    ScaleEqual(computed, full, DisplacementFraction(-appBarHeight, appBarHeight));
  }

  lemma ScaleEqual(x: real, y: real, factor: real)
    requires x == y
    ensures x * factor == factor * y
  {
  }

  /** Fully expanded: the offsetter's share drops to 0 and the translation
      falls back to exactly what other sources put there. */
  lemma OffsetExpanded(parentBottom: int, top: int, s: TranslationState, appBarHeight: int)
    requires appBarHeight > 0
    ensures var r := OffsetStep(parentBottom, top, s, 0, appBarHeight);
            OwnShare(r) == 0.0 && r.translationY == ExternalShare(s)
  {
    OffsetInterpolates(parentBottom, top, s, 0, appBarHeight);
    assert DisplacementFraction(0, appBarHeight) == 0.0;
  }

  /** Fully collapsed: the FAB's top lands exactly on the parent's bottom. */
  lemma OffsetFullCollapse(parentBottom: int, top: int, s: TranslationState, appBarHeight: int)
    requires appBarHeight > 0
    ensures top as real + OffsetStep(parentBottom, top, s, -appBarHeight, appBarHeight).translationY
         == parentBottom as real
  {
    OffsetInterpolates(parentBottom, top, s, -appBarHeight, appBarHeight);
  }

  /** Half collapsed gives half the share of fully collapsed. */
  lemma OffsetHalfCollapse(parentBottom: int, top: int, s: TranslationState, halfHeight: int)
    requires halfHeight > 0
    ensures 2.0 * OwnShare(OffsetStep(parentBottom, top, s, -halfHeight, 2 * halfHeight))
         == OwnShare(OffsetStep(parentBottom, top, s, -2 * halfHeight, 2 * halfHeight))
  {
    var h := 2 * halfHeight;
    var k := halfHeight as real;
    assert DisplacementFraction(-halfHeight, h) == k / (2.0 * k);
    assert k / (2.0 * k) == 0.5;
    OffsetInterpolates(parentBottom, top, s, -halfHeight, h);
    OffsetInterpolates(parentBottom, top, s, -h, h);
  }

  /** A later offset change overrides an earlier one completely: the result
      depends only on the last offset, not on the history. */
  lemma OffsetOverrides(parentBottom: int, top: int, s: TranslationState, first: int, second: int, appBarHeight: int)
    requires appBarHeight > 0
    ensures OffsetStep(parentBottom, top, OffsetStep(parentBottom, top, s, first, appBarHeight), second, appBarHeight)
         == OffsetStep(parentBottom, top, s, second, appBarHeight)
  {
    var m := OffsetStep(parentBottom, top, s, first, appBarHeight);
    OffsetInterpolates(parentBottom, top, s, second, appBarHeight);
    OffsetInterpolates(parentBottom, top, m, second, appBarHeight);
  }

  /** Repeating the same offset change leaves translation and tag as they are. */
  lemma OffsetIdempotent(parentBottom: int, top: int, s: TranslationState, verticalOffset: int, appBarHeight: int)
    requires appBarHeight > 0
    ensures var r := OffsetStep(parentBottom, top, s, verticalOffset, appBarHeight);
            OffsetStep(parentBottom, top, r, verticalOffset, appBarHeight) == r
  {
    OffsetOverrides(parentBottom, top, s, verticalOffset, verticalOffset, appBarHeight);
  }

  /** Another writer changes the translation between two offset changes: the
      second change moves the FAB by exactly the offsetter's own change of
      share and keeps the other writer's change. */
  lemma OffsetKeepsExternalWrite(parentBottom: int, top: int, s: TranslationState,
                                 first: int, second: int, appBarHeight: int, external: real)
    requires appBarHeight > 0
    ensures var r1 := OffsetStep(parentBottom, top, s, first, appBarHeight);
            var r2 := OffsetStep(parentBottom, top, r1.(translationY := r1.translationY + external), second, appBarHeight);
            r2.translationY == r1.translationY + external + (r2.offsetTag.value - r1.offsetTag.value)
            && ExternalShare(r2) == ExternalShare(s) + external
  {
    var r1 := OffsetStep(parentBottom, top, s, first, appBarHeight);
    assert ExternalShare(r1.(translationY := r1.translationY + external)) == ExternalShare(r1) + external;
  }

  /** A run of offset changes, as the app bar delivers them. */
  function OffsetRun(parentBottom: int, top: int, s: TranslationState, offsets: seq<int>, appBarHeight: int)
    : TranslationState
    requires appBarHeight > 0
    decreases |offsets|
  {
    if offsets == [] then s
    else OffsetRun(parentBottom, top, OffsetStep(parentBottom, top, s, offsets[0], appBarHeight), offsets[1..], appBarHeight)
  }

  /** No drift: after any run of offset changes the FAB is where the last
      offset alone would put it, with the external share untouched. */
  lemma {:induction false} OffsetRunNoDrift(parentBottom: int, top: int, s: TranslationState, offsets: seq<int>, appBarHeight: int)
    requires appBarHeight > 0
    requires offsets != []
    ensures OffsetRun(parentBottom, top, s, offsets, appBarHeight)
         == OffsetStep(parentBottom, top, s, offsets[|offsets| - 1], appBarHeight)
    decreases |offsets|
  {
    var next := OffsetStep(parentBottom, top, s, offsets[0], appBarHeight);
    if |offsets| > 1 {
      OffsetRunNoDrift(parentBottom, top, next, offsets[1..], appBarHeight);
      OffsetOverrides(parentBottom, top, s, offsets[0], offsets[|offsets| - 1], appBarHeight);
    } else {
      assert OffsetRun(parentBottom, top, next, offsets[1..], appBarHeight) == next;
    }
  }

  /** The listener registered with the app bar, one per (parent, FAB) pair. */
  class FabOffsetter {
    const parent: CoordinatorLayout
    const fab: FloatingActionButton

    constructor (parent: CoordinatorLayout, child: FloatingActionButton)
      ensures this.parent == parent && this.fab == child
    {
      this.parent := parent;
      this.fab := child;
    }

    method OnOffsetChanged(appBarLayout: AppBarLayout, verticalOffset: int)
      requires appBarLayout.height > 0
      modifies fab`translationY, fab`offsetTag
      ensures fab.Snapshot()
           == OffsetStep(parent.bottom, fab.top, old(fab.Snapshot()), verticalOffset, appBarLayout.height)
    {
      var displacementFraction := (-verticalOffset) as real / appBarLayout.height as real;
      var translationYFromThis := Coalesce(fab.offsetTag, 0.0);
      var topUntranslatedFromThis := fab.top as real + fab.translationY - translationYFromThis;
      var fullDisplacement := parent.bottom as real - topUntranslatedFromThis;
      var newTranslationYFromThis := fullDisplacement * displacementFraction;
      fab.offsetTag := Some(newTranslationYFromThis);
      fab.translationY := newTranslationYFromThis - translationYFromThis + fab.translationY;
    }

    /** `equals`: the same object, or another offsetter for the same parent and FAB. */
    predicate Equals(o: object?)
      ensures Equals(o) <==> o is FabOffsetter && (o as FabOffsetter).parent == parent && (o as FabOffsetter).fab == fab
    {
      this == o || (o != null && o is FabOffsetter && (o as FabOffsetter).parent == parent && (o as FabOffsetter).fab == fab)
    }

    /** `hashCode`: 31 * hash(parent) + hash(fab) in Java `int` arithmetic. */
    function HashCode(): (h: int)
      ensures MinInt32 <= h <= MaxInt32
      ensures (h - (31 * parent.identityHash + fab.identityHash)) % 0x1_0000_0000 == 0
    {
      var result := Int32(31 * parent.identityHash);
      Int32(result + fab.identityHash)
    }
  }

  /** `equals` is an equivalence, and equal offsetters have equal hash codes. */
  lemma EqualsConsistentWithHashCode(a: FabOffsetter, b: FabOffsetter, c: FabOffsetter)
    ensures a.Equals(a)
    ensures a.Equals(b) ==> b.Equals(a)
    ensures a.Equals(b) && b.Equals(c) ==> a.Equals(c)
    ensures a.Equals(b) ==> a.HashCode() == b.HashCode()
  {
  }
}
