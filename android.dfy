/** The parts of the Android framework that the FAB behaviour reads and writes:
    the floating action button, its coordinating parent, the app bar, the
    parent's dependency list and the value animator. Only the state the
    behaviour touches is modelled; everything else about a view is left out. */
module Android {

  datatype Option<T> = None | Some(value: T)

  /** `Nullables.coalesce`: a missing (null) value reads as the default. */
  function Coalesce(o: Option<real>, default: real): real {
    match o
    case None => default
    case Some(v) => v
  }

  const MinInt32: int := -0x8000_0000
  const MaxInt32: int := 0x7fff_ffff

  /** A Java `int`. */
  type int32 = x: int | MinInt32 <= x <= MaxInt32

  /** Java `int` arithmetic: the value congruent to `x` modulo 2^32 in the signed 32-bit range. */
  function Int32(x: int): (r: int32)
    ensures (x - r) % 0x1_0000_0000 == 0
    ensures MinInt32 <= x <= MaxInt32 ==> r == x
  {
    var m := x % 0x1_0000_0000;
    if m <= MaxInt32 then m else m - 0x1_0000_0000
  }

  /** The two values the app-bar offsetter writes on the FAB: its translation
      and the tag that remembers the offsetter's own share of it. */
  datatype TranslationState = TranslationState(translationY: real, offsetTag: Option<real>)

  class FloatingActionButton {
    var top: int
    var height: int
    var shown: bool
    /** The one translation every contributor shares. */
    var translationY: real
    /** The tag `R.id.fab_translationY_from_AppBarBoundFabBehavior`; None while unset. */
    var offsetTag: Option<real>
    /** `Object.hashCode()`: an identity hash. */
    const identityHash: int32

    constructor (top: int, height: int, shown: bool, identityHash: int32)
      ensures this.top == top && this.height == height && this.shown == shown
      ensures this.identityHash == identityHash
      ensures translationY == 0.0 && offsetTag == None
    {
      this.top := top;
      this.height := height;
      this.shown := shown;
      this.identityHash := identityHash;
      translationY := 0.0;
      offsetTag := None;
    }

    function Snapshot(): TranslationState
      reads this
    {
      TranslationState(translationY, offsetTag)
    }
  }

  class AppBarLayout {
    var height: int
    /** The registered `OnOffsetChangedListener`s, in registration order. */
    var offsetListeners: seq<object>

    constructor (height: int)
      ensures this.height == height && offsetListeners == []
    {
      this.height := height;
      offsetListeners := [];
    }
  }

  /** A view the FAB depends on, as `CoordinatorLayout.getDependencies` lists it.
      `overlapsFab` is what `CoordinatorLayout.doViewsOverlap(fab, view)` answers. */
  datatype Dependency =
    | AppBar(bar: AppBarLayout)
    | Snackbar(translationY: real, height: int, overlapsFab: bool)
    | OtherView

  class CoordinatorLayout {
    var bottom: int
    /** The dependencies of the FAB this model follows. */
    var dependencies: seq<Dependency>
    const identityHash: int32

    constructor (bottom: int, identityHash: int32)
      ensures this.bottom == bottom && this.identityHash == identityHash && dependencies == []
    {
      this.bottom := bottom;
      this.identityHash := identityHash;
      dependencies := [];
    }
  }

  /** A float animator whose endpoints are fixed when it is created; the
      frame-by-frame updates it delivers are not modelled. */
  class ValueAnimator {
    const from: real
    const to: real
    var running: bool

    constructor OfFloat(from: real, to: real)
      ensures this.from == from && this.to == to && !running
    {
      this.from := from;
      this.to := to;
      running := false;
    }

    method Start()
      modifies this
      ensures running
    {
      running := true;
    }

    method Cancel()
      modifies this
      ensures !running
    {
      running := false;
    }
  }
}
