/** The coordinator behaviour for the FAB: hooks the app-bar offsetter up once,
    and moves the FAB clear of snackbars by its own share of the translation,
    animating large moves. */
module SnackbarDisplacement {
  import opened Android
  import opened FabOffsetting

  function Min(a: real, b: real): real {
    if a <= b then a else b
  }

  function Abs(x: real): real {
    if x < 0.0 then -x else x
  }

  /** A snackbar that overlaps the FAB; other dependencies do not move it. */
  predicate OverlappingSnackbar(d: Dependency) {
    d.Snackbar? && d.overlapsFab
  }

  /** How far a snackbar reaches up over its bottom edge, as a (negative) translation. */
  function VisibleOffset(d: Dependency): real
    requires d.Snackbar?
  {
    d.translationY - d.height as real
  }

  /** The most negative visible offset among the overlapping snackbars, or 0
      when there is none: the minimum, never the sum. */
  function SnackbarOverlap(deps: seq<Dependency>): (r: real)
    ensures r <= 0.0
    ensures forall i :: 0 <= i < |deps| && OverlappingSnackbar(deps[i]) ==> r <= VisibleOffset(deps[i])
    ensures r == 0.0 || exists i :: 0 <= i < |deps| && OverlappingSnackbar(deps[i]) && r == VisibleOffset(deps[i])
  {
    if deps == [] then 0.0
    else
      var rest := SnackbarOverlap(deps[..|deps| - 1]);
      var last := deps[|deps| - 1];
      if OverlappingSnackbar(last) then Min(rest, VisibleOffset(last)) else rest
  }

  /** With no overlapping snackbar left (the last one removed), the target share is 0. */
  lemma NoSnackbarNoOverlap(deps: seq<Dependency>)
    requires forall i :: 0 <= i < |deps| ==> !OverlappingSnackbar(deps[i])
    ensures SnackbarOverlap(deps) == 0.0
  {
  }

  /** Two overlapping snackbars: the deeper one wins, the two are not added. */
  lemma {:induction false} DeeperSnackbarWins(a: Dependency, b: Dependency)
    requires OverlappingSnackbar(a) && OverlappingSnackbar(b)
    requires VisibleOffset(a) < 0.0 && VisibleOffset(b) < 0.0
    ensures SnackbarOverlap([a, b]) == Min(VisibleOffset(a), VisibleOffset(b))
    ensures SnackbarOverlap([a, b]) > VisibleOffset(a) + VisibleOffset(b)
  {
    assert [a, b][..1] == [a];
    assert [a][..0] == [];
  }

  /** The animator as the behaviour sees it. */
  datatype AnimatorState = NoAnimator | Animator(from: real, to: real, running: bool)

  /** What a snackbar update reads and writes: the behaviour's recorded share,
      its animator and the FAB's translation. */
  datatype SnackbarState = SnackbarState(byThis: real, animator: AnimatorState, translationY: real)

  /** The animated path is taken for a visible FAB that would move by more than 2/3 of its height. */
  predicate Animates(s: SnackbarState, target: real, shown: bool, fabHeight: int) {
    target != s.byThis && shown && Abs(target - s.byThis) > fabHeight as real * 0.667
  }

  /** Where the FAB comes to rest: the end of a running animation, else its translation. */
  function Settled(s: SnackbarState): real {
    if s.animator.Animator? && s.animator.running then s.animator.to else s.translationY
  }

  /** The animator after a running animation is cancelled. */
  function Cancelled(a: AnimatorState): AnimatorState {
    if a.Animator? && a.running then a.(running := false) else a
  }

  /** One snackbar update toward `target`, as the code does it: the animator is
      created only once and keeps its first endpoints. */
  function SnackbarStep(s: SnackbarState, target: real, shown: bool, fabHeight: int): (r: SnackbarState)
    ensures r.byThis == target
    ensures target == s.byThis ==> r == s
    ensures target != s.byThis ==> (r.animator.Animator? && r.animator.running <==> Animates(s, target, shown, fabHeight))
    ensures !Animates(s, target, shown, fabHeight) ==> r.translationY - r.byThis == s.translationY - s.byThis
    ensures Animates(s, target, shown, fabHeight) ==> r.translationY == s.translationY
    ensures s.animator.Animator? ==> r.animator.Animator? && r.animator.from == s.animator.from && r.animator.to == s.animator.to
    ensures s.animator.NoAnimator? && r.animator.Animator? ==>
              r.animator.from == s.translationY && r.animator.to == s.translationY + (target - s.byThis)
  {
    if s.byThis == target then s
    else
      var current := s.translationY;
      var delta := target - s.byThis;
      var targetTransY := current + delta;
      var animator := Cancelled(s.animator);
      if shown && Abs(current - targetTransY) > fabHeight as real * 0.667 then
        var started := if animator.NoAnimator? then Animator(current, targetTransY, true) else animator.(running := true);
        SnackbarState(target, started, current)
      else
        SnackbarState(target, animator, targetTransY)
  }

  /** The removal of the last overlapping snackbar, without animation, puts
      the FAB back on exactly the translation other sources gave it. */
  lemma SnackbarRemovalRestores(s: SnackbarState, deps: seq<Dependency>, shown: bool, fabHeight: int)
    requires forall i :: 0 <= i < |deps| ==> !OverlappingSnackbar(deps[i])
    requires !Animates(s, 0.0, shown, fabHeight)
    ensures var r := SnackbarStep(s, SnackbarOverlap(deps), shown, fabHeight);
            r.byThis == 0.0 && r.translationY == s.translationY - s.byThis
  {
    NoSnackbarNoOverlap(deps);
  }

  /** The same step with the animator re-targeted to the current move each time. */
  function SnackbarStepRetargeted(s: SnackbarState, target: real, shown: bool, fabHeight: int): (r: SnackbarState)
    ensures r.byThis == target
    ensures target == s.byThis ==> r == s
    ensures target != s.byThis ==> Settled(r) == s.translationY + (target - s.byThis)
  {
    if s.byThis == target then s
    else
      var current := s.translationY;
      var targetTransY := current + (target - s.byThis);
      if shown && Abs(current - targetTransY) > fabHeight as real * 0.667 then
        SnackbarState(target, Animator(current, targetTransY, true), current)
      else
        SnackbarState(target, Cancelled(s.animator), targetTransY)
  }

  /** As written, a second animated update restarts the first animation: the
      FAB moved up by 100 for a snackbar, the snackbar goes, and the FAB is
      animated back to -100 instead of to 0. */
  lemma StaleAnimatorMissesTarget()
    ensures var s := SnackbarState(-100.0, Animator(0.0, -100.0, false), -100.0);
            var r := SnackbarStep(s, 0.0, true, 100);
            r.byThis == 0.0 && Settled(r) == -100.0 && Settled(r) != s.translationY + (0.0 - s.byThis)
  {
    var s := SnackbarState(-100.0, Animator(0.0, -100.0, false), -100.0);
    assert Animates(s, 0.0, true, 100);
  }

  class AppBarBoundFabBehavior {
    var listenerRegistered: bool
    var snackbarFabTranslationYAnimator: ValueAnimator?
    var snackbarFabTranslationYByThis: real
    /** The offsetters this behaviour has registered with an app bar. */
    ghost var registered: seq<FabOffsetter>

    ghost predicate Valid()
      reads this
    {
      |registered| <= 1 && (listenerRegistered <==> |registered| == 1)
    }

    constructor ()
      ensures Valid()
      ensures !listenerRegistered && registered == []
      ensures snackbarFabTranslationYAnimator == null && snackbarFabTranslationYByThis == 0.0
    {
      listenerRegistered := false;
      snackbarFabTranslationYAnimator := null;
      snackbarFabTranslationYByThis := 0.0;
      registered := [];
    }

    function Snapshot(fab: FloatingActionButton): SnackbarState
      reads this, fab, snackbarFabTranslationYAnimator
    {
      var animator :=
        if snackbarFabTranslationYAnimator == null then NoAnimator
        else Animator(snackbarFabTranslationYAnimator.from, snackbarFabTranslationYAnimator.to,
                      snackbarFabTranslationYAnimator.running);
      SnackbarState(snackbarFabTranslationYByThis, animator, fab.translationY)
    }

    /** Registers one offsetter with the first app bar it meets, and depends
        on every app bar plus whatever the superclass depends on. */
    method LayoutDependsOn(parent: CoordinatorLayout, child: FloatingActionButton, dependency: Dependency,
                           superDependsOn: bool)
      returns (dependsOn: bool)
      requires Valid()
      modifies this`listenerRegistered, this`registered
      modifies if dependency.AppBar? then {dependency.bar} else {}
      ensures Valid()
      ensures dependsOn == (dependency.AppBar? || superDependsOn)
      ensures listenerRegistered == (old(listenerRegistered) || dependency.AppBar?)
      ensures if dependency.AppBar? && !old(listenerRegistered) then
                old(registered) == [] && |registered| == 1 && fresh(registered[0])
                && registered[0].parent == parent && registered[0].fab == child
                && dependency.bar.offsetListeners == old(dependency.bar.offsetListeners) + [registered[0]]
              else
                registered == old(registered)
                && (dependency.AppBar? ==> dependency.bar.offsetListeners == old(dependency.bar.offsetListeners))
      ensures dependency.AppBar? ==> dependency.bar.height == old(dependency.bar.height)
    {
      if dependency.AppBar? && !listenerRegistered {
        var offsetter := new FabOffsetter(parent, child);
        dependency.bar.offsetListeners := dependency.bar.offsetListeners + [offsetter];
        listenerRegistered := true;
        registered := [offsetter];
      }
      dependsOn := dependency.AppBar? || superDependsOn;
    }

    method OnDependentViewChanged(parent: CoordinatorLayout, fab: FloatingActionButton, dependency: Dependency,
                                  superChanged: bool)
      returns (changed: bool)
      modifies this`snackbarFabTranslationYByThis, this`snackbarFabTranslationYAnimator, fab`translationY
      modifies snackbarFabTranslationYAnimator
      ensures changed == (dependency.AppBar? || dependency.Snackbar? || superChanged)
      ensures !dependency.Snackbar? ==> Snapshot(fab) == old(Snapshot(fab))
      ensures !dependency.Snackbar? ==> snackbarFabTranslationYAnimator == old(snackbarFabTranslationYAnimator)
      ensures dependency.Snackbar? ==>
                Snapshot(fab) == SnackbarStep(old(Snapshot(fab)), SnackbarOverlap(parent.dependencies), fab.shown, fab.height)
      ensures old(snackbarFabTranslationYAnimator) != null ==> snackbarFabTranslationYAnimator == old(snackbarFabTranslationYAnimator)
      ensures old(snackbarFabTranslationYAnimator) == null && snackbarFabTranslationYAnimator != null ==> fresh(snackbarFabTranslationYAnimator)
    {
      if dependency.AppBar? {
        return true;
      } else if dependency.Snackbar? {
        UpdateFabTranslationForSnackbar(parent, fab);
        return true;
      }
      return superChanged;
    }

    method OnDependentViewRemoved(parent: CoordinatorLayout, child: FloatingActionButton, dependency: Dependency)
      modifies this`snackbarFabTranslationYByThis, this`snackbarFabTranslationYAnimator, child`translationY
      modifies snackbarFabTranslationYAnimator
      ensures !dependency.Snackbar? ==> Snapshot(child) == old(Snapshot(child))
      ensures !dependency.Snackbar? ==> snackbarFabTranslationYAnimator == old(snackbarFabTranslationYAnimator)
      ensures dependency.Snackbar? ==>
                Snapshot(child) == SnackbarStep(old(Snapshot(child)), SnackbarOverlap(parent.dependencies), child.shown, child.height)
      ensures old(snackbarFabTranslationYAnimator) != null ==> snackbarFabTranslationYAnimator == old(snackbarFabTranslationYAnimator)
      ensures old(snackbarFabTranslationYAnimator) == null && snackbarFabTranslationYAnimator != null ==> fresh(snackbarFabTranslationYAnimator)
    {
      if dependency.Snackbar? {
        UpdateFabTranslationForSnackbar(parent, child);
      }
    }

    method UpdateFabTranslationForSnackbar(parent: CoordinatorLayout, fab: FloatingActionButton)
      modifies this`snackbarFabTranslationYByThis, this`snackbarFabTranslationYAnimator, fab`translationY
      modifies snackbarFabTranslationYAnimator
      ensures Snapshot(fab) == SnackbarStep(old(Snapshot(fab)), SnackbarOverlap(parent.dependencies), fab.shown, fab.height)
      ensures old(snackbarFabTranslationYAnimator) != null ==> snackbarFabTranslationYAnimator == old(snackbarFabTranslationYAnimator)
      ensures old(snackbarFabTranslationYAnimator) == null && snackbarFabTranslationYAnimator != null ==> fresh(snackbarFabTranslationYAnimator)
    {
      var targetTransYByThis := GetVisibleHeightOfOverlappingSnackbar(parent);
      if snackbarFabTranslationYByThis == targetTransYByThis {
        return;
      }
      var currentTransY := fab.translationY;
      var stepTransYDelta := targetTransYByThis - snackbarFabTranslationYByThis;
      var targetTransY := currentTransY + stepTransYDelta;
      if snackbarFabTranslationYAnimator != null && snackbarFabTranslationYAnimator.running {
        snackbarFabTranslationYAnimator.Cancel();
      }
      if fab.shown && Abs(currentTransY - targetTransY) > fab.height as real * 0.667 {
        if snackbarFabTranslationYAnimator == null {
          snackbarFabTranslationYAnimator := new ValueAnimator.OfFloat(currentTransY, targetTransY);
        }
        snackbarFabTranslationYAnimator.Start();
      } else {
        fab.translationY := targetTransY;
      }
      snackbarFabTranslationYByThis := targetTransYByThis;
    }

    method GetVisibleHeightOfOverlappingSnackbar(parent: CoordinatorLayout) returns (minOffset: real)
      ensures minOffset == SnackbarOverlap(parent.dependencies)
    {
      minOffset := 0.0;
      var dependencies := parent.dependencies;
      var i, z := 0, |dependencies|;
      while i < z
        invariant 0 <= i <= z == |dependencies|
        invariant minOffset == SnackbarOverlap(dependencies[..i])
      {
        var view := dependencies[i];
        if view.Snackbar? && view.overlapsFab {
          minOffset := Min(minOffset, view.translationY - view.height as real);
        }
        assert dependencies[..i + 1][..i] == dependencies[..i];
        i := i + 1;
      }
      assert dependencies[..i] == dependencies;
    }
  }
}
