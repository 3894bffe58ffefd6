# appbarsyncedfab — translation reconciliation for a floating action button

This project models, in Dafny, the core of the `appbarsyncedfab` Android library:
the two pieces of code that write to the same `translationY` of one floating
action button (FAB), each changing only its own share of it.

- `FabOffsetter` (module `FabOffsetting`) listens to the app bar's vertical
  offset. It scales the distance from the FAB's top to the parent's bottom by
  the collapse fraction `-verticalOffset / appBarHeight`. It keeps its own
  share in a tag on the FAB, and adds only the change of that share to the
  translation.
- `AppBarBoundFabBehavior` (module `SnackbarDisplacement`) registers one
  `FabOffsetter` with the first app bar it meets. It also moves the FAB clear
  of overlapping snackbars. The target is the most negative
  `translationY - height` over the overlapping snackbars, or 0. It applies only
  the change of its own recorded share. A move of more than 2/3 of the FAB's
  height, on a shown FAB, goes through a `ValueAnimator` that is created once
  and keeps its first endpoints.

The framework types the code touches live in module `Android`: the FAB (`top`,
`height`, `shown`, `translationY`, the offset tag), the coordinator layout
(`bottom` and the FAB's dependency list), the app bar (`height` and its
listener list) and the value animator (fixed `from`/`to`, `running`). Java
`float` is `real`. Android's `int` positions stay `int`.

Each class method is proved against a pure function of the state it touches:
`OnOffsetChanged` against `OffsetStep`, the snackbar methods against
`SnackbarStep` and `SnackbarOverlap`. The lemmas state the properties of those
functions. These include non-interference with other writers, idempotence, no
drift over a run of events, linear interpolation, landing on the parent's
bottom at full collapse, and "minimum wins, not the sum" for snackbars.

The model follows the code as written, in particular:
- The fraction divides by the app bar's height, not by its scroll range.
- There is no guard against a zero height.
- A second animated snackbar move restarts the animator with its old endpoints
  (see Findings).

## Model

| member | source | states |
|---|---|---|
| `Android.Int32` | library/src/main/java/com/lambdasoup/appbarsyncedfab/FabOffsetter.java:76 | Java `int` arithmetic: the result is in the signed 32-bit range and congruent to the exact value modulo 2^32 |
| `FabOffsetting.DisplacementFraction` | library/src/main/java/com/lambdasoup/appbarsyncedfab/FabOffsetter.java:41 | the fraction is 0 exactly when the offset is 0, 1 exactly when the offset is minus the app-bar height, and in [0, 1] exactly for offsets in between |
| `FabOffsetting.OffsetStep` | library/src/main/java/com/lambdasoup/appbarsyncedfab/FabOffsetter.java:41-59 | after an offset change the tag is set, and the translation minus the offsetter's own share (a missing tag counting as 0) is the same as before |
| `FabOffsetting.FabOffsetter.constructor` | library/src/main/java/com/lambdasoup/appbarsyncedfab/FabOffsetter.java:30-33 | the offsetter holds the given parent and FAB |
| `FabOffsetting.FabOffsetter.OnOffsetChanged` | library/src/main/java/com/lambdasoup/appbarsyncedfab/FabOffsetter.java:36-60 | writes exactly the FAB's translation and tag, to the values `OffsetStep` gives for the parent's bottom, the FAB's top and the old translation and tag |
| `FabOffsetting.OffsetInterpolates` | library/src/main/java/com/lambdasoup/appbarsyncedfab/FabOffsetter.java:41-56 | the new own share is the collapse fraction times the full displacement (parent bottom minus the top without the own share); at full collapse it is the full displacement |
| `FabOffsetting.OffsetExpanded` | library/src/main/java/com/lambdasoup/appbarsyncedfab/FabOffsetter.java:41-59 | at offset 0 the tag becomes 0 and the translation falls back to its external share |
| `FabOffsetting.OffsetFullCollapse` | library/src/main/java/com/lambdasoup/appbarsyncedfab/FabOffsetter.java:41-59 | at offset minus the app-bar height, top plus translation equals the parent's bottom |
| `FabOffsetting.OffsetHalfCollapse` | library/src/main/java/com/lambdasoup/appbarsyncedfab/FabOffsetter.java:41-55 | offset -h/2 yields half the own share of offset -h |
| `FabOffsetting.OffsetOverrides` | library/src/main/java/com/lambdasoup/appbarsyncedfab/FabOffsetter.java:46-59 | two offset changes in a row give what the second alone gives |
| `FabOffsetting.OffsetIdempotent` | library/src/main/java/com/lambdasoup/appbarsyncedfab/FabOffsetter.java:41-59 | repeating an offset change leaves translation and tag unchanged |
| `FabOffsetting.OffsetKeepsExternalWrite` | library/src/main/java/com/lambdasoup/appbarsyncedfab/FabOffsetter.java:46-59 | after another writer adds to the translation, the next change moves it by exactly the change of own share and the other writer's amount stays in the external share |
| `FabOffsetting.OffsetRunNoDrift` | library/src/main/java/com/lambdasoup/appbarsyncedfab/FabOffsetter.java:36-60 | any non-empty run of offset changes ends where the last offset alone would put the FAB |
| `FabOffsetting.FabOffsetter.Equals` | library/src/main/java/com/lambdasoup/appbarsyncedfab/FabOffsetter.java:62-71 | an object equals the offsetter exactly when it is a `FabOffsetter` with the same parent and the same FAB |
| `FabOffsetting.FabOffsetter.HashCode` | library/src/main/java/com/lambdasoup/appbarsyncedfab/FabOffsetter.java:73-78 | the hash is a 32-bit value congruent to 31 * hash(parent) + hash(fab) modulo 2^32 |
| `FabOffsetting.EqualsConsistentWithHashCode` | library/src/main/java/com/lambdasoup/appbarsyncedfab/FabOffsetter.java:62-78 | `equals` is reflexive, symmetric and transitive, and equal offsetters have equal hash codes |
| `SnackbarDisplacement.SnackbarOverlap` | library/src/main/java/com/lambdasoup/appbarsyncedfab/AppBarBoundFabBehavior.java:143-156 | the overlap is at most 0, at most `translationY - height` of every overlapping snackbar, and either 0 or equal to that of one of them; other views are ignored |
| `SnackbarDisplacement.NoSnackbarNoOverlap` | library/src/main/java/com/lambdasoup/appbarsyncedfab/AppBarBoundFabBehavior.java:145-155 | with no overlapping snackbar the overlap is 0 |
| `SnackbarDisplacement.DeeperSnackbarWins` | library/src/main/java/com/lambdasoup/appbarsyncedfab/AppBarBoundFabBehavior.java:149-152 | for two overlapping snackbars the overlap is the smaller of the two offsets, strictly above their sum |
| `SnackbarDisplacement.SnackbarStep` | library/src/main/java/com/lambdasoup/appbarsyncedfab/AppBarBoundFabBehavior.java:95-136 | the recorded share becomes the target; an unchanged target changes nothing; the animator runs afterwards iff the FAB is shown and the move exceeds 0.667 of its height; otherwise the external share is kept; the animated path leaves the translation to the animator; an existing animator keeps its endpoints; a new one goes from the current translation to current plus the change |
| `SnackbarDisplacement.SnackbarRemovalRestores` | library/src/main/java/com/lambdasoup/appbarsyncedfab/AppBarBoundFabBehavior.java:82-88 | once no overlapping snackbar remains, an update without animation sets the recorded share to 0 and puts the translation back on its external share |
| `SnackbarDisplacement.StaleAnimatorMissesTarget` | library/src/main/java/com/lambdasoup/appbarsyncedfab/AppBarBoundFabBehavior.java:119-130 | a concrete update where the reused animator settles the FAB at -100 although the intended translation is 0 |
| `SnackbarDisplacement.SnackbarStepRetargeted` | library/src/main/java/com/lambdasoup/appbarsyncedfab/AppBarBoundFabBehavior.java:102-136 | with the animator re-targeted on every animated update, the FAB always comes to rest at the current translation plus the change of own share |
| `SnackbarDisplacement.AppBarBoundFabBehavior.constructor` | library/src/main/java/com/lambdasoup/appbarsyncedfab/AppBarBoundFabBehavior.java:45-56 | no listener registered, no animator, recorded share 0 |
| `SnackbarDisplacement.AppBarBoundFabBehavior.LayoutDependsOn` | library/src/main/java/com/lambdasoup/appbarsyncedfab/AppBarBoundFabBehavior.java:59-66 | depends on every app bar and on what the superclass accepts; the first app bar gets one new offsetter for (parent, FAB) appended to its listeners; at most one offsetter is ever registered per behaviour |
| `SnackbarDisplacement.AppBarBoundFabBehavior.OnDependentViewChanged` | library/src/main/java/com/lambdasoup/appbarsyncedfab/AppBarBoundFabBehavior.java:68-80 | an app bar: true and nothing changes; a snackbar: true and the snackbar update; any other view: the superclass's answer |
| `SnackbarDisplacement.AppBarBoundFabBehavior.OnDependentViewRemoved` | library/src/main/java/com/lambdasoup/appbarsyncedfab/AppBarBoundFabBehavior.java:82-88 | removing a snackbar runs the snackbar update; removing anything else changes nothing |
| `SnackbarDisplacement.AppBarBoundFabBehavior.UpdateFabTranslationForSnackbar` | library/src/main/java/com/lambdasoup/appbarsyncedfab/AppBarBoundFabBehavior.java:90-137 | the recorded share, the animator and the FAB's translation become what `SnackbarStep` gives for the current overlap; an existing animator object is kept, a new one is fresh |
| `SnackbarDisplacement.AppBarBoundFabBehavior.GetVisibleHeightOfOverlappingSnackbar` | library/src/main/java/com/lambdasoup/appbarsyncedfab/AppBarBoundFabBehavior.java:139-156 | the loop's result equals the min-fold `SnackbarOverlap` of the dependency list |

## Findings

| source | as written | input that shows it | evidently intended | confidence | as-written member | corrected member |
|---|---|---|---|---|---|---|
| library/src/main/java/com/lambdasoup/appbarsyncedfab/AppBarBoundFabBehavior.java:119-130 | the animator is created only while the field is null; later animated updates call `start()` on it with the endpoints of the first animation | recorded share -100, stopped animator from 0 to -100, translation -100, new target 0, FAB shown with height 100: the update restarts 0 to -100 | each animated update animates from the current translation to the current translation plus the change of own share | medium; not executed | `SnackbarDisplacement.StaleAnimatorMissesTarget` | `SnackbarDisplacement.SnackbarStepRetargeted` |

The behaviour class keeps the as-written animator, because it models the
program. `SnackbarStepRetargeted` is the corrected step, with its resting
position proved, next to `SnackbarStep`.

## Left out

- FabOffsetting.FabOffsetter.OnOffsetChanged: requires a positive app-bar height. The code divides by the height with no guard, and Java float division by 0 gives Infinity or NaN, which `real` cannot represent.
- FabOffsetting.DisplacementFraction: the negation of `Integer.MIN_VALUE` overflows in Java; offsets are unbounded integers here.
- Float rounding: all translations are exact reals, so the equalities proved here hold only up to rounding in the program. The same holds for the `==` test of the recorded share and for the 0.667 threshold.
- Animation timing: the interpolator, the frame callbacks that write the animated value, and the frame that `start()` may write at once are not modelled. An animator is only its fixed endpoints and its running state. `Settled` is where the FAB ends up once a running animation completes.
- SnackbarDisplacement.AppBarBoundFabBehavior.LayoutDependsOn: the superclass's `layoutDependsOn` is not part of this model; its answer is the parameter `superDependsOn`.
- SnackbarDisplacement.AppBarBoundFabBehavior.OnDependentViewChanged: the superclass's `onDependentViewChanged` is not part of this model; its answer is the parameter `superChanged`, and it is assumed to leave this behaviour's state and the FAB's translation alone.
- `CoordinatorLayout.getDependencies`, `CoordinatorLayout.doViewsOverlap` and `View.isShown` are inputs: the parent's `dependencies` list, each snackbar's `overlapsFab` bit and the FAB's `shown` field.
- The app bar's listener registry only appends. Its own handling of duplicate listeners through `equals` is not part of this model.
- View identity hashes are fixed 32-bit constants per view (`identityHash`).
- The tag holds only a real or nothing. A tag of another type would make the `(Float)` cast throw; that case is left out.
- The sample application (activities and the list adapter) is UI plumbing and is not part of this model.
