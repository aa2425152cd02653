# Adyen iOS UI choreography, modelled in Dafny

This project models the UI choreography layer of the Adyen iOS checkout SDK. It has three parts.

- **Animation exclusivity.** The `UIView` extension gives every view a set of active animation keys (`animationsMap`). A request (`AnimationContext`, or its `KeyFrameAnimationContext` subclass) whose key is held is re-submitted after 0.1 s. A request whose key is free inserts the key and starts `UIView.animate` or `UIView.animateKeyframes`. When the framework reports completion, the caller's completion runs first with the framework's `finished` flag, and the key is removed only after it returns.
- **Modal frame.** `ModalViewController.finalPresentationFrame(in:keyboardRect:)` computes the frame of the presented sheet. On a pad the width is narrowed and centred. The height is clamped to between a quarter of the container and a ceiling that depends on orientation. The sheet is anchored to the bottom edge. When there is no preferred content size, the width-adapted bounds are returned unchanged. The same file has `heirarchyRequiresKeyboardInput`, a search of the view-controller tree for a form that needs the keyboard.
- **Dimensions.** These are the SDK-wide sizing rules: the height ceiling and the greatest presentable width.

Modules:

- `Optional`: Swift's `T?`.
- `Geometry`: `CGPoint`, `CGSize` and `CGRect`, with `CGFloat` taken as `real`. `Rect.Width()` and `Rect.Height()` are the standardized (absolute) values, as `CGRect.width` and `CGRect.height` are. `calculateFrame` reads the raw `size.height`, and the model does the same.
- `Device`: the UIKit facts the rules read. These are `UIUserInterfaceIdiom`, `UIDeviceOrientation.isLandscape` and `UIInterfaceOrientation.isPortrait`. They are passed in as parameters.
- `Dimensions`: `Adyen/UI/Dimentions.swift`.
- `Presentation`: `AdyenDropIn/Presentation/WrapperViewController.swift`.
- `Animation`: `Adyen/Helpers/UIViewAnimation.swift`. The protocol is written twice. First, as pure transitions over a `ViewState` value: `Submitted`, `Retried`, `Completed` and `CompletionReturned`. The lemmas are about these. Second, as the class `View`, whose fields are the held keys, the animations in flight, the running completion, the contexts waiting for a retry, and an event log. Each method of `View` is proved to perform exactly the matching transition and to keep the invariant. The invariant `ValidState` says three things. A key is held exactly when an animation with that key is in flight. No two in-flight animations share a key. A running completion belongs to one of them.

The framework's completion is modelled in two steps. `Complete` runs the caller's completion while the key is still held. `CompletionReturn` removes the key. Between the two, the model allows the `animate` calls that the completion handler itself makes. `ReentrantSameKeyWaits` shows that such a call for the same key waits for a retry.

## Two height ceilings

The two sources define the height ceiling differently, and the model keeps both as written.

- `Dimensions.greatestPresentableHeightScale` is 1 only for a phone whose device orientation is landscape. Otherwise it is 0.9.
- The modal extension's ceiling is 0.9 when the status-bar orientation is portrait, and 1 otherwise, for every idiom.

`Presentation.CeilingsAgreeOnPhone` proves the two agree on a phone under one condition: the status bar is in portrait exactly when the device is not in landscape. This condition is not always true. An unknown or face-up device orientation breaks it. `Presentation.CeilingsDisagreeOnPadLandscape` shows the two ceilings differ on a pad held in landscape.

## Model

| member | source | states |
|---|---|---|
| `Dimensions.GreatestPresentableHeightScale` | Adyen/UI/Dimentions.swift:16-18 | the ceiling is 1 exactly when the idiom is phone and the device is in landscape, and 0.9 otherwise |
| `Dimensions.GreatestPresentableWidth` | Adyen/UI/Dimentions.swift:20-26 | on a pad it is the smaller of 0.85 × screen width and maxAdaptiveWidth × scale, so it is at most both and at most the screen width; on any other idiom it is the screen width |
| `Dimensions.FloorBelowCeiling` | Adyen/UI/Dimentions.swift:12-18 | the default floor 0.25 is positive and lies below every ceiling, and every ceiling is at most 1 |
| `Dimensions.DefaultPadWidthExample` | Adyen/UI/Dimentions.swift:14-22 | with the default 375, a 1024-wide pad screen at scale 2 gives min(870.4, 750) = 750 |
| `Presentation.GreatestPresentableHeightScale` | AdyenDropIn/Presentation/WrapperViewController.swift:76-78 | the modal ceiling is 0.9 exactly when the status bar is in portrait, and 1 otherwise |
| `Presentation.WidthAdapted` | AdyenDropIn/Presentation/WrapperViewController.swift:84-90 | a non-pad frame is the bounds; a pad frame's width is min(0.85 W, 375 × scale), which is at most W, and its left and right margins within [0, W] are equal; y and height are never changed |
| `Presentation.CalculateFrame` | AdyenDropIn/Presentation/WrapperViewController.swift:99-102 | the new height is the one asked for, the bottom edge stays put, and x and width are unchanged |
| `Presentation.FinalPresentationFrame` | AdyenDropIn/Presentation/WrapperViewController.swift:83-114 | a zero preferred size gives the width-adapted bounds; otherwise the height is max(0.25 H, min(expected, s H)) and lies in [0.25 H, s H], the bottom edge is the container's, and x and width come from the width adaptation |
| `Presentation.ExpectedHeight` | AdyenDropIn/Presentation/WrapperViewController.swift:96-97 | the expected height is the preferred height plus the larger of \|keyboard height\| and the safe-area bottom: at least each sum and equal to one of them |
| `Geometry.Rect.Width` | AdyenDropIn/Presentation/WrapperViewController.swift:87-88 | `frame.width` is the standardized width: never negative, and equal to the raw width or its negation |
| `Geometry.Rect.Height` | AdyenDropIn/Presentation/WrapperViewController.swift:92-93 | `frame.height` is the standardized height: never negative, and equal to the raw height or its negation |
| `Presentation.InRangeHeightKept` | AdyenDropIn/Presentation/WrapperViewController.swift:96-110 | when preferred height + max(\|keyboard height\|, safe bottom) is within the bounds, the frame has exactly that height |
| `Presentation.PortraitPhoneCeilingExample` | AdyenDropIn/Presentation/WrapperViewController.swift:92-111 | a 400×800 portrait phone with content height 1000 and safe bottom 20 (expected 1020 > 720) gives height 720 at y = 80 |
| `Presentation.PortraitPhoneFloorExample` | AdyenDropIn/Presentation/WrapperViewController.swift:92-106 | the same container with content height 50 and no bottom intrusion is raised to the floor: 200 at y = 600 |
| `Presentation.PadWidthExample` | AdyenDropIn/Presentation/WrapperViewController.swift:86-94 | a 1024-wide pad container at scale 2 with no preferred size gives width 750 at x = 137 and keeps its height |
| `Presentation.CeilingsAgreeOnPhone` | AdyenDropIn/Presentation/WrapperViewController.swift:76-78 | on a phone, when the status bar is in portrait exactly when the device is not in landscape, this ceiling equals that of Adyen/UI/Dimentions.swift:17 |
| `Presentation.CeilingsDisagreeOnPadLandscape` | AdyenDropIn/Presentation/WrapperViewController.swift:76-78 | on a pad in landscape this ceiling is 1 while that of Adyen/UI/Dimentions.swift:17 is 0.9 |
| `Presentation.PadWidthIsGreatestPresentableWidth` | AdyenDropIn/Presentation/WrapperViewController.swift:86-89 | the modal's pad width equals the shared greatest presentable width of a screen with the container's bounds and the default adaptive width |
| `Presentation.HeirarchyRequiresKeyboardInput` | AdyenDropIn/Presentation/WrapperViewController.swift:33-39 | nil gives false; a form gives its own flag; any other controller gives true exactly when some child's search gives true |
| `Presentation.RequiresKeyboardInput` | AdyenDropIn/Presentation/WrapperViewController.swift:34-38 | a form answers with its flag and its children are not searched; any other controller answers true exactly when some child's search is true |
| `Presentation.ChildrenContain` | AdyenDropIn/Presentation/WrapperViewController.swift:38 | the left-to-right `contains(where:)` over the children from an index on is true exactly when some child there requires the keyboard |
| `Presentation.NoFormsNoKeyboard` | AdyenDropIn/Presentation/WrapperViewController.swift:33-39 | a hierarchy without any form never needs the keyboard |
| `Animation.MakeKeyFrameAnimationContext` | Adyen/Helpers/UIViewAnimation.swift:41-59 | a keyframe context keeps key, timing, effect and completion; its keyframe options are kept apart and its base options are always empty |
| `Animation.AnimationContext.BaseOptions` | Adyen/Helpers/UIViewAnimation.swift:52-57 | the inherited options are the context's own for a plain context and always empty for a keyframe context |
| `Animation.Submission.Call` | Adyen/Helpers/UIViewAnimation.swift:83-86 | `animate` starts `UIView.animate` and `animateKeyframes` starts `UIView.animateKeyframes` (lines 96-99); the call carries the context's duration, delay and effect, plus its base options or its keyframe options respectively |
| `Animation.Synchronized` | Adyen/Helpers/UIViewAnimation.swift:81-104 | starting holds the key and keeps every other key; when the held keys were the in-flight keys they still are; exactly one Started event with the submission's framework call is logged; the pending contexts and the running completion are untouched (lemmas: `SynchronizedKeepsValid`, `FreeKeyStarts`) |
| `Animation.Submitted` | Adyen/Helpers/UIViewAnimation.swift:64-79 | afterwards the key is held and no other key changed; the submission starts exactly when its key was free and waits for a retry exactly when it was held, so one of the two collections grows by one (lemmas: `SubmittedKeepsValid`, `HeldKeyDefers`, `StartsIffKeyNotInFlight`) |
| `Animation.Retried` | Adyen/Helpers/UIViewAnimation.swift:64-79 | the timer of a waiting context fires (line 66 or 75): in-flight plus pending keeps its size, the context's key is held afterwards, and the context starts exactly when its key was free (lemma: `RetriedKeepsValid`) |
| `Animation.Completed` | Adyen/Helpers/UIViewAnimation.swift:87-88 | running the caller's completion (lines 100-101 for keyframes) changes no key, no in-flight animation and no waiting context; the key is still held; one CompletionCalled event with the framework's flag is logged exactly when there is a completion (lemmas: `CompletedKeepsValid`, `CompletionSeesKeyHeld`) |
| `Animation.CompletionReturned` | Adyen/Helpers/UIViewAnimation.swift:89 | after the completion returns (line 102 for keyframes), its key is removed and exactly that animation leaves the in-flight multiset; in a valid state the held keys are again the in-flight keys (lemmas: `CompletionReturnedKeepsValid`, `ReturnReleasesOnlyItsKey`) |
| `Animation.Fresh` | Adyen/Helpers/UIViewAnimation.swift:107-111 | a view with nothing attached has no held keys, nothing in flight and nothing waiting |
| `Animation.FreshIsValid` | Adyen/Helpers/UIViewAnimation.swift:107-111 | the invariant holds on a fresh view |
| `Animation.SynchronizedKeepsValid` | Adyen/Helpers/UIViewAnimation.swift:81-104 | inserting a free key and starting its animation keeps the invariant |
| `Animation.SubmittedKeepsValid` | Adyen/Helpers/UIViewAnimation.swift:64-79 | `animate` and `animateKeyframes` keep the invariant on both the defer and the start path |
| `Animation.RetriedKeepsValid` | Adyen/Helpers/UIViewAnimation.swift:64-79 | a retry of any waiting context keeps the invariant |
| `Animation.CompletedKeepsValid` | Adyen/Helpers/UIViewAnimation.swift:87-88 | running the caller's completion keeps the invariant |
| `Animation.CompletionReturnedKeepsValid` | Adyen/Helpers/UIViewAnimation.swift:87-90 | removing the key after the completion returns keeps the invariant |
| `Animation.HeldIffInFlight` | Adyen/Helpers/UIViewAnimation.swift:65 | in a valid state a key is held exactly when some in-flight animation has it |
| `Animation.HeldKeyDefers` | Adyen/Helpers/UIViewAnimation.swift:65-67 | a held key changes neither the held keys, nor the in-flight animations, nor the log; the same submission is queued for a retry |
| `Animation.FreeKeyStarts` | Adyen/Helpers/UIViewAnimation.swift:81-104 | a free key inserts exactly that key and starts one animation with the context's duration, delay and effect; `animate` passes the options and `animateKeyframes` passes the keyframe options, and a keyframe context's base options are empty |
| `Animation.StartsIffKeyNotInFlight` | Adyen/Helpers/UIViewAnimation.swift:64-79 | a submission starts exactly when no in-flight animation has its key, so a held key never blocks a different key |
| `Animation.EntryPointsAgree` | Adyen/Helpers/UIViewAnimation.swift:64-79 | both entry points defer or start under the same condition, with the same effect on the held keys |
| `Animation.FirstSubmissionStarts` | Adyen/Helpers/UIViewAnimation.swift:107-111 | the first submission on a fresh view starts at once and holds only its key |
| `Animation.CompletionSeesKeyHeld` | Adyen/Helpers/UIViewAnimation.swift:87-90 | the caller's completion, if present, is logged with the framework's flag unchanged and with the key still among the held keys; nothing else changes |
| `Animation.ReentrantSameKeyWaits` | Adyen/Helpers/UIViewAnimation.swift:87-90 | a same-key call made inside the completion is deferred and does not start |
| `Animation.ReturnReleasesOnlyItsKey` | Adyen/Helpers/UIViewAnimation.swift:87-90 | after the completion returns, the key is not held and no in-flight animation has it; every other key's membership is unchanged |
| `Animation.ApplyKeepsValid` | Adyen/Helpers/UIViewAnimation.swift:61-104 | every step (a call, a retry, a completion, a return) keeps the invariant |
| `Animation.RunKeepsValid` | Adyen/Helpers/UIViewAnimation.swift:61-104 | any sequence of steps keeps the invariant |
| `Animation.Exclusive` | Adyen/Helpers/UIViewAnimation.swift:61-117 | after any run from a fresh view, the held keys are the in-flight keys and no two in-flight animations share a key |
| `Animation.View.constructor` | Adyen/Helpers/UIViewAnimation.swift:107-111 | a new view is valid and in the fresh state |
| `Animation.View.Contains` | Adyen/Helpers/UIViewAnimation.swift:65 | the membership test answers whether an animation with the key is in flight |
| `Animation.View.Animate` | Adyen/Helpers/UIViewAnimation.swift:64-70 | performs the `Submitted` transition through `animate(context:)` and keeps the invariant |
| `Animation.View.AnimateKeyframes` | Adyen/Helpers/UIViewAnimation.swift:73-79 | performs the `Submitted` transition through `animateKeyframes(context:)` and keeps the invariant |
| `Animation.View.AnimateSynchronized` | Adyen/Helpers/UIViewAnimation.swift:81-91 | for a free key, inserts it and starts `UIView.animate`, keeping the invariant |
| `Animation.View.AnimateKeyframesSynchronized` | Adyen/Helpers/UIViewAnimation.swift:93-104 | for a free key, inserts it and starts `UIView.animateKeyframes`, keeping the invariant |
| `Animation.View.Retry` | Adyen/Helpers/UIViewAnimation.swift:66 | the timer of any waiting context fires and the context is submitted again through its own entry point |
| `Animation.View.Complete` | Adyen/Helpers/UIViewAnimation.swift:87-88 | the caller's completion runs with the framework's flag while the key is held |
| `Animation.View.CompletionReturn` | Adyen/Helpers/UIViewAnimation.swift:89 | once the completion returns, its key is removed and its animation leaves the in-flight set |

## Left out

- Timing of `UIView.animate` and `UIView.animateKeyframes`: the curves, the effect closure and the real clock. The animations block and the completion handler are represented only by their identities. The framework's `finished` flag is a parameter.
- The 0.1 s `perform(_:with:afterDelay:)`: a waiting context sits in `pending` and may be retried at any step, in any order. No clock is modelled, so the delay does not appear, and neither liveness nor fairness of the retry loop is stated. The source has no timeout either.
- Key equality: `Key` is `string`, compared by code points. Swift's `String ==` and `Set<String>` compare by Unicode canonical equivalence, so "caf\u{E9}" and "cafe\u{301}" are one key in the source and two in the model. On such pairs the model lets both animations run, where the source defers the second. `Exclusive` promises exclusivity per code-point key, not per canonically equivalent key.
- Atomic steps: every call, retry and completion is one atomic step. This relies on UIKit running all of them on the main thread. Concurrent access from other threads is not modelled.
- `objc_getAssociatedObject` storage: the set is a field of `View`, and "nothing attached" is the fresh state.
- Animation.View.Complete: requires that no completion is running, a precondition the source does not state. It holds because the main run loop never fires another completion while a completion handler is running. Retries are not restricted in this way.
- `WrapperViewController.positionContent`, `updateFrame` with its `keyWindow` lookup and constraint updates, and `layoutIfNeeded`: Auto Layout plumbing with nothing to decide.
- Reading `UIDevice.current`, `UIScreen.main` and `UIApplication.shared.statusBarOrientation`: these are parameters.
- IEEE rounding of `CGFloat`: the model uses `real`.
- The settable static `Dimensions.leastPresentableHeightScale` and `Dimensions.maxAdaptiveWidth`: their defaults are constants. `GreatestPresentableWidth` takes the adaptive width as a parameter. Nothing in the modelled files reads `leastPresentableHeightScale`.
- `AdyenActions/Actions/EContextStoresVoucherAction.swift`, `AdyenActions/Actions/AnyVoucherAction.swift`, `AdyenCard/Components/Card/CardComponentDelegate.swift` and `Adyen/UI/Styles/CoreFonts.swift`: decoding glue, protocol declarations and font lookup, with no decision logic.
