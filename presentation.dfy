/**
 * Geometry of a modally presented drop-in sheet (`ModalViewController.finalPresentationFrame`)
 * and the search for a form that needs the keyboard (`heirarchyRequiresKeyboardInput`).
 * The container's bounds, the idiom, the status-bar orientation, the screen scale, the
 * keyboard rectangle and the container's bottom safe-area inset are parameters.
 */
module Presentation {

  import opened Optional
  import opened Geometry
  import opened Device
  import Dimensions

  /** `leastPresentableHeightScale` of the modal extension. */
  const LeastPresentableHeightScale: real := 0.25

  /** Share of the container width the sheet may take on a pad. */
  const PadWidthFactor: real := 0.85

  /** Widest sheet on a pad, in points before the screen scale is applied. */
  const PadReferenceWidth: real := 375.0

  /**
   * `greatestPresentableHeightScale` of the modal extension: nine tenths while the status
   * bar is in portrait, the full height otherwise, whatever the idiom.
   */
  function GreatestPresentableHeightScale(orientation: InterfaceOrientation): (r: real)
    ensures r == 0.9 <==> orientation.IsPortrait()
    ensures r != 0.9 ==> r == 1.0
  {
    if orientation.IsPortrait() then 0.9 else 1.0
  }

  /**
   * The first step of the calculation: on a pad the frame is narrowed and centred on
   * `[0, W]`; on every other idiom it is the container's bounds.
   */
  function WidthAdapted(bounds: Rect, idiom: UserInterfaceIdiom, screenScale: real): (r: Rect)
    ensures r.origin.y == bounds.origin.y && r.size.height == bounds.size.height
    ensures idiom != Pad ==> r == bounds
    ensures idiom == Pad ==>
      r.size.width <= bounds.Width() * PadWidthFactor && r.size.width <= PadReferenceWidth * screenScale &&
      (r.size.width == bounds.Width() * PadWidthFactor || r.size.width == PadReferenceWidth * screenScale)
    ensures idiom == Pad ==> r.size.width <= bounds.Width()
    ensures idiom == Pad ==> r.origin.x == bounds.Width() - (r.origin.x + r.size.width)
  {
    if idiom == Pad then
      var width := Min(bounds.Width() * PadWidthFactor, PadReferenceWidth * screenScale);
      Rect(Point((bounds.Width() - width) / 2.0, bounds.origin.y), Size(width, bounds.size.height))
    else
      bounds
  }

  /** The height the content asks for: its preferred height plus the larger bottom intrusion. */
  function ExpectedHeight(preferredContentSize: Size, keyboardRect: Rect, safeAreaBottom: real): (h: real)
    ensures h >= preferredContentSize.height + keyboardRect.Height()
    ensures h >= preferredContentSize.height + safeAreaBottom
    ensures h == preferredContentSize.height + keyboardRect.Height() ||
            h == preferredContentSize.height + safeAreaBottom
  {
    preferredContentSize.height + Max(Abs(keyboardRect.Height()), safeAreaBottom)
  }

  /** `calculateFrame(for:)`: give the frame a new height while keeping its bottom edge. */
  function CalculateFrame(frame: Rect, expectedHeight: real): (r: Rect)
    ensures r.origin.x == frame.origin.x && r.size.width == frame.size.width
    ensures r.size.height == expectedHeight
    ensures r.origin.y + r.size.height == frame.origin.y + frame.size.height
  {
    Rect(Point(frame.origin.x, frame.origin.y + (frame.size.height - expectedHeight)),
         Size(frame.size.width, expectedHeight))
  }

  /**
   * `finalPresentationFrame(in:keyboardRect:)`. When the content has no preferred size the
   * width-adapted bounds are returned. Otherwise the expected height is clamped to
   * `[0.25 H, s H]`, `s` the height ceiling, and the frame is anchored to the bottom edge.
   */
  function FinalPresentationFrame(bounds: Rect, idiom: UserInterfaceIdiom, orientation: InterfaceOrientation,
                                  screenScale: real, preferredContentSize: Size, keyboardRect: Rect,
                                  safeAreaBottom: real): (r: Rect)
    ensures r.origin.x == WidthAdapted(bounds, idiom, screenScale).origin.x
    ensures r.size.width == WidthAdapted(bounds, idiom, screenScale).size.width
    ensures preferredContentSize == ZeroSize ==> r == WidthAdapted(bounds, idiom, screenScale)
    ensures preferredContentSize != ZeroSize ==>
      bounds.Height() * LeastPresentableHeightScale <= r.size.height <=
      bounds.Height() * GreatestPresentableHeightScale(orientation)
    ensures preferredContentSize != ZeroSize ==>
      r.size.height == Max(bounds.Height() * LeastPresentableHeightScale,
                           Min(ExpectedHeight(preferredContentSize, keyboardRect, safeAreaBottom),
                               bounds.Height() * GreatestPresentableHeightScale(orientation)))
    ensures preferredContentSize != ZeroSize ==>
      r.origin.y + r.size.height == bounds.origin.y + bounds.size.height
  {
    var frame := WidthAdapted(bounds, idiom, screenScale);
    var smallestHeightPossible := frame.Height() * LeastPresentableHeightScale;
    var biggestHeightPossible := frame.Height() * GreatestPresentableHeightScale(orientation);
    if preferredContentSize == ZeroSize then
      frame
    else
      var expectedHeight := ExpectedHeight(preferredContentSize, keyboardRect, safeAreaBottom);
      if expectedHeight < smallestHeightPossible then
        CalculateFrame(frame, smallestHeightPossible)
      else if expectedHeight > biggestHeightPossible then
        CalculateFrame(frame, biggestHeightPossible)
      else
        CalculateFrame(frame, expectedHeight)
  }

  /** A sized sheet whose expected height lies within the bounds keeps exactly that height. */
  lemma InRangeHeightKept(bounds: Rect, idiom: UserInterfaceIdiom, orientation: InterfaceOrientation,
                          screenScale: real, preferredContentSize: Size, keyboardRect: Rect, safeAreaBottom: real)
    requires preferredContentSize != ZeroSize
    requires var expected := ExpectedHeight(preferredContentSize, keyboardRect, safeAreaBottom);
      bounds.Height() * LeastPresentableHeightScale <= expected <=
      bounds.Height() * GreatestPresentableHeightScale(orientation)
    ensures FinalPresentationFrame(bounds, idiom, orientation, screenScale, preferredContentSize,
                                   keyboardRect, safeAreaBottom).size.height
            == ExpectedHeight(preferredContentSize, keyboardRect, safeAreaBottom)
  {
  }

  /** A 400 x 800 portrait phone container, content 1000 high, 20 points safe area: 720 high at y = 80. */
  lemma PortraitPhoneCeilingExample()
    ensures var r := FinalPresentationFrame(RectOf(0.0, 0.0, 400.0, 800.0), Phone, InterfacePortrait, 3.0,
                                            Size(400.0, 1000.0), RectOf(0.0, 0.0, 0.0, 0.0), 20.0);
      r.size.height == 720.0 && r.origin.y == 80.0 && r.origin.x == 0.0 && r.size.width == 400.0
  {
  }

  /** The same container with content 50 high and no bottom intrusion: raised to 200 at y = 600. */
  lemma PortraitPhoneFloorExample()
    ensures var r := FinalPresentationFrame(RectOf(0.0, 0.0, 400.0, 800.0), Phone, InterfacePortrait, 3.0,
                                            Size(400.0, 50.0), RectOf(0.0, 0.0, 0.0, 0.0), 0.0);
      r.size.height == 200.0 && r.origin.y == 600.0
  {
  }

  /** A 1024-point-wide pad container at scale 2: 750 wide, starting at x = 137. */
  lemma PadWidthExample()
    ensures var r := FinalPresentationFrame(RectOf(0.0, 0.0, 1024.0, 1366.0), Pad, InterfaceLandscapeLeft, 2.0,
                                            ZeroSize, RectOf(0.0, 0.0, 0.0, 0.0), 0.0);
      r.size.width == 750.0 && r.origin.x == 137.0 && r.size.height == 1366.0
  {
  }

  /**
   * On a phone the two height ceilings agree whenever the status bar is in portrait exactly
   * when the device is not held in landscape.
   */
  lemma CeilingsAgreeOnPhone(device: DeviceOrientation, interface: InterfaceOrientation)
    requires interface.IsPortrait() <==> !device.IsLandscape()
    ensures Dimensions.GreatestPresentableHeightScale(Phone, device) == GreatestPresentableHeightScale(interface)
  {
  }

  /** On a pad in landscape the two ceilings differ: Dimensions keeps nine tenths, the modal uses all. */
  lemma CeilingsDisagreeOnPadLandscape()
    ensures Dimensions.GreatestPresentableHeightScale(Pad, DeviceLandscapeLeft) == 0.9
    ensures GreatestPresentableHeightScale(InterfaceLandscapeLeft) == 1.0
  {
  }

  /** The pad width of the modal is the shared greatest presentable width of a screen like the container. */
  lemma PadWidthIsGreatestPresentableWidth(bounds: Rect, screenScale: real)
    ensures WidthAdapted(bounds, Pad, screenScale).size.width ==
            Dimensions.GreatestPresentableWidth(Pad, bounds, screenScale, Dimensions.MaxAdaptiveWidth)
  {
  }

  // ---------------------------------------------------------------------------
  // Does the presented hierarchy need the keyboard?

  /** The one class the search distinguishes: a `FormViewController` and its flag. */
  datatype ControllerKind = FormViewController(requiresKeyboardInput: bool) | OtherViewController

  /** A view controller and its child view controllers. */
  datatype ViewController = ViewController(kind: ControllerKind, children: seq<ViewController>)

  /**
   * `heirarchyRequiresKeyboardInput(viewController:)`: nil needs no keyboard; otherwise
   * the search of that controller.
   */
  function HeirarchyRequiresKeyboardInput(viewController: Option<ViewController>): (r: bool)
    ensures viewController.None? ==> !r
    ensures viewController.Some? && viewController.value.kind.FormViewController? ==>
      r == viewController.value.kind.requiresKeyboardInput
    ensures viewController.Some? && viewController.value.kind.OtherViewController? ==>
      (r <==> exists i :: 0 <= i < |viewController.value.children| &&
                          RequiresKeyboardInput(viewController.value.children[i]))
  {
    match viewController
    case None => false
    case Some(vc) => RequiresKeyboardInput(vc)
  }

  /**
   * The search of one controller: a form answers with its own flag and is not looked
   * into; any other controller asks its children in order.
   */
  function RequiresKeyboardInput(vc: ViewController): (r: bool)
    ensures vc.kind.FormViewController? ==> r == vc.kind.requiresKeyboardInput
    ensures vc.kind.OtherViewController? ==>
      (r <==> exists i :: 0 <= i < |vc.children| && RequiresKeyboardInput(vc.children[i]))
    decreases vc, |vc.children| + 1
  {
    match vc.kind
    case FormViewController(flag) => flag
    case OtherViewController => ChildrenContain(vc, 0)
  }

  /** `children.contains(where:)` over the children of `parent` from index `from` on. */
  function ChildrenContain(parent: ViewController, from: nat): (r: bool)
    requires from <= |parent.children|
    ensures r <==> exists i :: from <= i < |parent.children| && RequiresKeyboardInput(parent.children[i])
    decreases parent, |parent.children| - from
  {
    if from == |parent.children| then false
    else RequiresKeyboardInput(parent.children[from]) || ChildrenContain(parent, from + 1)
  }

  /** No `FormViewController` anywhere in the tree of `vc`. */
  predicate NoForms(vc: ViewController)
    decreases vc
  {
    vc.kind.OtherViewController? && forall i :: 0 <= i < |vc.children| ==> NoForms(vc.children[i])
  }

  /** A hierarchy without any form never needs the keyboard. */
  lemma {:induction false} NoFormsNoKeyboard(vc: ViewController)
    requires NoForms(vc)
    ensures !RequiresKeyboardInput(vc)
    decreases vc
  {
    forall i | 0 <= i < |vc.children|
      ensures !RequiresKeyboardInput(vc.children[i])
    {
      NoFormsNoKeyboard(vc.children[i]);
    }
  }
}
