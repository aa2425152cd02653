/**
 * The SDK-wide sizing rules of `Dimensions`: how tall a presented sheet may be, relative to
 * its container, and how wide it may be on the current screen. UIKit's device facts
 * (`UIDevice.current`, `UIScreen.main`) are parameters.
 */
module Dimensions {

  import opened Geometry
  import opened Device

  /** Default of the settable `leastPresentableHeightScale`. */
  const LeastPresentableHeightScale: real := 0.25

  /** Default of the settable `maxAdaptiveWidth`, in points. */
  const MaxAdaptiveWidth: real := 375.0

  /** Share of the screen width a sheet may take on a pad. */
  const PadWidthFactor: real := 0.85

  /**
   * `greatestPresentableHeightScale`: full height only for a phone held in landscape,
   * nine tenths otherwise.
   */
  function GreatestPresentableHeightScale(idiom: UserInterfaceIdiom, orientation: DeviceOrientation): (r: real)
    ensures r == 1.0 <==> idiom == Phone && orientation.IsLandscape()
    ensures r != 1.0 ==> r == 0.9
  {
    if idiom == Phone && orientation.IsLandscape() then 1.0 else 0.9
  }

  /**
   * `greatestPresentableWidth`: on a pad the smaller of 85% of the screen width and the
   * adaptive width in pixels; on every other idiom the screen width.
   */
  function GreatestPresentableWidth(idiom: UserInterfaceIdiom, screenBounds: Rect, screenScale: real,
                                    maxAdaptiveWidth: real): (r: real)
    ensures idiom == Pad ==>
      r <= screenBounds.Width() * PadWidthFactor && r <= maxAdaptiveWidth * screenScale &&
      (r == screenBounds.Width() * PadWidthFactor || r == maxAdaptiveWidth * screenScale)
    ensures idiom == Pad ==> r <= screenBounds.Width()
    ensures idiom != Pad ==> r == screenBounds.Width()
  {
    if idiom == Pad then
      Min(screenBounds.Width() * PadWidthFactor, maxAdaptiveWidth * screenScale)
    else
      screenBounds.Width()
  }

  /** With the default scales the height floor lies below every height ceiling. */
  lemma FloorBelowCeiling(idiom: UserInterfaceIdiom, orientation: DeviceOrientation)
    ensures 0.0 < LeastPresentableHeightScale < GreatestPresentableHeightScale(idiom, orientation) <= 1.0
  {
  }

  /** A 1024-point-wide pad screen at scale 2: min(870.4, 750) = 750. */
  lemma DefaultPadWidthExample()
    ensures GreatestPresentableWidth(Pad, RectOf(0.0, 0.0, 1024.0, 1366.0), 2.0, MaxAdaptiveWidth) == 750.0
  {
  }
}
