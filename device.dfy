/**
 * The device facts UIKit reports and the sizing rules read: the interface idiom, the
 * physical device orientation and the orientation of the status bar.
 */
module Device {

  /** `UIUserInterfaceIdiom`. */
  datatype UserInterfaceIdiom = Unspecified | Phone | Pad | TV | CarPlay | Mac

  /** `UIDeviceOrientation`: how the device is physically held. */
  datatype DeviceOrientation =
    | DeviceUnknown
    | DevicePortrait
    | DevicePortraitUpsideDown
    | DeviceLandscapeLeft
    | DeviceLandscapeRight
    | DeviceFaceUp
    | DeviceFaceDown
  {
    /** `UIDeviceOrientation.isLandscape`. */
    predicate IsLandscape()
    {
      this == DeviceLandscapeLeft || this == DeviceLandscapeRight
    }
  }

  /** `UIInterfaceOrientation`: the orientation of the application's user interface. */
  datatype InterfaceOrientation =
    | InterfaceUnknown
    | InterfacePortrait
    | InterfacePortraitUpsideDown
    | InterfaceLandscapeLeft
    | InterfaceLandscapeRight
  {
    /** `UIInterfaceOrientation.isPortrait`. */
    predicate IsPortrait()
    {
      this == InterfacePortrait || this == InterfacePortraitUpsideDown
    }
  }
}
