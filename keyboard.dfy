/** The keyboard actions a shortcut can trigger, in the order the window
    manager numbers them. */
module Keyboard {
  datatype KeyboardAction =
    | ClientNextDesktop | ClientPrevDesktop | ToggleStick
    | NextDesktop | PrevDesktop
    | Iconify | Maximize
    | RequestClose | ForceClose
    | SnapTop | SnapBottom | SnapLeft | SnapRight
    | LayerAbove | LayerBelow | LayerTop | LayerBottom
    | Layer1 | Layer2 | Layer3 | Layer4 | Layer5
    | Layer6 | Layer7 | Layer8 | Layer9
    | ExitWM
}
