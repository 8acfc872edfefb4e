/** The GLFW key and action codes the samples react to. */
module Glfw {
  const KEY_SPACE: int := 32
  const KEY_GRAVE_ACCENT: int := 96
  const KEY_T: int := 84
  const KEY_ESCAPE: int := 256

  /** GLFW_MOUSE_BUTTON_2, the right mouse button. */
  const MOUSE_BUTTON_2: int := 1

  const RELEASE: int := 0
  const PRESS: int := 1
  const REPEAT: int := 2
}
