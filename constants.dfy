/** The tuning and configuration constants of src/constants.rs, as fixed values.
    Floating-point constants are real numbers; integer ones keep their integer type. */
module Constants {

  // colours, as packed 0xRRGGBB words
  const NORMAL_PLAYER_COLOR: bv32 := 0xf00000
  const MOVING_OBJECT_COLOR: bv32 := 0xff00
  const STATIC_OBJECT_COLOR: bv32 := 0xff
  const CIRCLE_COLOR: bv32 := 0xeeeeee
  const BACKGROUND_COLOR: bv32 := 0x200020

  // window
  const WINDOW_WIDTH: nat := 260 * 4
  const WINDOW_HEIGHT: nat := 260 * 3
  const FPS: real := 144.0

  // player
  const PLAYER_WALKING_ACCEL: real := 2.4
  const PLAYER_AIR_ACCELL_RATIO: real := 0.05
  const STUCK_PLATFORM_VELOCITY_ADD_MODIFIER: real := 0.8

  // jumping
  const JUMP_FORCE: real := 5.0
  const JUMP_BUFFER_HUNDRETH_SECONDS: real := 0.0006

  // friction
  const FRICTION_GROUND: real := 0.7
  const FRICTION_AIR: real := 0.04

  // camera
  const PERCENT_SCREEN_PLAYER_ALLOWED_IN_X: real := 18.0
  const PERCENT_SCREEN_PLAYER_ALLOWED_IN_Y: real := 17.5
  const PLAYER_FOCUS_X_OFFSET: real := 0.0
  const PLAYER_FOCUS_Y_OFFSET: real := -230.0
  const CAMERA_MOVING_EASING_X: real := 1.0 / 750.0
  const CAMERA_MOVING_EASING_Y: real := 1.0 / 1300.0

  // gravity
  const GRAVITY_MOVING_UP: real := -1.0 / 7.8
  const GRAVITY_MOVING_DOWN: real := -1.0 / 4.5
  const VERTICAL_VELOCITY_ON_OR_UNDER_OBJECT: real := -1.0 / 2.25

  // the dead zone of the camera, as offsets of the player from the camera's bottom-left corner;
  // note that the vertical pair is centred on WINDOW_WIDTH / 2 as well
  const MIN_X_FROM_CAMERA_BOTTOM_LEFT: real := WINDOW_WIDTH as real / 2.0
    - PERCENT_SCREEN_PLAYER_ALLOWED_IN_X / 200.0 * WINDOW_WIDTH as real + PLAYER_FOCUS_X_OFFSET
  const MAX_X_FROM_CAMERA_BOTTOM_LEFT: real := WINDOW_WIDTH as real / 2.0
    + PERCENT_SCREEN_PLAYER_ALLOWED_IN_X / 200.0 * WINDOW_WIDTH as real + PLAYER_FOCUS_X_OFFSET
  const MIN_Y_FROM_CAMERA_BOTTOM_LEFT: real := WINDOW_WIDTH as real / 2.0
    - PERCENT_SCREEN_PLAYER_ALLOWED_IN_Y / 200.0 * WINDOW_HEIGHT as real + PLAYER_FOCUS_Y_OFFSET
  const MAX_Y_FROM_CAMERA_BOTTOM_LEFT: real := WINDOW_WIDTH as real / 2.0
    + PERCENT_SCREEN_PLAYER_ALLOWED_IN_Y / 200.0 * WINDOW_HEIGHT as real + PLAYER_FOCUS_Y_OFFSET

  /** `(1000.0 / FPS) as u64`: a float-to-unsigned cast truncates toward zero (the value is positive). */
  const FRAME_LIMIT_MILLIS: nat := (1000.0 / FPS).Floor as nat

  // Constants the level loader uses that src/constants.rs does not define. Their values are
  // not part of this model: they are left abstract, and nothing below depends on their values.
  const PLAYER_WIDTH: real
  const PLAYER_HEIGHT: real
  const MOVING_PLATFORM_INDICATOR_RADIUS: real

  /** The dead zone is non-empty on both axes, with the values the expressions work out to. */
  lemma DeadZoneBounds()
    ensures MIN_X_FROM_CAMERA_BOTTOM_LEFT == 426.4 && MAX_X_FROM_CAMERA_BOTTOM_LEFT == 613.6
    ensures MIN_Y_FROM_CAMERA_BOTTOM_LEFT == 221.75 && MAX_Y_FROM_CAMERA_BOTTOM_LEFT == 358.25
    ensures MIN_X_FROM_CAMERA_BOTTOM_LEFT < MAX_X_FROM_CAMERA_BOTTOM_LEFT
    ensures MIN_Y_FROM_CAMERA_BOTTOM_LEFT < MAX_Y_FROM_CAMERA_BOTTOM_LEFT
  {
  }

  /** The vertical dead zone is centred on half the window WIDTH shifted by the focus offset,
      not on half the window height. */
  lemma VerticalDeadZoneCentre()
    ensures (MIN_Y_FROM_CAMERA_BOTTOM_LEFT + MAX_Y_FROM_CAMERA_BOTTOM_LEFT) / 2.0
         == WINDOW_WIDTH as real / 2.0 + PLAYER_FOCUS_Y_OFFSET
    ensures (MIN_Y_FROM_CAMERA_BOTTOM_LEFT + MAX_Y_FROM_CAMERA_BOTTOM_LEFT) / 2.0
         != WINDOW_HEIGHT as real / 2.0 + PLAYER_FOCUS_Y_OFFSET
  {
  }

  /** The frame limit is the truncation of 1000 / 144. */
  lemma FrameLimit()
    ensures FRAME_LIMIT_MILLIS == 6
    ensures FRAME_LIMIT_MILLIS as real <= 1000.0 / FPS < FRAME_LIMIT_MILLIS as real + 1.0
  {
  }

  /** The window is 1040 by 780 pixels. */
  lemma WindowSize()
    ensures WINDOW_WIDTH == 1040 && WINDOW_HEIGHT == 780
  {
  }

  /** Every configured colour fits in 24 bits. */
  lemma ColoursFitIn24Bits()
    ensures NORMAL_PLAYER_COLOR < 0x1000000 && MOVING_OBJECT_COLOR < 0x1000000
    ensures STATIC_OBJECT_COLOR < 0x1000000 && CIRCLE_COLOR < 0x1000000
    ensures BACKGROUND_COLOR < 0x1000000
  {
  }

  /** Falling accelerates harder than rising, and both pull down. */
  lemma GravityOrder()
    ensures GRAVITY_MOVING_DOWN < GRAVITY_MOVING_UP < 0.0
  {
  }

  /** Friction and air control are proper fractions, and air friction is the weaker. */
  lemma FrictionOrder()
    ensures 0.0 < FRICTION_AIR < FRICTION_GROUND < 1.0
    ensures 0.0 < PLAYER_AIR_ACCELL_RATIO < 1.0
  {
  }
}
