/** Colour packing, the camera that follows the player and the frame renderer of
    src/camera.rs. */
module Screen {
  import opened Common
  import opened Constants
  import opened Objects

  // ---------------------------------------------------------------------------------------
  // Rgb
  // ---------------------------------------------------------------------------------------

  /** A colour; the fields are declared in the order red, blue, green. */
  datatype Rgb = Rgb(red: bv8, blue: bv8, green: bv8)

  /** `Rgb::new`, whose parameters come in the declaration order (red, blue, green). */
  function NewRgb(red: bv8, blue: bv8, green: bv8): Rgb {
    Rgb(red, blue, green)
  }

  /** `Rgb::from_u32`: unpacks a 0xRRGGBB word; the top byte is ignored. */
  function FromU32(number: bv32): (c: Rgb)
    ensures c.red as bv32 == (number >> 16) & 0xff
    ensures c.green as bv32 == (number >> 8) & 0xff
    ensures c.blue as bv32 == number & 0xff
  {
    Rgb(red := ((number & 0xff0000) / 0x10000) as bv8,
        green := ((number & 0xff00) / 0x100) as bv8,
        blue := (number & 0xff) as bv8)
  }

  /** `Rgb::to_u32`: packs a colour as 0xRRGGBB. The sum never exceeds 24 bits, so the `u32`
      arithmetic cannot overflow. */
  function ToU32(c: Rgb): (n: bv32)
    ensures n < 0x100_0000
    ensures n & 0xff == c.blue as bv32
    ensures (n >> 8) & 0xff == c.green as bv32
    ensures n >> 16 == c.red as bv32
  {
    c.red as bv32 * 0x10000 + c.green as bv32 * 0x100 + c.blue as bv32
  }

  /** Packing an unpacked word gives back its low 24 bits. */
  lemma PackUnpack(number: bv32)
    ensures ToU32(FromU32(number)) == number & 0xff_ffff
  {
  }

  /** Unpacking a packed colour gives back the colour. */
  lemma UnpackPack(c: Rgb)
    ensures FromU32(ToU32(c)) == c
  {
    var n := ToU32(c);
    var d := FromU32(n);
    assert d.red as bv32 == c.red as bv32;
    assert d.green as bv32 == c.green as bv32;
    assert d.blue as bv32 == c.blue as bv32;
  }

  /** `Rgb::new(a, b, c)` puts its second argument in the low (blue) byte and its third in the
      middle (green) byte: a caller writing (red, green, blue) gets green and blue swapped. */
  lemma NewRgbByteOrder(a: bv8, b: bv8, c: bv8)
    ensures ToU32(NewRgb(a, b, c)) == a as bv32 * 0x10000 + c as bv32 * 0x100 + b as bv32
    ensures FromU32(ToU32(NewRgb(a, b, c))) == Rgb(red := a, green := c, blue := b)
  {
  }

  /** Every configured colour survives a round trip through `from_u32` and `to_u32`. */
  lemma ConfiguredColoursRoundTrip()
    ensures ToU32(FromU32(NORMAL_PLAYER_COLOR)) == NORMAL_PLAYER_COLOR
    ensures ToU32(FromU32(MOVING_OBJECT_COLOR)) == MOVING_OBJECT_COLOR
    ensures ToU32(FromU32(STATIC_OBJECT_COLOR)) == STATIC_OBJECT_COLOR
    ensures ToU32(FromU32(CIRCLE_COLOR)) == CIRCLE_COLOR
    ensures ToU32(FromU32(BACKGROUND_COLOR)) == BACKGROUND_COLOR
  {
    PackUnpack(NORMAL_PLAYER_COLOR);
    PackUnpack(MOVING_OBJECT_COLOR);
    PackUnpack(STATIC_OBJECT_COLOR);
    PackUnpack(CIRCLE_COLOR);
    PackUnpack(BACKGROUND_COLOR);
  }

  // ---------------------------------------------------------------------------------------
  // Screen geometry
  // ---------------------------------------------------------------------------------------

  /** `r as usize` on an `f64`: the fraction is dropped and negative values become 0. (Values
      beyond `usize::MAX` saturate too; every caller treats them like any value above the
      window height.) */
  function TruncToUsize(r: real): (n: nat)
    ensures r < 1.0 ==> n == 0
    ensures r >= 0.0 ==> n as real <= r < n as real + 1.0
  {
    if r <= 0.0 then 0 else r.Floor as nat
  }

  /** The world point a screen pixel shows, for a camera whose bottom-left corner is at
      `bottomLeft`: rows are counted from the top of the window. */
  function PixelToWorld(bottomLeft: Vector2, x: nat, y: nat): Vector2 {
    Vector2(bottomLeft.x + x as real, bottomLeft.y + (WINDOW_HEIGHT - y) as real)
  }

  /** The frame buffer cell of the pixel at column `x` and row `y`: rows are stored one after
      the other. */
  function BufferIndex(x: nat, y: nat): nat {
    y * WINDOW_WIDTH + x
  }

  /** Every pixel of the window has its own buffer cell below `WINDOW_WIDTH * WINDOW_HEIGHT`. */
  lemma PixelIndexBound(x: nat, y: nat)
    requires x < WINDOW_WIDTH && y < WINDOW_HEIGHT
    ensures BufferIndex(x, y) < WINDOW_WIDTH * WINDOW_HEIGHT
  {
    assert y * WINDOW_WIDTH <= (WINDOW_HEIGHT - 1) * WINDOW_WIDTH;
  }

  /** The last pixel of the window has the last cell of a full-window buffer. */
  lemma LastPixelIndex()
    ensures BufferIndex(WINDOW_WIDTH - 1, WINDOW_HEIGHT - 1) == WINDOW_WIDTH * WINDOW_HEIGHT - 1
  {
  }

  /** Distinct pixels have distinct buffer cells. */
  lemma PixelIndexDistinct(x: nat, y: nat, x': nat, y': nat)
    requires x < WINDOW_WIDTH && x' < WINDOW_WIDTH
    requires x != x' || y != y'
    ensures BufferIndex(x, y) != BufferIndex(x', y')
  {
    if y < y' {
      assert y * WINDOW_WIDTH + x < (y + 1) * WINDOW_WIDTH <= y' * WINDOW_WIDTH;
    } else if y' < y {
      assert y' * WINDOW_WIDTH + x' < (y' + 1) * WINDOW_WIDTH <= y * WINDOW_WIDTH;
    }
  }

  // ---------------------------------------------------------------------------------------
  // Camera
  // ---------------------------------------------------------------------------------------

  /** One axis of `keep_centered_on_player`. With the player at `player` and the camera corner
      at `camera`, an offset outside the dead zone [lo, hi] moves the camera toward the player
      by the square of the excess times the frame time and the easing factor; a step that
      would carry the offset past the edge of the dead zone is cut short at that edge. */
  function Follow(player: real, camera: real, lo: real, hi: real, easing: real, frameTime: real): real {
    if player - camera < lo then
      var excess := player - camera - lo;
      var moved := camera - excess * excess * frameTime * easing;
      if player - moved > lo then player - lo else moved
    else if player - camera > hi then
      var excess := player - camera - hi;
      var moved := camera + excess * excess * frameTime * easing;
      if player - moved < hi then player - hi else moved
    else
      camera
  }

  /** The statements `keep_centered_on_player` repeats for each axis, on the camera coordinate
      `camera` of that axis. */
  method FollowAxis(player: real, camera: real, lo: real, hi: real, easing: real, frameTime: real)
    returns (r: real)
    ensures r == Follow(player, camera, lo, hi, easing, frameTime)
  {
    r := camera;
    if player - r < lo {
      var excess := player - r - lo;
      r := r - excess * excess * frameTime * easing;
      // a step past the edge of the dead zone stops at that edge
      if player - r > lo {
        r := player - lo;
      }
    } else if player - r > hi {
      var excess := player - r - hi;
      r := r + excess * excess * frameTime * easing;
      if player - r < hi {
        r := player - hi;
      }
    }
  }

  /** The eased step `excess² · frameTime · easing` never points away from the player. */
  lemma StepNonNegative(excess: real, easing: real, frameTime: real)
    requires frameTime >= 0.0 && easing >= 0.0
    ensures excess * excess * frameTime * easing >= 0.0
  {
    assert excess * excess >= 0.0;
    MulNonNegative(excess * excess, frameTime);
    MulNonNegative(excess * excess * frameTime, easing);
  }

  /** Inside the dead zone the camera stays put. Outside it, for a non-negative frame time and
      easing, the player's offset moves toward the dead zone and stops at its edge at the
      latest: the camera never over-corrects. */
  lemma FollowNoOvershoot(player: real, camera: real, lo: real, hi: real, easing: real, frameTime: real)
    requires frameTime >= 0.0 && easing >= 0.0
    ensures lo <= player - camera <= hi ==> Follow(player, camera, lo, hi, easing, frameTime) == camera
    ensures player - camera < lo
            ==> player - camera <= player - Follow(player, camera, lo, hi, easing, frameTime) <= lo
    ensures lo <= player - camera && player - camera > hi
            ==> hi <= player - Follow(player, camera, lo, hi, easing, frameTime) <= player - camera
  {
    StepNonNegative(player - camera - lo, easing, frameTime);
    StepNonNegative(player - camera - hi, easing, frameTime);
  }

  /** A step large enough to reach the dead zone puts the player exactly on its near edge. */
  lemma FollowClamps(player: real, camera: real, lo: real, hi: real, easing: real, frameTime: real)
    ensures var excess := player - camera - lo;
            player - camera < lo && excess * excess * frameTime * easing >= lo - (player - camera)
            ==> player - Follow(player, camera, lo, hi, easing, frameTime) == lo
    ensures var excess := player - camera - hi;
            lo <= player - camera && player - camera > hi
            && excess * excess * frameTime * easing >= (player - camera) - hi
            ==> player - Follow(player, camera, lo, hi, easing, frameTime) == hi
  {
  }

  /** Once the player is inside the dead zone, following again changes nothing. */
  lemma FollowSettles(player: real, camera: real, lo: real, hi: real, easing: real, frameTime: real)
    ensures var r := Follow(player, camera, lo, hi, easing, frameTime);
            lo <= player - r <= hi ==> Follow(player, r, lo, hi, easing, frameTime) == r
  {
  }

  class Camera {
    /** The world coordinates of the bottom-left corner of the rendered area. */
    var bottomLeft: Vector2

    constructor New(x: real, y: real)
      ensures bottomLeft == Vector2(x, y)
    {
      bottomLeft := Vector2(x, y);
    }

    /** `get_game_position`: the world point shown at screen point `point`. The row is cast to
        `usize` and subtracted from the window height in `usize` arithmetic, which panics when
        the row exceeds the height. */
    function GetGamePosition(point: Vector2): (r: Outcome<Vector2>)
      reads this
      ensures r.Panic? <==> point.y >= WINDOW_HEIGHT as real + 1.0
      ensures r.Pass? ==> r.value.x == bottomLeft.x + point.x
      ensures r.Pass? ==> bottomLeft.y <= r.value.y <= bottomLeft.y + WINDOW_HEIGHT as real
      ensures 0.0 <= point.y < WINDOW_HEIGHT as real
              ==> r.Pass? && bottomLeft.y + 1.0 <= r.value.y <= bottomLeft.y + WINDOW_HEIGHT as real
      ensures point.y < 1.0 ==> r == Pass(Vector2(bottomLeft.x + point.x, bottomLeft.y + WINDOW_HEIGHT as real))
    {
      var row := TruncToUsize(point.y);
      if row > WINDOW_HEIGHT then Panic
      else Pass(Vector2(bottomLeft.x + point.x, bottomLeft.y + (WINDOW_HEIGHT - row) as real))
    }

    /** Pixel (`x`, `y`) of the window shows the world point `PixelToWorld` gives: the
        `usize` subtraction cannot underflow for a row inside the window. */
    lemma GamePositionOfPixel(x: nat, y: nat)
      requires y < WINDOW_HEIGHT
      ensures GetGamePosition(Vector2(x as real, y as real)) == Pass(PixelToWorld(bottomLeft, x, y))
    {
      assert TruncToUsize(y as real) == y;
    }

    /** `keep_centered_on_player`: each axis of the corner follows the player independently,
        with that axis's dead zone and easing. The player is read, never written. */
    method KeepCenteredOnPlayer(player: RigidBody, frameTime: real)
      modifies this
      ensures bottomLeft.x == Follow(player.center.x, old(bottomLeft.x), MIN_X_FROM_CAMERA_BOTTOM_LEFT,
                                     MAX_X_FROM_CAMERA_BOTTOM_LEFT, CAMERA_MOVING_EASING_X, frameTime)
      ensures bottomLeft.y == Follow(player.center.y, old(bottomLeft.y), MIN_Y_FROM_CAMERA_BOTTOM_LEFT,
                                     MAX_Y_FROM_CAMERA_BOTTOM_LEFT, CAMERA_MOVING_EASING_Y, frameTime)
      ensures unchanged(player)
    {
      var x := FollowAxis(player.center.x, bottomLeft.x, MIN_X_FROM_CAMERA_BOTTOM_LEFT,
                          MAX_X_FROM_CAMERA_BOTTOM_LEFT, CAMERA_MOVING_EASING_X, frameTime);
      bottomLeft := bottomLeft.(x := x);
      var y := FollowAxis(player.center.y, bottomLeft.y, MIN_Y_FROM_CAMERA_BOTTOM_LEFT,
                          MAX_Y_FROM_CAMERA_BOTTOM_LEFT, CAMERA_MOVING_EASING_Y, frameTime);
      bottomLeft := bottomLeft.(y := y);
    }

    /** `render_frame`: colours every pixel, column by column, from the world point it shows,
        storing it in cell `y * WINDOW_WIDTH + x` of the buffer. Indexing panics at the first
        cell beyond the end of the buffer, so the frame is drawn exactly when the buffer holds
        a full window; cells past the window are left alone. */
    method RenderFrame(render: Vector2 -> Rgb, buffer: array<bv32>) returns (outcome: Outcome<()>)
      modifies buffer
      ensures outcome.Panic? <==> buffer.Length < WINDOW_WIDTH * WINDOW_HEIGHT
      ensures outcome.Pass? ==>
                (forall x: nat, y: nat :: x < WINDOW_WIDTH && y < WINDOW_HEIGHT
                   ==> buffer[BufferIndex(x, y)] == ToU32(render(PixelToWorld(bottomLeft, x, y))))
      ensures forall k :: WINDOW_WIDTH * WINDOW_HEIGHT <= k < buffer.Length ==> buffer[k] == old(buffer[k])
    {
      outcome := Pass(());
      for x := 0 to WINDOW_WIDTH
        invariant x > 0 ==> BufferIndex(x - 1, WINDOW_HEIGHT - 1) < buffer.Length
        invariant forall x': nat, y': nat :: x' < x && y' < WINDOW_HEIGHT ==> Drawn(render, buffer, x', y')
        invariant forall k :: WINDOW_WIDTH * WINDOW_HEIGHT <= k < buffer.Length ==> buffer[k] == old(buffer[k])
      {
        for y := 0 to WINDOW_HEIGHT
          invariant x > 0 ==> BufferIndex(x - 1, WINDOW_HEIGHT - 1) < buffer.Length
          invariant y > 0 ==> BufferIndex(x, y - 1) < buffer.Length
          invariant forall x': nat, y': nat :: (x' < x && y' < WINDOW_HEIGHT) || (x' == x && y' < y)
                      ==> Drawn(render, buffer, x', y')
          invariant forall k :: WINDOW_WIDTH * WINDOW_HEIGHT <= k < buffer.Length ==> buffer[k] == old(buffer[k])
        {
          var worldPoint := GetGamePosition(Vector2(x as real, y as real)).value;
          var index := BufferIndex(x, y);
          PixelIndexBound(x, y);
          if index >= buffer.Length {
            outcome := Panic;
            return;
          }
          GamePositionOfPixel(x, y);
          label BeforeWrite:
          buffer[index] := ToU32(render(worldPoint));
          forall x': nat, y': nat | (x' < x && y' < WINDOW_HEIGHT) || (x' == x && y' < y)
            ensures Drawn(render, buffer, x', y')
          {
            assert old@BeforeWrite(Drawn(render, buffer, x', y'));
            PixelIndexDistinct(x', y', x, y);
          }
        }
      }
      LastPixelIndex();
      forall x: nat, y: nat | x < WINDOW_WIDTH && y < WINDOW_HEIGHT
        ensures buffer[BufferIndex(x, y)] == ToU32(render(PixelToWorld(bottomLeft, x, y)))
      {
        assert Drawn(render, buffer, x, y);
      }
    }

    /** Pixel (`x`, `y`) of the frame in `buffer` holds its colour. */
    ghost predicate Drawn(render: Vector2 -> Rgb, buffer: array<bv32>, x: nat, y: nat)
      reads this, buffer
    {
      BufferIndex(x, y) < buffer.Length
      && buffer[BufferIndex(x, y)] == ToU32(render(PixelToWorld(bottomLeft, x, y)))
    }
  }
}
