/** The demo game's input state of demo/src/lib.rs: the six movement flags of `Memory`
    that `handle_input` sets from key events, the mouse-look update of pitch and yaw,
    and the one-shot `INIT` guards of `frame_buffer()` and `memory()`. */
module Demo {
  import opened Keys
  import opened Wrappers

  const MAX_WIDTH: nat := 640
  const MAX_HEIGHT: nat := 360
  const MAX_PIXELS: nat := MAX_WIDTH * MAX_HEIGHT

  type u8 = x: nat | x < 0x100

  datatype Vec3 = Vec3(x: real, y: real, z: real)

  /** `rast::Srgb`: one pixel. */
  datatype Srgb = Srgb(r: u8, g: u8, b: u8, a: u8)

  /** The colour `FRAME_BUFFER` starts out filled with. */
  const WHITE: Srgb := Srgb(255, 255, 255, 255)

  /** The depth `DEPTH_BUFFER` starts out filled with. */
  const FAR_DEPTH: real := 1.0

  /** Where the camera starts. */
  const START_CAMERA: Vec3 := Vec3(0.0, 1.5, -5.0)

  /** The mouse-look scale applied to `dx` and `dy`. */
  const SENSITIVITY: real := 0.005

  /** `core::f32::consts::FRAC_PI_2`: the `f32` nearest to pi / 2, exactly. */
  const FRAC_PI_2: real := 1.57079637050628662109375

  /** The largest pitch magnitude the camera may reach: `FRAC_PI_2 - 0.0001` evaluated in
      `f32`, which rounds the exact difference of the two `f32` operands to the nearest
      `f32`.  This is that value, exactly. */
  const SAFE_FRAC_PI_2: real := 1.570696353912353515625

  /** The six movement flags of `Memory`. */
  datatype Control = Forward | Back | Left | Right | Up | Down

  /** The movement flags of a `Memory`, as one value. */
  datatype Pressed = Pressed(left: bool, right: bool, forward: bool, back: bool, up: bool, down: bool)

  const NONE_PRESSED: Pressed := Pressed(false, false, false, false, false, false)

  function Get(p: Pressed, c: Control): bool {
    match c
    case Forward => p.forward
    case Back => p.back
    case Left => p.left
    case Right => p.right
    case Up => p.up
    case Down => p.down
  }

  function Set(p: Pressed, c: Control, v: bool): Pressed {
    match c
    case Forward => p.(forward := v)
    case Back => p.(back := v)
    case Left => p.(left := v)
    case Right => p.(right := v)
    case Up => p.(up := v)
    case Down => p.(down := v)
  }

  /** Setting one flag sets that flag and no other. */
  lemma SetGet(p: Pressed, c: Control, v: bool, d: Control)
    ensures Get(Set(p, c, v), d) == if d == c then v else Get(p, d)
  {
  }

  /** Setting a flag twice is setting it to the second value. */
  lemma SetTwice(p: Pressed, c: Control, first: bool, second: bool)
    ensures Set(Set(p, c, first), c, second) == Set(p, c, second)
  {
  }

  /** A flag value is determined by its six flags. */
  lemma PressedExtensional(p: Pressed, q: Pressed)
    requires forall c :: Get(p, c) == Get(q, c)
    ensures p == q
  {
    assert Get(p, Forward) == Get(q, Forward) && Get(p, Back) == Get(q, Back);
    assert Get(p, Left) == Get(q, Left) && Get(p, Right) == Get(q, Right);
    assert Get(p, Up) == Get(q, Up) && Get(p, Down) == Get(q, Down);
  }

  /** The match arms of the `Input::Key` branch of `handle_input`: which flag a key drives. */
  function ControlFor(code: KeyCode): Option<Control> {
    if code.KeyW? then Some(Forward)
    else if code.KeyS? then Some(Back)
    else if code.KeyA? then Some(Left)
    else if code.KeyD? then Some(Right)
    else if code.Spacebar? then Some(Up)
    else if code.LeftShift? then Some(Down)
    else None
  }

  /** No two keys drive the same flag. */
  lemma ControlForInjective(a: KeyCode, b: KeyCode)
    requires ControlFor(a).Some? && ControlFor(a) == ControlFor(b)
    ensures a == b
  {
  }

  /** The flags after a key event with `code` and `pressed`. */
  function ApplyKey(p: Pressed, code: KeyCode, pressed: bool): Pressed {
    match ControlFor(code)
    case None => p
    case Some(c) => Set(p, c, pressed)
  }

  /** After a key event, the flag the key drives has the value `pressed`, and every other
      flag keeps its value. */
  lemma ApplyKeyGet(p: Pressed, code: KeyCode, pressed: bool, c: Control)
    ensures Get(ApplyKey(p, code, pressed), c) == if ControlFor(code) == Some(c) then pressed else Get(p, c)
  {
    if ControlFor(code).Some? {
      SetGet(p, ControlFor(code).value, pressed, c);
    }
  }

  /** The effect of a key event, one arm of `handle_input` at a time. */
  lemma ApplyKeyArms(p: Pressed, code: KeyCode, pressed: bool)
    ensures ApplyKey(p, code, pressed) ==
      if code.KeyW? then p.(forward := pressed)
      else if code.KeyS? then p.(back := pressed)
      else if code.KeyA? then p.(left := pressed)
      else if code.KeyD? then p.(right := pressed)
      else if code.Spacebar? then p.(up := pressed)
      else if code.LeftShift? then p.(down := pressed)
      else p
  {
  }

  /** A key no arm names leaves the flags as they were. */
  lemma UnboundKeyChangesNothing(p: Pressed, code: KeyCode, pressed: bool)
    requires ControlFor(code).None?
    ensures ApplyKey(p, code, pressed) == p
  {
  }

  /** A key event changes at most one flag. */
  lemma AtMostOneFlagChanges(p: Pressed, code: KeyCode, pressed: bool, c: Control, d: Control)
    requires Get(ApplyKey(p, code, pressed), c) != Get(p, c)
    requires Get(ApplyKey(p, code, pressed), d) != Get(p, d)
    ensures c == d
  {
    ApplyKeyGet(p, code, pressed, c);
    ApplyKeyGet(p, code, pressed, d);
  }

  /** Of two events for the same key, the later decides: so repeating an event changes
      nothing more, and a press followed by a release leaves the flag released. */
  lemma LaterEventWins(p: Pressed, code: KeyCode, first: bool, second: bool)
    ensures ApplyKey(ApplyKey(p, code, first), code, second) == ApplyKey(p, code, second)
  {
    match ControlFor(code)
    case None =>
    case Some(c) => SetTwice(p, c, first, second);
  }

  lemma ApplyKeyIdempotent(p: Pressed, code: KeyCode, pressed: bool)
    ensures ApplyKey(ApplyKey(p, code, pressed), code, pressed) == ApplyKey(p, code, pressed)
  {
    LaterEventWins(p, code, pressed, pressed);
  }

  lemma PressThenRelease(p: Pressed, code: KeyCode, c: Control)
    requires ControlFor(code) == Some(c)
    ensures !Get(ApplyKey(ApplyKey(p, code, true), code, false), c)
  {
    ApplyKeyGet(ApplyKey(p, code, true), code, false, c);
  }

  /** Events for different keys commute: the flags do not depend on the order in which
      two different keys were pressed or released. */
  lemma DifferentKeysCommute(p: Pressed, a: KeyCode, x: bool, b: KeyCode, y: bool)
    requires a != b
    ensures ApplyKey(ApplyKey(p, a, x), b, y) == ApplyKey(ApplyKey(p, b, y), a, x)
  {
    forall c ensures Get(ApplyKey(ApplyKey(p, a, x), b, y), c) == Get(ApplyKey(ApplyKey(p, b, y), a, x), c) {
      ApplyKeyGet(ApplyKey(p, a, x), b, y, c);
      ApplyKeyGet(p, a, x, c);
      ApplyKeyGet(ApplyKey(p, b, y), a, x, c);
      ApplyKeyGet(p, b, y, c);
      if ControlFor(a) == Some(c) && ControlFor(b) == Some(c) {
        ControlForInjective(a, b);
      }
    }
    PressedExtensional(ApplyKey(ApplyKey(p, a, x), b, y), ApplyKey(ApplyKey(p, b, y), a, x));
  }

  /** The pitch clamp of the mouse-look branch: the pitch stays within the safe range,
      and a pitch already in it is kept. */
  function ClampPitch(pitch: real): (c: real)
    ensures -SAFE_FRAC_PI_2 <= c <= SAFE_FRAC_PI_2
    ensures -SAFE_FRAC_PI_2 <= pitch <= SAFE_FRAC_PI_2 ==> c == pitch
    ensures pitch < -SAFE_FRAC_PI_2 ==> c == -SAFE_FRAC_PI_2
    ensures pitch > SAFE_FRAC_PI_2 ==> c == SAFE_FRAC_PI_2
  {
    if pitch < -SAFE_FRAC_PI_2 then -SAFE_FRAC_PI_2
    else if pitch > SAFE_FRAC_PI_2 then SAFE_FRAC_PI_2
    else pitch
  }

  /** Clamping twice is clamping once. */
  lemma ClampPitchIdempotent(pitch: real)
    ensures ClampPitch(ClampPitch(pitch)) == ClampPitch(pitch)
  {
  }

  /** `Memory`: the game's state, with the depth buffer it borrows from `memory()`. */
  class Memory {
    var depthBuffer: array<real>
    var camera: Vec3
    var leftPressed: bool
    var rightPressed: bool
    var forwardPressed: bool
    var backPressed: bool
    var upPressed: bool
    var downPressed: bool
    var pitch: real
    var yaw: real
    var t: real
    var angle: real
    var phase: real

    /** The movement flags. */
    function Flags(): Pressed
      reads this
    {
      Pressed(leftPressed, rightPressed, forwardPressed, backPressed, upPressed, downPressed)
    }

    /** The struct literal of `memory()`: the given depth buffer, the starting camera, and
        `Default` for the rest. */
    constructor (depthBuffer: array<real>)
      ensures this.depthBuffer == depthBuffer && camera == START_CAMERA
      ensures Flags() == NONE_PRESSED
      ensures pitch == 0.0 && yaw == 0.0 && t == 0.0 && angle == 0.0 && phase == 0.0
    {
      this.depthBuffer := depthBuffer;
      camera := START_CAMERA;
      leftPressed, rightPressed, forwardPressed := false, false, false;
      backPressed, upPressed, downPressed := false, false, false;
      pitch, yaw, t, angle, phase := 0.0, 0.0, 0.0, 0.0, 0.0;
    }

    /** Everything `handle_input` never touches: the depth buffer, the camera position
        and the animation state. */
    twostate predicate Untouched()
      reads this
    {
      depthBuffer == old(depthBuffer) && camera == old(camera)
      && t == old(t) && angle == old(angle) && phase == old(phase)
    }

    /** `handle_input`: a key event sets the flag its key drives to `pressed`, ignoring
        modifiers and repeat; a mouse move turns the camera and clamps the pitch. */
    method HandleInput(input: Input)
      modifies this
      ensures Untouched()
      ensures input.Key? ==>
        Flags() == ApplyKey(old(Flags()), input.code, input.pressed) && pitch == old(pitch) && yaw == old(yaw)
      ensures input.MouseMoved? ==>
        Flags() == old(Flags()) && yaw == old(yaw) + input.dx * SENSITIVITY
        && pitch == ClampPitch(old(pitch) + input.dy * SENSITIVITY)
    {
      match input
      case Key(code, _, pressed, _) =>
        HandleKey(code, pressed);
      case MouseMoved(dx, dy) =>
        HandleMouse(dx, dy);
    }

    /** The `Input::Key` arm: the field the key drives becomes `pressed`. */
    method HandleKey(code: KeyCode, pressed: bool)
      modifies this
      ensures Untouched() && pitch == old(pitch) && yaw == old(yaw)
      ensures Flags() == ApplyKey(old(Flags()), code, pressed)
    {
      ApplyKeyArms(Flags(), code, pressed);
      if code.KeyW? {
        forwardPressed := pressed;
      } else if code.KeyS? {
        backPressed := pressed;
      } else if code.KeyA? {
        leftPressed := pressed;
      } else if code.KeyD? {
        rightPressed := pressed;
      } else if code.Spacebar? {
        upPressed := pressed;
      } else if code.LeftShift? {
        downPressed := pressed;
      }
    }

    /** The `Input::MouseMoved` arm: scale the motion into yaw and pitch, then keep the
        pitch within the safe range. */
    method HandleMouse(dx: real, dy: real)
      modifies this
      ensures Untouched() && Flags() == old(Flags())
      ensures yaw == old(yaw) + dx * SENSITIVITY && pitch == ClampPitch(old(pitch) + dy * SENSITIVITY)
    {
      yaw := yaw + dx * SENSITIVITY;
      pitch := pitch + dy * SENSITIVITY;
      if pitch < -SAFE_FRAC_PI_2 {
        pitch := -SAFE_FRAC_PI_2;
      } else if pitch > SAFE_FRAC_PI_2 {
        pitch := SAFE_FRAC_PI_2;
      }
    }
  }

  /** `frame_buffer()` with its statics `FRAME_BUFFER` and `INIT`. */
  class FrameBufferStatic {
    const frameBuffer: array<Srgb>
    var init: bool

    /** Until it is handed out, the buffer holds `MAX_PIXELS` white pixels. */
    predicate Valid()
      reads this, frameBuffer
    {
      frameBuffer.Length == MAX_PIXELS &&
      (!init ==> forall i :: 0 <= i < frameBuffer.Length ==> frameBuffer[i] == WHITE)
    }

    constructor ()
      ensures Valid() && !init && fresh(frameBuffer)
    {
      frameBuffer := new Srgb[MAX_PIXELS](_ => WHITE);
      init := false;
    }

    /** The first call hands out the white buffer and sets `INIT`; every later call panics. */
    method FrameBuffer() returns (r: Outcome<array<Srgb>>)
      requires Valid()
      modifies this
      ensures Valid() && init
      ensures !old(init) ==>
        r == Ok(frameBuffer) && forall i :: 0 <= i < MAX_PIXELS ==> frameBuffer[i] == WHITE
      ensures old(init) ==> r == Panic("tried to call `frame_buffer` twice")
    {
      if init {
        return Panic("tried to call `frame_buffer` twice");
      }
      init := true;
      r := Ok(frameBuffer);
    }
  }

  /** `memory()` with its statics `DEPTH_BUFFER` and `INIT`. */
  class MemoryStatic {
    const depthBuffer: array<real>
    var init: bool

    /** Until it is handed out, the depth buffer holds `MAX_PIXELS` far depths. */
    predicate Valid()
      reads this, depthBuffer
    {
      depthBuffer.Length == MAX_PIXELS &&
      (!init ==> forall i :: 0 <= i < depthBuffer.Length ==> depthBuffer[i] == FAR_DEPTH)
    }

    constructor ()
      ensures Valid() && !init && fresh(depthBuffer)
    {
      depthBuffer := new real[MAX_PIXELS](_ => FAR_DEPTH);
      init := false;
    }

    /** The first call builds the game's `Memory` over the untouched depth buffer and sets
        `INIT`; every later call panics. */
    method Memory() returns (r: Outcome<Memory>)
      requires Valid()
      modifies this
      ensures Valid() && init
      ensures !old(init) ==>
        r.Ok? && fresh(r.value)
        && r.value.depthBuffer == depthBuffer && r.value.camera == START_CAMERA
        && r.value.Flags() == NONE_PRESSED && r.value.pitch == 0.0 && r.value.yaw == 0.0
        && r.value.t == 0.0 && r.value.angle == 0.0 && r.value.phase == 0.0
        && forall i :: 0 <= i < MAX_PIXELS ==> depthBuffer[i] == FAR_DEPTH
      ensures old(init) ==> r == Panic("tried to call `memory` twice")
    {
      if init {
        return Panic("tried to call `memory` twice");
      }
      init := true;
      var memory := new Memory(depthBuffer);
      r := Ok(memory);
    }
  }
}
