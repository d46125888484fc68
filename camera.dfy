/** The free-fly camera as the program keeps it: an object whose fields the
    three input handlers update in place, plus the pointer-seeding state that
    lives beside it at file scope. */
module CameraModel {
  import opened Glm
  import opened CameraSpec

  /** The file-scope variables `lastX`, `lastY` and `firstMouse` next to the
      camera's methods. There is one set of them for the whole program, so
      every Camera's MouseInput reads and writes the same object; it is passed
      to MouseInput explicitly to keep that sharing visible. */
  class MouseGlobals {
    var lastX: real
    var lastY: real
    var firstMouse: bool

    /** Their values at program start. */
    constructor ()
      ensures lastX == 400.0 && lastY == 300.0 && firstMouse
    {
      lastX := 400.0;
      lastY := 300.0;
      firstMouse := true;
    }

    /** The seeding state seen as part of the look state. */
    function WithAngles(yaw: real, pitch: real): Look
      reads this
    {
      Look(yaw, pitch, lastX, lastY, firstMouse)
    }
  }

  class Camera {
    var Pos: Vec3
    var Front: Vec3
    var Up: Vec3
    /** Degrees; never clamped. */
    var yaw: real
    /** Degrees; kept in [-89, 89] by MouseInput. */
    var pitch: real
    /** Degrees; kept in [1, 45] by ScrollInput. */
    var fov: real
    /** Pointer offset to degrees. A plain field in C++ that nothing writes
        after initialisation, so a constant here. */
    const sensitivity: real
    /** World units per second; likewise never written. */
    const speedCoeff: real

    /** The ranges the input handlers enforce. The defaults already satisfy
        them, and no handler can leave them, so they hold from construction on
        (the fields are public, and a direct write could still break them). */
    ghost predicate Valid()
      reads this
    {
      -MaxPitch <= pitch <= MaxPitch && MinFov <= fov <= MaxFov
    }

    /** A camera with the default field values, looking down -Z from z = 3. */
    constructor ()
      ensures Pos == Vec3(0.0, 0.0, 3.0) && Front == Vec3(0.0, 0.0, -1.0) && Up == Vec3(0.0, 1.0, 0.0)
      ensures yaw == -90.0 && pitch == 0.0 && fov == 45.0
      ensures sensitivity == 0.1 && speedCoeff == 2.5
      ensures Valid()
    {
      Pos := Vec3(0.0, 0.0, 3.0);
      Front := Vec3(0.0, 0.0, -1.0);
      Up := Vec3(0.0, 1.0, 0.0);
      yaw := -90.0;
      pitch := 0.0;
      fov := 45.0;
      sensitivity := 0.1;
      speedCoeff := 2.5;
    }

    /** One pointer event at (xpos, ypos) in window coordinates. Updates the
        angles as LookStep says, the shared seeding state with them, and then
        recomputes Front from the new angles. Pos, Up and fov are outside the
        frame, so they do not change. */
    method MouseInput(g: MouseGlobals, m: Numerics, xpos: real, ypos: real)
      modifies this`yaw, this`pitch, this`Front, g
      ensures g.WithAngles(yaw, pitch) == LookStep(old(g.WithAngles(yaw, pitch)), sensitivity, xpos, ypos)
      ensures Front == m.normalize(Direction(m, yaw, pitch))
      ensures -MaxPitch <= pitch <= MaxPitch && !g.firstMouse
      ensures old(Valid()) ==> Valid()
    {
      if g.firstMouse {
        g.lastX := xpos;
        g.lastY := ypos;
        g.firstMouse := false;
      }

      var xoffset := Offset(g.lastX, xpos, sensitivity);
      var yoffset := Offset(ypos, g.lastY, sensitivity);

      g.lastX := xpos;
      g.lastY := ypos;

      yaw := yaw + xoffset;
      pitch := pitch + yoffset;

      if pitch > MaxPitch {
        pitch := MaxPitch;
      }
      if pitch < -MaxPitch {
        pitch := -MaxPitch;
      }

      Front := m.normalize(Direction(m, yaw, pitch));
    }

    /** One scroll event. Only the vertical offset is used: it is subtracted
        from fov, which is then clamped to [1, 45]. */
    method ScrollInput(xoffset: real, yoffset: real)
      modifies this`fov
      ensures fov == ClampFov(old(fov) - yoffset)
      ensures MinFov <= fov <= MaxFov
      ensures MinFov <= old(fov) - yoffset <= MaxFov ==> fov == old(fov) - yoffset
      ensures old(Valid()) ==> Valid()
    {
      fov := fov - yoffset;
      if fov < MinFov {
        fov := MinFov;
      }
      if fov > MaxFov {
        fov := MaxFov;
      }
    }

    /** One keyboard poll, `deltaTime` seconds after the previous one. Each
        held movement key adds its share in turn (W, S, A, D); the net effect
        is Displacement at speed `speedCoeff * deltaTime`. Returns whether
        Escape asks for the window to close; the camera itself does nothing
        about it. Only Pos is in the frame. */
    method KeyboardInput(m: Numerics, keys: Keys, deltaTime: real) returns (closeRequested: bool)
      modifies this`Pos
      ensures closeRequested == keys.escape
      ensures Pos == Add(old(Pos), Displacement(Front, m.normalize(Cross(Front, Up)), keys, speedCoeff * deltaTime))
    {
      var cameraSpeed := speedCoeff * deltaTime;
      ghost var start, front, right := Pos, Front, m.normalize(Cross(Front, Up));

      closeRequested := keys.escape;

      if keys.w {
        Pos := Add(Pos, Scale(cameraSpeed, Front));
      }
      if keys.s {
        Pos := Sub(Pos, Scale(cameraSpeed, Front));
      }
      ghost var forward := Pos;
      assert forward == Add(start, PairMove(front, cameraSpeed, keys.w, keys.s)) by {
        PairInTurn(start, front, cameraSpeed, keys.w, keys.s);
      }

      if keys.a {
        Pos := Sub(Pos, Scale(cameraSpeed, m.normalize(Cross(Front, Up))));
      }
      if keys.d {
        Pos := Add(Pos, Scale(cameraSpeed, m.normalize(Cross(Front, Up))));
      }
      assert Pos == Add(forward, PairMove(right, cameraSpeed, keys.d, keys.a)) by {
        PairInTurn(forward, right, cameraSpeed, keys.d, keys.a);
      }
      PairsCombine(start, front, right, keys, cameraSpeed, forward, Pos);
      assert front == Front && right == m.normalize(Cross(Front, Up));
    }

    function GetPos(): (p: Vec3)
      reads this
      ensures p == Pos
    {
      Pos
    }

    function GetFront(): (f: Vec3)
      reads this
      ensures f == Front
    {
      Front
    }

    function GetUp(): (u: Vec3)
      reads this
      ensures u == Up
    {
      Up
    }

    /** The field of view handed to the projection; in [1, 45] on a valid camera. */
    function GetFov(): (f: real)
      reads this
      ensures f == fov
      ensures Valid() ==> MinFov <= f <= MaxFov
    {
      fov
    }
  }

  /** Zooming a fresh camera: a scroll of 10 takes fov from 45 to 35, a
      further scroll of 50 would take it to -15 and is clamped to 1. */
  method ZoomScenario() returns (afterFirst: real, afterSecond: real)
    ensures afterFirst == 35.0 && afterSecond == 1.0
  {
    var camera := new Camera();
    camera.ScrollInput(0.0, 10.0);
    afterFirst := camera.GetFov();
    camera.ScrollInput(0.0, 50.0);
    afterSecond := camera.GetFov();
  }

  /** Looking around with a fresh camera at program start: the first pointer
      sample, at (500, 400), only seeds; the second, at (510, 405), turns the
      camera by one tenth of its offset, with the vertical offset inverted. */
  method FirstLookScenario(m: Numerics) returns (yaw1: real, pitch1: real, yaw2: real, pitch2: real)
    ensures yaw1 == -90.0 && pitch1 == 0.0
    ensures yaw2 == -89.0 && pitch2 == -0.5
  {
    var globals := new MouseGlobals();
    var camera := new Camera();
    camera.MouseInput(globals, m, 500.0, 400.0);
    yaw1, pitch1 := camera.yaw, camera.pitch;
    camera.MouseInput(globals, m, 510.0, 405.0);
    yaw2, pitch2 := camera.yaw, camera.pitch;
  }

  /** The seeding state is shared: once one camera has seen the pointer, a
      camera created afterwards gets no seeding of its own, and its first
      pointer event turns it by the distance from the other camera's last
      sample. */
  method SharedSeedScenario(m: Numerics) returns (firstYaw: real, secondYaw: real)
    ensures firstYaw == -90.0 && secondYaw == -80.0
  {
    var globals := new MouseGlobals();
    var first := new Camera();
    first.MouseInput(globals, m, 500.0, 400.0);
    firstYaw := first.yaw;
    var second := new Camera();
    second.MouseInput(globals, m, 600.0, 400.0);
    secondYaw := second.yaw;
  }

  /** Walking with a fresh camera, which looks down -Z from z = 3: W held for
      no time stays put; W held for one second moves 2.5 units forwards;
      W and S held together for one second cancel out. */
  method WalkScenario(m: Numerics) returns (still: Vec3, moved: Vec3, cancelled: Vec3, close: bool)
    ensures still == Vec3(0.0, 0.0, 3.0)
    ensures moved == Vec3(0.0, 0.0, 0.5)
    ensures cancelled == Vec3(0.0, 0.0, 0.5)
    ensures !close
  {
    var camera := new Camera();
    still, moved, cancelled, close := WalkFromDefaultPose(camera, m);
  }

  /** The walk of WalkScenario on any camera in the default pose, whatever
      its angles and field of view. */
  method WalkFromDefaultPose(camera: Camera, m: Numerics) returns (still: Vec3, moved: Vec3, cancelled: Vec3, close: bool)
    requires camera.Pos == Vec3(0.0, 0.0, 3.0) && camera.Front == Vec3(0.0, 0.0, -1.0)
    requires camera.Up == Vec3(0.0, 1.0, 0.0) && camera.speedCoeff == 2.5
    modifies camera`Pos
    ensures still == Vec3(0.0, 0.0, 3.0)
    ensures moved == Vec3(0.0, 0.0, 0.5)
    ensures cancelled == Vec3(0.0, 0.0, 0.5)
    ensures !close
  {
    DefaultPoseMoves(m.normalize(Cross(camera.Front, camera.Up)));
    close := camera.KeyboardInput(m, Keys(true, false, false, false, false), 0.0);
    still := camera.GetPos();
    close := camera.KeyboardInput(m, Keys(true, false, false, false, false), 1.0);
    moved := camera.GetPos();
    close := camera.KeyboardInput(m, Keys(true, true, false, false, false), 1.0);
    cancelled := camera.GetPos();
  }
}
