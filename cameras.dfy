/**
 * The mouse-look part of camera.py: a camera whose yaw and pitch follow
 * cursor movement, with no jump on the first event, Y inverted, a
 * sensitivity of 0.1 degree per pixel and the pitch kept in [-89, 89].
 */
module Cameras {
  import opened Vectors

  const Sensitivity: real := 0.1
  const PitchLimit: real := 89.0
  const WorldUp := Vec3(0.0, 1.0, 0.0)

  /** The fields that `process_mouse` reads and writes, apart from `front`. */
  datatype Look = Look(yaw: real, pitch: real, lastX: real, lastY: real, firstMouse: bool)

  /** Python's two-argument `min`. */
  function Min(a: real, b: real): (r: real)
    ensures r <= a && r <= b && (r == a || r == b)
  {
    if b < a then b else a
  }

  /** Python's two-argument `max`. */
  function Max(a: real, b: real): (r: real)
    ensures r >= a && r >= b && (r == a || r == b)
  {
    if b > a then b else a
  }

  /** `max(lo, min(hi, v))`. */
  function Clamp(v: real, lo: real, hi: real): (r: real)
    requires lo <= hi
    ensures lo <= r <= hi
    ensures lo <= v <= hi ==> r == v
    ensures v < lo ==> r == lo
    ensures v > hi ==> r == hi
  {
    Max(lo, Min(hi, v))
  }

  predicate PitchInRange(pitch: real)
  {
    -PitchLimit <= pitch <= PitchLimit
  }

  /** The look state a new camera starts in. */
  function InitialLook(): (s: Look)
    ensures PitchInRange(s.pitch) && s.firstMouse
  {
    Look(-90.0, 0.0, 400.0, 300.0, true)
  }

  /** One `process_mouse(xpos, ypos)` call, up to the recomputation of `front`. */
  function MouseStep(s: Look, xpos: real, ypos: real): (r: Look)
    ensures r.lastX == xpos && r.lastY == ypos && !r.firstMouse
    ensures PitchInRange(r.pitch)
  {
    var lastX := if s.firstMouse then xpos else s.lastX;
    var lastY := if s.firstMouse then ypos else s.lastY;
    var xoffset := xpos - lastX;
    var yoffset := lastY - ypos;
    Look(s.yaw + xoffset * Sensitivity, Clamp(s.pitch + yoffset * Sensitivity, -PitchLimit, PitchLimit), xpos, ypos, false)
  }

  /** The first event only sets the reference cursor position: yaw and pitch do not move. */
  lemma FirstEventNoJump(s: Look, xpos: real, ypos: real)
    requires s.firstMouse && PitchInRange(s.pitch)
    ensures MouseStep(s, xpos, ypos).yaw == s.yaw
    ensures MouseStep(s, xpos, ypos).pitch == s.pitch
  {
  }

  /** Later events add the scaled cursor offset to yaw, without bound, and the inverted Y offset to the clamped pitch. */
  lemma LaterEventAccumulates(s: Look, xpos: real, ypos: real)
    requires !s.firstMouse
    ensures MouseStep(s, xpos, ypos).yaw == s.yaw + (xpos - s.lastX) * 0.1
    ensures MouseStep(s, xpos, ypos).pitch == Clamp(s.pitch + (s.lastY - ypos) * 0.1, -89.0, 89.0)
  {
  }

  /** Yaw does not wrap: moving the cursor 3600 pixels right turns a full 360 degrees further. */
  lemma YawIsUnbounded(s: Look)
    requires !s.firstMouse
    ensures MouseStep(s, s.lastX + 3600.0, s.lastY).yaw == s.yaw + 360.0
  {
  }

  /**
   * Y is inverted: moving the cursor up the screen (smaller y) never lowers
   * the pitch and raises it while it is below the limit; moving it down
   * never raises it.
   */
  lemma PitchFollowsInvertedY(s: Look, xpos: real, ypos: real)
    requires !s.firstMouse && PitchInRange(s.pitch)
    ensures ypos < s.lastY ==> MouseStep(s, xpos, ypos).pitch >= s.pitch
    ensures ypos < s.lastY && s.pitch < PitchLimit ==> MouseStep(s, xpos, ypos).pitch > s.pitch
    ensures ypos > s.lastY ==> MouseStep(s, xpos, ypos).pitch <= s.pitch
    ensures ypos > s.lastY && s.pitch > -PitchLimit ==> MouseStep(s, xpos, ypos).pitch < s.pitch
    ensures ypos == s.lastY ==> MouseStep(s, xpos, ypos).pitch == s.pitch
  {
  }

  /** The look state after a sequence of cursor events, in order. */
  function Replay(s: Look, events: seq<(real, real)>): Look
    decreases |events|
  {
    if events == [] then s
    else Replay(MouseStep(s, events[0].0, events[0].1), events[1..])
  }

  /**
   * After any sequence of events the pitch is in [-89, 89]; after at least
   * one, `firstMouse` is false and the last event is the reference position.
   */
  lemma {:induction false} ReplayInvariant(s: Look, events: seq<(real, real)>)
    requires PitchInRange(s.pitch)
    ensures PitchInRange(Replay(s, events).pitch)
    ensures events != [] ==> !Replay(s, events).firstMouse
    ensures events != [] ==> Replay(s, events).lastX == events[|events| - 1].0
    ensures events != [] ==> Replay(s, events).lastY == events[|events| - 1].1
    decreases |events|
  {
    if events != [] {
      ReplayInvariant(MouseStep(s, events[0].0, events[0].1), events[1..]);
    }
  }

  /** Once cleared, `firstMouse` stays false. */
  lemma {:induction false} FirstMouseStaysCleared(s: Look, events: seq<(real, real)>)
    requires !s.firstMouse
    ensures !Replay(s, events).firstMouse
    decreases |events|
  {
    if events != [] {
      FirstMouseStaysCleared(MouseStep(s, events[0].0, events[0].1), events[1..]);
    }
  }

  /** From a new camera, a first event at (100, 100) and then one at (110, 95) give yaw -89 and pitch 0.5. */
  lemma TwoEventExample()
    ensures Replay(InitialLook(), [(100.0, 100.0), (110.0, 95.0)]).yaw == -89.0
    ensures Replay(InitialLook(), [(100.0, 100.0), (110.0, 95.0)]).pitch == 0.5
  {
  }

  class Camera {
    var position: Vec3
    var front: Vec3
    var up: Vec3
    var yaw: real
    var pitch: real
    var lastX: real
    var lastY: real
    var firstMouse: bool

    /** The pitch stays within the limits and the up vector is world up. */
    ghost predicate Valid()
      reads this
    {
      PitchInRange(pitch) && up == WorldUp
    }

    function State(): Look
      reads this
    {
      Look(yaw, pitch, lastX, lastY, firstMouse)
    }

    constructor ()
      ensures Valid()
      ensures position == Vec3(0.0, 2.0, 5.0) && front == Vec3(0.0, 0.0, -1.0) && up == Vec3(0.0, 1.0, 0.0)
      ensures State() == InitialLook()
    {
      position := Vec3(0.0, 2.0, 5.0);
      front := Vec3(0.0, 0.0, -1.0);
      up := Vec3(0.0, 1.0, 0.0);
      yaw := -90.0;
      pitch := 0.0;
      lastX := 400.0;
      lastY := 300.0;
      firstMouse := true;
    }

    /**
     * `process_mouse`. `direction` stands for the normalised
     * spherical-to-Cartesian conversion of (yaw, pitch) in degrees.
     */
    method ProcessMouse(xpos: real, ypos: real, direction: (real, real) -> Vec3)
      requires Valid()
      modifies this
      ensures Valid()
      ensures State() == MouseStep(old(State()), xpos, ypos)
      ensures front == direction(yaw, pitch)
      ensures position == old(position) && up == old(up)
    {
      if firstMouse {
        lastX := xpos;
        lastY := ypos;
        firstMouse := false;
      }
      var xoffset := xpos - lastX;
      var yoffset := lastY - ypos;
      lastX := xpos;
      lastY := ypos;

      yaw := yaw + xoffset * Sensitivity;
      pitch := pitch + yoffset * Sensitivity;
      pitch := Max(-PitchLimit, Min(PitchLimit, pitch));

      front := direction(yaw, pitch);
    }
  }

  /** A client of Camera: a new camera, then cursor events at (100, 100) and (110, 95). */
  method MouseLookExample(direction: (real, real) -> Vec3) returns (yaw: real, pitch: real)
    ensures yaw == -89.0 && pitch == 0.5
  {
    var camera := new Camera();
    camera.ProcessMouse(100.0, 100.0, direction);
    camera.ProcessMouse(110.0, 95.0, direction);
    TwoEventExample();
    yaw, pitch := camera.yaw, camera.pitch;
  }
}
