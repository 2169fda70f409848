/** The VR helper's teleportation state machine, as values: the state the
    helper keeps, the events that reach it, and one function per handler.
    The class in module Helper updates the same state in place and is proved
    against these functions; the properties of the helper are lemmas here. */
module Teleportation {
  import Floor

  datatype Option<T> = None | Some(value: T)

  /** A position in the scene (BABYLON.Vector3). Coordinates are exact reals. */
  datatype Vector3 = Vector3(x: real, y: real, z: real)

  const Origin: Vector3 := Vector3(0.0, 0.0, 0.0)

  /** Where the WebVR camera starts, and where the device-orientation camera
      used without WebVR starts. */
  const WebVRCameraStart: Vector3 := Vector3(-0.8980848729619885, 1.1, 0.4818257550471734)
  const DeviceOrientationCameraStart: Vector3 := Vector3(-0.8980848729619885, 2.0, 0.4818257550471734)

  /** The z-fighting offset put on the circle's height above the floor. */
  const CircleLift: real := 0.001

  /** One mesh crossed by the forward ray, at the point where it is crossed. */
  datatype Hit = Hit(meshName: string, point: Vector3)

  /** The buttons of an Xbox 360 pad (BABYLON.Xbox360Button). */
  datatype XboxButton = A | B | X | Y | Start | Back | LB | RB | LeftStick | RightStick

  /** What the engine delivers to the helper once it is set up. */
  datatype Event =
    | PointerDown                                       // scene.onPointerDown
    | Frame(hits: seq<Hit>)                             // before each render; the meshes on the ray, nearest first
    | GamepadConnected(pad: nat, hasButtonDown: bool, hasButtonUp: bool)
    | GamepadButtonDown(pad: nat, button: XboxButton)
    | GamepadButtonUp(pad: nat, button: XboxButton)
    | ControllersAttached(hasRightController: bool)
    | TriggerChanged(pressed: bool)                     // right controller trigger

  /** The teleportation target and its circles. */
  datatype Selector = Selector(
    teleportationAllowed: bool,
    teleportationRequestInitiated: bool,
    haloCenter: Vector3,
    circlePosition: Vector3,    // teleportationCircle.position
    circleVisible: bool,        // teleportationCircle.isVisible
    innerCircleVisible: bool)   // its child, the inner circle

  /** Which of the helper's callbacks the engine holds. */
  datatype Wiring = Wiring(
    cameraCreated: bool,
    pointerDownArmed: bool,     // scene.onPointerDown still holds the one-shot handler
    rayCastRegistered: bool,    // the per-frame ray cast has been registered
    vrEventsSubscribed: bool,   // the WebVR camera's gamepad and controller observers are set up
    yDownPads: set<nat>,        // gamepads carrying the helper's button-down handler
    yUpPads: set<nat>,          // gamepads carrying the helper's button-up handler
    triggerObserved: bool)      // the right controller's trigger has the helper's observer

  /** The input devices and what the helper shows for them. */
  datatype Controllers = Controllers(
    vrControllersReady: bool,
    hasRightController: bool,   // camera.rightController is set
    gazeTargets: seq<bool>,     // visibility of each gaze-target mesh created; the last is `target`
    rayHelperShown: bool)       // the coloured ray drawn from the right controller

  /** The state of one VRHelper, with the camera position it teleports. */
  datatype State = State(
    cameraPosition: Vector3,
    selector: Selector,
    wiring: Wiring,
    controllers: Controllers)

  /** The helper right after `new VRHelper(scene, canvas, floorName)`. */
  function Constructed(): State {
    State(Origin,
          Selector(false, false, Origin, Origin, false, false),
          Wiring(false, false, false, false, {}, {}, false),
          Controllers(false, false, [], false))
  }

  /** displayTeleportationCircle: the circle and its inner circle are shown. */
  function DisplayCircle(c: Selector): Selector {
    c.(circleVisible := true, innerCircleVisible := true)
  }

  /** hideTeleportationCircle: the circle and its inner circle are hidden. */
  function HideCircle(c: Selector): Selector {
    c.(circleVisible := false, innerCircleVisible := false)
  }

  /** createVRCamera: a WebVR camera with its event observers when the browser
      offers VR displays, a device-orientation camera otherwise; then the
      hidden teleportation circles and the one-shot pointer handler. */
  function CreateVRCamera(s: State, hasVRDisplays: bool): State
    requires !s.wiring.cameraCreated
  {
    var position := if hasVRDisplays then WebVRCameraStart else DeviceOrientationCameraStart;
    s.(cameraPosition := position,
       selector := HideCircle(s.selector),
       wiring := s.wiring.(cameraCreated := true, vrEventsSubscribed := hasVRDisplays,
                           pointerDownArmed := true))
  }

  /** The onPointerDown handler: it removes itself and registers the
      per-frame ray cast. */
  function OnPointerDown(s: State): State {
    s.(wiring := s.wiring.(pointerDownArmed := false, rayCastRegistered := true))
  }

  /** What scene.pickWithRay(ray, predicate) picks: the nearest mesh on the
      ray whose name passes the floor test, if any. */
  function PickFloor(hits: seq<Hit>): Option<Hit> {
    if |hits| == 0 then None
    else if Floor.Predicate(hits[0].meshName) then Some(hits[0])
    else PickFloor(hits[1..])
  }

  /** The pick is the first hit on the ray that passes the floor test, and
      there is none exactly when no hit passes it. */
  lemma {:induction false} PickFloorIsNearestFloor(hits: seq<Hit>)
    ensures PickFloor(hits).None? <==> forall i :: 0 <= i < |hits| ==> !Floor.Predicate(hits[i].meshName)
    ensures PickFloor(hits).Some? ==>
      exists k :: 0 <= k < |hits| && hits[k] == PickFloor(hits).value &&
        Floor.Predicate(hits[k].meshName) &&
        forall i :: 0 <= i < k ==> !Floor.Predicate(hits[i].meshName)
  {
    if |hits| > 0 {
      if Floor.Predicate(hits[0].meshName) {
        assert hits[0] == PickFloor(hits).value;
      } else {
        PickFloorIsNearestFloor(hits[1..]);
        assert forall i :: 1 <= i < |hits| ==> hits[i] == hits[1..][i - 1];
        if PickFloor(hits).Some? {
          var k :| 0 <= k < |hits[1..]| && hits[1..][k] == PickFloor(hits).value &&
            Floor.Predicate(hits[1..][k].meshName) &&
            forall i :: 0 <= i < k ==> !Floor.Predicate(hits[1..][i].meshName);
          assert hits[k + 1] == PickFloor(hits).value;
        }
      }
    }
  }

  /** moveTeleportationSelectorTo: teleportation becomes allowed, the circles
      follow the pending request, the halo centre takes the coordinates and
      the circle sits just above them. */
  function MoveSelectorTo(c: Selector, p: Vector3): Selector {
    var moved := c.(teleportationAllowed := true, haloCenter := p,
                    circlePosition := p.(y := p.y + CircleLift));
    if c.teleportationRequestInitiated then DisplayCircle(moved) else HideCircle(moved)
  }

  /** castRayAndCheckIfWeCanTeleport, with the meshes the ray crosses given. */
  function CastRay(s: State, hits: seq<Hit>): State {
    var shown := s.controllers.hasRightController && s.selector.teleportationRequestInitiated;
    var selector :=
      match PickFloor(hits)
      case Some(hit) => MoveSelectorTo(s.selector, hit.point)
      case None => HideCircle(s.selector.(teleportationAllowed := false));
    s.(selector := selector, controllers := s.controllers.(rayHelperShown := shown))
  }

  /** The camera after a teleport to `target`: only x and z move. */
  function Teleported(camera: Vector3, target: Vector3): Vector3 {
    camera.(x := target.x, z := target.z)
  }

  /** Releasing the button: teleport when allowed, and end the request. */
  function Release(s: State): State {
    var moved := if s.selector.teleportationAllowed
                 then Teleported(s.cameraPosition, s.selector.haloCenter)
                 else s.cameraPosition;
    s.(cameraPosition := moved, selector := s.selector.(teleportationRequestInitiated := false))
  }

  /** Pressing the button: a teleportation request is initiated. */
  function Press(s: State): State {
    s.(selector := s.selector.(teleportationRequestInitiated := true))
  }

  /** onNewGamepadConnected: a pad with button events gets the gaze target
      (unless VR controllers are already there) and the Y-button handlers. */
  function OnGamepadConnected(s: State, pad: nat, hasButtonDown: bool, hasButtonUp: bool): State {
    var c := s.controllers;
    var w := s.wiring;
    s.(controllers := c.(gazeTargets := if hasButtonDown && !c.vrControllersReady
                                        then c.gazeTargets + [true] else c.gazeTargets),
       wiring := w.(yDownPads := if hasButtonDown then w.yDownPads + {pad} else w.yDownPads,
                    yUpPads := if hasButtonUp then w.yUpPads + {pad} else w.yUpPads))
  }

  /** The gamepad button-down handler: Y initiates a teleportation request. */
  function OnGamepadButtonDown(s: State, button: XboxButton): State {
    if button == Y then Press(s) else s
  }

  /** The gamepad button-up handler: releasing Y teleports when allowed and
      ends the request, pending or not. */
  function OnGamepadButtonUp(s: State, button: XboxButton): State {
    if button == Y then Release(s) else s
  }

  /** onControllersAttached: VR controllers are ready; with a right controller
      the latest gaze target is hidden and the trigger gets the observer. */
  function OnControllersAttached(s: State, hasRightController: bool): State {
    var c := s.controllers.(vrControllersReady := true, hasRightController := hasRightController);
    if !hasRightController then s.(controllers := c)
    else
      var targets := if |c.gazeTargets| == 0 then c.gazeTargets
                     else c.gazeTargets[|c.gazeTargets| - 1 := false];
      s.(controllers := c.(gazeTargets := targets),
         wiring := s.wiring.(triggerObserved := true))
  }

  /** The trigger observer: pressing initiates a request; releasing a pending
      request teleports when allowed and ends it. */
  function OnTriggerChanged(s: State, pressed: bool): State {
    if pressed then Press(s)
    else if s.selector.teleportationRequestInitiated then Release(s)
    else s
  }

  /** One event, delivered only where the helper has a handler for it. */
  function Step(s: State, e: Event): State {
    var w := s.wiring;
    match e
    case PointerDown => if w.pointerDownArmed then OnPointerDown(s) else s
    case Frame(hits) =>
      if w.rayCastRegistered then CastRay(s, hits) else s
    case GamepadConnected(pad, down, up) =>
      if w.vrEventsSubscribed then OnGamepadConnected(s, pad, down, up) else s
    case GamepadButtonDown(pad, button) =>
      if pad in w.yDownPads then OnGamepadButtonDown(s, button) else s
    case GamepadButtonUp(pad, button) =>
      if pad in w.yUpPads then OnGamepadButtonUp(s, button) else s
    case ControllersAttached(right) =>
      if w.vrEventsSubscribed then OnControllersAttached(s, right) else s
    case TriggerChanged(pressed) =>
      if w.triggerObserved then OnTriggerChanged(s, pressed) else s
  }

  /** A sequence of events, delivered in order. */
  function Run(s: State, es: seq<Event>): State
    decreases |es|
  {
    if es == [] then s else Run(Step(s, es[0]), es[1..])
  }

  /** The point a frame event's ray picks on a floor, if any. */
  function FloorHitPoint(e: Event): set<Vector3> {
    match e
    case Frame(hits) => (match PickFloor(hits) case Some(hit) => {hit.point} case None => {})
    case _ => {}
  }

  /** The points of all floor hits in a sequence of events. */
  function FloorHitPoints(es: seq<Event>): set<Vector3>
    decreases |es|
  {
    if es == [] then {} else FloorHitPoint(es[0]) + FloorHitPoints(es[1..])
  }

  /** The helper's state invariant: the two circles are shown and hidden
      together, and they are shown only where teleportation is allowed. */
  ghost predicate Inv(s: State) {
    var c := s.selector;
    c.circleVisible == c.innerCircleVisible && (c.circleVisible ==> c.teleportationAllowed)
  }

  // ---------------------------------------------------------------- set-up

  /** Right after construction and createVRCamera the circles are hidden, no
      teleport is allowed or requested, and only the pointer handler waits. */
  lemma SetUpHidesCircles(hasVRDisplays: bool)
    ensures var s := CreateVRCamera(Constructed(), hasVRDisplays);
      !s.selector.circleVisible && !s.selector.innerCircleVisible && Inv(s) &&
      !s.selector.teleportationAllowed && !s.selector.teleportationRequestInitiated &&
      s.wiring.pointerDownArmed && !s.wiring.rayCastRegistered &&
      s.wiring.vrEventsSubscribed == hasVRDisplays && !s.wiring.triggerObserved &&
      s.wiring.yDownPads == {} && s.wiring.yUpPads == {} &&
      s.cameraPosition == (if hasVRDisplays then WebVRCameraStart else DeviceOrientationCameraStart)
  {
  }

  /** The pointer handler runs once: a second pointer-down changes nothing,
      so the ray cast is registered at most once. */
  lemma PointerDownIsOneShot(s: State)
    ensures Step(s, PointerDown).wiring.rayCastRegistered == (s.wiring.rayCastRegistered || s.wiring.pointerDownArmed)
    ensures !Step(s, PointerDown).wiring.pointerDownArmed
    ensures Step(Step(s, PointerDown), PointerDown) == Step(s, PointerDown)
  {
  }

  // ------------------------------------------------------------- ray casts

  /** A frame whose ray picks a floor at p: teleportation is allowed, the halo
      centre is p itself (the z-fighting lift goes to the circle only), the
      request is untouched and both circles show exactly when it is pending. */
  lemma RayHitMovesSelector(s: State, hits: seq<Hit>, p: Vector3)
    requires s.wiring.rayCastRegistered
    requires PickFloor(hits).Some? && PickFloor(hits).value.point == p
    ensures var t := Step(s, Frame(hits)).selector;
      t.teleportationAllowed && t.haloCenter == p &&
      t.circlePosition == Vector3(p.x, p.y + CircleLift, p.z) &&
      t.teleportationRequestInitiated == s.selector.teleportationRequestInitiated &&
      t.circleVisible == s.selector.teleportationRequestInitiated &&
      t.innerCircleVisible == s.selector.teleportationRequestInitiated
    ensures Step(s, Frame(hits)).cameraPosition == s.cameraPosition
  {
    assert Step(s, Frame(hits)).selector == MoveSelectorTo(s.selector, p);
  }

  /** A frame whose ray picks no floor: teleportation is disallowed, both
      circles are hidden, and the halo centre and the request stay. */
  lemma RayMissHidesSelector(s: State, hits: seq<Hit>)
    requires s.wiring.rayCastRegistered
    requires forall i :: 0 <= i < |hits| ==> !Floor.Predicate(hits[i].meshName)
    ensures var t := Step(s, Frame(hits)).selector;
      !t.teleportationAllowed && !t.circleVisible && !t.innerCircleVisible &&
      t.haloCenter == s.selector.haloCenter &&
      t.teleportationRequestInitiated == s.selector.teleportationRequestInitiated
    ensures Step(s, Frame(hits)).cameraPosition == s.cameraPosition
  {
    PickFloorIsNearestFloor(hits);
  }

  /** After a frame teleportation is allowed exactly when some mesh on the
      ray passes the floor test, and the halo centre then lies on one. */
  lemma HaloCenterOnPickedFloor(s: State, hits: seq<Hit>)
    requires s.wiring.rayCastRegistered
    ensures var t := Step(s, Frame(hits)).selector;
      t.teleportationAllowed <==> exists i :: 0 <= i < |hits| && Floor.Predicate(hits[i].meshName)
    ensures var t := Step(s, Frame(hits)).selector;
      t.teleportationAllowed ==>
        exists i :: 0 <= i < |hits| && Floor.Predicate(hits[i].meshName) && hits[i].point == t.haloCenter
  {
    PickFloorIsNearestFloor(hits);
    match PickFloor(hits)
    case None =>
    case Some(hit) =>
      assert hit.point == Step(s, Frame(hits)).selector.haloCenter;
  }

  /** The coloured ray is drawn only while a request is pending from a
      right controller. */
  lemma RayHelperOnlyWhilePending(s: State, hits: seq<Hit>)
    requires s.wiring.rayCastRegistered
    ensures Step(s, Frame(hits)).controllers.rayHelperShown <==>
      s.controllers.hasRightController && s.selector.teleportationRequestInitiated
  {
  }

  // ---------------------------------------------------- presses and releases

  /** Pressing the trigger, or Y on a pad with the handler, initiates a
      request and changes nothing else; other buttons do nothing. */
  lemma PressInitiatesRequest(s: State, pad: nat, button: XboxButton)
    ensures s.wiring.triggerObserved ==>
      Step(s, TriggerChanged(true)) == s.(selector := s.selector.(teleportationRequestInitiated := true))
    ensures pad in s.wiring.yDownPads && button == Y ==>
      Step(s, GamepadButtonDown(pad, button)) == s.(selector := s.selector.(teleportationRequestInitiated := true))
    ensures button != Y ==> Step(s, GamepadButtonDown(pad, button)) == s
  {
  }

  /** Releasing the trigger: with no request pending nothing changes;
      otherwise the request ends, and when teleportation is allowed the camera
      takes the halo centre's x and z and keeps its height. */
  lemma TriggerReleaseTeleports(s: State)
    requires s.wiring.triggerObserved
    ensures !s.selector.teleportationRequestInitiated ==> Step(s, TriggerChanged(false)) == s
    ensures s.selector.teleportationRequestInitiated ==>
      var t := Step(s, TriggerChanged(false));
      var c := s.selector;
      t.cameraPosition == (if c.teleportationAllowed
                           then Vector3(c.haloCenter.x, s.cameraPosition.y, c.haloCenter.z)
                           else s.cameraPosition) &&
      t == s.(cameraPosition := t.cameraPosition, selector := c.(teleportationRequestInitiated := false))
  {
  }

  /** Releasing Y on a pad with the handler: the request ends whether or not
      one was pending, and the camera takes the halo centre's x and z exactly
      when teleportation is allowed. */
  lemma YReleaseTeleports(s: State, pad: nat, button: XboxButton)
    requires pad in s.wiring.yUpPads
    ensures button != Y ==> Step(s, GamepadButtonUp(pad, button)) == s
    ensures button == Y ==>
      var t := Step(s, GamepadButtonUp(pad, button));
      var c := s.selector;
      t.cameraPosition == (if c.teleportationAllowed
                           then Vector3(c.haloCenter.x, s.cameraPosition.y, c.haloCenter.z)
                           else s.cameraPosition) &&
      t == s.(cameraPosition := t.cameraPosition, selector := c.(teleportationRequestInitiated := false))
  {
  }

  /** Several trigger observers (controllers attached more than once) act as
      one: running the handler twice is running it once. */
  lemma TriggerObserverIdempotent(s: State, pressed: bool)
    ensures OnTriggerChanged(OnTriggerChanged(s, pressed), pressed) == OnTriggerChanged(s, pressed)
  {
  }

  /** Whatever the event, the camera moves only on a release while
      teleportation is allowed, and then to the halo centre's x and z at its
      own height. */
  lemma CameraMovesOnlyOnAllowedRelease(s: State, e: Event)
    ensures var t := Step(s, e);
      t.cameraPosition == s.cameraPosition ||
      (s.selector.teleportationAllowed && (e.GamepadButtonUp? || (e.TriggerChanged? && !e.pressed)) &&
       t.cameraPosition == Vector3(s.selector.haloCenter.x, s.cameraPosition.y, s.selector.haloCenter.z))
  {
  }

  // ------------------------------------------------------------ gaze target

  /** A pad with button events adds a visible gaze target only while the VR
      controllers are not ready; attaching controllers with a right one hides
      the latest gaze target and leaves the earlier ones as they were. */
  lemma GazeTargets(s: State, pad: nat, up: bool, right: bool)
    requires s.wiring.vrEventsSubscribed
    ensures var c := s.controllers;
      Step(s, GamepadConnected(pad, true, up)).controllers.gazeTargets ==
        (if c.vrControllersReady then c.gazeTargets else c.gazeTargets + [true])
    ensures var before := s.controllers.gazeTargets;
      var t := Step(s, ControllersAttached(right));
      var after := t.controllers.gazeTargets;
      |after| == |before| &&
      (forall i :: 0 <= i < |before| - 1 ==> after[i] == before[i]) &&
      (right && |before| > 0 ==> !after[|before| - 1]) &&
      (!right ==> after == before) &&
      t.controllers.vrControllersReady && t.wiring.triggerObserved == (s.wiring.triggerObserved || right)
  {
  }

  // ------------------------------------------------------ over whole runs

  /** Every event keeps the invariant. */
  lemma StepKeepsInv(s: State, e: Event)
    requires Inv(s)
    ensures Inv(Step(s, e))
  {
  }

  /** Shown circles outlive the request: a frame shows them only when a
      request is pending, but a release ends the request without hiding them,
      so they stay up until the next frame. */
  lemma ReleaseLeavesCirclesUp(s: State, hits: seq<Hit>, pad: nat)
    requires s.wiring.rayCastRegistered && s.selector.teleportationRequestInitiated
    requires PickFloor(hits).Some?
    ensures var t := Step(s, Frame(hits)).selector;
      t.circleVisible && t.innerCircleVisible
    ensures s.wiring.triggerObserved ==>
      var u := Step(Step(s, Frame(hits)), TriggerChanged(false)).selector;
      u.circleVisible && u.innerCircleVisible && !u.teleportationRequestInitiated
    ensures pad in s.wiring.yUpPads ==>
      var u := Step(Step(s, Frame(hits)), GamepadButtonUp(pad, Y)).selector;
      u.circleVisible && u.innerCircleVisible && !u.teleportationRequestInitiated
  {
  }

  /** Every run of events keeps the invariant. */
  lemma {:induction false} RunKeepsInv(s: State, es: seq<Event>)
    requires Inv(s)
    ensures Inv(Run(s, es))
    decreases |es|
  {
    if es != [] {
      StepKeepsInv(s, es[0]);
      RunKeepsInv(Step(s, es[0]), es[1..]);
    }
  }

  /** No run of events changes the camera's height. */
  lemma {:induction false} RunKeepsCameraHeight(s: State, es: seq<Event>)
    ensures Run(s, es).cameraPosition.y == s.cameraPosition.y
    decreases |es|
  {
    if es != [] {
      CameraMovesOnlyOnAllowedRelease(s, es[0]);
      RunKeepsCameraHeight(Step(s, es[0]), es[1..]);
    }
  }

  /** `p` stands on the ground at the same x and z as `q`. */
  predicate SameGround(p: Vector3, q: Vector3) {
    p.x == q.x && p.z == q.z
  }

  /** Over any run from a state where an allowed teleport would land on one
      of the points `known`: whenever teleportation is allowed the halo centre
      is still such a point or a floor hit of the run, and the camera stands
      where it stood or above such a point. */
  lemma {:induction false} TeleportsLandOnFloorHits(s: State, es: seq<Event>, known: set<Vector3>)
    requires s.selector.teleportationAllowed ==> s.selector.haloCenter in known
    ensures var t := Run(s, es).selector;
      t.teleportationAllowed ==> t.haloCenter in known + FloorHitPoints(es)
    ensures var t := Run(s, es);
      SameGround(t.cameraPosition, s.cameraPosition) ||
      exists p :: p in known + FloorHitPoints(es) && SameGround(t.cameraPosition, p)
    decreases |es|
  {
    if es != [] {
      var s1 := Step(s, es[0]);
      var here := FloorHitPoint(es[0]);
      assert s1.selector.teleportationAllowed ==> s1.selector.haloCenter in known + here by {
        if es[0].Frame? && s.wiring.rayCastRegistered {
          PickFloorIsNearestFloor(es[0].hits);
        }
      }
      CameraMovesOnlyOnAllowedRelease(s, es[0]);
      TeleportsLandOnFloorHits(s1, es[1..], known + here);
      var t := Run(s, es);
      assert known + here + FloorHitPoints(es[1..]) == known + FloorHitPoints(es);
      if !SameGround(t.cameraPosition, s1.cameraPosition) {
      } else if !SameGround(s1.cameraPosition, s.cameraPosition) {
        assert SameGround(t.cameraPosition, s.selector.haloCenter);
      }
    }
  }

  /** From set-up on, the camera only ever stands at its start or above a
      floor point that some frame's ray picked. */
  lemma TeleportsFromSetUpLandOnFloorHits(hasVRDisplays: bool, es: seq<Event>)
    ensures var s := CreateVRCamera(Constructed(), hasVRDisplays);
      var t := Run(s, es);
      SameGround(t.cameraPosition, s.cameraPosition) ||
      exists p :: p in FloorHitPoints(es) && SameGround(t.cameraPosition, p)
  {
    TeleportsLandOnFloorHits(CreateVRCamera(Constructed(), hasVRDisplays), es, {});
  }
}
