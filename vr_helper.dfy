/** The VRHelper class: its fields are updated in place by its methods and by
    the callbacks it hands to the engine. Each method is proved to leave the
    helper in the state the matching function of module Teleportation gives,
    so the lemmas proved there hold of the class. */
module Helper {
  import opened Teleportation

  class VRHelper {
    const floorName: string

    var cameraCreated: bool
    var cameraPosition: Vector3

    var haloCenter: Vector3
    var teleportationAllowed: bool
    var teleportationRequestInitiated: bool
    var circlePosition: Vector3
    var circleVisible: bool
    var innerCircleVisible: bool

    var vrControllersReady: bool
    var hasRightController: bool
    var gazeTargets: seq<bool>
    var rayHelperShown: bool

    var pointerDownArmed: bool
    var rayCastRegistered: bool
    var vrEventsSubscribed: bool
    var yDownPads: set<nat>
    var yUpPads: set<nat>
    var triggerObserved: bool

    /** The helper's fields, as a value. */
    function Snapshot(): State
      reads this
    {
      State(cameraPosition,
            Selector(teleportationAllowed, teleportationRequestInitiated, haloCenter,
                     circlePosition, circleVisible, innerCircleVisible),
            Wiring(cameraCreated, pointerDownArmed, rayCastRegistered, vrEventsSubscribed,
                   yDownPads, yUpPads, triggerObserved),
            Controllers(vrControllersReady, hasRightController, gazeTargets, rayHelperShown))
    }

    constructor (floorName: string)
      ensures this.floorName == floorName
      ensures Snapshot() == Constructed()
    {
      this.floorName := floorName;
      cameraCreated, cameraPosition := false, Origin;
      haloCenter, circlePosition := Origin, Origin;
      teleportationAllowed, teleportationRequestInitiated := false, false;
      circleVisible, innerCircleVisible := false, false;
      vrControllersReady, hasRightController, gazeTargets, rayHelperShown := false, false, [], false;
      pointerDownArmed, rayCastRegistered, vrEventsSubscribed := false, false, false;
      yDownPads, yUpPads, triggerObserved := {}, {}, false;
    }

    /** createVRCamera, with the browser's VR-display probe as a parameter. */
    method CreateVRCamera(hasVRDisplays: bool)
      requires !cameraCreated
      modifies this
      ensures Snapshot() == Teleportation.CreateVRCamera(old(Snapshot()), hasVRDisplays)
      ensures !circleVisible && !innerCircleVisible && pointerDownArmed
    {
      cameraCreated := true;
      if hasVRDisplays {
        cameraPosition := WebVRCameraStart;
        vrEventsSubscribed := true;
      } else {
        cameraPosition := DeviceOrientationCameraStart;
        vrEventsSubscribed := false;
      }
      HideTeleportationCircle();
      pointerDownArmed := true;
    }

    /** The one-shot scene.onPointerDown handler. */
    method PointerDownHandler()
      modifies this
      ensures Snapshot() == OnPointerDown(old(Snapshot()))
    {
      pointerDownArmed := false;
      rayCastRegistered := true;
    }

    /** onNewGamepadConnected. */
    method OnNewGamepadConnected(pad: nat, hasButtonDown: bool, hasButtonUp: bool)
      modifies this
      ensures Snapshot() == OnGamepadConnected(old(Snapshot()), pad, hasButtonDown, hasButtonUp)
    {
      if hasButtonDown {
        if !vrControllersReady {
          CreateTargetMesh();
        }
        yDownPads := yDownPads + {pad};
      }
      if hasButtonUp {
        yUpPads := yUpPads + {pad};
      }
    }

    /** The gamepad's button-down callback. */
    method GamepadButtonDownHandler(button: XboxButton)
      modifies this
      ensures Snapshot() == OnGamepadButtonDown(old(Snapshot()), button)
      ensures teleportationRequestInitiated == (button == Y || old(teleportationRequestInitiated))
    {
      if button == Y {
        teleportationRequestInitiated := true;
      }
    }

    /** The gamepad's button-up callback. */
    method GamepadButtonUpHandler(button: XboxButton)
      modifies this
      ensures Snapshot() == OnGamepadButtonUp(old(Snapshot()), button)
      ensures cameraPosition.y == old(cameraPosition.y)
    {
      if button == Y {
        if teleportationAllowed {
          cameraPosition := cameraPosition.(x := haloCenter.x);
          cameraPosition := cameraPosition.(z := haloCenter.z);
        }
        teleportationRequestInitiated := false;
      }
    }

    /** onControllersAttached. */
    method OnControllersAttached(rightController: bool)
      modifies this
      ensures Snapshot() == Teleportation.OnControllersAttached(old(Snapshot()), rightController)
    {
      vrControllersReady := true;
      hasRightController := rightController;
      if rightController {
        if |gazeTargets| > 0 {
          gazeTargets := gazeTargets[|gazeTargets| - 1 := false];
        }
        triggerObserved := true;
      }
    }

    /** The right controller's trigger observer. */
    method TriggerStateChangedHandler(pressed: bool)
      modifies this
      ensures Snapshot() == OnTriggerChanged(old(Snapshot()), pressed)
      ensures cameraPosition.y == old(cameraPosition.y)
    {
      if pressed {
        teleportationRequestInitiated := true;
      } else {
        if teleportationRequestInitiated {
          if teleportationAllowed {
            cameraPosition := cameraPosition.(x := haloCenter.x);
            cameraPosition := cameraPosition.(z := haloCenter.z);
          }
          teleportationRequestInitiated := false;
        }
      }
    }

    /** createTargetMesh: a new gaze-target mesh, visible, becomes `target`. */
    method CreateTargetMesh()
      modifies this
      ensures gazeTargets == old(gazeTargets) + [true]
      ensures Snapshot() == old(Snapshot()).(controllers := old(Snapshot()).controllers.(gazeTargets := gazeTargets))
    {
      gazeTargets := gazeTargets + [true];
    }

    /** displayTeleportationCircle. */
    method DisplayTeleportationCircle()
      modifies this
      ensures Snapshot() == old(Snapshot()).(selector := DisplayCircle(old(Snapshot()).selector))
    {
      circleVisible := true;
      innerCircleVisible := true;
    }

    /** hideTeleportationCircle. */
    method HideTeleportationCircle()
      modifies this
      ensures Snapshot() == old(Snapshot()).(selector := HideCircle(old(Snapshot()).selector))
    {
      circleVisible := false;
      innerCircleVisible := false;
    }

    /** moveTeleportationSelectorTo. */
    method MoveTeleportationSelectorTo(coordinates: Vector3)
      modifies this
      ensures Snapshot() == old(Snapshot()).(selector := MoveSelectorTo(old(Snapshot()).selector, coordinates))
    {
      teleportationAllowed := true;
      if teleportationRequestInitiated {
        DisplayTeleportationCircle();
      } else {
        HideTeleportationCircle();
      }
      haloCenter := coordinates;
      circlePosition := coordinates;
      circlePosition := circlePosition.(y := circlePosition.y + CircleLift);
    }

    /** castRayAndCheckIfWeCanTeleport, given the meshes on the ray, nearest first. */
    method CastRayAndCheckIfWeCanTeleport(hits: seq<Hit>)
      modifies this
      ensures Snapshot() == CastRay(old(Snapshot()), hits)
    {
      rayHelperShown := hasRightController && teleportationRequestInitiated;
      var hit := PickFloor(hits);
      if hit.Some? {
        MoveTeleportationSelectorTo(hit.value.point);
      } else {
        teleportationAllowed := false;
        HideTeleportationCircle();
      }
    }

    /** The engine delivers an event: it runs the helper's callback for it,
        if the helper has handed one over. */
    method Deliver(e: Event)
      modifies this
      ensures Snapshot() == Step(old(Snapshot()), e)
    {
      match e
      case PointerDown =>
        if pointerDownArmed { PointerDownHandler(); }
      case Frame(hits) =>
        if rayCastRegistered { CastRayAndCheckIfWeCanTeleport(hits); }
      case GamepadConnected(pad, down, up) =>
        if vrEventsSubscribed { OnNewGamepadConnected(pad, down, up); }
      case GamepadButtonDown(pad, button) =>
        if pad in yDownPads { GamepadButtonDownHandler(button); }
      case GamepadButtonUp(pad, button) =>
        if pad in yUpPads { GamepadButtonUpHandler(button); }
      case ControllersAttached(right) =>
        if vrEventsSubscribed { OnControllersAttached(right); }
      case TriggerChanged(pressed) =>
        if triggerObserved { TriggerStateChangedHandler(pressed); }
    }
  }
}
