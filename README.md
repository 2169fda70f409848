# VR teleportation helper, modelled in Dafny

The Babylon.js playground's `VRHelper` lets a VR user teleport across a scene.
Every frame it casts a ray from the camera (or from the right VR controller) and
picks the nearest mesh whose name passes its floor test. A hit allows teleportation,
moves the halo centre (the teleport target) to the hit point and shows the two
teleportation circles if a request is pending. A miss disallows teleportation and
hides the circles. Pressing the controller trigger or the gamepad's Y button starts
a request. Releasing it moves the camera's x and z to the halo centre when
teleportation is allowed, and ends the request.

The project has three modules:

- `Floor` (floor.dfy): the floor test `predicate`, i.e. JavaScript's
  `indexOf("My Floor") !== -1`, with `indexOf` written out and specified.
- `Teleportation` (teleportation.dfy): the helper's state as a value
  (`State`, grouped into `Selector`, `Wiring` and `Controllers`), the events
  the engine delivers (`Event`), one function per handler, `Step` and `Run`
  over event sequences, and the lemmas that state the helper's rules.
- `Helper` (vr_helper.dfy): the class `VRHelper`. Its methods update its fields
  in place, as the TypeScript does. Each method is proved to produce the state that
  the matching `Teleportation` function gives, so the lemmas carry over to the class.

Modelling choices:

- Coordinates are exact reals, so JavaScript floating-point rounding is not modelled.
- The result of `scene.pickWithRay` comes from engine geometry. Here it is an input:
  the meshes crossed by the ray, nearest first. The pick (`PickFloor`) is the first
  of them that passes the floor test.
- `navigator.getVRDisplays` becomes the parameter `hasVRDisplays`.
- Gamepads are identified by a number. The callbacks the helper has handed to the
  engine are recorded as flags and sets: the one-shot pointer handler, the per-frame
  ray cast, the Y handlers of each pad and the trigger observer. An event with no
  callback for it changes nothing.
- A frame displays the circles only when a request is pending and the ray picks a
  floor. A release does not hide them, so they stay up until the next frame
  (`ReleaseLeavesCirclesUp`). The invariant kept by every event is therefore
  "shown implies allowed" (`Inv`), and neither "shown implies requested" nor
  "allowed implies shown".

## Model

| member | source | states |
|---|---|---|
| Floor.IndexOfFrom | Users/ahalim/BabylonjsPlayground/BabylonjsPlayground/ClientApp/Basic/VRHelper.ts:216 | `indexOf`: -1 exactly when the pattern occurs at no index at or after `from`; otherwise the pattern occurs at the result and at no earlier index |
| Floor.PredicateIffContains | Users/ahalim/BabylonjsPlayground/BabylonjsPlayground/ClientApp/Basic/VRHelper.ts:213-220 | the floor test holds exactly when "My Floor" is a substring of the mesh name |
| Floor.FloorNameNotConsulted | Users/ahalim/BabylonjsPlayground/BabylonjsPlayground/ClientApp/Basic/VRHelper.ts:213-220 | illustrates that the constructor's floor name is not consulted: "My Floor", the name the demos use, passes, while "Sponza Floor", the name in the source comment, fails |
| Teleportation.PickFloorIsNearestFloor | Users/ahalim/BabylonjsPlayground/BabylonjsPlayground/ClientApp/Basic/VRHelper.ts:246 | the pick is the first mesh on the ray that passes the floor test; there is no pick exactly when none passes |
| Teleportation.SetUpHidesCircles | Users/ahalim/BabylonjsPlayground/BabylonjsPlayground/ClientApp/Basic/VRHelper.ts:25-57 | after construction and createVRCamera: both circles hidden, nothing allowed or requested, pointer handler armed; VR observers subscribed exactly with WebVR; no ray cast, pad handler or trigger observer yet; camera at the start position of the chosen camera kind |
| Teleportation.PointerDownIsOneShot | Users/ahalim/BabylonjsPlayground/BabylonjsPlayground/ClientApp/Basic/VRHelper.ts:47-56 | the pointer handler removes itself and registers the ray cast; a second pointer-down changes nothing |
| Teleportation.RayHitMovesSelector | Users/ahalim/BabylonjsPlayground/BabylonjsPlayground/ClientApp/Basic/VRHelper.ts:197-210 | after a floor hit at p: allowed, halo centre exactly p, circle at p lifted by 0.001, request unchanged, both circles visible iff a request is pending, camera unchanged |
| Teleportation.RayMissHidesSelector | Users/ahalim/BabylonjsPlayground/BabylonjsPlayground/ClientApp/Basic/VRHelper.ts:250-256 | after a frame with no floor hit: not allowed, both circles hidden, halo centre and request unchanged |
| Teleportation.HaloCenterOnPickedFloor | Users/ahalim/BabylonjsPlayground/BabylonjsPlayground/ClientApp/Basic/VRHelper.ts:246-256 | after a frame, teleportation is allowed iff some mesh on the ray passes the floor test, and then the halo centre is the point of such a mesh |
| Teleportation.RayHelperOnlyWhilePending | Users/ahalim/BabylonjsPlayground/BabylonjsPlayground/ClientApp/Basic/VRHelper.ts:235-243 | after a frame, the coloured ray is shown iff there is a right controller and a request is pending |
| Teleportation.PressInitiatesRequest | Users/ahalim/BabylonjsPlayground/BabylonjsPlayground/ClientApp/Basic/VRHelper.ts:66-70 | trigger press, or Y down on a pad with the handler, sets only the request flag; other buttons change nothing |
| Teleportation.TriggerReleaseTeleports | Users/ahalim/BabylonjsPlayground/BabylonjsPlayground/ClientApp/Basic/VRHelper.ts:97-112 | trigger release with no pending request changes nothing; otherwise it clears the request and, when allowed, moves the camera's x and z to the halo centre and keeps y; nothing else changes |
| Teleportation.YReleaseTeleports | Users/ahalim/BabylonjsPlayground/BabylonjsPlayground/ClientApp/Basic/VRHelper.ts:72-82 | Y release clears the request whether one was pending or not, and moves the camera's x and z to the halo centre exactly when allowed; other buttons change nothing |
| Teleportation.TriggerObserverIdempotent | Users/ahalim/BabylonjsPlayground/BabylonjsPlayground/ClientApp/Basic/VRHelper.ts:97 | running the trigger handler twice is the same as running it once, so repeated observer subscriptions act as one |
| Teleportation.CameraMovesOnlyOnAllowedRelease | Users/ahalim/BabylonjsPlayground/BabylonjsPlayground/ClientApp/Basic/VRHelper.ts:75-79 | for any event, the camera moves only on a button release while teleportation is allowed, and only to the halo centre's x and z at its own height |
| Teleportation.GazeTargets | Users/ahalim/BabylonjsPlayground/BabylonjsPlayground/ClientApp/Basic/VRHelper.ts:62-65 | a pad with button events adds a visible gaze target only while VR controllers are not ready; attaching a right controller hides only the latest gaze target and subscribes the trigger |
| Teleportation.StepKeepsInv | Users/ahalim/BabylonjsPlayground/BabylonjsPlayground/ClientApp/Basic/VRHelper.ts:185-204 | every event keeps the invariant: both circles are shown together, and only while teleportation is allowed |
| Teleportation.ReleaseLeavesCirclesUp | Users/ahalim/BabylonjsPlayground/BabylonjsPlayground/ClientApp/Basic/VRHelper.ts:73-110 | with a request pending, a frame that picks a floor shows both circles, and a trigger release or a Y release then ends the request while both circles stay visible |
| Teleportation.RunKeepsInv | Users/ahalim/BabylonjsPlayground/BabylonjsPlayground/ClientApp/Basic/VRHelper.ts:182 | every sequence of events keeps that invariant |
| Teleportation.RunKeepsCameraHeight | Users/ahalim/BabylonjsPlayground/BabylonjsPlayground/ClientApp/Basic/VRHelper.ts:77-78 | no sequence of events changes the camera's height |
| Teleportation.TeleportsLandOnFloorHits | Users/ahalim/BabylonjsPlayground/BabylonjsPlayground/ClientApp/Basic/VRHelper.ts:105-107 | over any run, while allowed the halo centre is a known point or a floor hit of the run, and the camera stands where it was or above such a point |
| Teleportation.TeleportsFromSetUpLandOnFloorHits | Users/ahalim/BabylonjsPlayground/BabylonjsPlayground/ClientApp/Basic/VRHelper.ts:222-257 | from set-up on, the camera only ever stands at its start or above a point that some frame's ray picked on a floor |
| Helper.VRHelper.constructor | Users/ahalim/BabylonjsPlayground/BabylonjsPlayground/ClientApp/Basic/VRHelper.ts:9-29 | the fields' initial values: nothing allowed, requested or shown, halo centre at the origin, floor name stored |
| Helper.VRHelper.CreateVRCamera | Users/ahalim/BabylonjsPlayground/BabylonjsPlayground/ClientApp/Basic/VRHelper.ts:31-57 | camera position of the chosen camera kind, VR observers only with WebVR, circles hidden, pointer handler armed |
| Helper.VRHelper.PointerDownHandler | Users/ahalim/BabylonjsPlayground/BabylonjsPlayground/ClientApp/Basic/VRHelper.ts:47-56 | disarms itself and registers the per-frame ray cast |
| Helper.VRHelper.OnNewGamepadConnected | Users/ahalim/BabylonjsPlayground/BabylonjsPlayground/ClientApp/Basic/VRHelper.ts:59-84 | a gaze target when controllers are not ready, then the pad's Y-down and Y-up handlers |
| Helper.VRHelper.GamepadButtonDownHandler | Users/ahalim/BabylonjsPlayground/BabylonjsPlayground/ClientApp/Basic/VRHelper.ts:66-70 | the request flag is set exactly on Y |
| Helper.VRHelper.GamepadButtonUpHandler | Users/ahalim/BabylonjsPlayground/BabylonjsPlayground/ClientApp/Basic/VRHelper.ts:73-82 | new state as YReleaseTeleports states; the camera height is unchanged |
| Helper.VRHelper.OnControllersAttached | Users/ahalim/BabylonjsPlayground/BabylonjsPlayground/ClientApp/Basic/VRHelper.ts:86-114 | controllers ready; with a right controller the latest gaze target is hidden and the trigger observed |
| Helper.VRHelper.TriggerStateChangedHandler | Users/ahalim/BabylonjsPlayground/BabylonjsPlayground/ClientApp/Basic/VRHelper.ts:97-112 | new state as TriggerReleaseTeleports and PressInitiatesRequest state; the camera height is unchanged |
| Helper.VRHelper.CreateTargetMesh | Users/ahalim/BabylonjsPlayground/BabylonjsPlayground/ClientApp/Basic/VRHelper.ts:118-129 | one more gaze target, visible; nothing else changes |
| Helper.VRHelper.DisplayTeleportationCircle | Users/ahalim/BabylonjsPlayground/BabylonjsPlayground/ClientApp/Basic/VRHelper.ts:185-189 | both circles shown; nothing else changes |
| Helper.VRHelper.HideTeleportationCircle | Users/ahalim/BabylonjsPlayground/BabylonjsPlayground/ClientApp/Basic/VRHelper.ts:191-195 | both circles hidden; nothing else changes |
| Helper.VRHelper.MoveTeleportationSelectorTo | Users/ahalim/BabylonjsPlayground/BabylonjsPlayground/ClientApp/Basic/VRHelper.ts:197-210 | the selector state that RayHitMovesSelector describes |
| Helper.VRHelper.CastRayAndCheckIfWeCanTeleport | Users/ahalim/BabylonjsPlayground/BabylonjsPlayground/ClientApp/Basic/VRHelper.ts:222-257 | the state after one frame, as RayHitMovesSelector, RayMissHidesSelector and RayHelperOnlyWhilePending describe |
| Helper.VRHelper.Deliver | Users/ahalim/BabylonjsPlayground/BabylonjsPlayground/ClientApp/Basic/VRHelper.ts:35-56 | an event runs the helper's callback only if the helper has handed one over; the resulting state is `Step`'s, so every lemma above holds of the class |

## Left out

- Ray construction (`getForwardRay` from the camera or the right controller) and the geometry of `scene.pickWithRay`. The meshes crossed by the ray, nearest first, are an input.
- Drawing and disposing the coloured `RayHelper`: only whether it is shown is modelled.
- Creating meshes, GUI textures, ellipses, colours, sizes and the sine-eased inner-circle animation in `createTargetMesh` and `createTeleportationCircles`: only the resulting visibility is modelled.
- `camera.attachControl`, `scene.activeCamera`, `registerBeforeRender` scheduling, console logging, the unused `magic` field and the `scene` and `canvas` references.
- Floating-point arithmetic: coordinates are exact reals, so the 0.001 lift is exact here.
- Aliasing: `teleportationCircle.position = coordinates` makes the circle share the picked point object, so the lift also changes the engine's pick result. That object stays the circle's position until the next floor hit; only the engine's picking result around it is dropped. Nothing else reads it, so only its value, the circle's position, is modelled. `haloCenter` is copied before the lift and is unaffected.
- Helper.VRHelper.CreateVRCamera: requires that it has not run yet. Both demos (Users/ahalim/BabylonjsPlayground/BabylonjsPlayground/ClientApp/Basic/Animation.ts:201-202 and Users/ahalim/BabylonjsPlayground/BabylonjsPlayground/ClientApp/Basic/BasicMaterials.ts:60-61) call it once, right after construction; a second call is not modelled.
- Helper.VRHelper.OnControllersAttached, Helper.VRHelper.DisplayTeleportationCircle, Helper.VRHelper.HideTeleportationCircle, Helper.VRHelper.MoveTeleportationSelectorTo and Helper.VRHelper.CastRayAndCheckIfWeCanTeleport: called before createVRCamera, the source throws a TypeError on the missing camera or circle (onControllersAttached after already marking the controllers ready); these methods complete normally instead. `Deliver` never reaches that case, since every handler is only reachable through wiring that createVRCamera sets up.
- How the engine sets `camera.rightController`: it is recorded when the controllers-attached event arrives.
- Several trigger observers, one per controllers-attached event, are recorded as one flag. TriggerObserverIdempotent shows that this changes nothing.
- The other demo files (scenes, materials, physics, post-processing, sound, loading, animation easing): they only drive the engine and contain no repository logic to state.
