/**
 * The camera preview view's control state: the flash-mode cycle, pinch to
 * zoom with its clamp and the commit of the zoom factor when the pinch ends,
 * and switching between the front and the back camera. The capture device is
 * abstracted to the fields the view reads and writes; the capture session to
 * the positions of its inputs and whether a configuration is open.
 */
module CameraView {
  import opened Wrappers
  import opened Geometry
  import opened Platform

  /** AVCaptureDevice.Position. */
  datatype Position = Unspecified | Back | Front

  /** AVCaptureDevice.FlashMode. */
  datatype FlashMode = Off | On | Auto

  /** The part of an AVCaptureDevice the view uses. */
  datatype Device = Device(position: Position, hasFlash: bool, flashMode: FlashMode,
                           videoMaxZoomFactor: real, videoZoomFactor: real)

  /** AVCaptureSession: positions of the devices of its inputs, and whether beginConfiguration is pending a commit. */
  datatype Session = Session(inputs: set<Position>, configuring: bool)

  const MinimumZoom: real := 1.0
  const MaximumZoom: real := 3.0

  /** The step cycleFlash takes: on to off, off to auto, auto to on. */
  function NextFlashMode(m: FlashMode): (n: FlashMode)
    ensures n != m
    ensures m == On ==> n == Off
    ensures m == Off ==> n == Auto
    ensures m == Auto ==> n == On
  {
    if m == On then Off else if m == Off then Auto else On
  }

  /** Three presses of the flash button restore the mode; fewer do not. */
  lemma FlashCycleHasPeriodThree(m: FlashMode)
    ensures NextFlashMode(NextFlashMode(NextFlashMode(m))) == m
    ensures NextFlashMode(NextFlashMode(m)) != m
  {
  }

  /** The nested minMaxZoom of pinch: the factor clamped to [1, 3] and then to the device's maximum. */
  function MinMaxZoom(factor: real, videoMaxZoomFactor: real): (z: real)
    ensures z <= MaximumZoom && z <= videoMaxZoomFactor
    ensures videoMaxZoomFactor >= MinimumZoom ==> z >= MinimumZoom
    ensures MinimumZoom <= factor <= MaximumZoom && factor <= videoMaxZoomFactor ==> z == factor
  {
    Min(Min(Max(factor, MinimumZoom), MaximumZoom), videoMaxZoomFactor)
  }

  /** Clamping a clamped factor again changes nothing. */
  lemma MinMaxZoomIdempotent(factor: real, videoMaxZoomFactor: real)
    ensures MinMaxZoom(MinMaxZoom(factor, videoMaxZoomFactor), videoMaxZoomFactor)
            == MinMaxZoom(factor, videoMaxZoomFactor)
  {
  }

  /** cameraWithPosition(position:): the first device at that position, or nil. */
  function CameraWithPosition(devices: seq<Device>, position: Position): (d: Option<Device>)
    ensures d.Some? ==> d.value in devices && d.value.position == position
    ensures d.None? <==> forall i :: 0 <= i < |devices| ==> devices[i].position != position
    ensures d.Some? ==> exists i :: 0 <= i < |devices| && devices[i] == d.value
                                    && forall j :: 0 <= j < i ==> devices[j].position != position
  {
    if |devices| == 0 then None
    else if devices[0].position == position then Some(devices[0])
    else
      var rest := CameraWithPosition(devices[1..], position);
      assert rest.Some? ==> exists i :: 0 <= i < |devices| && devices[i] == rest.value
                                        && forall j :: 0 <= j < i ==> devices[j].position != position by {
        if rest.Some? {
          var i :| 0 <= i < |devices[1..]| && devices[1..][i] == rest.value
                   && forall j :: 0 <= j < i ==> devices[1..][j].position != position;
          assert devices[i + 1] == rest.value;
          assert forall j :: 0 <= j < i + 1 ==> devices[j].position != position by {
            forall j | 0 <= j < i + 1 ensures devices[j].position != position {
              if j > 0 { assert devices[j] == devices[1..][j - 1]; }
            }
          }
        }
      }
      rest
  }

  class CameraView {
    var session: Option<Session>
    /** The device wrapped by the current capture input. */
    var input: Option<Device>
    var device: Option<Device>
    var lastZoomFactor: real
    var currentPosition: Position

    constructor (defaultPosition: Position)
      ensures session.None? && input.None? && device.None?
      ensures lastZoomFactor == 1.0 && currentPosition == defaultPosition
    {
      session := None;
      input := None;
      device := None;
      lastZoomFactor := 1.0;
      currentPosition := defaultPosition;
    }

    /**
     * cycleFlash(): with a device that has a flash and can be locked for
     * configuration, step its flash mode; otherwise nothing changes.
     */
    method CycleFlash(lockSucceeds: bool)
      modifies this`device
      ensures old(device).Some? && old(device).value.hasFlash && lockSucceeds ==>
                device == Some(old(device).value.(flashMode := NextFlashMode(old(device).value.flashMode)))
      ensures !(old(device).Some? && old(device).value.hasFlash && lockSucceeds) ==> device == old(device)
    {
      if device.None? || !device.value.hasFlash {
        return;
      }
      if lockSucceeds {
        var d := device.value;
        device := Some(d.(flashMode := NextFlashMode(d.flashMode)));
      }
    }

    /** update(scale:) of pinch: write the zoom factor if the device can be locked. */
    method UpdateZoom(factor: real, lockSucceeds: bool)
      requires device.Some?
      modifies this`device
      ensures device == if lockSucceeds then Some(old(device).value.(videoZoomFactor := factor)) else old(device)
    {
      if lockSucceeds {
        device := Some(device.value.(videoZoomFactor := factor));
      }
    }

    /**
     * pinch(gesture:): began and changed apply the clamped product of the
     * gesture's scale and the last committed factor; ended commits that
     * clamped value as the last factor and applies it; other states, and a
     * missing device, change nothing.
     */
    method Pinch(state: GestureState, scale: real, lockSucceeds: bool)
      modifies this`device, this`lastZoomFactor
      ensures old(device).None? ==> device == old(device) && lastZoomFactor == old(lastZoomFactor)
      ensures old(device).Some? ==>
        var d := old(device).value;
        var z := MinMaxZoom(scale * old(lastZoomFactor), d.videoMaxZoomFactor);
        && (state == Ended ==> lastZoomFactor == z)
        && (state != Ended ==> lastZoomFactor == old(lastZoomFactor))
        && ((state == Began || state == Changed || state == Ended) && lockSucceeds ==>
              device == Some(d.(videoZoomFactor := z)))
        && (!((state == Began || state == Changed || state == Ended) && lockSucceeds) ==> device == old(device))
      ensures old(device).Some? && state == Ended ==>
                lastZoomFactor <= MaximumZoom && lastZoomFactor <= old(device).value.videoMaxZoomFactor
      ensures old(device).Some? && old(device).value.videoMaxZoomFactor >= MinimumZoom
              && MinimumZoom <= old(lastZoomFactor) <= MaximumZoom ==>
                MinimumZoom <= lastZoomFactor <= MaximumZoom
    {
      if device.None? {
        return;
      }
      var maxFactor := device.value.videoMaxZoomFactor;
      var newScaleFactor := MinMaxZoom(scale * lastZoomFactor, maxFactor);
      match state {
        case Began =>
          UpdateZoom(newScaleFactor, lockSucceeds);
        case Changed =>
          UpdateZoom(newScaleFactor, lockSucceeds);
        case Ended =>
          MinMaxZoomIdempotent(scale * lastZoomFactor, maxFactor);
          lastZoomFactor := MinMaxZoom(newScaleFactor, maxFactor);
          UpdateZoom(lastZoomFactor, lockSucceeds);
        case _ =>
      }
    }

    /**
     * swapCameraInput(): without a session or an input nothing happens.
     * Otherwise the current input leaves the session, the position becomes
     * front if that input's device was at the back and back in every other
     * case, and the first device at the new position is looked up. Only if an
     * input can be made for it is it added and the configuration committed;
     * the new position and device are kept either way.
     */
    method SwapCameraInput(devices: seq<Device>, inputCreatable: bool)
      modifies this`session, this`input, this`device, this`currentPosition
      ensures old(session).None? || old(input).None? ==>
        session == old(session) && input == old(input) && device == old(device)
        && currentPosition == old(currentPosition)
      ensures old(session).Some? && old(input).Some? ==>
        var oldPosition := old(input).value.position;
        var newPosition := if oldPosition == Back then Front else Back;
        var remaining := old(session).value.inputs - {oldPosition};
        && currentPosition == newPosition
        && device == CameraWithPosition(devices, newPosition)
        && (device.Some? && inputCreatable ==>
              input == device && session == Some(Session(remaining + {newPosition}, false)))
        && (!(device.Some? && inputCreatable) ==>
              input == old(input) && session == Some(Session(remaining, true)))
    {
      if session.None? || input.None? {
        return;
      }
      var currentInput := input.value;
      session := Some(Session(session.value.inputs, true));
      session := Some(session.value.(inputs := session.value.inputs - {currentInput.position}));
      if currentInput.position == Back {
        currentPosition := Front;
        device := CameraWithPosition(devices, currentPosition);
      } else {
        currentPosition := Back;
        device := CameraWithPosition(devices, currentPosition);
      }
      if device.None? || !inputCreatable {
        return;
      }
      input := device;
      session := Some(session.value.(inputs := session.value.inputs + {device.value.position}));
      session := Some(session.value.(configuring := false));
    }
  }
}
