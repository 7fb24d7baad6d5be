/** The Azure Kinect device guard (`Kinect4AManager`,
    Scripts/Kinect4AManager.cs).

    Several providers share one device, so the manager opens it once and
    closes it once: `StartCamera` does nothing while the cameras are on and
    `StopCamera` does nothing while they are off. The SDK calls
    (`Device.Open`, `StartCameras`, `StopCameras`) are outside the model; each
    is given as a parameter saying whether it returns or throws, and a throw
    leaves the manager where the C# code leaves it. */
module KinectManager {

  /** Whether an SDK call returns normally or throws. */
  datatype Call = Returns | Throws

  datatype ImageFormat = ColorMJPG | ColorNV12 | ColorYUY2 | ColorBGRA32 | Depth16 | IR16 | Custom
  datatype ColorResolution = ColorOff | R720p | R1080p | R1440p | R1536p | R2160p | R3072p
  datatype DepthMode = DepthOff | NFOV_2x2Binned | NFOV_Unbinned | WFOV_2x2Binned | WFOV_Unbinned | PassiveIR
  datatype FPS = FPS5 | FPS15 | FPS30

  /** The camera settings passed to `StartCameras`. */
  datatype DeviceConfiguration = DeviceConfiguration(
    colorFormat: ImageFormat,
    colorResolution: ColorResolution,
    depthMode: DepthMode,
    synchronizedImagesOnly: bool,
    cameraFPS: FPS)

  /** The manager's defaults, as set in the inspector fields. */
  const DefaultConfiguration := DeviceConfiguration(ColorBGRA32, R720p, NFOV_Unbinned, true, FPS30)

  /** What the guard keeps, seen from outside: whether the cameras are on,
      whether a device handle is held, and how many times a device was
      opened. */
  datatype Status = Status(isOn: bool, holdsDevice: bool, opens: nat)

  const Initial := Status(false, false, 0)

  /** The guard's invariant: the cameras are only on with a device held. */
  predicate Consistent(s: Status)
  {
    s.isOn ==> s.holdsDevice
  }

  /** `StartCamera` on the status: when off, open the device (a throw there
      changes nothing), then start its cameras (a throw there leaves the
      device held but the manager off); when on, nothing. */
  function StartStep(s: Status, open: Call, start: Call): (r: Status)
    ensures Consistent(s) ==> Consistent(r)
    ensures s.isOn ==> r == s
    ensures r.opens <= s.opens + 1
    ensures r.isOn <==> s.isOn || (open == Returns && start == Returns)
  {
    if s.isOn then s
    else if open == Throws then s
    else Status(start == Returns, true, s.opens + 1)
  }

  /** `StopCamera` on the status: when on, mark off, then stop the cameras
      and drop the device (a throw in `StopCameras` leaves the handle held
      and its cameras as they were);
      when off, nothing. */
  function StopStep(s: Status, stop: Call): (r: Status)
    ensures Consistent(r)
    ensures !r.isOn
    ensures !s.isOn ==> r == s
    ensures r.opens == s.opens
  {
    if !s.isOn then s
    else Status(false, stop == Throws, s.opens)
  }

  /** A successful start followed by a successful stop comes back to the
      state it started from, apart from the open count. */
  lemma StartStopRoundTrip(s: Status)
    requires !s.isOn && !s.holdsDevice
    ensures var t := StopStep(StartStep(s, Returns, Returns), Returns);
      t == s.(opens := s.opens + 1)
  {
  }

  /** A start attempt sequence: each element is the outcome of `Device.Open`
      and of `StartCameras` for that call. */
  function StartAll(s: Status, attempts: seq<(Call, Call)>): (r: Status)
    decreases |attempts|
  {
    if attempts == [] then s
    else StartAll(StartStep(s, attempts[0].0, attempts[0].1), attempts[1..])
  }

  /** Once the cameras are on, any number of further `StartCamera` calls
      change nothing: the device is never reopened. */
  lemma {:induction false} StartIdempotent(s: Status, attempts: seq<(Call, Call)>)
    requires s.isOn
    ensures StartAll(s, attempts) == s
    decreases |attempts|
  {
    if attempts != [] {
      StartIdempotent(StartStep(s, attempts[0].0, attempts[0].1), attempts[1..]);
    }
  }

  /** Every attempt opens the device at most once, and no attempt opens it
      again once one has succeeded. */
  lemma {:induction false} OpensBounded(s: Status, attempts: seq<(Call, Call)>)
    ensures StartAll(s, attempts).opens <= s.opens + |attempts|
    ensures s.isOn ==> StartAll(s, attempts).opens == s.opens
    decreases |attempts|
  {
    if attempts != [] {
      var next := StartStep(s, attempts[0].0, attempts[0].1);
      OpensBounded(next, attempts[1..]);
    }
  }

  /** Stopping twice is stopping once, whatever the second `StopCameras`
      would have done. */
  lemma StopIdempotent(s: Status, first: Call, second: Call)
    ensures StopStep(StopStep(s, first), second) == StopStep(s, first)
  {
  }

  /** A `StartCameras` that throws leaves the opened device held while the
      manager is off, so the next start opens a device again. */
  lemma FailedStartReopens(s: Status)
    requires !s.isOn
    ensures var t := StartStep(s, Returns, Throws);
      t.holdsDevice && !t.isOn && StartStep(t, Returns, Returns).opens == s.opens + 2
  {
  }

  /** An open Azure Kinect device: only what the manager touches. */
  class Device {
    const index: int
    var running: bool
    var configuration: DeviceConfiguration

    /** `Device.Open(index)`: a fresh handle with its cameras stopped. */
    constructor Open(index: int)
      ensures this.index == index && !running
    {
      this.index := index;
      running := false;
      configuration := DefaultConfiguration;
    }

    method StartCameras(config: DeviceConfiguration)
      modifies this
      ensures running && configuration == config
    {
      running := true;
      configuration := config;
    }

    method StopCameras()
      modifies this
      ensures !running && configuration == old(configuration)
    {
      running := false;
    }
  }

  class Kinect4AManager {
    var imageFormat: ImageFormat
    var colorResolution: ColorResolution
    var depthMode: DepthMode
    var synchronizedImagesOnly: bool
    var cameraFPS: FPS

    var kinect: Device?
    const deviceId: int
    var kinectIsOn: bool
    /** How many times `Device.Open` returned a handle. */
    ghost var opens: nat

    /** Whenever the cameras are on a device is held. */
    ghost predicate Valid()
      reads this
    {
      kinectIsOn ==> kinect != null
    }

    ghost function Snapshot(): Status
      reads this
    {
      Status(kinectIsOn, kinect != null, opens)
    }

    /** The settings the manager starts the cameras with. */
    function Configuration(): DeviceConfiguration
      reads this
    {
      DeviceConfiguration(imageFormat, colorResolution, depthMode, synchronizedImagesOnly, cameraFPS)
    }

    /** The manager as the component starts: off, no device, default
        settings. */
    constructor ()
      ensures Valid() && Snapshot() == Initial && deviceId == 0
      ensures Configuration() == DefaultConfiguration
    {
      imageFormat := ColorBGRA32;
      colorResolution := R720p;
      depthMode := NFOV_Unbinned;
      synchronizedImagesOnly := true;
      cameraFPS := FPS30;
      kinect := null;
      deviceId := 0;
      kinectIsOn := false;
      opens := 0;
    }

    /** `GetKinect`: no device while off, the held one while on. */
    method GetKinect() returns (d: Device?)
      requires Valid()
      ensures d == null <==> !kinectIsOn
      ensures kinectIsOn ==> d == kinect
    {
      if !kinectIsOn {
        return null;
      }
      return kinect;
    }

    /** `StartCamera`: when off, open device `deviceId` and start its cameras
        with the manager's settings; when on, nothing. */
    method StartCamera(open: Call, start: Call)
      requires Valid()
      modifies this, kinect
      ensures Valid()
      ensures Snapshot() == StartStep(old(Snapshot()), open, start)
      ensures old(kinectIsOn) || open == Throws ==> kinect == old(kinect) && (kinect != null ==> unchanged(kinect))
      ensures !old(kinectIsOn) && open == Returns ==>
        kinect != null && fresh(kinect) && kinect.index == deviceId &&
        (kinect.running <==> start == Returns) &&
        (start == Returns ==> kinect.configuration == Configuration())
      ensures imageFormat == old(imageFormat) && colorResolution == old(colorResolution) && depthMode == old(depthMode)
      ensures synchronizedImagesOnly == old(synchronizedImagesOnly) && cameraFPS == old(cameraFPS)
    {
      if !kinectIsOn {
        var deviceConfiguration := Configuration();
        if open == Throws {
          return;
        }
        var device := new Device.Open(deviceId);
        kinect := device;
        opens := opens + 1;
        if start == Throws {
          return;
        }
        device.StartCameras(deviceConfiguration);
        kinectIsOn := true;
      }
    }

    /** `StopCamera`: when on, mark off, stop the cameras and drop the
        device; when off, nothing. */
    method StopCamera(stop: Call)
      requires Valid()
      modifies this, kinect
      ensures Valid()
      ensures Snapshot() == StopStep(old(Snapshot()), stop)
      ensures !old(kinectIsOn) || stop == Throws ==> kinect == old(kinect) && (kinect != null ==> unchanged(kinect))
      ensures old(kinectIsOn) && stop == Returns ==> !old(kinect).running
      ensures imageFormat == old(imageFormat) && colorResolution == old(colorResolution) && depthMode == old(depthMode)
      ensures synchronizedImagesOnly == old(synchronizedImagesOnly) && cameraFPS == old(cameraFPS)
    {
      if kinectIsOn {
        kinectIsOn := false;
        if stop == Throws {
          return;
        }
        kinect.StopCameras();
        kinect := null;
      }
    }
  }
}
