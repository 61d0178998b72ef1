/** Audio capture control: choosing the input device, the recording flag that gates
    the capture callback, the queue of captured chunks, and the capture format. The
    sound-device library is reduced to the device list it reports and the chunks its
    stream delivers (already converted to 16-bit PCM bytes). */
module Audio {
  import opened Wrappers
  import opened Text
  import opened Numeric

  /** One entry of the sound-device list. */
  datatype Device = Device(name: string, maxInputChannels: int, maxOutputChannels: int, defaultSampleRate: real)

  /** The error `start_capture` raises. */
  datatype CaptureError = ValueError(message: string)

  const FallbackName: string := "blackhole"
  const StereoRate: int := 48000
  const StereoChannels: int := 2

  /** The device's name contains `target`, ignoring case, and it has an input. */
  predicate NameMatches(d: Device, target: string) {
    Contains(Lower(d.name), Lower(target)) && d.maxInputChannels > 0
  }

  /** The device is some BlackHole device with an input. */
  predicate IsBlackHole(d: Device) {
    Contains(Lower(d.name), FallbackName) && d.maxInputChannels > 0
  }

  /** `id` is what `find_device_id` chooses: the first device matching the name, else the
      first BlackHole device, else none. */
  ghost predicate IsSelection(devices: seq<Device>, target: string, id: Option<nat>) {
    if exists k :: 0 <= k < |devices| && NameMatches(devices[k], target) then
      && id.Some? && id.value < |devices| && NameMatches(devices[id.value], target)
      && forall j :: 0 <= j < id.value ==> !NameMatches(devices[j], target)
    else if exists k :: 0 <= k < |devices| && IsBlackHole(devices[k]) then
      && id.Some? && id.value < |devices| && IsBlackHole(devices[id.value])
      && forall j :: 0 <= j < id.value ==> !IsBlackHole(devices[j])
    else id.None?
  }

  /** The choice is determined by the device list and the name. */
  lemma SelectionUnique(devices: seq<Device>, target: string, a: Option<nat>, b: Option<nat>)
    requires IsSelection(devices, target, a) && IsSelection(devices, target, b)
    ensures a == b
  {
  }

  /** A chosen device is in range and has an input. */
  lemma SelectionHasInput(devices: seq<Device>, target: string, id: Option<nat>)
    requires IsSelection(devices, target, id) && id.Some?
    ensures id.value < |devices| && devices[id.value].maxInputChannels > 0
  {
  }

  /** `find_device_id`: two passes over the device list, each returning at the first hit. */
  method FindDeviceId(devices: seq<Device>, deviceName: string) returns (id: Option<nat>)
    ensures IsSelection(devices, deviceName, id)
    ensures id.Some? ==> id.value < |devices| && devices[id.value].maxInputChannels > 0
  {
    for idx := 0 to |devices|
      invariant forall j :: 0 <= j < idx ==> !NameMatches(devices[j], deviceName)
    {
      if Contains(Lower(devices[idx].name), Lower(deviceName)) && devices[idx].maxInputChannels > 0 {
        return Some(idx);
      }
    }
    for idx := 0 to |devices|
      invariant forall j :: 0 <= j < idx ==> !IsBlackHole(devices[j])
    {
      if Contains(Lower(devices[idx].name), FallbackName) && devices[idx].maxInputChannels > 0 {
        return Some(idx);
      }
    }
    return None;
  }

  /** The message of the error raised when no device is found. */
  function NotFound(deviceName: string): (e: CaptureError)
    ensures e.message == "Audio device '" + deviceName + "' not found"
  {
    ValueError("Audio device '" + deviceName + "' not found")
  }

  /** The channel count the stream is opened with: stereo at the 48 kHz BlackHole rate,
      the configured count otherwise. */
  function CaptureChannels(deviceSampleRate: int, channels: int): (c: int)
    ensures deviceSampleRate == StereoRate ==> c == StereoChannels
    ensures deviceSampleRate != StereoRate ==> c == channels
  {
    if deviceSampleRate == StereoRate then StereoChannels else channels
  }

  class MacSystemAudioCapture {
    const deviceName: string
    const sampleRate: int
    const channels: int
    var audioQueue: seq<seq<bv8>>
    var isRecording: bool
    var deviceId: Option<nat>
    var deviceSampleRate: Option<int>

    constructor (deviceName: string, sampleRate: int, channels: int)
      ensures this.deviceName == deviceName && this.sampleRate == sampleRate && this.channels == channels
      ensures audioQueue == [] && !isRecording && deviceId.None? && deviceSampleRate.None?
    {
      this.deviceName := deviceName;
      this.sampleRate := sampleRate;
      this.channels := channels;
      audioQueue := [];
      isRecording := false;
      deviceId := None;
      deviceSampleRate := None;
    }

    /** `start_capture` with the device list `devices`; `error` is the raised error. */
    method StartCapture(devices: seq<Device>) returns (error: Option<CaptureError>)
      modifies this`isRecording, this`deviceId
      ensures old(isRecording) ==> error.None? && isRecording && deviceId == old(deviceId)
      ensures !old(isRecording) ==>
        && IsSelection(devices, deviceName, deviceId)
        && isRecording == deviceId.Some?
        && error == if deviceId.None? then Some(NotFound(deviceName)) else None
    {
      if isRecording {
        return None;
      }
      deviceId := FindDeviceId(devices, deviceName);
      if deviceId.None? {
        return Some(NotFound(deviceName));
      }
      isRecording := true;
      error := None;
    }

    /** The opening of `_capture_loop` for the chosen device's description `info`: the
        native rate and the channel count the stream is opened with. */
    method OpenStream(info: Device) returns (rate: int, captureChannels: int)
      modifies this`deviceSampleRate
      ensures rate == Trunc(info.defaultSampleRate) && deviceSampleRate == Some(rate)
      ensures captureChannels == CaptureChannels(rate, channels)
    {
      deviceSampleRate := Some(Trunc(info.defaultSampleRate));
      rate := deviceSampleRate.value;
      captureChannels := CaptureChannels(rate, channels);
    }

    /** `stop_capture`: when recording, stops and discards every queued chunk. */
    method StopCapture()
      modifies this`isRecording, this`audioQueue
      ensures !old(isRecording) ==> isRecording == old(isRecording) && audioQueue == old(audioQueue)
      ensures old(isRecording) ==> !isRecording && audioQueue == []
    {
      if !isRecording {
        return;
      }
      isRecording := false;
      while audioQueue != []
        invariant !isRecording
        invariant |audioQueue| <= |old(audioQueue)| && audioQueue == old(audioQueue)[|old(audioQueue)| - |audioQueue|..]
        decreases |audioQueue|
      {
        audioQueue := audioQueue[1..];
      }
    }

    /** `get_audio_data`: the oldest queued chunk, or `None` when the queue is empty. */
    method GetAudioData() returns (chunk: Option<seq<bv8>>)
      modifies this`audioQueue
      ensures old(audioQueue) == [] ==> chunk.None? && audioQueue == []
      ensures old(audioQueue) != [] ==> chunk == Some(old(audioQueue)[0]) && audioQueue == old(audioQueue)[1..]
    {
      if audioQueue == [] {
        return None;
      }
      chunk := Some(audioQueue[0]);
      audioQueue := audioQueue[1..];
    }

    /** `audio_callback` delivering the converted chunk `pcm`: queued only while recording. */
    method AudioCallback(pcm: seq<bv8>)
      modifies this`audioQueue
      ensures audioQueue == old(audioQueue) + if isRecording then [pcm] else []
    {
      if isRecording {
        audioQueue := audioQueue + [pcm];
      }
    }
  }
}
