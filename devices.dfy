/** Microphone selection in src/talkat/devices.py. The device table and the default input
    device that PyAudio reports are parameters. */
module Devices {
  import opened Wrappers

  /** The two fields of `get_device_info_by_index` the selection reads. */
  datatype DeviceInfo = DeviceInfo(name: string, maxInputChannels: int)

  predicate IsInput(d: DeviceInfo)
  {
    d.maxInputChannels > 0
  }

  /** `list_audio_devices`: the indices it lists, in order, are those of the devices with an
      input channel. */
  method ListAudioDevices(devices: seq<DeviceInfo>) returns (listed: seq<nat>)
    ensures forall i: nat :: i in listed <==> i < |devices| && IsInput(devices[i])
    ensures forall a, b | 0 <= a < b < |listed| :: listed[a] < listed[b]
  {
    listed := [];
    var i := 0;
    while i < |devices|
      invariant 0 <= i <= |devices|
      invariant forall j: nat :: j in listed <==> j < i && IsInput(devices[j])
      invariant forall a, b | 0 <= a < b < |listed| :: listed[a] < listed[b]
      invariant forall a | 0 <= a < |listed| :: listed[a] < i
    {
      if IsInput(devices[i]) {
        listed := listed + [i];
      }
      i := i + 1;
    }
  }

  /** `find_microphone`: the default input device when there is one; otherwise the first
      device with an input channel; otherwise None. */
  method FindMicrophone(defaultIndex: Option<int>, devices: seq<DeviceInfo>) returns (index: Option<int>)
    ensures defaultIndex.Some? ==> index == defaultIndex
    ensures defaultIndex.None? ==> (index.None? <==> forall j | 0 <= j < |devices| :: !IsInput(devices[j]))
    ensures defaultIndex.None? && index.Some? ==>
      0 <= index.value < |devices| && IsInput(devices[index.value]) &&
      forall j | 0 <= j < index.value :: !IsInput(devices[j])
  {
    var _ := ListAudioDevices(devices);
    if defaultIndex.Some? {
      return defaultIndex;
    }
    var i := 0;
    while i < |devices|
      invariant 0 <= i <= |devices|
      invariant forall j | 0 <= j < i :: !IsInput(devices[j])
    {
      if IsInput(devices[i]) {
        return Some(i);
      }
      i := i + 1;
    }
    return None;
  }
}
