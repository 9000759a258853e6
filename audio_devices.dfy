/** The audio package (audio/__init__.py): the output-device list offered to
    the user, and the module-level record of the configured device. The
    PsychoPy preference table is a field of AudioPrefs; whether psychopy can
    be imported is an input. */
module AudioDevicesModel {
  import opened Wrappers

  /** One entry of sounddevice.query_devices(). */
  datatype Device = Device(name: string, maxOutputChannels: int)

  /** `sub in s` for strings: sub starts at some position of s. */
  predicate IsSubstring(sub: string, s: string)
    decreases |s|
  {
    |sub| <= |s| && (sub == s[..|sub|] || IsSubstring(sub, s[1..]))
  }

  /** The legacy Windows virtual devices PTB cannot use. */
  const Legacy: seq<string> := ["Microsoft Sound Mapper", "Primary Sound Driver"]

  predicate IsLegacy(name: string) {
    exists k | 0 <= k < |Legacy| :: IsSubstring(Legacy[k], name)
  }

  /** A device the list may offer: it has an output channel and is not a legacy mapper. */
  predicate Offerable(d: Device) {
    d.maxOutputChannels > 0 && !IsLegacy(d.name)
  }

  /** Some device of ds offers the name n. */
  predicate Offers(ds: seq<Device>, n: string) {
    exists i :: 0 <= i < |ds| && Offerable(ds[i]) && ds[i].name == n
  }

  /** The names the loop has collected after the devices in ds. */
  function Collected(ds: seq<Device>): seq<string>
    decreases |ds|
  {
    if ds == [] then []
    else
      var prev := Collected(ds[..|ds| - 1]);
      var d := ds[|ds| - 1];
      if Offerable(d) && d.name !in prev then prev + [d.name] else prev
  }

  /** list_audio_devices: walk the devices, keep each offerable name the
      first time it appears. `queryFails` stands for any exception while
      enumerating, which yields the empty list. */
  method ListAudioDevices(queryFails: bool, devices: seq<Device>) returns (names: seq<string>)
    ensures queryFails ==> names == []
    ensures !queryFails ==> names == Collected(devices)
  {
    if queryFails {
      return [];
    }
    names := [];
    var seen: set<string> := {};
    for i := 0 to |devices|
      invariant names == Collected(devices[..i])
      invariant seen == set n | n in names
    {
      assert devices[..i + 1][..i] == devices[..i];
      var d := devices[i];
      if d.maxOutputChannels > 0 {
        if d.name !in seen && !IsLegacy(d.name) {
          names := names + [d.name];
          seen := seen + {d.name};
        }
      }
    }
    assert devices[..|devices|] == devices;
  }

  /** Every listed name comes from an offerable device, and every offerable
      device's name is listed. */
  lemma {:induction false} CollectedMembers(ds: seq<Device>, n: string)
    ensures n in Collected(ds) <==> Offers(ds, n)
    decreases |ds|
  {
    if ds != [] {
      var init := ds[..|ds| - 1];
      CollectedMembers(init, n);
      if Offers(init, n) {
        var i :| 0 <= i < |init| && Offerable(init[i]) && init[i].name == n;
        assert ds[i] == init[i];
      }
      if Offers(ds, n) {
        var i :| 0 <= i < |ds| && Offerable(ds[i]) && ds[i].name == n;
        if i < |init| {
          assert init[i] == ds[i];
        }
      }
    }
  }

  /** No name is listed twice. */
  lemma {:induction false} CollectedNoDuplicates(ds: seq<Device>)
    ensures forall i, j :: 0 <= i < j < |Collected(ds)| ==> Collected(ds)[i] != Collected(ds)[j]
    decreases |ds|
  {
    if ds != [] {
      CollectedNoDuplicates(ds[..|ds| - 1]);
    }
  }

  /** The first device index that offers name n. */
  function FirstOffer(ds: seq<Device>, n: string): (k: nat)
    requires Offers(ds, n)
    ensures k < |ds| && Offerable(ds[k]) && ds[k].name == n
    ensures forall i :: 0 <= i < k ==> !(Offerable(ds[i]) && ds[i].name == n)
    decreases |ds|
  {
    if Offerable(ds[0]) && ds[0].name == n then 0
    else
      assert Offers(ds[1..], n) by {
        var i :| 0 <= i < |ds| && Offerable(ds[i]) && ds[i].name == n;
        assert i > 0 && ds[1..][i - 1] == ds[i];
      }
      1 + FirstOffer(ds[1..], n)
  }

  /** Names are listed in the order of their first offerable appearance. */
  lemma {:induction false} CollectedInFirstOccurrenceOrder(ds: seq<Device>)
    ensures forall i, j :: 0 <= i < j < |Collected(ds)| ==>
      (CollectedMembers(ds, Collected(ds)[i]); CollectedMembers(ds, Collected(ds)[j]);
       FirstOffer(ds, Collected(ds)[i]) < FirstOffer(ds, Collected(ds)[j]))
    decreases |ds|
  {
    if ds != [] {
      var init := ds[..|ds| - 1];
      var c := Collected(ds);
      var ci := Collected(init);
      CollectedInFirstOccurrenceOrder(init);
      forall i, j | 0 <= i < j < |c|
        ensures (CollectedMembers(ds, c[i]); CollectedMembers(ds, c[j]);
                 FirstOffer(ds, c[i]) < FirstOffer(ds, c[j]))
      {
        CollectedMembers(ds, c[i]);
        CollectedMembers(ds, c[j]);
        CollectedMembers(init, c[i]);
        FirstOfferPrefix(ds, c[i]);
        if j < |ci| {
          CollectedMembers(init, c[j]);
          FirstOfferPrefix(ds, c[j]);
        } else {
          // c[j] is the last device's name, appended because it was not yet listed
          assert c[j] == ds[|ds| - 1].name && c[j] !in ci;
          CollectedMembers(init, c[j]);
          assert FirstOffer(ds, c[j]) == |ds| - 1;
        }
      }
    }
  }

  /** A name already offered before the last device keeps its first index. */
  lemma FirstOfferPrefix(ds: seq<Device>, n: string)
    requires ds != []
    requires Offers(ds[..|ds| - 1], n)
    ensures Offers(ds, n)
    ensures FirstOffer(ds, n) == FirstOffer(ds[..|ds| - 1], n)
  {
    var init := ds[..|ds| - 1];
    var i :| 0 <= i < |init| && Offerable(init[i]) && init[i].name == n;
    assert init[i] == ds[i];
    var k := FirstOffer(init, n);
    assert ds[k] == init[k];
    assert forall j :: 0 <= j < k ==> init[j] == ds[j];
  }

  /** The listed names never contain a legacy device name. */
  lemma CollectedExcludesLegacy(ds: seq<Device>, n: string)
    requires n in Collected(ds)
    ensures !IsLegacy(n)
  {
    CollectedMembers(ds, n);
  }

  /** The module-level audio configuration: the PsychoPy hardware preferences
      this package writes and the recorded device. */
  class AudioPrefs {
    var audioLib: seq<string>
    var latencyMode: int
    /** prefs.hardware['audioDevice']; None while the key is unset */
    var audioDevice: Option<seq<string>>
    /** _configured_device */
    var configuredDevice: Option<string>

    constructor ()
      ensures audioLib == [] && latencyMode == 0 && audioDevice == None && configuredDevice == None
    {
      audioLib := [];
      latencyMode := 0;
      audioDevice := None;
      configuredDevice := None;
    }

    /** configure_audio: choose the low-latency backends; a non-empty device
        name is written to the preferences and recorded. Nothing changes
        when psychopy cannot be imported. */
    method Configure(deviceName: string, psychopyAvailable: bool)
      modifies this
      ensures !psychopyAvailable ==>
        audioLib == old(audioLib) && latencyMode == old(latencyMode) &&
        audioDevice == old(audioDevice) && configuredDevice == old(configuredDevice)
      ensures psychopyAvailable ==>
        audioLib == ["ptb", "sounddevice", "pygame"] && latencyMode == 3 &&
        (deviceName != "" ==> audioDevice == Some([deviceName]) && configuredDevice == Some(deviceName)) &&
        (deviceName == "" ==> audioDevice == old(audioDevice) && configuredDevice == old(configuredDevice))
    {
      if !psychopyAvailable {
        return;
      }
      audioLib := ["ptb", "sounddevice", "pygame"];
      latencyMode := 3;
      if deviceName != "" {
        audioDevice := Some([deviceName]);
        configuredDevice := Some(deviceName);
      }
    }

    /** reconfigure_audio_fallback: switch to the safe backends, clear a set
        device preference and forget the recorded device. */
    method ReconfigureFallback(psychopyAvailable: bool)
      modifies this
      ensures !psychopyAvailable ==>
        audioLib == old(audioLib) && latencyMode == old(latencyMode) &&
        audioDevice == old(audioDevice) && configuredDevice == old(configuredDevice)
      ensures psychopyAvailable ==>
        audioLib == ["sounddevice", "pygame"] && latencyMode == 0 &&
        audioDevice == (if old(audioDevice).Some? then Some([]) else None) &&
        configuredDevice == None
    {
      if !psychopyAvailable {
        return;
      }
      audioLib := ["sounddevice", "pygame"];
      latencyMode := 0;
      if audioDevice.Some? {
        audioDevice := Some([]);
      }
      configuredDevice := None;
    }
  }
}
