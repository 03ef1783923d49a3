/** The Carla plugin wrapper (src/plugins/carla_native_plugin.c): the
    protocol and category mappings, the per-cycle choice of audio buffers
    and MIDI events handed to the plugin, the parameter and MIDI-port
    lookups, and the UI visibility callback. */
module CarlaNativePlugins {
  import opened Wrappers
  import opened PortIdentifiers
  import opened PluginDescriptors

  // ---------------------------------------------------------------------
  // Protocol and category mappings
  // ---------------------------------------------------------------------

  /** Carla's plugin types; `PluginNone` is the value 0. */
  datatype PluginType = PluginNone | PluginLv2 | PluginAu | PluginVst2 | PluginVst3
                      | PluginSfz | PluginSf2 | PluginDssi | PluginLadspa

  /** `get_plugin_type_from_protocol`. */
  function PluginTypeFromProtocol(p: Protocol): PluginType
  {
    match p
    case Lv2 => PluginLv2
    case Au => PluginAu
    case Vst => PluginVst2
    case Vst3 => PluginVst3
    case Sfz => PluginSfz
    case Sf2 => PluginSf2
    case Dssi => PluginDssi
    case Ladspa => PluginLadspa
    case Clap | Jsfx | Dummy => PluginNone
  }

  /** The protocol a Carla type stands for. */
  function ProtocolOfType(t: PluginType): Option<Protocol>
  {
    match t
    case PluginNone => None
    case PluginLv2 => Some(Lv2)
    case PluginAu => Some(Au)
    case PluginVst2 => Some(Vst)
    case PluginVst3 => Some(Vst3)
    case PluginSfz => Some(Sfz)
    case PluginSf2 => Some(Sf2)
    case PluginDssi => Some(Dssi)
    case PluginLadspa => Some(Ladspa)
  }

  /** The mapping is one-to-one on the eight protocols Carla hosts and
      gives 0 for the rest. */
  lemma PluginTypeRoundTrip(p: Protocol)
    ensures PluginTypeFromProtocol(p) == PluginNone <==> p in {Clap, Jsfx, Dummy}
    ensures p !in {Clap, Jsfx, Dummy} ==> ProtocolOfType(PluginTypeFromProtocol(p)) == Some(p)
  {
  }

  /** Every Carla type but 0 comes from exactly one protocol. */
  lemma PluginTypeCovered(t: PluginType)
    ensures t != PluginNone ==> PluginTypeFromProtocol(ProtocolOfType(t).value) == t
  {
  }

  /** Carla's plugin categories (`PLUGIN_CATEGORY_*`); any other code is
      `Unlisted`. */
  datatype CarlaCategory = CategoryNone | Synth | Delay | Eq | Filter | Distortion
                         | Dynamics | Modulator | Utility | Other | Unlisted(code: int)

  /** The host's own plugin categories used by the mapping. */
  datatype ZPluginCategory = ZCategoryNone | PcInstrument | PcDelay | PcEq | PcFilter
                           | PcDistortion | PcDynamics | PcModulator | PcUtility

  /** `carla_category_to_zrythm_category`. */
  function ZCategory(c: CarlaCategory): ZPluginCategory
  {
    match c
    case Synth => PcInstrument
    case Delay => PcDelay
    case Eq => PcEq
    case Filter => PcFilter
    case Distortion => PcDistortion
    case Dynamics => PcDynamics
    case Modulator => PcModulator
    case Utility => PcUtility
    case CategoryNone | Other | Unlisted(_) => ZCategoryNone
  }

  /** `carla_category_to_zrythm_category_str`. */
  function ZCategoryStr(c: CarlaCategory): string
  {
    match c
    case Synth => "Instrument"
    case Delay => "Delay"
    case Eq => "Equalizer"
    case Filter => "Filter"
    case Distortion => "Distortion"
    case Dynamics => "Dynamics"
    case Modulator => "Modulator"
    case Utility => "Utility"
    case _ => "Plugin"
  }

  /** The display name of a host category. */
  function CategoryName(z: ZPluginCategory): string
  {
    match z
    case ZCategoryNone => "Plugin"
    case PcInstrument => "Instrument"
    case PcDelay => "Delay"
    case PcEq => "Equalizer"
    case PcFilter => "Filter"
    case PcDistortion => "Distortion"
    case PcDynamics => "Dynamics"
    case PcModulator => "Modulator"
    case PcUtility => "Utility"
  }

  /** The string mapping names the category the enum mapping picks, and
      "Plugin" is the name of exactly the categories mapped to none. */
  lemma CategoryMappingsAgree(c: CarlaCategory)
    ensures ZCategoryStr(c) == CategoryName(ZCategory(c))
    ensures ZCategory(c) == ZCategoryNone <==> c.CategoryNone? || c.Other? || c.Unlisted?
    ensures ZCategoryStr(c) == "Plugin" <==> ZCategory(c) == ZCategoryNone
  {
  }

  /** Distinct host categories have distinct names, so the string mapping
      loses nothing the enum mapping keeps. */
  lemma CategoryNamesDistinct(y: ZPluginCategory, z: ZPluginCategory)
    ensures CategoryName(y) == CategoryName(z) ==> y == z
  {
  }

  // ---------------------------------------------------------------------
  // Host callbacks
  // ---------------------------------------------------------------------

  /** `host_get_buffer_size`: the engine's block length, or 512 before the
      engine has one; never zero. */
  function HostBufferSize(blockLength: nat): (r: nat)
    ensures r > 0
    ensures blockLength > 0 ==> r == blockLength
  {
    if blockLength > 0 then blockLength else 512
  }

  datatype EngineCallbackOpcode = UiStateChanged | OtherOpcode

  /** The plugin state the engine callback touches. */
  class Plugin {
    var visible: bool

    constructor (visible0: bool)
      ensures visible == visible0
    {
      visible := visible0;
    }

    /** `engine_callback`: on UI_STATE_CHANGED, 0 and -1 hide the UI, 1
        shows it, other values keep it, and a visibility-changed event is
        pushed (`pushed`) in every case. */
    method EngineCallback(action: EngineCallbackOpcode, val1: int) returns (pushed: bool)
      modifies this
      ensures pushed <==> action == UiStateChanged
      ensures visible == if action == UiStateChanged && val1 in {0, -1} then false
                         else if action == UiStateChanged && val1 == 1 then true
                         else old(visible)
    {
      pushed := false;
      if action == UiStateChanged {
        if val1 == 0 || val1 == -1 {
          visible := false;
        } else if val1 == 1 {
          visible := true;
        }
        pushed := true;
      }
    }
  }

  // ---------------------------------------------------------------------
  // Plugin ports as the wrapper reads them
  // ---------------------------------------------------------------------

  /** The parts of a plugin port the wrapper looks at: its type, whether
      an event port carries MIDI (`PORT_FLAG2_SUPPORTS_MIDI`), the Carla
      parameter a control port drives, and the events of an event port. */
  datatype CarlaPort = CarlaPort(ptype: PortType, supportsMidi: bool, carlaParamId: int, events: seq<MidiEvent>)

  /** A MIDI event in a port's buffer; `time` is relative to the start of
      the engine cycle. */
  datatype MidiEvent = MidiEvent(time: int, status: int, data1: int, data2: int)

  predicate IsMidiPort(p: CarlaPort)
  {
    p.ptype == TypeEvent && p.supportsMidi
  }

  // ---------------------------------------------------------------------
  // Audio buffers for a cycle
  // ---------------------------------------------------------------------

  /** A buffer handed to the plugin: a port's own buffer, or a zeroed
      dummy buffer of the cycle's length. */
  datatype Buffer = PortBuffer(port: nat) | ZeroBuffer

  /** The first audio port at or after `from`. */
  function NextAudio(ports: seq<CarlaPort>, from: nat): Option<nat>
    decreases |ports| - from
  {
    if from >= |ports| then None
    else if ports[from].ptype == TypeAudio then Some(from)
    else NextAudio(ports, from + 1)
  }

  /** `NextAudio` finds the first audio port at or after `from`, and
      None exactly when there is none. */
  lemma {:induction false} NextAudioFirst(ports: seq<CarlaPort>, from: nat)
    ensures NextAudio(ports, from).Some? ==>
      var k := NextAudio(ports, from).value;
      from <= k < |ports| && ports[k].ptype == TypeAudio &&
      forall j :: from <= j < k ==> ports[j].ptype != TypeAudio
    ensures NextAudio(ports, from).None? <==> forall j :: from <= j < |ports| ==> ports[j].ptype != TypeAudio
    decreases |ports| - from
  {
    if from < |ports| {
      NextAudioFirst(ports, from + 1);
    }
  }

  function Slot(a: Option<nat>): Buffer
  {
    if a.Some? then PortBuffer(a.value) else ZeroBuffer
  }

  /** The two buffers the plugin gets: the first two audio ports, and a
      dummy for each slot with no audio port. */
  function ChosenBuffers(ports: seq<CarlaPort>): seq<Buffer>
  {
    var first := NextAudio(ports, 0);
    var second := if first.Some? then NextAudio(ports, first.value + 1) else None;
    [Slot(first), Slot(second)]
  }

  /** The first slot holds the first audio port and the second the next
      one; a slot is a dummy exactly when the ports run out of audio. */
  lemma ChosenBuffersOrder(ports: seq<CarlaPort>)
    ensures var b := ChosenBuffers(ports);
      |b| == 2 &&
      (b[0] == ZeroBuffer <==> forall j :: 0 <= j < |ports| ==> ports[j].ptype != TypeAudio) &&
      (b[0].PortBuffer? ==>
        (b[0].port < |ports| && ports[b[0].port].ptype == TypeAudio &&
         forall j :: 0 <= j < b[0].port ==> ports[j].ptype != TypeAudio)) &&
      (b[1].PortBuffer? ==>
        (b[0].PortBuffer? && b[0].port < b[1].port < |ports| &&
         ports[b[1].port].ptype == TypeAudio &&
         forall j :: b[0].port < j < b[1].port ==> ports[j].ptype != TypeAudio)) &&
      (b[0].PortBuffer? && b[1] == ZeroBuffer ==> forall j :: b[0].port < j < |ports| ==> ports[j].ptype != TypeAudio)
  {
    NextAudioFirst(ports, 0);
    var first := NextAudio(ports, 0);
    if first.Some? {
      NextAudioFirst(ports, first.value + 1);
    }
  }

  /** The `inbuf`/`outbuf` loops of `carla_native_plugin_process`. */
  method SelectBuffers(ports: seq<CarlaPort>) returns (bufs: seq<Buffer>)
    ensures bufs == ChosenBuffers(ports)
  {
    var slots := new Buffer[2];
    var i := 0;
    var audioPorts := 0;
    ghost var first: nat := 0;
    while i < |ports|
      invariant 0 <= i <= |ports| && audioPorts < 2
      invariant audioPorts == 0 ==> NextAudio(ports, 0) == NextAudio(ports, i)
      invariant audioPorts == 1 ==>
        (first < i && NextAudio(ports, 0) == Some(first) &&
         slots[0] == PortBuffer(first) && NextAudio(ports, first + 1) == NextAudio(ports, i))
      decreases |ports| - i
    {
      if ports[i].ptype == TypeAudio {
        slots[audioPorts] := PortBuffer(i);
        if audioPorts == 0 {
          first := i;
        }
        audioPorts := audioPorts + 1;
      }
      if audioPorts == 2 {
        break;
      }
      i := i + 1;
    }
    if audioPorts == 0 {
      slots[0] := ZeroBuffer;
      slots[1] := ZeroBuffer;
    } else if audioPorts == 1 {
      slots[1] := ZeroBuffer;
    }
    bufs := slots[..];
  }

  // ---------------------------------------------------------------------
  // MIDI events for a cycle
  // ---------------------------------------------------------------------

  /** `MAX_EVENTS`. */
  const MaxEvents := 4000

  /** An event as the plugin receives it: three raw bytes. */
  datatype NativeMidiEvent = NativeMidiEvent(time: int, size: nat, data0: int, data1: int, data2: int)

  function Native(ev: MidiEvent, localOffset: int): NativeMidiEvent
  {
    NativeMidiEvent(ev.time - localOffset, 3, ev.status, ev.data1, ev.data2)
  }

  predicate InWindow(ev: MidiEvent, localOffset: int, nframes: int)
  {
    localOffset <= ev.time < localOffset + nframes
  }

  /** The events of this split of the cycle, re-timed to its start. */
  function Windowed(evs: seq<MidiEvent>, localOffset: int, nframes: int): seq<NativeMidiEvent>
    decreases |evs|
  {
    if evs == [] then []
    else
      var w := Windowed(evs[..|evs| - 1], localOffset, nframes);
      var ev := evs[|evs| - 1];
      if InWindow(ev, localOffset, nframes) then w + [Native(ev, localOffset)] else w
  }

  /** Windowing distributes over concatenation, so the plugin sees the
      events in their input order. */
  lemma {:induction false} WindowedAppend(a: seq<MidiEvent>, b: seq<MidiEvent>, localOffset: int, nframes: int)
    ensures Windowed(a + b, localOffset, nframes) == Windowed(a, localOffset, nframes) + Windowed(b, localOffset, nframes)
    decreases |b|
  {
    if b == [] {
      assert a + b == a;
    } else {
      var b0 := b[..|b| - 1];
      assert (a + b)[..|a + b| - 1] == a + b0;
      WindowedAppend(a, b0, localOffset, nframes);
    }
  }

  /** Each forwarded event lies inside the split, re-timed: its time is
      below `nframes`, and it is an input event in the window minus the
      offset; an input event in the window is forwarded. */
  lemma {:induction false} WindowedEvents(evs: seq<MidiEvent>, localOffset: int, nframes: int)
    ensures forall e :: e in Windowed(evs, localOffset, nframes) ==> 0 <= e.time < nframes
    ensures forall e :: e in Windowed(evs, localOffset, nframes) ==>
      exists ev :: ev in evs && InWindow(ev, localOffset, nframes) && e == Native(ev, localOffset)
    ensures forall ev :: ev in evs && InWindow(ev, localOffset, nframes) ==>
      Native(ev, localOffset) in Windowed(evs, localOffset, nframes)
    decreases |evs|
  {
    if evs != [] {
      var init := evs[..|evs| - 1];
      WindowedEvents(init, localOffset, nframes);
      assert evs == init + [evs[|evs| - 1]];
    }
  }

  predicate NativeSorted(w: seq<NativeMidiEvent>)
  {
    forall i, j :: 0 <= i < j < |w| ==> w[i].time <= w[j].time
  }

  /** Events sorted by time stay sorted after windowing. */
  lemma {:induction false} WindowedSorted(evs: seq<MidiEvent>, localOffset: int, nframes: int)
    requires forall i, j :: 0 <= i < j < |evs| ==> evs[i].time <= evs[j].time
    ensures NativeSorted(Windowed(evs, localOffset, nframes))
    decreases |evs|
  {
    if evs != [] {
      var init := evs[..|evs| - 1];
      WindowedSorted(init, localOffset, nframes);
      WindowedEvents(init, localOffset, nframes);
      var w0 := Windowed(init, localOffset, nframes);
      var last := evs[|evs| - 1];
      forall k | 0 <= k < |w0|
        ensures w0[k].time <= last.time - localOffset
      {
        assert w0[k] in w0;
        var ev :| ev in init && InWindow(ev, localOffset, nframes) && w0[k] == Native(ev, localOffset);
        var i :| 0 <= i < |init| && init[i] == ev;
        assert evs[i] == ev;
      }
      var w := Windowed(evs, localOffset, nframes);
      assert w == if InWindow(last, localOffset, nframes) then w0 + [Native(last, localOffset)] else w0;
      forall i, j | 0 <= i < j < |w|
        ensures w[i].time <= w[j].time
      {
        if j < |w0| {
          assert w[i] == w0[i] && w[j] == w0[j];
        } else {
          assert w[i] == w0[i] && w[j] == Native(last, localOffset);
        }
      }
    }
  }

  /** The first MIDI-capable event port, as the process loop finds it. */
  method FindMainMidiPort(ports: seq<CarlaPort>) returns (r: Option<nat>)
    ensures r.Some? ==> r.value < |ports| && IsMidiPort(ports[r.value])
    ensures r.Some? ==> forall j :: 0 <= j < r.value ==> !IsMidiPort(ports[j])
    ensures r.None? <==> forall j :: 0 <= j < |ports| ==> !IsMidiPort(ports[j])
  {
    var i := 0;
    while i < |ports|
      invariant 0 <= i <= |ports|
      invariant forall j :: 0 <= j < i ==> !IsMidiPort(ports[j])
    {
      if IsMidiPort(ports[i]) {
        return Some(i);
      }
      i := i + 1;
    }
    return None;
  }

  /** The event loop of `carla_native_plugin_process`: the events of the
      split, re-timed, into a buffer of `MaxEvents` with a counter. */
  method WriteEvents(evs: seq<MidiEvent>, localOffset: int, nframes: int) returns (events: array<NativeMidiEvent>, written: nat)
    ensures events.Length == MaxEvents && written <= MaxEvents
    ensures events[..written] == Take(Windowed(evs, localOffset, nframes), MaxEvents)
  {
    events := new NativeMidiEvent[MaxEvents];
    written := 0;
    var i := 0;
    while i < |evs|
      invariant 0 <= i <= |evs| && written < MaxEvents
      invariant events[..written] == Windowed(evs[..i], localOffset, nframes)
    {
      var ev := evs[i];
      assert evs[..i + 1][..i] == evs[..i];
      if InWindow(ev, localOffset, nframes) {
        events[written] := Native(ev, localOffset);
        written := written + 1;
        if written == MaxEvents {
          TakeWindowed(evs, i + 1, localOffset, nframes);
          return;
        }
      }
      i := i + 1;
    }
    assert evs[..i] == evs;
  }

  /** Once `MaxEvents` are written from a prefix, the rest do not change
      the first `MaxEvents`. */
  lemma TakeWindowed(evs: seq<MidiEvent>, n: nat, localOffset: int, nframes: int)
    requires n <= |evs| && |Windowed(evs[..n], localOffset, nframes)| == MaxEvents
    ensures Take(Windowed(evs, localOffset, nframes), MaxEvents) == Windowed(evs[..n], localOffset, nframes)
  {
    assert evs == evs[..n] + evs[n..];
    WindowedAppend(evs[..n], evs[n..], localOffset, nframes);
  }

  /** The events the plugin receives in a split: those of the first MIDI
      port, or none when there is no such port. */
  method ProcessEvents(ports: seq<CarlaPort>, localOffset: int, nframes: int) returns (events: array<NativeMidiEvent>, written: nat)
    ensures events.Length == MaxEvents && written <= MaxEvents
    ensures (forall j :: 0 <= j < |ports| ==> !IsMidiPort(ports[j])) ==> written == 0
    ensures forall j :: 0 <= j < |ports| && IsMidiPort(ports[j]) && (forall i :: 0 <= i < j ==> !IsMidiPort(ports[i])) ==>
      events[..written] == Take(Windowed(ports[j].events, localOffset, nframes), MaxEvents)
  {
    var port := FindMainMidiPort(ports);
    var evs := if port.Some? then ports[port.value].events else [];
    events, written := WriteEvents(evs, localOffset, nframes);
  }

  // ---------------------------------------------------------------------
  // Parameter and MIDI-out lookups
  // ---------------------------------------------------------------------

  /** `(int) id` for a `uint32_t` id. */
  function AsSigned(id: nat): int
    requires id < 0x1_0000_0000
  {
    if id < 0x8000_0000 then id else id - 0x1_0000_0000
  }

  /** The parameter id of the last control port (0 when there is none),
      which the lookup compares a missing id against. */
  function LastControlParamId(ports: seq<CarlaPort>): int
    decreases |ports|
  {
    if ports == [] then 0
    else if ports[|ports| - 1].ptype == TypeControl then ports[|ports| - 1].carlaParamId
    else LastControlParamId(ports[..|ports| - 1])
  }

  predicate DrivesParam(p: CarlaPort, id: int)
  {
    p.ptype == TypeControl && p.carlaParamId == id
  }

  /** `carla_native_plugin_get_port_from_param_id`: the first control
      in-port driving the parameter.  When there is none, `critical` says
      whether the source reaches its `g_return_val_if_reached` (the id is
      not above the last control port's) instead of logging an output
      parameter. */
  method GetPortFromParamId(ports: seq<CarlaPort>, id: nat) returns (r: Option<nat>, critical: bool)
    requires id < 0x1_0000_0000
    ensures r.Some? ==> r.value < |ports| && DrivesParam(ports[r.value], AsSigned(id)) && !critical
    ensures r.Some? ==> forall j :: 0 <= j < r.value ==> !DrivesParam(ports[j], AsSigned(id))
    ensures r.None? <==> forall j :: 0 <= j < |ports| ==> !DrivesParam(ports[j], AsSigned(id))
    ensures r.None? ==> (critical <==> AsSigned(id) <= LastControlParamId(ports))
  {
    var j := 0;
    var i := 0;
    while i < |ports|
      invariant 0 <= i <= |ports|
      invariant j == LastControlParamId(ports[..i])
      invariant forall k :: 0 <= k < i ==> !DrivesParam(ports[k], AsSigned(id))
    {
      assert ports[..i + 1][..i] == ports[..i];
      if ports[i].ptype == TypeControl {
        j := ports[i].carlaParamId;
        if AsSigned(id) == ports[i].carlaParamId {
          return Some(i), false;
        }
      }
      i := i + 1;
    }
    assert ports[..i] == ports;
    if AsSigned(id) > j {
      return None, false;
    }
    return None, true;
  }

  /** What a scan of the out-ports bounded by some count finds: a MIDI
      port, nothing, or a read at an index past the out-port array. */
  datatype Scan = Found(index: nat) | NotFound | ReadPastEnd(index: nat)

  /** Scanning `outs` from `i` up to `bound`. */
  function ScanOutPorts(outs: seq<CarlaPort>, bound: nat, i: nat): Scan
    decreases bound - i
  {
    if i >= bound then NotFound
    else if i >= |outs| then ReadPastEnd(i)
    else if IsMidiPort(outs[i]) then Found(i)
    else ScanOutPorts(outs, bound, i + 1)
  }

  /** Scanning the whole array never reads past it, and finds exactly the
      first MIDI out-port. */
  lemma {:induction false} ScanWhole(outs: seq<CarlaPort>, i: nat)
    requires i <= |outs|
    ensures !ScanOutPorts(outs, |outs|, i).ReadPastEnd?
    ensures ScanOutPorts(outs, |outs|, i).Found? ==>
      var k := ScanOutPorts(outs, |outs|, i).index;
      i <= k < |outs| && IsMidiPort(outs[k]) && forall j :: i <= j < k ==> !IsMidiPort(outs[j])
    ensures ScanOutPorts(outs, |outs|, i).NotFound? <==> forall j :: i <= j < |outs| ==> !IsMidiPort(outs[j])
    decreases |outs| - i
  {
    if i < |outs| {
      ScanWhole(outs, i + 1);
    }
  }

  /** `carla_native_plugin_get_midi_out_port` as written: the loop runs to
      the number of in-ports while indexing the out-ports. */
  method GetMidiOutPortAsWritten(numInPorts: nat, outs: seq<CarlaPort>) returns (r: Scan)
    ensures r == ScanOutPorts(outs, numInPorts, 0)
  {
    var i := 0;
    while i < numInPorts
      invariant 0 <= i <= numInPorts
      invariant ScanOutPorts(outs, numInPorts, i) == ScanOutPorts(outs, numInPorts, 0)
    {
      if i >= |outs| {
        return ReadPastEnd(i);
      }
      if IsMidiPort(outs[i]) {
        return Found(i);
      }
      i := i + 1;
    }
    return NotFound;
  }

  /** With more in-ports than out-ports and no MIDI out-port in front, the
      scan reads past the out-ports; with fewer in-ports than out-ports a
      MIDI out-port after them is missed. */
  lemma MidiOutPortBound()
    ensures var audio := CarlaPort(TypeAudio, false, 0, []);
      ScanOutPorts([audio], 2, 0) == ReadPastEnd(1)
    ensures var audio := CarlaPort(TypeAudio, false, 0, []);
      var midi := CarlaPort(TypeEvent, true, 0, []);
      ScanOutPorts([audio, midi], 1, 0) == NotFound
  {
  }

  /** The corrected lookup: the loop is bounded by the number of
      out-ports, so it finds exactly the first MIDI out-port. */
  method GetMidiOutPort(outs: seq<CarlaPort>) returns (r: Scan)
    ensures !r.ReadPastEnd?
    ensures r.Found? ==> r.index < |outs| && IsMidiPort(outs[r.index])
    ensures r.Found? ==> forall j :: 0 <= j < r.index ==> !IsMidiPort(outs[j])
    ensures r.NotFound? <==> forall j :: 0 <= j < |outs| ==> !IsMidiPort(outs[j])
  {
    r := GetMidiOutPortAsWritten(|outs|, outs);
    ScanWhole(outs, 0);
  }
}
