/** Port identifiers and their resolution back to live ports
    (`port_find_from_identifier` in src/audio/port.c).

    The live project is a value here: the tracks, the channels they own and
    the plugins in their strips.  A live port is named by a `PortRef` (which
    object of the project it is), so resolving an identifier is a function
    from the project and the identifier to an optional `PortRef`. */
module PortIdentifiers {
  import opened Wrappers

  /** Signal kind.  `port_new` zero-fills the identifier, so a port made
      without a type has the first enumerator, `TypeUnknown`. */
  datatype PortType = TypeUnknown | TypeControl | TypeAudio | TypeEvent | TypeCv

  datatype PortFlow = FlowUnknown | FlowInput | FlowOutput

  /** The owner kinds; the zero-filled identifier has the first one. */
  datatype OwnerType = OwnerBackend | OwnerPlugin | OwnerTrack | OwnerPrefader | OwnerFader | OwnerSampleProcessor

  datatype PortFlag = StereoL | StereoR | PianoRollFlag | ManualPress

  datatype PortIdentifier = PortIdentifier(
    name: string,
    owner: OwnerType,
    ptype: PortType,
    flow: PortFlow,
    flags: set<PortFlag>,
    trackPos: int,
    pluginSlot: int,
    portIndex: int)

  /** Left or right half of a stereo pair. */
  datatype Side = Left | Right

  /** Which live port of the project a reference stands for. */
  datatype PortRef =
    | EngineMidiIn
    | EngineManualPress
    | EngineStereoIn(side: Side)
    | EngineStereoOut(side: Side)
    | PluginPort(track: nat, slot: nat, pflow: PortFlow, index: nat)
    | TrackMidiIn(track: nat)
    | TrackPianoRoll(track: nat)
    | TrackStereoIn(track: nat, side: Side)
    | TrackStereoOut(track: nat, side: Side)
    | FaderIn(track: nat, side: Side)
    | FaderOut(track: nat, side: Side)
    | PrefaderIn(track: nat, side: Side)
    | PrefaderOut(track: nat, side: Side)
    | SampleProcessorOut(side: Side)

  /** Port counts of a plugin instance. */
  datatype PluginInfo = PluginInfo(numInPorts: nat, numOutPorts: nat, numUnknownPorts: nat)

  /** A track: whether it has a channel, and the plugin slots of its strip. */
  datatype TrackInfo = TrackInfo(hasChannel: bool, plugins: seq<Option<PluginInfo>>)

  datatype Project = Project(tracks: seq<TrackInfo>)

  /** The channel of the track at `pos`, when both exist. */
  predicate HasChannel(p: Project, pos: int)
  {
    0 <= pos < |p.tracks| && p.tracks[pos].hasChannel
  }

  /** The plugin at `slot` of the channel of the track at `pos`, when the
      track, its channel and the plugin exist. */
  function PluginAt(p: Project, pos: int, slot: int): (r: Option<PluginInfo>)
    ensures r.Some? <==> HasChannel(p, pos) && 0 <= slot < |p.tracks[pos].plugins| && p.tracks[pos].plugins[slot].Some?
    ensures r.Some? ==> r == p.tracks[pos].plugins[slot]
  {
    if HasChannel(p, pos) && 0 <= slot < |p.tracks[pos].plugins| then p.tracks[pos].plugins[slot] else None
  }

  /** The side a stereo flag set selects; the left flag is tested first. */
  function SideOf(flags: set<PortFlag>): Option<Side>
  {
    if StereoL in flags then Some(Left) else if StereoR in flags then Some(Right) else None
  }

  /** Number of ports a plugin has in the given direction. */
  function PortsInFlow(pl: PluginInfo, flow: PortFlow): nat
  {
    match flow
    case FlowInput => pl.numInPorts
    case FlowOutput => pl.numOutPorts
    case FlowUnknown => pl.numUnknownPorts
  }

  /** The resolution as the source writes it: for fader and prefader INPUT
      ports both the left and the right flag select the right sub-port.
      Where the source reaches `g_return_val_if_reached`, or would index
      past a track, channel, plugin or port that does not exist (it does not
      check and would crash there), the result is `None`. */
  function FindFromIdentifierAsWritten(p: Project, id: PortIdentifier): (r: Option<PortRef>)
    ensures (id.owner == OwnerFader && id.flow == FlowInput && HasChannel(p, id.trackPos) && SideOf(id.flags).Some?)
              ==> r == Some(FaderIn(id.trackPos, Right))
    ensures (id.owner == OwnerPrefader && id.flow == FlowInput && HasChannel(p, id.trackPos) && SideOf(id.flags).Some?)
              ==> r == Some(PrefaderIn(id.trackPos, Right))
    ensures id.owner !in {OwnerFader, OwnerPrefader} || id.flow != FlowInput ==> r == FindFromIdentifier(p, id)
  {
    match id.owner
    case OwnerFader =>
      if !HasChannel(p, id.trackPos) || SideOf(id.flags).None? then None
      else if id.flow == FlowOutput then Some(FaderOut(id.trackPos, SideOf(id.flags).value))
      else if id.flow == FlowInput then Some(FaderIn(id.trackPos, Right))
      else None
    case OwnerPrefader =>
      if !HasChannel(p, id.trackPos) || SideOf(id.flags).None? then None
      else if id.flow == FlowOutput then Some(PrefaderOut(id.trackPos, SideOf(id.flags).value))
      else if id.flow == FlowInput then Some(PrefaderIn(id.trackPos, Right))
      else None
    case _ => FindFromIdentifier(p, id)
  }

  /** The resolution with the left/right lookups symmetric for every owner. */
  function FindFromIdentifier(p: Project, id: PortIdentifier): Option<PortRef>
  {
    match id.owner
    case OwnerBackend =>
      if id.ptype == TypeEvent then
        if id.flow == FlowInput then
          Some(if ManualPress in id.flags then EngineManualPress else EngineMidiIn)
        else None
      else if id.ptype == TypeAudio && SideOf(id.flags).Some? then
        if id.flow == FlowOutput then Some(EngineStereoOut(SideOf(id.flags).value))
        else if id.flow == FlowInput then Some(EngineStereoIn(SideOf(id.flags).value))
        else None
      else None
    case OwnerPlugin =>
      var pl := PluginAt(p, id.trackPos, id.pluginSlot);
      if pl.None? || !(0 <= id.portIndex < PortsInFlow(pl.value, id.flow)) then None
      else Some(PluginPort(id.trackPos, id.pluginSlot, id.flow, id.portIndex))
    case OwnerTrack =>
      if !HasChannel(p, id.trackPos) then None
      else if id.ptype == TypeEvent then
        if id.flow == FlowInput then
          Some(if PianoRollFlag in id.flags then TrackPianoRoll(id.trackPos) else TrackMidiIn(id.trackPos))
        else None
      else if id.ptype == TypeAudio && SideOf(id.flags).Some? then
        if id.flow == FlowOutput then Some(TrackStereoOut(id.trackPos, SideOf(id.flags).value))
        else if id.flow == FlowInput then Some(TrackStereoIn(id.trackPos, SideOf(id.flags).value))
        else None
      else None
    case OwnerFader =>
      if !HasChannel(p, id.trackPos) || SideOf(id.flags).None? then None
      else if id.flow == FlowOutput then Some(FaderOut(id.trackPos, SideOf(id.flags).value))
      else if id.flow == FlowInput then Some(FaderIn(id.trackPos, SideOf(id.flags).value))
      else None
    case OwnerPrefader =>
      if !HasChannel(p, id.trackPos) || SideOf(id.flags).None? then None
      else if id.flow == FlowOutput then Some(PrefaderOut(id.trackPos, SideOf(id.flags).value))
      else if id.flow == FlowInput then Some(PrefaderIn(id.trackPos, SideOf(id.flags).value))
      else None
    case OwnerSampleProcessor =>
      if SideOf(id.flags).None? then None else Some(SampleProcessorOut(SideOf(id.flags).value))
  }

  function FlagOf(side: Side): PortFlag
  {
    if side == Left then StereoL else StereoR
  }

  /** The identifier the owner setters and the port constructors give the
      live port `r` (the label plays no part in the lookup). */
  function IdentifierOf(r: PortRef, name: string): PortIdentifier
  {
    match r
    case EngineMidiIn => PortIdentifier(name, OwnerBackend, TypeEvent, FlowInput, {}, -1, -1, 0)
    case EngineManualPress => PortIdentifier(name, OwnerBackend, TypeEvent, FlowInput, {ManualPress}, -1, -1, 0)
    case EngineStereoIn(s) => PortIdentifier(name, OwnerBackend, TypeAudio, FlowInput, {FlagOf(s)}, -1, -1, 0)
    case EngineStereoOut(s) => PortIdentifier(name, OwnerBackend, TypeAudio, FlowOutput, {FlagOf(s)}, -1, -1, 0)
    case PluginPort(t, sl, f, i) => PortIdentifier(name, OwnerPlugin, TypeUnknown, f, {}, t, sl, i)
    case TrackMidiIn(t) => PortIdentifier(name, OwnerTrack, TypeEvent, FlowInput, {}, t, -1, 0)
    case TrackPianoRoll(t) => PortIdentifier(name, OwnerTrack, TypeEvent, FlowInput, {PianoRollFlag}, t, -1, 0)
    case TrackStereoIn(t, s) => PortIdentifier(name, OwnerTrack, TypeAudio, FlowInput, {FlagOf(s)}, t, -1, 0)
    case TrackStereoOut(t, s) => PortIdentifier(name, OwnerTrack, TypeAudio, FlowOutput, {FlagOf(s)}, t, -1, 0)
    case FaderIn(t, s) => PortIdentifier(name, OwnerFader, TypeAudio, FlowInput, {FlagOf(s)}, t, -1, 0)
    case FaderOut(t, s) => PortIdentifier(name, OwnerFader, TypeAudio, FlowOutput, {FlagOf(s)}, t, -1, 0)
    case PrefaderIn(t, s) => PortIdentifier(name, OwnerPrefader, TypeAudio, FlowInput, {FlagOf(s)}, t, -1, 0)
    case PrefaderOut(t, s) => PortIdentifier(name, OwnerPrefader, TypeAudio, FlowOutput, {FlagOf(s)}, t, -1, 0)
    case SampleProcessorOut(s) => PortIdentifier(name, OwnerSampleProcessor, TypeAudio, FlowOutput, {FlagOf(s)}, -1, -1, 0)
  }

  /** Whether `r` names a port that exists in the project. */
  predicate Exists(p: Project, r: PortRef)
  {
    match r
    case PluginPort(t, sl, f, i) =>
      var pl := PluginAt(p, t, sl);
      pl.Some? && i < PortsInFlow(pl.value, f)
    case TrackMidiIn(t) => HasChannel(p, t)
    case TrackPianoRoll(t) => HasChannel(p, t)
    case TrackStereoIn(t, _) => HasChannel(p, t)
    case TrackStereoOut(t, _) => HasChannel(p, t)
    case FaderIn(t, _) => HasChannel(p, t)
    case FaderOut(t, _) => HasChannel(p, t)
    case PrefaderIn(t, _) => HasChannel(p, t)
    case PrefaderOut(t, _) => HasChannel(p, t)
    case _ => true
  }

  /** Persisting a live port's identifier and resolving it again gives the
      same port back, for every port of the project. */
  lemma {:induction false} FindFromIdentifierRoundTrip(p: Project, r: PortRef, name: string)
    requires Exists(p, r)
    ensures FindFromIdentifier(p, IdentifierOf(r, name)) == Some(r)
  {
    match r
    case EngineStereoIn(s) => assert SideOf({FlagOf(s)}) == Some(s);
    case EngineStereoOut(s) => assert SideOf({FlagOf(s)}) == Some(s);
    case TrackStereoIn(_, s) => assert SideOf({FlagOf(s)}) == Some(s);
    case TrackStereoOut(_, s) => assert SideOf({FlagOf(s)}) == Some(s);
    case FaderIn(_, s) => assert SideOf({FlagOf(s)}) == Some(s);
    case FaderOut(_, s) => assert SideOf({FlagOf(s)}) == Some(s);
    case PrefaderIn(_, s) => assert SideOf({FlagOf(s)}) == Some(s);
    case PrefaderOut(_, s) => assert SideOf({FlagOf(s)}) == Some(s);
    case SampleProcessorOut(s) => assert SideOf({FlagOf(s)}) == Some(s);
    case _ =>
  }

  /** Two distinct live ports never share an identifier (up to the label). */
  lemma FindFromIdentifierInjective(p: Project, r1: PortRef, r2: PortRef, l1: string, l2: string)
    requires Exists(p, r1) && Exists(p, r2)
    requires IdentifierOf(r1, l1).(name := "") == IdentifierOf(r2, l2).(name := "")
    ensures r1 == r2
  {
    FindFromIdentifierRoundTrip(p, r1, l1);
    FindFromIdentifierRoundTrip(p, r2, l2);
    assert IdentifierOf(r1, l1) == IdentifierOf(r2, l2).(name := l1);
    assert FindFromIdentifier(p, IdentifierOf(r2, l2).(name := l1)) == FindFromIdentifier(p, IdentifierOf(r2, l2));
  }

  /** The fader's left input, persisted and resolved as the source does it,
      comes back as the fader's right input. */
  lemma FaderInputLeftResolvesToRight(p: Project, t: nat, name: string)
    requires HasChannel(p, t)
    ensures FindFromIdentifierAsWritten(p, IdentifierOf(FaderIn(t, Left), name)) == Some(FaderIn(t, Right))
    ensures FindFromIdentifierAsWritten(p, IdentifierOf(PrefaderIn(t, Left), name)) == Some(PrefaderIn(t, Right))
    ensures FindFromIdentifier(p, IdentifierOf(FaderIn(t, Left), name)) == Some(FaderIn(t, Left))
  {
    assert SideOf({StereoL}) == Some(Left);
    FindFromIdentifierRoundTrip(p, FaderIn(t, Left), name);
  }

  /** The owners a port can be given after creation, with the positions
      the owner setters copy into the identifier. */
  datatype Owner =
    | ByPlugin(track: nat, slot: nat)
    | BySampleProcessor
    | ByTrack(track: nat)
    | ByFader(track: nat)
    | ByPrefader(track: nat)

  /** The identifier `port_new_with_type` gives a new port: backend-owned,
      no flags, unset track position and plugin slot. */
  function NewIdentifier(ptype: PortType, flow: PortFlow, name: string): PortIdentifier
  {
    PortIdentifier(name, OwnerBackend, ptype, flow, {}, -1, -1, 0)
  }

  /** The identifier after the owner setter for `o`: the owner kind and the
      positions the setter copies change, every other field stays. */
  function Owned(id: PortIdentifier, o: Owner): PortIdentifier
  {
    match o
    case ByPlugin(t, sl) => id.(owner := OwnerPlugin, trackPos := t, pluginSlot := sl)
    case BySampleProcessor => id.(owner := OwnerSampleProcessor)
    case ByTrack(t) => id.(owner := OwnerTrack, trackPos := t)
    case ByFader(t) => id.(owner := OwnerFader, trackPos := t)
    case ByPrefader(t) => id.(owner := OwnerPrefader, trackPos := t)
  }

  /** The owner setter the project calls for the live port `r`; engine
      ports keep the backend owner. */
  function OwnerOf(r: PortRef): Option<Owner>
  {
    match r
    case PluginPort(t, sl, _, _) => Some(ByPlugin(t, sl))
    case TrackMidiIn(t) => Some(ByTrack(t))
    case TrackPianoRoll(t) => Some(ByTrack(t))
    case TrackStereoIn(t, _) => Some(ByTrack(t))
    case TrackStereoOut(t, _) => Some(ByTrack(t))
    case FaderIn(t, _) => Some(ByFader(t))
    case FaderOut(t, _) => Some(ByFader(t))
    case PrefaderIn(t, _) => Some(ByPrefader(t))
    case PrefaderOut(t, _) => Some(ByPrefader(t))
    case SampleProcessorOut(_) => Some(BySampleProcessor)
    case _ => None
  }

  /** A port created with `port_new_with_type`, given its side flag and
      index, and then handed to the owner setter for its place, carries
      exactly the identifier of that place and so resolves back to it. */
  lemma {:induction false} OwnerSetterResolves(p: Project, r: PortRef, name: string)
    requires Exists(p, r)
    ensures var id := IdentifierOf(r, name);
      var created := NewIdentifier(id.ptype, id.flow, name).(flags := id.flags, portIndex := id.portIndex);
      var owned := if OwnerOf(r).Some? then Owned(created, OwnerOf(r).value) else created;
      owned == id && FindFromIdentifier(p, owned) == Some(r)
  {
    FindFromIdentifierRoundTrip(p, r, name);
  }
}
