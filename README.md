# Zrythm audio core: ports, recording and plugin bookkeeping

This project models in Dafny the bookkeeping at the centre of the Zrythm
digital audio workstation and proves properties of it:

- **Ports** (`src/audio/port.c`). A port keeps fixed arrays of source and
  destination ports. Beside the destinations it keeps parallel arrays of
  identifiers, multipliers, locked flags and enabled flags. The model covers:
  - connecting and disconnecting two ports, which keeps both ends mirrored;
  - disconnecting everything from a port;
  - the per-cycle signal work: clearing a buffer, the fader gain, and summing
    the sources into an audio, event or control port;
  - resolving a persisted port identifier back to a live port, and the owner
    setters that write those identifiers.

  `Port` is a class over arrays, so its methods shift and append in place.
  The graph-wide consistency lemmas work on an adjacency map.
- **Recording** (`src/audio/recording_manager.c`). Each processing cycle a
  producer decides, from the transport, arm, punch and loop flags, which
  start, split, stop and material events to queue. A consumer drains the
  queue in order, opening regions, growing them, writing their clips and
  handing record actions to the undo history. The queue and the event pool
  are fields of the `RecordingManager` class. The consumer's effect is the
  pure state machine `RecordingState.Step`.
- **Plugin manager** (`src/plugins/plugin_manager.c`). The model covers:
  - the category and author lists;
  - the name comparator used for sorting;
  - the LV2 URI node cache;
  - protocol support;
  - lookups by URI and for the first instrument;
  - merging cached descriptors without duplicates.
- **Carla wrapper** (`src/plugins/carla_native_plugin.c`). The model covers:
  - the protocol and category mappings;
  - the choice of audio buffers handed to the plugin;
  - MIDI event windowing, capped at 4000 events;
  - the lookups of a control port by parameter id and of the MIDI output port;
  - the host buffer size;
  - the UI-visibility callback.
- **Chord preset packs** (`src/settings/chord_preset_pack_manager.c`). The
  model covers:
  - the schema-version header test;
  - the standard pack;
  - loading user packs, with the `presets_size` default;
  - adding and deleting packs and presets;
  - which packs are serialized.

Frames and positions are integers, samples are reals, and strings are
sequences of characters. A C function returning a pointer or NULL returns an
`Option` here.

## Model

| member | source | states |
|---|---|---|
| PortIdentifiers.PluginAt | src/audio/port.c:154-176 | a plugin is found only at an existing track position that has a channel, and at a filled strip slot there |
| PortIdentifiers.FindFromIdentifierAsWritten | src/audio/port.c:108-270 | the lookup as written: fader and prefader input identifiers with either stereo flag resolve to the right channel; every other identifier resolves as in the symmetric lookup |
| PortIdentifiers.FindFromIdentifierRoundTrip | src/audio/port.c:108-270 | every live port's identifier resolves back to that same port (symmetric lookup) |
| PortIdentifiers.FindFromIdentifierInjective | src/audio/port.c:108-270 | two live ports never share an identifier, apart from the label |
| PortIdentifiers.FaderInputLeftResolvesToRight | src/audio/port.c:217-259 | the persisted left fader and prefader inputs come back as the right inputs as written, and as the left input once corrected |
| PortIdentifiers.OwnerSetterResolves | src/audio/port.c:285-320 | a port made by `port_new_with_type` and given its owner by the matching setter carries exactly the identifier of its place, and so resolves back to it |
| Ports.Port.constructor | src/audio/port.c:285-320 | a new port has a zero-filled block-length buffer, no edges, empty events, and a backend-owned identifier of the given type, flow and label; whether it wraps an LV2 port is fixed at construction |
| Ports.Port.SetOwnerPlugin | src/audio/port.c:445-457 | the identifier becomes plugin-owned at the track position and slot; nothing else changes |
| Ports.Port.SetOwnerSampleProcessor | src/audio/port.c:463-470 | only the owner kind changes |
| Ports.Port.SetOwnerTrack | src/audio/port.c:476-486 | the identifier becomes track-owned at that track position |
| Ports.Port.SetOwnerFader | src/audio/port.c:492-503 | the identifier becomes fader-owned at that track position |
| Ports.Port.SetOwnerPrefader | src/audio/port.c:509-520 | the identifier becomes prefader-owned at that track position |
| Ports.RemoveFirstNoDup | src/audio/port.c:601-648 | removing the first occurrence of a port from a list without repeats keeps it without repeats and drops exactly that port |
| Ports.AppendNoDup | src/audio/port.c:565-577 | appending an absent port keeps a list without repeats |
| Ports.DisconnectMembership | src/audio/port.c:601-648 | after disconnecting, the destinations of `src` are the old ones minus `dest`, and the sources of `dest` are the old ones minus `src` |
| Ports.Odds | src/audio/port.c:667-684 | the list a forward delete-while-walking loop leaves: half as long, holding the odd-positioned elements |
| Ports.OddsStep | src/audio/port.c:667-684 | one round of the forward loop removes position `i` of the partly thinned list |
| Ports.ThinnedLength | src/audio/port.c:667-684 | the length of the list after `i` rounds of the forward loop |
| Ports.ThinnedDone | src/audio/port.c:667-684 | once the index passes the end of the list, what remains is exactly the odd-positioned edges |
| Ports.OddsKeepsSecond | src/audio/port.c:667-684 | with two or more edges, the forward loop leaves the second edge connected |
| Ports.DisconnectClosed | src/audio/port.c:601-648 | disconnecting keeps every edge among the ports |
| Ports.DisconnectMirrored | src/audio/port.c:601-648 | disconnecting keeps destination and source lists mirrored |
| Ports.DisconnectWellFormed | src/audio/port.c:601-648 | disconnecting keeps the graph closed, mirrored and without repeats, and leaves no edge between the pair |
| Ports.AddEdgeAt | src/audio/port.c:565-577 | appending an edge adds exactly that pair to the source's destinations and to the destination's sources |
| Ports.AddEdgeClosed | src/audio/port.c:565-577 | appending an edge keeps the graph closed |
| Ports.AddEdgeDistinct | src/audio/port.c:565-577 | appending a missing edge keeps the lists without repeats |
| Ports.AddEdgeMirrored | src/audio/port.c:565-577 | appending an edge keeps the lists mirrored |
| Ports.AddEdgeWellFormed | src/audio/port.c:565-577 | appending a missing edge keeps the graph well formed |
| Ports.ConnectWellFormed | src/audio/port.c:549-595 | connecting keeps the graph well formed. The edge exists afterwards exactly when connect succeeded. Reconnecting an existing pair never duplicates the edge, and a new edge adds exactly one entry |
| Ports.FindPort | src/audio/port.c:601-612 | the search finds the first position of the port among the used entries, or -1 |
| Ports.ShiftDown | src/audio/port.c:612-622 | the used entries become the old ones without position `pos`; the rest of the array is untouched |
| Ports.RemoveDestAsWritten | src/audio/port.c:601-623 | the destination half as written: ports and identifiers lose the first `dest` entry, but multipliers, locked and enabled flags are only truncated, not shifted |
| Ports.RemoveSrc | src/audio/port.c:626-642 | the sources and source identifiers of `dest` lose the first `src` entry, and the count drops by one exactly when it was present |
| Ports.RemoveDest | src/audio/port.c:601-623 | the destination half with every parallel array shifted together |
| Ports.DisconnectAsWritten | src/audio/port.c:601-648 | `port_disconnect` as written: both halves, with the destination flags not shifted |
| Ports.LockAfterDisconnectAsWritten | src/audio/port.c:601-623 | as written, a locked first edge's flag passes to the unlocked edge after it |
| Ports.LockAfterDisconnect | src/audio/port.c:601-623 | with all parallel arrays shifted, the remaining edge keeps its own unlocked flag |
| Ports.Disconnect | src/audio/port.c:601-648 | removes `dest` from `src`'s destinations (with identifier, multiplier, lock and enabled flag) and `src` from `dest`'s sources, keeping the order of the remaining edges; a no-op when not connected |
| Ports.AppendDest | src/audio/port.c:565-572 | `dest` appended last with its identifier, multiplier 1, the given lock and enabled set |
| Ports.AppendSrc | src/audio/port.c:573-577 | `src` appended last to the sources with its identifier |
| Ports.Attach | src/audio/port.c:565-589 | both appends; a CV source driving a control port that wraps an LV2 port captures the control's value as the modulation base, and any other pair leaves the base alone |
| Ports.Connect | src/audio/port.c:549-595 | `port_connect` on the corrected disconnect. It returns -1 exactly when the types differ and the pair is not CV into control. The pair is always disconnected first, so a failed connect also removes an existing edge, and the other edges keep their own multipliers and flags. On success both appends happen and an LV2 control's base value is captured |
| Ports.ConnectAsWritten | src/audio/port.c:549-595 | `port_connect` as written, on `port_disconnect` as written: the lists lose the old edge and gain the new one last, while the multipliers and flags are only truncated before the new entry |
| Ports.ReconnectAsWritten | src/audio/port.c:556 | as written, reconnecting the first of two destinations hands its multiplier 0.5 and locked flag to the other destination |
| Ports.Reconnect | src/audio/port.c:556 | with the corrected disconnect, the other destination keeps its own multiplier 1 and unlocked flag |
| Ports.DetachSource | src/audio/port.c:601-648 | disconnecting a source removes it from the port's source list and the port from the source's destinations, and leaves every other list alone. As written, the source's multiplier and flag arrays are untouched; corrected, they lose the same position as its destination list |
| Ports.DetachDest | src/audio/port.c:601-648 | disconnecting a destination removes it from the port's destination list and the port from the destination's sources, and leaves every other list alone. As written, the port's multiplier and flag arrays are untouched; corrected, they lose the same position as its destination list |
| Ports.FlagsOutside | src/audio/port.c:667-684 | a port separate from its neighbours owns multiplier and flag arrays that no neighbour's disconnect can write |
| Ports.DroppedMembers | src/audio/port.c:601-648 | after dropping a port from a list without repeats, it is in the list exactly when it was there and was not dropped |
| Ports.OddsSubset | src/audio/port.c:667-684 | every edge the forward loop leaves was an edge before |
| Ports.StageStart | src/audio/port.c:667-684 | before the loops, every neighbour's lists are their own snapshot with nothing dropped |
| Ports.StageLists | src/audio/port.c:667-684 | at any point of the loops, a neighbour has lost `port` from its destinations exactly when it was a source and is no longer one, and likewise for its sources |
| Ports.StageDone | src/audio/port.c:667-684 | once both lists of the port are empty, every neighbour that was a source or destination has lost `port` |
| Ports.DroppedAgrees | src/audio/port.c:601-684 | for a neighbour whose lists mirrored the port's, `port` stays in its list exactly when the neighbour stays in the port's list |
| Ports.DropSourceAt | src/audio/port.c:667-675 | one forward step removes exactly position `i` of the source list; that source loses `port` from its destinations and every other neighbour keeps its lists |
| Ports.DropDestAt | src/audio/port.c:676-684 | one forward step removes exactly position `i` of the destination list; that destination loses `port` from its sources and every other neighbour keeps its lists. As written, the port's multiplier and flag arrays stay as they were |
| Ports.DropSources | src/audio/port.c:667-675 | removing the first source until none is left empties the sources, and every former source has lost `port` |
| Ports.DropDests | src/audio/port.c:676-684 | removing the first destination until none is left empties the destinations, and every former destination has lost `port` |
| Ports.ThinSources | src/audio/port.c:667-675 | the source loop as written leaves exactly the odd-positioned sources, and exactly the removed ones lose `port` |
| Ports.ThinDests | src/audio/port.c:676-684 | the destination loop as written leaves exactly the odd-positioned destinations, and exactly the removed ones lose `port`. The port's multiplier and flag arrays are never shifted, so the remaining destinations read the flags of the slots they moved into |
| Ports.DisconnectAllAsWritten | src/audio/port.c:667-684 | `port_disconnect_all` as written leaves the odd-positioned sources and destinations connected. A neighbour loses `port` exactly when it lost its edge to `port`, other lists are unchanged, and every neighbour that mirrored the port still mirrors it. The port's multiplier and flag arrays are left exactly as they were |
| Ports.DisconnectAll | src/audio/port.c:667-684 | with the loops always removing the first edge, the port ends with no sources and no destinations. Every former source and destination loses `port`, other lists are unchanged, and no neighbour that mirrored the port still lists it |
| Ports.PortsConnected | src/audio/port.c:654-661 | true exactly when `dest` is among the destinations of `src` |
| Ports.ConnectionWarnings | src/audio/port.c:703-705 | the connection check of `ports_remove` warns once for remaining sources and once for remaining destinations; no warning exactly when the port is unconnected |
| Ports.PortsRemove | src/audio/port.c:691-712 | every port is handed to the deferred free; the warnings its own checks raise are the total over the ports, and none exactly when every port was disconnected |
| PortSignals.ColumnAppend | src/audio/port.c:980-992 | the sum of one frame over two groups of sources is the sum of the two groups' sums |
| PortSignals.ColumnRemove | src/audio/port.c:980-992 | taking one source out of the list takes its sample out of the frame's sum |
| PortSignals.DropMatching | src/audio/port.c:980-992 | removing matching elements from two permutations keeps them permutations |
| PortSignals.ColumnPermutation | src/audio/port.c:980-992 | the sum of a frame does not depend on the order of the sources |
| PortSignals.MixedOrderIrrelevant | src/audio/port.c:967-996 | mixing the same sources in another order gives the same buffer |
| PortSignals.SliceAfterStartMixesNothing | src/audio/port.c:977-992 | with loop bound `nframes`, a slice starting at frame 1 of length 1 mixes nothing; with bound `start + nframes` it mixes its frame |
| PortSignals.FadedTwice | src/audio/port.c:722-734 | two fader passes with gains a and b are one pass with gain a * b |
| PortSignals.FadedUnity | src/audio/port.c:722-734 | unity gain leaves the buffer unchanged |
| PortSignals.GatheredMembership | src/audio/port.c:928-966 | an event is gathered exactly when some source's window holds it |
| PortSignals.GatheredLength | src/audio/port.c:928-966 | the number of gathered events is the total over the sources' windows |
| PortSignals.TotalSplit | src/audio/port.c:928-966 | the total over the sources is the first source's window plus the total over the rest |
| PortSignals.ModulatedStep | src/audio/port.c:997-1046 | each further input adds one step: the first CV input starts from the base value, later ones from the current control, and non-CV inputs change nothing |
| PortSignals.ModulatedInRange | src/audio/port.c:997-1046 | without CV inputs the control value is unchanged; with any CV input and `minf <= maxf` it lies in [minf, maxf] |
| PortSignals.CvOnlyNoCv | src/audio/port.c:997-1046 | filtering out non-CV inputs keeps whether there is any CV input |
| PortSignals.ModulatedIgnoresOthers | src/audio/port.c:997-1046 | non-CV sources play no part in the control value |
| PortSignals.FirstCvUsesBase | src/audio/port.c:1019-1042 | a single CV input modulates the base value, not the stored control: clamp(base + (maxf - minf) / 2 * sample * multiplier) |
| PortSignals.ZeroRange | src/audio/port.c:1171-1187 | frames [lo, hi) become silence and the others are kept |
| PortSignals.ClearBuffer | src/audio/port.c:1171-1187 | an audio port's whole buffer is silenced; an event port loses its events and keeps its samples; control and CV ports are unchanged |
| PortSignals.ApplyFader | src/audio/port.c:722-734 | frames [start, start + nframes) are scaled by the gain, the rest kept |
| PortSignals.AddInto | src/audio/port.c:980-992 | each frame in [lo, hi) gains the source sample; other frames are kept |
| PortSignals.MixRange | src/audio/port.c:977-992 | after the loops every frame in the range holds its old value plus every source's sample, in source order |
| PortSignals.SumAudioAsWritten | src/audio/port.c:967-996 | the audio branch as written zeroes or mixes frames from `start` up to `nframes`, not `start + nframes` |
| PortSignals.SumAudio | src/audio/port.c:967-996 | with `noroll` the slice is silenced, otherwise every source is mixed into it |
| PortSignals.SumEvents | src/audio/port.c:928-966 | with `noroll` nothing changes. Otherwise each source's windowed events are appended in source order, and a track port's activity flag is raised when events are present |
| PortSignals.CvValue | src/audio/port.c:1007-1042 | one CV source gives the clamped modulated value, inside [minf, maxf] when the range is ordered |
| PortSignals.ControlStep | src/audio/port.c:1003-1044 | one pass of the control loop advances the value and the first-CV flag by one input |
| PortSignals.ControlFromSources | src/audio/port.c:997-1046 | the loop's value is the modulation of the base value by the sources in order |
| PortSignals.SumControl | src/audio/port.c:997-1046 | the control branch stores that value in the port's control |
| RecordingEvents.MidiEvents | src/audio/recording_manager.c:396-415 | one MIDI material event per message, in message order |
| RecordingEvents.LanesOnlyAutomation | src/audio/recording_manager.c:293-384 | the lanes queue only automation events |
| RecordingEvents.LanesMembership | src/audio/recording_manager.c:293-384 | an event of the lane list comes from one of the lanes, and each lane's events are in it |
| RecordingEvents.StoppedTrackSendsNoMaterial | src/audio/recording_manager.c:211-250 | a track that does not record this cycle queues no material. It queues a stop exactly when the cycle fits the block, its type can record and a region is open |
| RecordingEvents.RecordingTrackSplitsOrStarts | src/audio/recording_manager.c:254-290 | a recording track queues a split exactly when the cycle reaches the loop end with a region open, and a start exactly when no region is open. It never queues both, and never a stop |
| RecordingEvents.PianoRollMaterial | src/audio/recording_manager.c:391-432 | a recording piano-roll track queues one MIDI event per message, or one event without a message when there are none |
| RecordingEvents.AudioTrackMaterial | src/audio/recording_manager.c:433-456 | a recording audio track queues exactly one audio event carrying both input channels |
| RecordingEvents.LaneEvents | src/audio/recording_manager.c:293-384 | a lane queues material exactly when it records and does not split, a stop exactly when it started and no longer records, a split exactly when it records and splits, and a start exactly when it records but had not started |
| RecordingEvents.ProducedComplete | src/audio/recording_manager.c:433-456 | given block-sized inputs, every queued audio event's buffers cover its slice |
| RecordingState.AddToLane | src/audio/recording_manager.c:1273-1305 | one more region in the lane, the lane list grown with empty lanes when needed |
| RecordingState.Resized | src/audio/recording_manager.c:497-506 | a reallocated clip has the new length, keeps its old samples and reads zero beyond them |
| RecordingState.Interleaved | src/audio/recording_manager.c:535-555 | writing samples keeps the clip's length and every frame outside the event. Inside it, the even slot takes the left sample and the odd slot the right sample, where the event's buffers reach |
| RecordingState.RightOnly | src/audio/recording_manager.c:800-819 | the split-path copy as written keeps the clip's length and every odd slot; the even slot of each copied frame takes the right sample |
| RecordingState.CloseAll | src/audio/recording_manager.c:729-739 | every open note of a split MIDI region is ended |
| RecordingState.RejectedCount | src/audio/recording_manager.c:1325-1329 | at most every event is rejected; none is counted exactly when no event is rejected, and all exactly when every event is |
| RecordingState.DrainAppend | src/audio/recording_manager.c:1316-1421 | draining `a` and then `b` is draining `a + b`: the consumer handles events strictly in queue order |
| RecordingState.SelectedMembers | src/audio/recording_manager.c:94-102 | a stop selects exactly the recorded regions of its kind (automation or not), in recorded order |
| RecordingState.StartKeepsIdsWhileRecording | src/audio/recording_manager.c:1384-1392 | a track start sets recording; the recorded identifiers are reset only when no recording was in progress, and at most one is added |
| RecordingState.RepeatedStartIgnored | src/audio/recording_manager.c:1213-1219 | a start for a track that already has a region changes only the manager's flag and, when idle, its identifiers |
| RecordingState.StartOpensRegion | src/audio/recording_manager.c:1189-1308 | a first start opens a region in the last lane with the next index there, and records its identifier last. The region starts at the event or, on a loop wrap, at the loop start. A MIDI region's end moves to `(end - loop end) + loop start` on a wrap. An audio region's clip holds `nframes` stereo frames |
| RecordingState.FirstOpen | src/audio/recording_manager.c:1032-1043 | the position of an open note of the pitch with no open note of that pitch before it, or -1 when there is none |
| RecordingState.CloseNoteFirst | src/audio/recording_manager.c:1032-1043 | ending a note ends exactly the first open note of the pitch and keeps every other note |
| RecordingState.MidiEventRecorded | src/audio/recording_manager.c:963-1049 | a MIDI event without an open region changes nothing. Otherwise only the open region changes: its end and loop end become the event's end. A note-on adds one open note over the event, a note-off ends the first open note of its pitch at the event's end, and anything else keeps the notes |
| RecordingState.AudioEventLayout | src/audio/recording_manager.c:460-556 | after an audio event the region ends at the event's end and the clip holds exactly that many stereo frames. Each frame's left sample sits in the even slot and its right sample in the odd slot. Earlier frames are kept |
| RecordingState.SplitReopens | src/audio/recording_manager.c:681-823 | a split ends the region at the loop end, with its loop end set relative to its start. It opens the next region at the loop start one lane down, as the track's recording region and the last recorded identifier. A split MIDI region keeps no open note |
| RecordingState.StopTrackHandsOneAction | src/audio/recording_manager.c:1355-1368 | a track stop ends recording and the track's region. It hands one record action with the selected regions exactly when recording was in progress and every region exists |
| RecordingState.StopAutomationEndsLane | src/audio/recording_manager.c:1369-1383 | an automation stop hands an action only for a lane that had started, and leaves the lane stopped without a region |
| RecordingState.StartAutomationMarksLane | src/audio/recording_manager.c:1393-1407 | an automation start marks the lane started; a repeated start changes nothing |
| RecordingManagers.WriteSamples | src/audio/recording_manager.c:535-555 | the audio handler's copy loop writes the interleaved stereo layout |
| RecordingManagers.CopyBeforeLoopAsWritten | src/audio/recording_manager.c:800-819 | the split-path copy as written stores both channels in the left slot, the right sample last |
| RecordingManagers.SplitCopyLosesLeft | src/audio/recording_manager.c:800-819 | for one stereo frame (1, 2) the copy as written gives [2, 0] where the interleaved layout gives [1, 2] |
| RecordingManagers.SelectRecorded | src/audio/recording_manager.c:94-134 | the scan succeeds exactly when every selected region exists, and then selects exactly the recorded regions of the stop's kind |
| RecordingManagers.OneRejectedEvent | src/audio/recording_manager.c:1325-1329 | a single negative-type event is rejected, so it is never returned to the pool |
| RecordingManagers.RecordingManager.constructor | src/audio/recording_manager.c:1429-1448 | a full pool of 200 events, an empty queue, not recording |
| RecordingManagers.RecordingManager.Push | src/audio/recording_manager.c:195-457 | an event is queued last exactly when the pool has a free one; pool plus queue is conserved |
| RecordingManagers.RecordingManager.Send | src/audio/recording_manager.c:195-457 | one more send keeps "the first sends that fit in the pool are queued in order" |
| RecordingManagers.RecordingManager.SendLane | src/audio/recording_manager.c:293-384 | a lane's events are sent in the producer's order |
| RecordingManagers.RecordingManager.SendTrack | src/audio/recording_manager.c:228-291 | the track's start, split or stop event is sent; the stop flag is set exactly when the track does not record |
| RecordingManagers.RecordingManager.SendMaterial | src/audio/recording_manager.c:389-456 | the track's material is sent in order |
| RecordingManagers.RecordingManager.SendLanes | src/audio/recording_manager.c:293-384 | all lanes' events are sent, lane by lane |
| RecordingManagers.RecordingManager.HandleRecording | src/audio/recording_manager.c:195-457 | the queue grows by the events the producer specification prescribes, in order, as far as the pool has room, and the pool shrinks by as many |
| RecordingManagers.RecordingManager.AddRecordedId | src/audio/recording_manager.c:48-57 | the identifier is appended to the recorded ones |
| RecordingManagers.RecordingManager.AddRegion | src/audio/recording_manager.c:1273-1305 | the region is added to its lane and becomes the track's recording region |
| RecordingManagers.RecordingManager.HandleStartRecording | src/audio/recording_manager.c:1189-1308 | the state becomes the start handler's specification of the old state |
| RecordingManagers.RecordingManager.HandleAudioEvent | src/audio/recording_manager.c:460-556 | the state becomes the audio handler's specification of the old state |
| RecordingManagers.RecordingManager.HandleMidiEvent | src/audio/recording_manager.c:964-1049 | the state becomes the MIDI handler's specification of the old state |
| RecordingManagers.RecordingManager.HandleSplitEvent | src/audio/recording_manager.c:661-823 | the state becomes the split handler's specification of the old state |
| RecordingManagers.RecordingManager.OnStopRecording | src/audio/recording_manager.c:78-179 | the state becomes the stop handler's specification of the old state |
| RecordingManagers.RecordingManager.Dispatch | src/audio/recording_manager.c:1333-1412 | one event is handled as the state machine's step prescribes |
| RecordingManagers.RecordingManager.EventsProcessAsWritten | src/audio/recording_manager.c:1316-1421 | as written the queue is drained in order, but the pool gets back only the events that were not rejected |
| RecordingManagers.RecordingManager.EventsProcess | src/audio/recording_manager.c:1316-1421 | the queue is drained in order and every event returns to the pool, so a conserved manager ends with a full pool |
| PluginManagers.StrCmpZero | src/plugins/plugin_manager.c:126-140 | `strcmp` is 0 exactly for identical names |
| PluginManagers.StrCmpFlip | src/plugins/plugin_manager.c:126-140 | swapping the arguments of `strcmp` negates it |
| PluginManagers.StrCmpTrans | src/plugins/plugin_manager.c:126-140 | `strcmp` orders names transitively |
| PluginManagers.StrCmpPrefix | src/plugins/plugin_manager.c:126-140 | a common prefix does not change the outcome of `strcmp` |
| PluginManagers.SortPluginFuncZero | src/plugins/plugin_manager.c:126-140 | the comparator returns 0 only for identical names |
| PluginManagers.SortPluginFuncFlip | src/plugins/plugin_manager.c:126-140 | the comparator is antisymmetric |
| PluginManagers.SortPluginFuncTrans | src/plugins/plugin_manager.c:126-140 | the comparator is transitive, so sorting by it is well defined |
| PluginManagers.LowerBeforeUpper | src/plugins/plugin_manager.c:126-140 | names equal up to case, first differing in a lower-case against the same upper-case letter, sort lower case first |
| PluginManagers.LowerCaseFirst | src/plugins/plugin_manager.c:126-140 | "a" sorts before "A" and "A" after "a" |
| PluginManagers.Added | src/plugins/plugin_manager.c:87-123 | a name is appended unless it is NULL or already listed: the old list is a prefix, the list grows by at most one, and its members are the old ones plus the name |
| PluginManagers.AddedNoDup | src/plugins/plugin_manager.c:87-123 | adding keeps a list free of duplicates |
| PluginManagers.AddedIdempotent | src/plugins/plugin_manager.c:87-123 | adding twice is adding once; adding NULL or a listed name changes nothing |
| PluginManagers.Listed | src/plugins/plugin_manager.c:88-96 | the `strcmp` scan finds the name exactly when it is listed |
| PluginManagers.MergeExtends | src/plugins/plugin_manager.c:1172-1195 | the merge only appends. Every cached descriptor ends up in the list or already has the same plugin there |
| PluginManagers.MergeKeepsDistinct | src/plugins/plugin_manager.c:1172-1195 | the merge never adds the same plugin twice, and keeps the category and author lists free of duplicates |
| PluginManagers.MergeRegistersCategories | src/plugins/plugin_manager.c:1172-1195 | every added descriptor with a category has it registered |
| PluginManagers.FindSame | src/plugins/plugin_manager.c:1181-1185 | the lookup succeeds exactly when some listed descriptor is the same plugin |
| PluginManagers.SupportsProtocol | src/plugins/plugin_manager.c:1024-1073 | the answer is the protocol-support specification, including the Carla feature scan |
| PluginManagers.SupportedWithoutCarla | src/plugins/plugin_manager.c:1024-1073 | DUMMY and LV2 are always supported; without Carla nothing else is |
| PluginManagers.SupportedWithCarla | src/plugins/plugin_manager.c:1024-1073 | with Carla, LADSPA, VST, VST3, SFZ, JSFX and CLAP are supported. SF2, DSSI and AU are supported exactly when the "sf2", "osc" and "au" features are present |
| PluginManagers.PluginManager.constructor | src/plugins/plugin_manager.c:411-438 | empty descriptor, category and author lists and a node cache of size 1 |
| PluginManagers.PluginManager.AddCategoryAndAuthor | src/plugins/plugin_manager.c:74-124 | the catalogue gets the category and the author as `add_category_and_author` registers them. A NULL category stops before the author. A warning is raised exactly for a non-ASCII category, which is still added |
| PluginManagers.PluginManager.GetNode | src/plugins/plugin_manager.c:164-185 | returns the cached node for an equal URI without growing the cache; otherwise appends exactly one node, doubling the capacity when full |
| PluginManagers.PluginManager.FindPluginFromUri | src/plugins/plugin_manager.c:1623-1639 | the first descriptor with that URI, or none exactly when no descriptor has it |
| PluginManagers.PluginManager.PickInstrument | src/plugins/plugin_manager.c:1672-1685 | the first instrument, or none exactly when there is no instrument |
| PluginManagers.PluginManager.ClearPlugins | src/plugins/plugin_manager.c:1687-1699 | descriptors and categories are emptied; authors and the node cache are kept |
| PluginManagers.PluginManager.AddCachedDescriptors | src/plugins/plugin_manager.c:1172-1195 | the catalogue becomes the merge of the cached descriptors |
| CarlaNativePlugins.PluginTypeRoundTrip | src/plugins/carla_native_plugin.c:60-87 | CLAP, JSFX and DUMMY map to 0; the eight other protocols map one-to-one and back |
| CarlaNativePlugins.PluginTypeCovered | src/plugins/carla_native_plugin.c:60-87 | every nonzero Carla type comes from exactly its protocol |
| CarlaNativePlugins.CategoryMappingsAgree | src/plugins/carla_native_plugin.c:870-947 | the string mapping names the category the enum mapping picks. NONE, OTHER and unknown codes map to no category, which is named "Plugin", and nothing else is |
| CarlaNativePlugins.CategoryNamesDistinct | src/plugins/carla_native_plugin.c:910-947 | distinct categories have distinct names |
| CarlaNativePlugins.HostBufferSize | src/plugins/carla_native_plugin.c:116-126 | the block length when positive, else a positive default |
| CarlaNativePlugins.Plugin.EngineCallback | src/plugins/carla_native_plugin.c:300-316 | on a UI state change 0 and -1 hide the UI, 1 shows it, anything else keeps it; other actions change nothing |
| CarlaNativePlugins.NextAudioFirst | src/plugins/carla_native_plugin.c:713-779 | finds the first audio port at or after a position, or none exactly when there is none |
| CarlaNativePlugins.ChosenBuffersOrder | src/plugins/carla_native_plugin.c:713-779 | the two slots hold the first two audio ports in port order, and a slot is a zeroed buffer exactly when the audio ports run out |
| CarlaNativePlugins.SelectBuffers | src/plugins/carla_native_plugin.c:713-779 | the loops pick exactly those two buffers |
| CarlaNativePlugins.WindowedAppend | src/plugins/carla_native_plugin.c:797-847 | windowing distributes over concatenation, so input order is kept |
| CarlaNativePlugins.WindowedEvents | src/plugins/carla_native_plugin.c:797-847 | each forwarded event lies in the split, re-timed to its start, and every event in the split is forwarded |
| CarlaNativePlugins.WindowedSorted | src/plugins/carla_native_plugin.c:797-847 | events sorted by time stay sorted after windowing |
| CarlaNativePlugins.FindMainMidiPort | src/plugins/carla_native_plugin.c:781-795 | the first MIDI-capable event port, or none exactly when there is none |
| CarlaNativePlugins.WriteEvents | src/plugins/carla_native_plugin.c:797-847 | the written events are the windowed events cut to the first 4000 |
| CarlaNativePlugins.TakeWindowed | src/plugins/carla_native_plugin.c:841-846 | once 4000 events are written from a prefix, the rest of the input does not matter |
| CarlaNativePlugins.ProcessEvents | src/plugins/carla_native_plugin.c:781-847 | the plugin receives the windowed events of the first MIDI port, capped at 4000, and none without such a port |
| CarlaNativePlugins.GetPortFromParamId | src/plugins/carla_native_plugin.c:1534-1563 | the first control port driving that parameter id, or none exactly when none does. A critical message is raised exactly when none is found although the id does not exceed the last control port's id |
| CarlaNativePlugins.ScanWhole | src/plugins/carla_native_plugin.c:1512-1528 | scanning the whole array never reads past it and finds exactly the first MIDI port |
| CarlaNativePlugins.GetMidiOutPortAsWritten | src/plugins/carla_native_plugin.c:1512-1528 | the lookup as written scans the out-ports up to the number of in-ports |
| CarlaNativePlugins.MidiOutPortBound | src/plugins/carla_native_plugin.c:1512-1528 | more in-ports than out-ports read past the out-ports; fewer miss a MIDI out-port behind them |
| CarlaNativePlugins.GetMidiOutPort | src/plugins/carla_native_plugin.c:1512-1528 | bounded by the number of out-ports: never reads past them, and finds exactly the first MIDI out-port |
| ChordPresetPackManagers.Decimal | src/settings/chord_preset_pack_manager.c:45-66 | `%d` of a number is a nonempty string of digits |
| ChordPresetPackManagers.DecimalRoundTrip | src/settings/chord_preset_pack_manager.c:45-66 | reading back the digits gives the number |
| ChordPresetPackManagers.DigitsLine | src/settings/chord_preset_pack_manager.c:45-66 | of two digit strings each ended by a newline, one is a prefix of the other's line only when they are equal |
| ChordPresetPackManagers.HeaderSelectsVersion | src/settings/chord_preset_pack_manager.c:45-66 | a file written with schema `v`, bare or after "---\n", is accepted as schema `w` exactly when v == w |
| ChordPresetPackManagers.PopPreset | src/settings/chord_preset_pack_manager.c:68-98 | the standard preset holds twelve C-major root-position chords |
| ChordPresetPackManagers.PresetsSize | src/settings/chord_preset_pack_manager.c:173-184 | `presets_size` is 12 when the file had no presets, else the number of presets, and never less than the presets in use |
| ChordPresetPackManagers.ChordPresetPack.constructor | src/settings/chord_preset_pack_manager.c:68-98 | a pack with the given name, standard flag, presets and slot count |
| ChordPresetPackManagers.LoadedFromCurrentVersion | src/settings/chord_preset_pack_manager.c:129-195 | every loaded pack comes from a readable file of the current schema, and when every file parses the loader gets through |
| ChordPresetPackManagers.LoadedStops | src/settings/chord_preset_pack_manager.c:129-195 | once a parse fails, later files are not loaded |
| ChordPresetPackManagers.SerializedSkipsStandard | src/settings/chord_preset_pack_manager.c:306-358 | standard packs are never written and only packs of the list with a name are. When every user pack has a name, every one of them is written |
| ChordPresetPackManagers.ChordPresetPackManager.constructor | src/settings/chord_preset_pack_manager.c:68-98 | one standard pack "Standard" holding the Pop preset, with 12 slots |
| ChordPresetPackManagers.ChordPresetPackManager.LoadUserPacks | src/settings/chord_preset_pack_manager.c:129-195 | the old packs stay in front and one fresh pack follows per loaded file, holding its data and normalised slot count; the result flag is the loader's |
| ChordPresetPackManagers.ChordPresetPackManager.AddPack | src/settings/chord_preset_pack_manager.c:220-234 | a fresh copy of the pack is appended; the count grows by one |
| ChordPresetPackManagers.ChordPresetPackManager.DeletePack | src/settings/chord_preset_pack_manager.c:236-248 | the first entry that is the pack is removed; the count drops by one exactly when it was present |
| ChordPresetPackManagers.ChordPresetPackManager.GetPackForPreset | src/settings/chord_preset_pack_manager.c:250-269 | the first pack holding the preset, or none exactly when no pack holds it |
| ChordPresetPackManagers.ChordPresetPackManager.DeletePreset | src/settings/chord_preset_pack_manager.c:287-304 | the preset leaves the first pack holding it and nothing else changes; a no-op when no pack holds it |
| ChordPresetPackManagers.ChordPresetPackManager.Serialize | src/settings/chord_preset_pack_manager.c:306-358 | the packs written are exactly those the serialization specification selects |

## Left out

- The JACK bridge functions of port.c (`port_receive_*`, `port_send_*`, exposing ports to JACK) are calls into a foreign backend.
- `port_apply_pan` and its sine-law and square-root branches are floating-point transcendental arithmetic.
- Ports.Connect and Ports.ConnectAsWritten: require room in an edge array only when connect will append to it, that is, for a compatible pair that is not already connected on that side. The source writes past the fixed arrays when they are full; that overflow is not modelled.
- Ports.DisconnectAll and Ports.DisconnectAllAsWritten: require the port's own lists to be without repeats, as connect keeps them (Ports.ConnectWellFormed). The claims about neighbours' membership of `port` cover neighbours whose lists mirrored the port's beforehand.
- PortIdentifiers.FindFromIdentifier and PortIdentifiers.FindFromIdentifierAsWritten: the source does not check the track position, plugin slot or port index and would read past the arrays or through a NULL channel; the model returns none there instead of modelling the crash.
- Ports.Connect and Ports.Disconnect: the two ports must be distinct, with separate arrays. A port connected to itself is not modelled. `ports_can_be_connected` (src/audio/port.c:528-541) rejects any connection that would close a cycle in the routing graph, and a self-connection is such a cycle. The graph check itself is not modelled.
- `port_identifier_copy` is not part of this model. Its calls in port.c read as (source, destination), and the model assumes that order.
- Ports.PortsRemove: `free_later` is represented by the count of ports handed over. The deferred `port_free` (src/audio/port.c:1285-1296) repeats the two connection warnings of `ports_remove` when it runs later; those repeated warnings and the memory release are not modelled.
- PortSignals.SumEvents: the per-port event window (`midi_events_append` with the split start and length) is a parameter.
- PortSignals.SumEvents: the track activity indicator is a plain flag.
- PortSignals: buffer sizes beyond `block_length` and the engine's own fields are parameters.
- The recording event queue and object pool are a sequence and a count. The lock-free MPMC implementation, the `g_timeout_add` timer and the concurrency between the audio thread and the consumer are left out.
- RecordingManagers.RecordingManager.Push: an event produced while the pool is empty is dropped.
- `handle_automation_event` and the automation branches of the split handler (automation points and regions) are not modelled. Automation material and split events change no modelled state.
- RecordingManagers.RecordingManager.HandleSplitEvent: only the track branch is modelled. An audio split writes only frames inside the clip; the source's out-of-range writes are guarded by warnings and not performed here.
- RecordingManagers.RecordingManager.HandleSplitEvent and RecordingState.SplitTrackRecording: the audio split copies the samples before the loop end with the corrected interleaved layout (WriteSamples, Interleaved). The source writes both channels to the even slot (src/audio/recording_manager.c:812-819). That copy is modelled on its own as RecordingManagers.CopyBeforeLoopAsWritten and recorded under Findings. RecordingState.Step, RecordingManagers.RecordingManager.Dispatch and RecordingManagers.RecordingManager.EventsProcessAsWritten therefore handle a split with the corrected copy; EventsProcessAsWritten is as written only in its pool accounting.
- RecordingState.AddToLane and RecordingState.Open: `track_add_region` is not part of this model. It is assumed to create lanes only up to the lane the region is added to, so a second recording on a track opens in the same last lane with the next index. If the program keeps an extra empty lane after the last used one (`track_create_missing_lanes`), a second recording opens one lane further down at index 0, and the identifiers handed to the record action differ. A track without lanes is assumed not to occur: src/audio/recording_manager.c:1276-1281 would read `tr->lanes[-1]`, where RecordingState.LastLane takes lane 0.
- The producer does not fill the sample buffers of a split event; it reuses a pooled event without refilling its buffers. The model gives split events empty buffers, so an audio split copies no samples into the closed clip.
- RecordingState.Resized: the grown part of a reallocated clip is read as zero. The source's `realloc` leaves it undefined until written.
- Region, clip, MIDI-region and arranger-selection helpers are reduced to the fields the handlers read and write. This includes `midi_region_pop_unended_note`, the region constructors' loop end and fade-out, `transport_position_is_inside_punch_range`, `transport_is_loop_point_met` (taken as: looping is on and the loop end lies after the cycle's start and at most its length later, RecordingState.LoopPointMet) and `position_from_frames`.
- RecordingState.StopRecording: selections and the undo manager are reduced to a list of record actions, each holding the selected region identifiers.
- Events whose track name is unknown change nothing.
- Track predicates (`track_type_can_record`, `track_has_piano_roll`, the arm flag) are attributes of the track view.
- The automation lane's `should_be_recording` decision, which reads the monotonic clock, is an attribute of the lane view.
- plugin_descriptor.c is not part of this model. Its `is_same_plugin` test is a parameter of the merge, and `is_instrument` is a descriptor field.
- PluginManagers.PluginManager.AddCategoryAndAuthor: the fixed capacity of the category and author arrays is not modelled.
- PluginManagers.PluginManager.GetNode: `array_double_size_if_full` is assumed to double the buffer. The Lilv node is represented by its URI string.
- PluginManagers.SortPluginFunc returns only the sign of the comparison. A descriptor without a name compares as -1 on either side, as in the source.
- Names compare by character code. For UTF-8 text this agrees with the byte order `strcmp` uses.
- Plugin search paths, directory scanning and counting, Lilv and Carla instantiation, plugin state and UI code are file-system or opaque library calls.
- The Carla feature list is a parameter of PluginManagers.SupportsProtocol.
- CarlaNativePlugins.Plugin.EngineCallback: only the UI visibility and the push of a UI-state event are modelled. Other engine callback actions are logged in the source and change nothing here.
- The chord preset schema version constant is a parameter.
- YAML parsing and writing and the file system are parameters. Each user file is given as readable or not, with its text and its parse result.
- ChordPresetPackManagers.ChordPresetPackManager.LoadUserPacks: a file that fails to parse makes the loader return NULL in the source. Here that is `ok == false`, with the packs loaded so far kept.
- The pack operations `chord_preset_pack_new`, `chord_preset_pack_contains_preset` and `chord_preset_pack_delete_preset` are not part of this model. The model assumes:
  - membership tests compare presets as values;
  - deleting removes the first equal preset and keeps the slot count;
  - the standard pack is given 12 slots.
- ChordPresetPackManagers.ChordPresetPackManager.DeletePreset: the `serialize` flag and the `EVENTS_PUSH` notification are not modelled.
- ChordPresetPackManagers.ChordPresetPackManager.AddPack / DeletePack: the `serialize` flag and the `EVENTS_PUSH` notification (src/settings/chord_preset_pack_manager.c:229-233, 243-247) are not modelled.
- The manager's `add_preset` is not modelled.

## Findings

| source | as written | input that shows it | evidently intended | confidence | as-written member | corrected member |
|---|---|---|---|---|---|---|
| src/audio/port.c:217-259 | fader and prefader input lookups return `stereo_in->r` for the left flag too | the persisted identifier of a channel's fader left input | the left flag resolves to `stereo_in->l`, like the other owners | not executed | PortIdentifiers.FaderInputLeftResolvesToRight | PortIdentifiers.FindFromIdentifierRoundTrip |
| src/audio/port.c:601-623 | `port_disconnect` shifts `dests` and `dest_ids` but not `multipliers`, `dest_locked` and `dest_enabled` | a source with destinations [a locked, b unlocked]; disconnect a | b keeps its own multiplier and flags | not executed | Ports.LockAfterDisconnectAsWritten | Ports.LockAfterDisconnect |
| src/audio/port.c:556 | `port_connect` calls `port_disconnect` as written, so a reconnect also misaligns the multipliers and flags | a source with destinations [a locked 0.5, b unlocked 1.0]; connect it to a again | b keeps its own multiplier 1 and unlocked flag | not executed | Ports.ReconnectAsWritten | Ports.Reconnect |
| src/audio/port.c:667-684 | `port_disconnect_all` walks forward while `port_disconnect` shifts the same array | a port with two sources | every edge is removed | not executed | Ports.DisconnectAllAsWritten | Ports.DisconnectAll |
| src/audio/port.c:977-992 | the audio sum loops to `nframes` instead of `start_frame + nframes` | a two-frame cycle split at frame 1, with a slice of one frame | the slice `[start, start + nframes)` is mixed | not executed | PortSignals.SliceAfterStartMixesNothing | PortSignals.SumAudio |
| src/audio/recording_manager.c:812-819 | the split-path copy writes left and right samples to the same slot `channels * k` | one stereo frame (1, 2) recorded before the loop point | left in slot `2k`, right in slot `2k + 1` | not executed | RecordingManagers.CopyBeforeLoopAsWritten | RecordingManagers.WriteSamples |
| src/audio/recording_manager.c:1325-1329 | a negative-type event `continue`s before `object_pool_return` | one event of type -1 in the queue | every dequeued event returns to the pool | not executed | RecordingManagers.RecordingManager.EventsProcessAsWritten | RecordingManagers.RecordingManager.EventsProcess |
| src/plugins/carla_native_plugin.c:1512-1528 | `get_midi_out_port` bounds its loop by `num_in_ports` but indexes `out_ports` | one audio out-port and two in-ports (reads past the end); or an audio then a MIDI out-port with one in-port (misses it) | the loop is bounded by `num_out_ports` | not executed | CarlaNativePlugins.MidiOutPortBound | CarlaNativePlugins.GetMidiOutPort |
