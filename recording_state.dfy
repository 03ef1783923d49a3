/** What the recording manager's consumer does to the project when it
    handles one event (`handle_start_recording`, `handle_audio_event`,
    `handle_midi_event`, the track branch of `handle_split_event`,
    `on_stop_recording` and the dispatch in `events_process`), written as
    functions from the state before to the state after. */
module RecordingState {
  import opened Wrappers
  import opened RecordingEvents

  datatype RegionKind = MidiRegion | AudioRegion | AutomationRegion

  /** A region's identifier: its type, the position of its track, its lane
      and its index in that lane. */
  datatype RegionId = RegionId(kind: RegionKind, trackPos: nat, lanePos: nat, idx: nat)

  /** A recorded note, in frames relative to its region; `open` while its
      note-off has not arrived. */
  datatype Note = Note(pitch: nat, velocity: nat, start: int, end: int, open: bool)

  /** A region: start and end on the timeline, loop end and fade-out
      relative to its start, the interleaved samples of its clip and its
      notes. */
  datatype Region = Region(start: int, end: int, loopEnd: int, fadeOut: int, frames: seq<real>, notes: seq<Note>)

  /** A track: its position, what it captures, how many regions each of its
      lanes holds and its open recording region. */
  datatype Track = Track(pos: nat, capture: Capture, laneRegions: seq<nat>, recordingRegion: Option<RegionId>)

  /** An automation lane's recording state. */
  datatype Lane = Lane(started: bool, recordingRegion: Option<RegionId>)

  /** The state the consumer reads and writes: the manager's recording flag
      and recorded identifiers, the tracks by name, the automation lanes by
      port, the regions, and the record actions handed to the undo
      history. */
  datatype Studio = Studio(
    isRecording: bool,
    recordedIds: seq<RegionId>,
    tracks: map<string, Track>,
    lanes: map<nat, Lane>,
    regions: map<RegionId, Region>,
    actions: seq<seq<RegionId>>)

  /** Recorded clips are stereo. */
  const Channels: nat := 2

  /** The transport's loop end falls inside the `n` frames from `start`. */
  predicate LoopPointMet(t: Transport, start: int, n: nat)
  {
    t.loop && start < t.loopEnd <= start + n
  }

  function EventStart(ev: RecordingEvent): int
  {
    ev.gStart + ev.localOffset
  }

  function EventEnd(ev: RecordingEvent): int
  {
    EventStart(ev) + ev.nframes
  }

  /** Where a new region starts and ends: the event's span, moved to the
      loop start when the event wraps around the loop end. */
  function StartSpan(t: Transport, ev: RecordingEvent): (int, int)
  {
    if LoopPointMet(t, EventStart(ev), ev.nframes) then
      (t.loopStart, (EventEnd(ev) - t.loopEnd) + t.loopStart)
    else
      (EventStart(ev), EventEnd(ev))
  }

  /** The last lane of a track (a track always has one; a track without
      lanes is read as having lane 0). */
  function LastLane(tr: Track): nat
  {
    if |tr.laneRegions| == 0 then 0 else |tr.laneRegions| - 1
  }

  /** The identifier a new region gets in `lane`: the next index there, or
      0 in a lane the track does not have yet. */
  function NewRegionId(tr: Track, kind: RegionKind, lane: nat): RegionId
  {
    RegionId(kind, tr.pos, lane, if lane < |tr.laneRegions| then tr.laneRegions[lane] else 0)
  }

  /** The lane counts after one region is added to `lane`, growing the lane
      list when needed. */
  function AddToLane(counts: seq<nat>, lane: nat): (r: seq<nat>)
    ensures |r| == if lane < |counts| then |counts| else lane + 1
    ensures forall i :: 0 <= i < |r| ==> r[i] == (if i < |counts| then counts[i] else 0) + (if i == lane then 1 else 0)
  {
    var padded := if lane < |counts| then counts else counts + seq(lane + 1 - |counts|, _ => 0);
    padded[lane := padded[lane] + 1]
  }

  function Zeros(n: nat): seq<real>
  {
    seq(n, _ => 0.0)
  }

  /** A clip buffer reallocated to `n` samples; new samples read as zero. */
  function Resized(frames: seq<real>, n: nat): (r: seq<real>)
    ensures |r| == n
    ensures forall j :: 0 <= j < n ==> r[j] == if j < |frames| then frames[j] else 0.0
  {
    if n <= |frames| then frames[..n] else frames + Zeros(n - |frames|)
  }

  /** Adds region `r` as `id` to the track named `name`, makes it the
      track's recording region and records its identifier
      (`track_add_region` and `add_recorded_id`). */
  function Open(s: Studio, name: string, tr: Track, id: RegionId, r: Region): Studio
  {
    s.(tracks := s.tracks[name := tr.(laneRegions := AddToLane(tr.laneRegions, id.lanePos), recordingRegion := Some(id))],
       regions := s.regions[id := r],
       recordedIds := s.recordedIds + [id])
  }

  /** The track start handler: nothing when the track already has a region;
      otherwise a new region in the track's last lane. */
  function StartTrackRecording(s: Studio, t: Transport, ev: RecordingEvent): Studio
  {
    if ev.track !in s.tracks then s
    else
      var tr := s.tracks[ev.track];
      if tr.recordingRegion.Some? then s
      else
        var (a, b) := StartSpan(t, ev);
        var lane := LastLane(tr);
        match tr.capture
        case PianoRoll =>
          Open(s, ev.track, tr, NewRegionId(tr, MidiRegion, lane), Region(a, b, b - a, b - a, [], []))
        case AudioInput =>
          Open(s, ev.track, tr, NewRegionId(tr, AudioRegion, lane),
               Region(a, a + ev.nframes, ev.nframes, ev.nframes, Zeros(Channels * ev.nframes), []))
        case NoCapture => s
  }

  /** The track named `name` has an open recording region that exists. */
  predicate Recording(s: Studio, name: string)
  {
    name in s.tracks && s.tracks[name].recordingRegion.Some? && s.tracks[name].recordingRegion.value in s.regions
  }

  /** Sample `j` of a clip after frames `first .. first + count - 1` take the
      event's samples from `off` on: left channel in the even slot, right
      channel in the odd slot.  A slot whose source lies outside the event's
      buffer keeps its value. */
  function Sample(frames: seq<real>, j: nat, first: int, count: nat, lbuf: seq<real>, rbuf: seq<real>, off: nat): real
    requires j < |frames|
  {
    var i := j / Channels;
    var k := off + i - first;
    if first <= i < first + count then
      if j % Channels == 0 then (if k < |lbuf| then lbuf[k] else frames[j])
      else (if k < |rbuf| then rbuf[k] else frames[j])
    else frames[j]
  }

  /** The clip after the samples of one event are written into it. */
  function Interleaved(frames: seq<real>, first: int, count: nat, lbuf: seq<real>, rbuf: seq<real>, off: nat): (r: seq<real>)
    ensures |r| == |frames|
    ensures forall j :: 0 <= j < |frames| && !(first <= j / Channels < first + count) ==> r[j] == frames[j]
    ensures forall j ::
      (0 <= j < |frames| && first <= j / Channels < first + count && j % Channels == 0 &&
       off + j / Channels - first < |lbuf|) ==> r[j] == lbuf[off + j / Channels - first]
    ensures forall j ::
      (0 <= j < |frames| && first <= j / Channels < first + count && j % Channels == 1 &&
       off + j / Channels - first < |rbuf|) ==> r[j] == rbuf[off + j / Channels - first]
  {
    seq(|frames|, j requires 0 <= j < |frames| => Sample(frames, j, first, count, lbuf, rbuf, off))
  }

  /** The clip after the pre-loop copy of the split handler as written:
      both channels go to the even slot, so the right sample overwrites the
      left one and the odd slot keeps its value. */
  function RightOnly(frames: seq<real>, first: int, count: nat, rbuf: seq<real>, off: nat): (r: seq<real>)
    ensures |r| == |frames|
    ensures forall j :: 0 <= j < |frames| && j % Channels == 1 ==> r[j] == frames[j]
    ensures forall j ::
      (0 <= j < |frames| && first <= j / Channels < first + count && j % Channels == 0 &&
       off + j / Channels - first < |rbuf|) ==> r[j] == rbuf[off + j / Channels - first]
  {
    seq(|frames|, j requires 0 <= j < |frames| =>
      var i := j / Channels;
      var k := off + i - first;
      if first <= i < first + count && j % Channels == 0 && k < |rbuf| then rbuf[k] else frames[j])
  }

  /** The audio handler: the region grows to the event's end, its clip is
      reallocated to the new length and the event's samples are written at
      their place in it. */
  function RecordAudio(s: Studio, ev: RecordingEvent): Studio
  {
    if !Recording(s, ev.track) then s
    else
      var id := s.tracks[ev.track].recordingRegion.value;
      var r := s.regions[id];
      var len := EventEnd(ev) - r.start;
      var n: nat := if len < 0 then 0 else len;
      var frames := Interleaved(Resized(r.frames, Channels * n), EventStart(ev) - r.start, ev.nframes,
                                ev.lbuf, ev.rbuf, ev.localOffset);
      s.(regions := s.regions[id := r.(end := EventEnd(ev), loopEnd := len, fadeOut := len, frames := frames)])
  }

  /** Ends the first open note of `pitch` at `end`. */
  function CloseNote(notes: seq<Note>, pitch: nat, end: int): seq<Note>
  {
    if notes == [] then []
    else if notes[0].open && notes[0].pitch == pitch then [notes[0].(end := end, open := false)] + notes[1..]
    else [notes[0]] + CloseNote(notes[1..], pitch, end)
  }

  /** Index of the first open note of `pitch`, or -1 when there is none
      (the search of `midi_region_pop_unended_note`). */
  function FirstOpen(notes: seq<Note>, pitch: nat): (k: int)
    ensures -1 <= k < |notes|
    ensures k >= 0 ==> notes[k].open && notes[k].pitch == pitch
    ensures forall j :: 0 <= j < |notes| && (k < 0 || j < k) ==> !(notes[j].open && notes[j].pitch == pitch)
  {
    if notes == [] then -1
    else if notes[0].open && notes[0].pitch == pitch then 0
    else
      var k := FirstOpen(notes[1..], pitch);
      if k < 0 then -1 else k + 1
  }

  /** Ends every open note at `end`. */
  function CloseAll(notes: seq<Note>, end: int): (r: seq<Note>)
    ensures |r| == |notes|
    ensures forall i :: 0 <= i < |r| ==> !r[i].open
  {
    seq(|notes|, i requires 0 <= i < |notes| =>
      if notes[i].open then notes[i].(end := end, open := false) else notes[i])
  }

  /** The MIDI handler: the region grows to the event's end (its loop end
      is set to the same frame), a note-on opens a note and a note-off
      closes the first open note of its pitch. */
  function RecordMidi(s: Studio, ev: RecordingEvent): Studio
  {
    if !Recording(s, ev.track) then s
    else
      var id := s.tracks[ev.track].recordingRegion.value;
      var r := s.regions[id];
      var localStart := EventStart(ev) - r.start;
      var localEnd := EventEnd(ev) - r.start;
      var notes :=
        match ev.midi
        case None => r.notes
        case Some(NoteOn(p, v)) => r.notes + [Note(p, v, localStart, localEnd, true)]
        case Some(NoteOff(p)) => CloseNote(r.notes, p, localEnd)
        case Some(OtherMessage) => r.notes;
      s.(regions := s.regions[id := r.(end := EventEnd(ev), loopEnd := EventEnd(ev), notes := notes)])
  }

  /** The track branch of the split handler: the open region ends at the
      loop end and a new one opens at the loop start in the next lane.  A
      MIDI region's open notes end at the loop end; an audio region's clip
      is cut to its length and receives the samples before the loop end. */
  function SplitTrackRecording(s: Studio, t: Transport, ev: RecordingEvent): Studio
  {
    if !Recording(s, ev.track) then s
    else
      var tr := s.tracks[ev.track];
      var id := tr.recordingRegion.value;
      var r := s.regions[id];
      var rLoopEnd := t.loopEnd - r.start;
      var closed := r.(end := t.loopEnd, loopEnd := rLoopEnd);
      var lane := id.lanePos + 1;
      match tr.capture
      case PianoRoll =>
        var s1 := s.(regions := s.regions[id := closed.(notes := CloseAll(r.notes, rLoopEnd))]);
        Open(s1, ev.track, tr, NewRegionId(tr, MidiRegion, lane), Region(t.loopStart, t.loopStart + 1, 1, 1, [], []))
      case AudioInput =>
        var n: nat := if rLoopEnd < 0 then 0 else rLoopEnd;
        var frames := Interleaved(Resized(r.frames, Channels * n), ev.gStart - r.start, ev.nframes,
                                  ev.lbuf, ev.rbuf, ev.localOffset);
        var s1 := s.(regions := s.regions[id := closed.(fadeOut := rLoopEnd, frames := frames)]);
        Open(s1, ev.track, tr, NewRegionId(tr, AudioRegion, lane),
             Region(t.loopStart, t.loopStart + 1, 1, 1, Zeros(Channels), []))
      case NoCapture =>
        s.(regions := s.regions[id := closed])
  }

  /** The recorded identifiers a stop selects: automation regions when
      stopping automation, all others when stopping a track. */
  function Selected(ids: seq<RegionId>, automation: bool): seq<RegionId>
  {
    if ids == [] then []
    else
      var last := ids[|ids| - 1];
      Selected(ids[..|ids| - 1], automation) + (if (last.kind == AutomationRegion) == automation then [last] else [])
  }

  predicate AllFound(regions: map<RegionId, Region>, ids: seq<RegionId>)
  {
    forall i :: 0 <= i < |ids| ==> ids[i] in regions
  }

  /** The stop handler: one record action holding the selected regions, or
      none when one of them cannot be found. */
  function StopRecording(s: Studio, automation: bool): Studio
  {
    var sel := Selected(s.recordedIds, automation);
    if AllFound(s.regions, sel) then s.(actions := s.actions + [sel]) else s
  }

  /** One event, as `events_process` dispatches it.  Automation material and
      automation splits leave this state alone. */
  function Step(s: Studio, t: Transport, ev: RecordingEvent): Studio
  {
    match ev.kind
    case MidiMaterial => RecordMidi(s, ev)
    case AudioMaterial => RecordAudio(s, ev)
    case AutomationMaterial => s
    case SplitTrack => SplitTrackRecording(s, t, ev)
    case SplitAutomation => s
    case StopTrack =>
      var s1 := (if s.isRecording then StopRecording(s, false) else s).(isRecording := false);
      if ev.track in s1.tracks then
        s1.(tracks := s1.tracks[ev.track := s1.tracks[ev.track].(recordingRegion := None)])
      else s1
    case StopAutomation =>
      if ev.lane in s.lanes then
        var s1 := if s.lanes[ev.lane].started then StopRecording(s, true) else s;
        s1.(lanes := s1.lanes[ev.lane := Lane(false, None)])
      else s
    case StartTrack =>
      StartTrackRecording(s.(recordedIds := if s.isRecording then s.recordedIds else [], isRecording := true), t, ev)
    case StartAutomation =>
      if ev.lane in s.lanes then s.(lanes := s.lanes[ev.lane := s.lanes[ev.lane].(started := true)]) else s
    case Malformed(_) => s
  }

  /** The events handled in queue order. */
  function Drain(s: Studio, t: Transport, evs: seq<RecordingEvent>): Studio
    decreases |evs|
  {
    if evs == [] then s else Drain(Step(s, t, evs[0]), t, evs[1..])
  }

  /** An event the consumer skips before returning it to the pool. */
  predicate Rejected(ev: RecordingEvent)
  {
    ev.kind.Malformed? && ev.kind.code < 0
  }

  /** How many of `evs` are rejected. */
  function RejectedCount(evs: seq<RecordingEvent>): (r: nat)
    ensures r <= |evs|
    ensures r == 0 <==> forall i :: 0 <= i < |evs| ==> !Rejected(evs[i])
    ensures r == |evs| <==> forall i :: 0 <= i < |evs| ==> Rejected(evs[i])
  {
    if evs == [] then 0 else (if Rejected(evs[0]) then 1 else 0) + RejectedCount(evs[1..])
  }

  // ---------------------------------------------------------------------
  // Properties

  /** Handling `a` and then `b` is handling `a + b`: the consumer's effect
      depends only on the order of the queue. */
  lemma {:induction false} DrainAppend(s: Studio, t: Transport, a: seq<RecordingEvent>, b: seq<RecordingEvent>)
    ensures Drain(s, t, a + b) == Drain(Drain(s, t, a), t, b)
    decreases |a|
  {
    if a != [] {
      assert (a + b)[0] == a[0];
      assert (a + b)[1..] == a[1..] + b;
      DrainAppend(Step(s, t, a[0]), t, a[1..], b);
    } else {
      assert a + b == b;
    }
  }

  /** A stop selects exactly the recorded regions of its kind, in recorded
      order. */
  lemma {:induction false} SelectedMembers(ids: seq<RegionId>, automation: bool, x: RegionId)
    ensures x in Selected(ids, automation) <==> x in ids && ((x.kind == AutomationRegion) == automation)
    ensures |Selected(ids, automation)| <= |ids|
  {
    if ids != [] {
      SelectedMembers(ids[..|ids| - 1], automation, x);
      assert ids == ids[..|ids| - 1] + [ids[|ids| - 1]];
    }
  }

  /** A start clears the recorded identifiers only when no recording was in
      progress, and adds at most one identifier after them. */
  lemma StartKeepsIdsWhileRecording(s: Studio, t: Transport, ev: RecordingEvent)
    requires ev.kind == StartTrack
    ensures var s' := Step(s, t, ev);
            var base := if s.isRecording then s.recordedIds else [];
            && s'.isRecording
            && |base| <= |s'.recordedIds| <= |base| + 1
            && s'.recordedIds[..|base|] == base
  {
  }

  /** A start for a track that already has a region changes nothing but the
      manager's flag and, when idle, its identifiers. */
  lemma RepeatedStartIgnored(s: Studio, t: Transport, ev: RecordingEvent)
    requires ev.kind == StartTrack && ev.track in s.tracks && s.tracks[ev.track].recordingRegion.Some?
    ensures Step(s, t, ev) == s.(isRecording := true, recordedIds := if s.isRecording then s.recordedIds else [])
  {
  }

  /** A first start opens a region in the track's last lane with the next
      index there, at the event's position or, on a loop wrap, at the loop
      start; its identifier is the last one recorded. */
  lemma StartOpensRegion(s: Studio, t: Transport, ev: RecordingEvent)
    requires ev.kind == StartTrack && ev.track in s.tracks
    requires s.tracks[ev.track].recordingRegion.None? && s.tracks[ev.track].capture != NoCapture
    ensures var s' := Step(s, t, ev);
            var tr := s.tracks[ev.track];
            var wrap := LoopPointMet(t, EventStart(ev), ev.nframes);
            && |s'.recordedIds| >= 1
            && var id := s'.recordedIds[|s'.recordedIds| - 1];
            && s'.tracks[ev.track].recordingRegion == Some(id)
            && id.trackPos == tr.pos && id.lanePos == LastLane(tr)
            && id.idx == (if |tr.laneRegions| == 0 then 0 else tr.laneRegions[LastLane(tr)])
            && id in s'.regions
            && s'.regions[id].start == (if wrap then t.loopStart else EventStart(ev))
            && (tr.capture == PianoRoll ==>
                  s'.regions[id].end == (if wrap then (EventEnd(ev) - t.loopEnd) + t.loopStart else EventEnd(ev)))
            && (tr.capture == AudioInput ==>
                  s'.regions[id].end == s'.regions[id].start + ev.nframes
                  && |s'.regions[id].frames| == Channels * ev.nframes)
  {
  }

  /** After an audio event inside its region the region ends where the
      event ends, the clip holds exactly that many stereo frames, each frame
      of the event holds its left sample in the even slot and its right
      sample in the odd slot, and earlier frames are kept. */
  lemma AudioEventLayout(s: Studio, ev: RecordingEvent)
    requires ev.kind == AudioMaterial && Complete(ev) && Recording(s, ev.track)
    requires var r := s.regions[s.tracks[ev.track].recordingRegion.value]; r.start <= EventStart(ev)
    ensures var id := s.tracks[ev.track].recordingRegion.value;
            var r := s.regions[id];
            var r' := Step(s, Transport(false, false, false, false, 0, 0), ev).regions[id];
            var first := EventStart(ev) - r.start;
            && r'.end == EventEnd(ev)
            && |r'.frames| == Channels * (EventEnd(ev) - r.start)
            && (forall i :: first <= i < first + ev.nframes ==>
                  r'.frames[2 * i] == ev.lbuf[ev.localOffset + i - first]
                  && r'.frames[2 * i + 1] == ev.rbuf[ev.localOffset + i - first])
            && (forall j :: 0 <= j < 2 * first && j < |r.frames| ==> r'.frames[j] == r.frames[j])
  {
    var id := s.tracks[ev.track].recordingRegion.value;
    var r := s.regions[id];
    var first := EventStart(ev) - r.start;
    var n := EventEnd(ev) - r.start;
    var f0 := Resized(r.frames, Channels * n);
    var r' := Step(s, Transport(false, false, false, false, 0, 0), ev).regions[id];
    assert r'.frames == Interleaved(f0, first, ev.nframes, ev.lbuf, ev.rbuf, ev.localOffset);
    forall i | first <= i < first + ev.nframes
      ensures r'.frames[2 * i] == ev.lbuf[ev.localOffset + i - first]
      ensures r'.frames[2 * i + 1] == ev.rbuf[ev.localOffset + i - first]
    {
      assert (2 * i) / Channels == i && (2 * i) % Channels == 0;
      assert (2 * i + 1) / Channels == i && (2 * i + 1) % Channels == 1;
    }
    forall j | 0 <= j < 2 * first && j < |r.frames|
      ensures r'.frames[j] == r.frames[j]
    {
      assert j / Channels < first;
    }
  }

  /** Closing a note ends exactly the first open note of the pitch and
      leaves every other note as it was; without such a note nothing
      changes. */
  lemma {:induction false} CloseNoteFirst(notes: seq<Note>, pitch: nat, end: int)
    ensures |CloseNote(notes, pitch, end)| == |notes|
    ensures forall j :: 0 <= j < |notes| ==>
      CloseNote(notes, pitch, end)[j] ==
        if j == FirstOpen(notes, pitch) then notes[j].(end := end, open := false) else notes[j]
  {
    if notes != [] && !(notes[0].open && notes[0].pitch == pitch) {
      CloseNoteFirst(notes[1..], pitch, end);
    }
  }

  /** A MIDI event for a track without an open region changes nothing.
      Otherwise only that region changes: it ends, and its loop end is set,
      at the event's end; its start and clip stay.  A note-on adds one open
      note spanning the event, relative to the region start; a note-off
      ends the first open note of its pitch at the event's end and leaves
      every other note as it was; any other message, or none, leaves the
      notes alone. */
  lemma MidiEventRecorded(s: Studio, t: Transport, ev: RecordingEvent)
    requires ev.kind == MidiMaterial
    ensures !Recording(s, ev.track) ==> Step(s, t, ev) == s
    ensures Recording(s, ev.track) ==>
      var id := s.tracks[ev.track].recordingRegion.value;
      var r := s.regions[id];
      var r' := Step(s, t, ev).regions[id];
      && Step(s, t, ev) == s.(regions := s.regions[id := r'])
      && r'.end == EventEnd(ev) && r'.loopEnd == EventEnd(ev)
      && r'.start == r.start && r'.frames == r.frames && r'.fadeOut == r.fadeOut
      && (ev.midi.None? || ev.midi == Some(OtherMessage) ==> r'.notes == r.notes)
      && (forall p, v :: ev.midi == Some(NoteOn(p, v)) ==>
            r'.notes == r.notes + [Note(p, v, EventStart(ev) - r.start, EventEnd(ev) - r.start, true)])
      && (forall p :: ev.midi == Some(NoteOff(p)) ==>
            |r'.notes| == |r.notes| &&
            forall j :: 0 <= j < |r.notes| ==>
              r'.notes[j] ==
                if j == FirstOpen(r.notes, p) then r.notes[j].(end := EventEnd(ev) - r.start, open := false)
                else r.notes[j])
  {
    assert Step(s, t, ev) == RecordMidi(s, ev);
    if Recording(s, ev.track) && ev.midi.Some? && ev.midi.value.NoteOff? {
      var r := s.regions[s.tracks[ev.track].recordingRegion.value];
      CloseNoteFirst(r.notes, ev.midi.value.pitch, EventEnd(ev) - r.start);
    }
  }

  /** A split ends the open region at the loop end and opens the next one at
      the loop start, one lane further down, as the track's new recording
      region and the last recorded identifier.  A split MIDI region keeps no
      open note. */
  lemma SplitReopens(s: Studio, t: Transport, ev: RecordingEvent)
    requires ev.kind == SplitTrack && Recording(s, ev.track) && s.tracks[ev.track].capture != NoCapture
    ensures var id := s.tracks[ev.track].recordingRegion.value;
            var r := s.regions[id];
            var s' := Step(s, t, ev);
            && id in s'.regions
            && s'.regions[id].end == t.loopEnd
            && s'.regions[id].loopEnd == t.loopEnd - r.start
            && |s'.recordedIds| == |s.recordedIds| + 1
            && var nid := s'.recordedIds[|s'.recordedIds| - 1];
            && s'.tracks[ev.track].recordingRegion == Some(nid)
            && nid.lanePos == id.lanePos + 1
            && nid in s'.regions && s'.regions[nid].start == t.loopStart
            && (s.tracks[ev.track].capture == PianoRoll ==>
                  forall k :: 0 <= k < |s'.regions[id].notes| ==> !s'.regions[id].notes[k].open)
  {
  }

  /** A track stop ends the manager's recording and the track's region, and
      hands one record action with the selected regions to the undo history
      exactly when a recording was in progress and every selected region
      exists. */
  lemma StopTrackHandsOneAction(s: Studio, t: Transport, ev: RecordingEvent)
    requires ev.kind == StopTrack && ev.track in s.tracks
    ensures var s' := Step(s, t, ev);
            var sel := Selected(s.recordedIds, false);
            && !s'.isRecording
            && s'.tracks[ev.track].recordingRegion.None?
            && s'.recordedIds == s.recordedIds
            && s'.regions == s.regions
            && s'.actions == s.actions + (if s.isRecording && AllFound(s.regions, sel) then [sel] else [])
  {
  }

  /** An automation stop hands an action only for a lane whose recording
      had started, and leaves the lane stopped without a region. */
  lemma StopAutomationEndsLane(s: Studio, t: Transport, ev: RecordingEvent)
    requires ev.kind == StopAutomation && ev.lane in s.lanes
    ensures var s' := Step(s, t, ev);
            var sel := Selected(s.recordedIds, true);
            && s'.lanes[ev.lane] == Lane(false, None)
            && s'.isRecording == s.isRecording
            && s'.actions == s.actions + (if s.lanes[ev.lane].started && AllFound(s.regions, sel) then [sel] else [])
  {
  }

  /** An automation start marks the lane started; a repeated start changes
      nothing. */
  lemma StartAutomationMarksLane(s: Studio, t: Transport, ev: RecordingEvent)
    requires ev.kind == StartAutomation && ev.lane in s.lanes
    ensures Step(s, t, ev).lanes[ev.lane].started
    ensures s.lanes[ev.lane].started ==> Step(s, t, ev) == s
  {
  }
}
