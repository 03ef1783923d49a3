/** The recording events that the processing cycle sends to the recording
    manager, and the decision that chooses them
    (`recording_manager_handle_recording`), written as functions of the
    transport, the track, its automation lanes and the cycle's input. */
module RecordingEvents {
  import opened Wrappers

  /** The event types of the recording queue.  `Malformed` stands for a
      type code outside the enumeration; a negative code is one the
      consumer rejects before dispatching. */
  datatype EventKind =
    | MidiMaterial
    | AudioMaterial
    | AutomationMaterial
    | SplitTrack
    | SplitAutomation
    | StopTrack
    | StopAutomation
    | StartTrack
    | StartAutomation
    | Malformed(code: int)

  /** The MIDI message an event carries. */
  datatype MidiMessage = NoteOn(pitch: nat, velocity: nat) | NoteOff(pitch: nat) | OtherMessage

  /** A recording event: its type, the global frame of the cycle, the
      cycle-local offset and length, the track name, the automation lane,
      an optional MIDI message (`has_midi_event`) and the two channels of
      captured audio. */
  datatype RecordingEvent = RecordingEvent(
    kind: EventKind,
    gStart: int,
    localOffset: nat,
    nframes: nat,
    track: string,
    lane: nat,
    midi: Option<MidiMessage>,
    lbuf: seq<real>,
    rbuf: seq<real>)

  /** The transport flags and loop points the recording logic consults. */
  datatype Transport = Transport(
    recording: bool,
    rolling: bool,
    punchMode: bool,
    loop: bool,
    loopStart: int,
    loopEnd: int)

  /** One processing cycle: where it starts, its slice of the block,
      whether it ends at the loop end, and whether its start lies inside
      the punch range (consulted only in punch mode). */
  datatype Cycle = Cycle(
    gStart: int,
    localOffset: nat,
    nframes: nat,
    reachedLoopEnd: bool,
    inPunchRange: bool)

  /** What a track captures: notes (a track with a piano roll), audio, or
      nothing. */
  datatype Capture = PianoRoll | AudioInput | NoCapture

  /** What the producer reads of a track: its name, its arm flag, whether
      its type can record, what it captures and whether it has an open
      recording region. */
  datatype TrackView = TrackView(
    name: string,
    armed: bool,
    canRecord: bool,
    capture: Capture,
    hasRegion: bool)

  /** What the producer reads of one automation lane: its port, whether its
      recording has started and whether it should be recording now. */
  datatype LaneView = LaneView(lane: nat, started: bool, shouldRecord: bool)

  /** An event that carries no material. */
  function Notice(kind: EventKind, c: Cycle, name: string, lane: nat): RecordingEvent
  {
    RecordingEvent(kind, c.gStart, c.localOffset, c.nframes, name, lane, None, [], [])
  }

  predicate InsidePunch(t: Transport, c: Cycle)
  {
    !t.punchMode || c.inPunchRange
  }

  /** The track records this cycle: the transport records and rolls, the
      track is armed and the cycle is inside the punch range. */
  predicate Capturing(t: Transport, c: Cycle, tr: TrackView)
  {
    t.recording && tr.armed && t.rolling && InsidePunch(t, c)
  }

  /** The start, split or stop event for the track itself. */
  function TrackControl(t: Transport, c: Cycle, tr: TrackView): seq<RecordingEvent>
  {
    if !Capturing(t, c, tr) then
      (if tr.canRecord && tr.hasRegion then [Notice(StopTrack, c, tr.name, 0)] else [])
    else if tr.canRecord && c.reachedLoopEnd && tr.hasRegion then
      [Notice(SplitTrack, c, tr.name, 0)]
    else if tr.canRecord && !tr.hasRegion then
      [Notice(StartTrack, c, tr.name, 0)]
    else
      []
  }

  /** The lane records this cycle (independently of the track's arm flag). */
  predicate LaneRecords(t: Transport, c: Cycle, l: LaneView)
  {
    t.rolling && InsidePunch(t, c) && l.shouldRecord
  }

  /** The lane splits this cycle, which also suppresses its material. */
  predicate LaneSplits(c: Cycle, l: LaneView)
  {
    l.started && c.reachedLoopEnd
  }

  /** The events of one automation lane, in the order they are queued. */
  function LaneControl(t: Transport, c: Cycle, name: string, l: LaneView): seq<RecordingEvent>
  {
    (if !LaneRecords(t, c, l) && l.started then [Notice(StopAutomation, c, name, l.lane)] else [])
    + (if LaneRecords(t, c, l) then
         (if LaneSplits(c, l) then [Notice(SplitAutomation, c, name, l.lane)]
          else if !l.started then [Notice(StartAutomation, c, name, l.lane)]
          else [])
         + (if LaneSplits(c, l) then [] else [Notice(AutomationMaterial, c, name, l.lane)])
       else [])
  }

  /** The events of all lanes, lane by lane. */
  function LanesControl(t: Transport, c: Cycle, name: string, lanes: seq<LaneView>): seq<RecordingEvent>
  {
    if lanes == [] then []
    else LanesControl(t, c, name, lanes[..|lanes| - 1]) + LaneControl(t, c, name, lanes[|lanes| - 1])
  }

  function MidiNotice(c: Cycle, name: string, m: Option<MidiMessage>): RecordingEvent
  {
    RecordingEvent(MidiMaterial, c.gStart, c.localOffset, c.nframes, name, 0, m, [], [])
  }

  /** One MIDI material event per message, in message order. */
  function MidiEvents(c: Cycle, name: string, msgs: seq<MidiMessage>): (r: seq<RecordingEvent>)
    ensures |r| == |msgs|
    ensures forall i :: 0 <= i < |r| ==> r[i] == MidiNotice(c, name, Some(msgs[i]))
  {
    if msgs == [] then []
    else MidiEvents(c, name, msgs[..|msgs| - 1]) + [MidiNotice(c, name, Some(msgs[|msgs| - 1]))]
  }

  /** The captured material of the track; nothing unless it records. */
  function Material(t: Transport, c: Cycle, tr: TrackView, msgs: seq<MidiMessage>,
                    lbuf: seq<real>, rbuf: seq<real>): seq<RecordingEvent>
  {
    if !Capturing(t, c, tr) then []
    else match tr.capture
      case PianoRoll =>
        if msgs == [] then [MidiNotice(c, tr.name, None)] else MidiEvents(c, tr.name, msgs)
      case AudioInput =>
        [RecordingEvent(AudioMaterial, c.gStart, c.localOffset, c.nframes, tr.name, 0, None, lbuf, rbuf)]
      case NoCapture => []
  }

  /** A cycle fits the block. */
  predicate Fits(c: Cycle, blockLength: nat)
  {
    c.localOffset + c.nframes <= blockLength
  }

  /** Everything one call of the producer queues, in queue order: the
      track's own event, each lane's events, then the material.  A cycle
      that overruns the block queues nothing. */
  function Produced(t: Transport, c: Cycle, blockLength: nat, tr: TrackView, lanes: seq<LaneView>,
                    msgs: seq<MidiMessage>, lbuf: seq<real>, rbuf: seq<real>): seq<RecordingEvent>
  {
    if !Fits(c, blockLength) then []
    else TrackControl(t, c, tr) + LanesControl(t, c, tr.name, lanes) + Material(t, c, tr, msgs, lbuf, rbuf)
  }

  predicate IsLaneKind(k: EventKind)
  {
    k.StopAutomation? || k.SplitAutomation? || k.StartAutomation? || k.AutomationMaterial?
  }

  predicate IsTrackControlKind(k: EventKind)
  {
    k.StopTrack? || k.SplitTrack? || k.StartTrack?
  }

  predicate IsMaterialKind(k: EventKind)
  {
    k.MidiMaterial? || k.AudioMaterial?
  }

  predicate HasKind(evs: seq<RecordingEvent>, k: EventKind)
  {
    exists i :: 0 <= i < |evs| && evs[i].kind == k
  }

  /** Every event of a lane list is an automation event. */
  lemma {:induction false} LanesOnlyAutomation(t: Transport, c: Cycle, name: string, lanes: seq<LaneView>)
    ensures forall e :: e in LanesControl(t, c, name, lanes) ==> IsLaneKind(e.kind)
  {
    if lanes != [] {
      LanesOnlyAutomation(t, c, name, lanes[..|lanes| - 1]);
    }
  }

  /** An event of the lane list comes from one of the lanes, and every
      lane's events are in it. */
  lemma {:induction false} LanesMembership(t: Transport, c: Cycle, name: string, lanes: seq<LaneView>, e: RecordingEvent)
    ensures e in LanesControl(t, c, name, lanes) <==>
            exists i :: 0 <= i < |lanes| && e in LaneControl(t, c, name, lanes[i])
  {
    if lanes != [] {
      var init := lanes[..|lanes| - 1];
      LanesMembership(t, c, name, init, e);
      if e in LanesControl(t, c, name, lanes) && e !in LaneControl(t, c, name, lanes[|lanes| - 1]) {
        var i :| 0 <= i < |init| && e in LaneControl(t, c, name, init[i]);
        assert lanes[i] == init[i];
      }
      if exists i :: 0 <= i < |lanes| && e in LaneControl(t, c, name, lanes[i]) {
        var i :| 0 <= i < |lanes| && e in LaneControl(t, c, name, lanes[i]);
        if i < |init| {
          assert init[i] == lanes[i];
        }
      }
    }
  }

  /** A track that is not recording queues no material at all, and queues a
      stop event exactly when its type can record and a region is open. */
  lemma StoppedTrackSendsNoMaterial(t: Transport, c: Cycle, blockLength: nat, tr: TrackView, lanes: seq<LaneView>,
                                    msgs: seq<MidiMessage>, lbuf: seq<real>, rbuf: seq<real>)
    requires !Capturing(t, c, tr)
    ensures forall e :: e in Produced(t, c, blockLength, tr, lanes, msgs, lbuf, rbuf) ==> !IsMaterialKind(e.kind)
    ensures HasKind(Produced(t, c, blockLength, tr, lanes, msgs, lbuf, rbuf), StopTrack) <==>
            Fits(c, blockLength) && tr.canRecord && tr.hasRegion
  {
    var p := Produced(t, c, blockLength, tr, lanes, msgs, lbuf, rbuf);
    LanesOnlyAutomation(t, c, tr.name, lanes);
    if Fits(c, blockLength) {
      var lc := LanesControl(t, c, tr.name, lanes);
      assert p == TrackControl(t, c, tr) + lc;
      if tr.canRecord && tr.hasRegion {
        assert p[0].kind == StopTrack;
      }
    }
  }

  /** A recording track queues at most one of split and start: split
      exactly when the cycle ends at the loop end with a region open, start
      exactly when no region is open. */
  lemma RecordingTrackSplitsOrStarts(t: Transport, c: Cycle, blockLength: nat, tr: TrackView, lanes: seq<LaneView>,
                                     msgs: seq<MidiMessage>, lbuf: seq<real>, rbuf: seq<real>)
    requires Fits(c, blockLength) && Capturing(t, c, tr)
    ensures var p := Produced(t, c, blockLength, tr, lanes, msgs, lbuf, rbuf);
            && (HasKind(p, SplitTrack) <==> tr.canRecord && c.reachedLoopEnd && tr.hasRegion)
            && (HasKind(p, StartTrack) <==> tr.canRecord && !tr.hasRegion)
            && !(HasKind(p, SplitTrack) && HasKind(p, StartTrack))
            && !HasKind(p, StopTrack)
  {
    var p := Produced(t, c, blockLength, tr, lanes, msgs, lbuf, rbuf);
    var tc := TrackControl(t, c, tr);
    var lc := LanesControl(t, c, tr.name, lanes);
    var m := Material(t, c, tr, msgs, lbuf, rbuf);
    LanesOnlyAutomation(t, c, tr.name, lanes);
    var rest := lc + m;
    assert forall e: RecordingEvent :: e in rest ==> !IsTrackControlKind(e.kind);
    assert p == tc + rest;
    if |tc| == 1 {
      assert p[0] == tc[0];
    }
  }

  /** A recording piano-roll track queues one MIDI event per message, or a
      single event without a message when there are none. */
  lemma PianoRollMaterial(t: Transport, c: Cycle, tr: TrackView, msgs: seq<MidiMessage>,
                          lbuf: seq<real>, rbuf: seq<real>)
    requires Capturing(t, c, tr) && tr.capture == PianoRoll
    ensures var m := Material(t, c, tr, msgs, lbuf, rbuf);
            && |m| == (if msgs == [] then 1 else |msgs|)
            && (forall i :: 0 <= i < |m| ==> m[i].kind == MidiMaterial)
            && (msgs == [] ==> m[0].midi == None)
            && (forall i :: 0 <= i < |msgs| ==> m[i].midi == Some(msgs[i]))
  {
  }

  /** A recording audio track queues exactly one audio event carrying the
      cycle's two channels. */
  lemma AudioTrackMaterial(t: Transport, c: Cycle, tr: TrackView, msgs: seq<MidiMessage>,
                           lbuf: seq<real>, rbuf: seq<real>)
    requires Capturing(t, c, tr) && tr.capture == AudioInput
    ensures var m := Material(t, c, tr, msgs, lbuf, rbuf);
            |m| == 1 && m[0].kind == AudioMaterial && m[0].lbuf == lbuf && m[0].rbuf == rbuf
  {
  }

  /** A lane queues its automation material exactly when it records and
      does not split, and a stop exactly when it has started but no longer
      records. */
  lemma LaneEvents(t: Transport, c: Cycle, name: string, l: LaneView)
    ensures var lc := LaneControl(t, c, name, l);
            && (HasKind(lc, AutomationMaterial) <==> LaneRecords(t, c, l) && !LaneSplits(c, l))
            && (HasKind(lc, StopAutomation) <==> !LaneRecords(t, c, l) && l.started)
            && (HasKind(lc, SplitAutomation) <==> LaneRecords(t, c, l) && LaneSplits(c, l))
            && (HasKind(lc, StartAutomation) <==> LaneRecords(t, c, l) && !l.started)
            && (forall e :: e in lc ==> e.lane == l.lane && e.track == name)
  {
    var lc := LaneControl(t, c, name, l);
    if LaneRecords(t, c, l) && !LaneSplits(c, l) {
      assert lc[|lc| - 1].kind == AutomationMaterial;
    }
    if LaneRecords(t, c, l) && !l.started {
      assert lc[0].kind == StartAutomation;
    }
    if !LaneRecords(t, c, l) && l.started {
      assert lc[0].kind == StopAutomation;
    }
  }

  /** Audio events leave room for the slice they describe: both buffers
      cover `localOffset + nframes` samples. */
  predicate Complete(e: RecordingEvent)
  {
    e.kind == AudioMaterial ==> e.localOffset + e.nframes <= |e.lbuf| && e.localOffset + e.nframes <= |e.rbuf|
  }

  /** Given block-sized input buffers, every queued event is complete. */
  lemma ProducedComplete(t: Transport, c: Cycle, blockLength: nat, tr: TrackView, lanes: seq<LaneView>,
                         msgs: seq<MidiMessage>, lbuf: seq<real>, rbuf: seq<real>)
    requires |lbuf| == blockLength && |rbuf| == blockLength
    ensures forall e :: e in Produced(t, c, blockLength, tr, lanes, msgs, lbuf, rbuf) ==> Complete(e)
  {
    LanesOnlyAutomation(t, c, tr.name, lanes);
  }
}
