/** The recording manager: the event pool and queue shared by the
    processing cycle and the consumer, the producer
    (`recording_manager_handle_recording`) that fills the queue, and the
    consumer (`events_process` and its handlers) that drains it into
    regions. */
module RecordingManagers {
  import opened Wrappers
  import opened RecordingEvents
  import opened RecordingState

  /** Number of pooled events, which is also the room reserved in the
      queue. */
  const PoolSize: nat := 200

  function Min(a: nat, b: nat): nat
  {
    if a < b then a else b
  }

  /** Sending one more event delivers it exactly when the pool still had a
      free event for it. */
  lemma TakeSnoc<T>(s: seq<T>, e: T, n: nat)
    ensures Take(s + [e], n) == Take(s, n) + (if |s| < n then [e] else [])
  {
    if |s| < n {
      assert (s + [e])[..|s| + 1] == s + [e];
    } else {
      assert (s + [e])[..n] == s[..n];
    }
  }

  /** The clip samples after one event's frames are written into it, one
      frame per iteration: left sample to the even slot, right sample to the
      odd slot.  Writes outside the clip or past the event's buffers are
      not made. */
  method WriteSamples(frames: seq<real>, first: int, count: nat, lbuf: seq<real>, rbuf: seq<real>, off: nat)
    returns (out: seq<real>)
    ensures out == Interleaved(frames, first, count, lbuf, rbuf, off)
  {
    out := frames;
    var i := first;
    var cur := off;
    while i < first + count
      invariant first <= i <= first + count
      invariant cur == off + (i - first)
      invariant |out| == |frames|
      invariant forall j :: 0 <= j < |out| ==> out[j] == Sample(frames, j, first, i - first, lbuf, rbuf, off)
    {
      if 0 <= i {
        if 2 * i < |out| && cur < |lbuf| {
          out := out[2 * i := lbuf[cur]];
        }
        if 2 * i + 1 < |out| && cur < |rbuf| {
          out := out[2 * i + 1 := rbuf[cur]];
        }
      }
      i := i + 1;
      cur := cur + 1;
    }
  }

  /** The pre-loop copy of the audio split as written: the left and then
      the right sample are both stored in the even slot. */
  method CopyBeforeLoopAsWritten(frames: seq<real>, first: int, count: nat, lbuf: seq<real>, rbuf: seq<real>, off: nat)
    returns (out: seq<real>)
    ensures out == RightOnly(frames, first, count, rbuf, off)
  {
    out := frames;
    var k := first;
    var i := off;
    while i < off + count
      invariant off <= i <= off + count
      invariant k == first + (i - off)
      invariant |out| == |frames|
      invariant forall j :: 0 <= j < |out| ==> out[j] == RightOnly(frames, first, i - off, rbuf, off)[j]
    {
      if 0 <= k && 2 * k < |out| {
        if i < |lbuf| {
          out := out[2 * k := lbuf[i]];
        }
        if i < |rbuf| {
          out := out[2 * k := rbuf[i]];
        } else {
          out := out[2 * k := frames[2 * k]];
        }
      }
      k := k + 1;
      i := i + 1;
    }
  }

  /** The split copy as written loses the left channel: one stereo frame
      with left 1 and right 2 leaves 2 in the left slot and nothing in the
      right slot, where the intended copy leaves 1 and 2. */
  lemma SplitCopyLosesLeft()
    ensures RightOnly([0.0, 0.0], 0, 1, [2.0], 0) == [2.0, 0.0]
    ensures Interleaved([0.0, 0.0], 0, 1, [1.0], [2.0], 0) == [1.0, 2.0]
  {
    var w := RightOnly([0.0, 0.0], 0, 1, [2.0], 0);
    assert w[0] == 2.0 && w[1] == 0.0;
    var v := Interleaved([0.0, 0.0], 0, 1, [1.0], [2.0], 0);
    assert v[0] == Sample([0.0, 0.0], 0, 0, 1, [1.0], [2.0], 0) == 1.0;
    assert v[1] == Sample([0.0, 0.0], 1, 0, 1, [1.0], [2.0], 0) == 2.0;
  }

  /** The recorded identifiers a stop selects, scanned in order; the scan
      gives up at the first selected region that cannot be found. */
  method SelectRecorded(ids: seq<RegionId>, automation: bool, regions: map<RegionId, Region>)
    returns (sel: seq<RegionId>, found: bool)
    ensures found <==> AllFound(regions, Selected(ids, automation))
    ensures found ==> sel == Selected(ids, automation)
  {
    sel := [];
    var i := 0;
    while i < |ids|
      invariant 0 <= i <= |ids|
      invariant sel == Selected(ids[..i], automation)
      invariant AllFound(regions, sel)
    {
      var id := ids[i];
      assert ids[..i + 1] == ids[..i] + [id];
      assert ids[..i + 1][..i] == ids[..i];
      if (id.kind == AutomationRegion) != automation {
        i := i + 1;
        continue;
      }
      if id !in regions {
        SelectedMembers(ids, automation, id);
        assert !AllFound(regions, Selected(ids, automation)) by {
          var sall := Selected(ids, automation);
          var k :| 0 <= k < |sall| && sall[k] == id;
        }
        return sel, false;
      }
      sel := sel + [id];
      i := i + 1;
    }
    assert ids[..|ids|] == ids;
    return sel, true;
  }

  /** A leak needs only one rejected event: a single event with a negative
      type is counted as rejected. */
  lemma OneRejectedEvent(ev: RecordingEvent)
    requires ev.kind == Malformed(-1)
    ensures RejectedCount([ev]) == 1
  {
    assert [ev][1..] == [];
  }

  class RecordingManager {
    var queue: seq<RecordingEvent>
    var pool: nat
    var isRecording: bool
    var recordedIds: seq<RegionId>
    var tracks: map<string, Track>
    var lanes: map<nat, Lane>
    var regions: map<RegionId, Region>
    var actions: seq<seq<RegionId>>

    /** The state the consumer works on. */
    function Snapshot(): Studio
      reads this
    {
      Studio(isRecording, recordedIds, tracks, lanes, regions, actions)
    }

    /** Every pooled event is either free or waiting in the queue. */
    predicate Conserved()
      reads this
    {
      pool + |queue| == PoolSize
    }

    /** A manager with a full pool and an empty queue, over the given
        tracks, lanes and regions. */
    constructor (tracks0: map<string, Track>, lanes0: map<nat, Lane>, regions0: map<RegionId, Region>)
      ensures queue == [] && pool == PoolSize && Conserved()
      ensures !isRecording && recordedIds == [] && actions == []
      ensures tracks == tracks0 && lanes == lanes0 && regions == regions0
    {
      queue := [];
      pool := PoolSize;
      isRecording := false;
      recordedIds := [];
      tracks := tracks0;
      lanes := lanes0;
      regions := regions0;
      actions := [];
    }

    // -------------------------------------------------------------------
    // Producer

    /** Takes an event from the pool and queues it; with the pool empty the
        event is dropped. */
    method Push(ev: RecordingEvent)
      modifies this`queue, this`pool
      ensures old(pool) > 0 ==> queue == old(queue) + [ev] && pool == old(pool) - 1
      ensures old(pool) == 0 ==> queue == old(queue) && pool == 0
      ensures pool + |queue| == old(pool) + |old(queue)|
    {
      if pool > 0 {
        queue := queue + [ev];
        pool := pool - 1;
      }
    }

    /** Of the events `sent` since the queue was `q0` and the pool held
        `p0`, those the pool had room for are queued in order. */
    ghost predicate Delivered(q0: seq<RecordingEvent>, p0: nat, sent: seq<RecordingEvent>)
      reads this
    {
      queue == q0 + Take(sent, p0) && pool == p0 - Min(p0, |sent|)
    }

    method Send(ev: RecordingEvent, ghost q0: seq<RecordingEvent>, ghost p0: nat, ghost sent: seq<RecordingEvent>)
      requires Delivered(q0, p0, sent)
      modifies this`queue, this`pool
      ensures Delivered(q0, p0, sent + [ev])
    {
      TakeSnoc(sent, ev, p0);
      Push(ev);
    }

    /** The events of one automation lane. */
    method SendLane(t: Transport, c: Cycle, name: string, l: LaneView,
                    ghost q0: seq<RecordingEvent>, ghost p0: nat, ghost sent: seq<RecordingEvent>)
      requires Delivered(q0, p0, sent)
      modifies this`queue, this`pool
      ensures Delivered(q0, p0, sent + LaneControl(t, c, name, l))
    {
      var rolling := t.rolling;
      var inside := if t.punchMode then c.inPunchRange else true;
      ghost var s := sent;
      if (!rolling || !inside || !l.shouldRecord) && l.started {
        Send(Notice(StopAutomation, c, name, l.lane), q0, p0, s);
        s := s + [Notice(StopAutomation, c, name, l.lane)];
      }
      if rolling && inside && l.shouldRecord {
        var split := false;
        if l.started && c.reachedLoopEnd {
          Send(Notice(SplitAutomation, c, name, l.lane), q0, p0, s);
          s := s + [Notice(SplitAutomation, c, name, l.lane)];
          split := true;
        } else if !l.started {
          Send(Notice(StartAutomation, c, name, l.lane), q0, p0, s);
          s := s + [Notice(StartAutomation, c, name, l.lane)];
        }
        if !split {
          Send(Notice(AutomationMaterial, c, name, l.lane), q0, p0, s);
          s := s + [Notice(AutomationMaterial, c, name, l.lane)];
        }
      }
      assert s == sent + LaneControl(t, c, name, l);
    }

    /** The start, split or stop event of the track; `stop` tells whether
        the track does not record this cycle. */
    method SendTrack(t: Transport, c: Cycle, tr: TrackView,
                     ghost q0: seq<RecordingEvent>, ghost p0: nat, ghost sent: seq<RecordingEvent>)
      returns (stop: bool)
      requires Delivered(q0, p0, sent)
      modifies this`queue, this`pool
      ensures Delivered(q0, p0, sent + TrackControl(t, c, tr))
      ensures stop <==> !Capturing(t, c, tr)
    {
      var inside := if t.punchMode then c.inPunchRange else true;
      stop := false;
      if !t.recording || !tr.armed || !t.rolling || !inside {
        if tr.canRecord && tr.hasRegion {
          Send(Notice(StopTrack, c, tr.name, 0), q0, p0, sent);
        } else {
          assert sent + TrackControl(t, c, tr) == sent;
        }
        stop := true;
      } else if inside && tr.canRecord && c.reachedLoopEnd && tr.hasRegion {
        Send(Notice(SplitTrack, c, tr.name, 0), q0, p0, sent);
      } else if inside && tr.canRecord && !tr.hasRegion {
        Send(Notice(StartTrack, c, tr.name, 0), q0, p0, sent);
      } else {
        assert sent + TrackControl(t, c, tr) == sent;
      }
    }

    /** The material of a recording track: one MIDI event per message (or
        one without a message), or one audio event. */
    method SendMaterial(t: Transport, c: Cycle, tr: TrackView, msgs: seq<MidiMessage>, lbuf: seq<real>, rbuf: seq<real>,
                        ghost q0: seq<RecordingEvent>, ghost p0: nat, ghost sent0: seq<RecordingEvent>)
      requires Capturing(t, c, tr) && Delivered(q0, p0, sent0)
      modifies this`queue, this`pool
      ensures Delivered(q0, p0, sent0 + Material(t, c, tr, msgs, lbuf, rbuf))
    {
      ghost var sent := sent0;
      if tr.capture == PianoRoll {
        var k := 0;
        while k < |msgs|
          invariant 0 <= k <= |msgs|
          invariant sent == sent0 + MidiEvents(c, tr.name, msgs[..k])
          invariant Delivered(q0, p0, sent)
        {
          Send(MidiNotice(c, tr.name, Some(msgs[k])), q0, p0, sent);
          assert msgs[..k + 1][..k] == msgs[..k];
          sent := sent + [MidiNotice(c, tr.name, Some(msgs[k]))];
          k := k + 1;
        }
        assert msgs[..|msgs|] == msgs;
        if |msgs| == 0 {
          Send(MidiNotice(c, tr.name, None), q0, p0, sent);
          sent := sent + [MidiNotice(c, tr.name, None)];
        }
      } else if tr.capture == AudioInput {
        var ev := RecordingEvent(AudioMaterial, c.gStart, c.localOffset, c.nframes, tr.name, 0, None, lbuf, rbuf);
        Send(ev, q0, p0, sent);
        sent := sent + [ev];
      }
      assert sent == sent0 + Material(t, c, tr, msgs, lbuf, rbuf);
    }

    /** The events of every lane, lane by lane. */
    method SendLanes(t: Transport, c: Cycle, name: string, views: seq<LaneView>,
                     ghost q0: seq<RecordingEvent>, ghost p0: nat, ghost sent0: seq<RecordingEvent>)
      requires Delivered(q0, p0, sent0)
      modifies this`queue, this`pool
      ensures Delivered(q0, p0, sent0 + LanesControl(t, c, name, views))
    {
      ghost var sent := sent0;
      var i := 0;
      while i < |views|
        invariant 0 <= i <= |views|
        invariant sent == sent0 + LanesControl(t, c, name, views[..i])
        invariant Delivered(q0, p0, sent)
      {
        SendLane(t, c, name, views[i], q0, p0, sent);
        assert views[..i + 1][..i] == views[..i];
        sent := sent + LaneControl(t, c, name, views[i]);
        i := i + 1;
      }
      assert views[..|views|] == views;
    }

    /** The producer: queues the track's start, split or stop event, each
        lane's events and the captured material, in that order, as far as
        the pool has free events. */
    method HandleRecording(t: Transport, c: Cycle, blockLength: nat, tr: TrackView, views: seq<LaneView>,
                           msgs: seq<MidiMessage>, lbuf: seq<real>, rbuf: seq<real>)
      modifies this`queue, this`pool
      ensures var p := Produced(t, c, blockLength, tr, views, msgs, lbuf, rbuf);
              queue == old(queue) + Take(p, old(pool)) && pool == old(pool) - Min(old(pool), |p|)
    {
      ghost var q0, p0 := queue, pool;
      if c.localOffset + c.nframes > blockLength {
        return;
      }
      var stop := SendTrack(t, c, tr, q0, p0, []);
      SendLanes(t, c, tr.name, views, q0, p0, TrackControl(t, c, tr));
      ghost var sent := TrackControl(t, c, tr) + LanesControl(t, c, tr.name, views);
      if stop {
        assert sent + Material(t, c, tr, msgs, lbuf, rbuf) == sent;
        return;
      }
      SendMaterial(t, c, tr, msgs, lbuf, rbuf, q0, p0, sent);
    }

    // -------------------------------------------------------------------
    // Consumer

    /** Adds a region's identifier to the recorded ones. */
    method AddRecordedId(id: RegionId)
      modifies this`recordedIds
      ensures recordedIds == old(recordedIds) + [id]
    {
      recordedIds := recordedIds + [id];
    }

    /** Adds a region to a track's lane and makes it the track's recording
        region. */
    method AddRegion(name: string, tr: Track, id: RegionId, r: Region)
      modifies this`tracks, this`regions, this`recordedIds
      ensures Snapshot() == Open(old(Snapshot()), name, tr, id, r)
    {
      tracks := tracks[name := tr.(laneRegions := AddToLane(tr.laneRegions, id.lanePos), recordingRegion := Some(id))];
      regions := regions[id := r];
      AddRecordedId(id);
    }

    /** Opens the region of a track whose recording starts. */
    method HandleStartRecording(t: Transport, ev: RecordingEvent)
      modifies this`tracks, this`regions, this`recordedIds
      ensures Snapshot() == StartTrackRecording(old(Snapshot()), t, ev)
    {
      if ev.track !in tracks {
        return;
      }
      var tr := tracks[ev.track];
      if tr.recordingRegion.Some? {
        return;
      }
      var start := EventStart(ev);
      var end := EventEnd(ev);
      if LoopPointMet(t, start, ev.nframes) {
        start := t.loopStart;
        end := (end - t.loopEnd) + start;
      }
      var lane := LastLane(tr);
      if tr.capture == PianoRoll {
        AddRegion(ev.track, tr, NewRegionId(tr, MidiRegion, lane), Region(start, end, end - start, end - start, [], []));
      } else if tr.capture == AudioInput {
        AddRegion(ev.track, tr, NewRegionId(tr, AudioRegion, lane),
                  Region(start, start + ev.nframes, ev.nframes, ev.nframes, Zeros(Channels * ev.nframes), []));
      }
    }

    /** Grows the recording region to the event's end and writes the
        event's samples into its clip. */
    method HandleAudioEvent(ev: RecordingEvent)
      modifies this`regions
      ensures Snapshot() == RecordAudio(old(Snapshot()), ev)
    {
      if !(ev.track in tracks && tracks[ev.track].recordingRegion.Some? && tracks[ev.track].recordingRegion.value in regions) {
        return;
      }
      var id := tracks[ev.track].recordingRegion.value;
      var r := regions[id];
      var len := EventEnd(ev) - r.start;
      var n: nat := if len < 0 then 0 else len;
      var frames := WriteSamples(Resized(r.frames, Channels * n), EventStart(ev) - r.start, ev.nframes,
                                 ev.lbuf, ev.rbuf, ev.localOffset);
      regions := regions[id := r.(end := EventEnd(ev), loopEnd := len, fadeOut := len, frames := frames)];
    }

    /** Grows the recording region to the event's end and turns its MIDI
        message into a note. */
    method HandleMidiEvent(ev: RecordingEvent)
      modifies this`regions
      ensures Snapshot() == RecordMidi(old(Snapshot()), ev)
    {
      if !(ev.track in tracks && tracks[ev.track].recordingRegion.Some? && tracks[ev.track].recordingRegion.value in regions) {
        return;
      }
      var id := tracks[ev.track].recordingRegion.value;
      var r := regions[id];
      var r1 := r.(end := EventEnd(ev), loopEnd := EventEnd(ev));
      if ev.midi.None? {
        regions := regions[id := r1];
        return;
      }
      var localStart := EventStart(ev) - r.start;
      var localEnd := EventEnd(ev) - r.start;
      match ev.midi.value {
        case NoteOn(p, v) =>
          regions := regions[id := r1.(notes := r.notes + [Note(p, v, localStart, localEnd, true)])];
        case NoteOff(p) =>
          regions := regions[id := r1.(notes := CloseNote(r.notes, p, localEnd))];
        case OtherMessage =>
          regions := regions[id := r1];
      }
    }

    /** Closes the recording region at the loop end and opens the next one
        at the loop start, one lane further down. */
    method HandleSplitEvent(t: Transport, ev: RecordingEvent)
      modifies this`tracks, this`regions, this`recordedIds
      ensures Snapshot() == SplitTrackRecording(old(Snapshot()), t, ev)
    {
      if !(ev.track in tracks && tracks[ev.track].recordingRegion.Some? && tracks[ev.track].recordingRegion.value in regions) {
        return;
      }
      var tr := tracks[ev.track];
      var id := tr.recordingRegion.value;
      var r := regions[id];
      var rLoopEnd := t.loopEnd - r.start;
      var closed := r.(end := t.loopEnd, loopEnd := rLoopEnd);
      var lane := id.lanePos + 1;
      if tr.capture == PianoRoll {
        regions := regions[id := closed.(notes := CloseAll(r.notes, rLoopEnd))];
        AddRegion(ev.track, tr, NewRegionId(tr, MidiRegion, lane), Region(t.loopStart, t.loopStart + 1, 1, 1, [], []));
      } else if tr.capture == AudioInput {
        var n: nat := if rLoopEnd < 0 then 0 else rLoopEnd;
        var frames := WriteSamples(Resized(r.frames, Channels * n), ev.gStart - r.start, ev.nframes,
                                   ev.lbuf, ev.rbuf, ev.localOffset);
        regions := regions[id := closed.(fadeOut := rLoopEnd, frames := frames)];
        AddRegion(ev.track, tr, NewRegionId(tr, AudioRegion, lane),
                  Region(t.loopStart, t.loopStart + 1, 1, 1, Zeros(Channels), []));
      } else {
        regions := regions[id := closed];
      }
    }

    /** Hands one record action with the selected regions to the undo
        history, unless one of them cannot be found. */
    method OnStopRecording(automation: bool)
      modifies this`actions
      ensures Snapshot() == StopRecording(old(Snapshot()), automation)
    {
      var sel, found := SelectRecorded(recordedIds, automation, regions);
      if found {
        actions := actions + [sel];
      }
    }

    /** Handles one event by its type. */
    method Dispatch(t: Transport, ev: RecordingEvent)
      modifies this`isRecording, this`recordedIds, this`tracks, this`lanes, this`regions, this`actions
      ensures Snapshot() == Step(old(Snapshot()), t, ev)
    {
      match ev.kind {
        case MidiMaterial =>
          HandleMidiEvent(ev);
        case AudioMaterial =>
          HandleAudioEvent(ev);
        case AutomationMaterial =>
        case SplitTrack =>
          HandleSplitEvent(t, ev);
        case SplitAutomation =>
        case StopTrack =>
          if isRecording {
            OnStopRecording(false);
          }
          isRecording := false;
          if ev.track in tracks {
            tracks := tracks[ev.track := tracks[ev.track].(recordingRegion := None)];
          }
        case StopAutomation =>
          if ev.lane in lanes {
            if lanes[ev.lane].started {
              OnStopRecording(true);
            }
            lanes := lanes[ev.lane := Lane(false, None)];
          }
        case StartTrack =>
          if !isRecording {
            recordedIds := [];
          }
          isRecording := true;
          HandleStartRecording(t, ev);
        case StartAutomation =>
          if ev.lane in lanes {
            lanes := lanes[ev.lane := lanes[ev.lane].(started := true)];
          }
        case Malformed(_) =>
      }
    }

    /** The consumer as written in its pool accounting: drains the queue in
        order, skipping a rejected event before it is returned to the pool.
        Each event is handled by Dispatch, whose audio split copies with the
        interleaved layout (see CopyBeforeLoopAsWritten for the copy as
        written). */
    method EventsProcessAsWritten(t: Transport)
      modifies this
      ensures queue == []
      ensures Snapshot() == Drain(old(Snapshot()), t, old(queue))
      ensures pool == old(pool) + |old(queue)| - RejectedCount(old(queue))
    {
      ghost var s0, q0, p0 := Snapshot(), queue, pool;
      while |queue| > 0
        invariant Drain(Snapshot(), t, queue) == Drain(s0, t, q0)
        invariant pool + |queue| - RejectedCount(queue) == p0 + |q0| - RejectedCount(q0)
        decreases |queue|
      {
        var ev := queue[0];
        queue := queue[1..];
        if ev.kind.Malformed? && ev.kind.code < 0 {
          continue;
        }
        Dispatch(t, ev);
        pool := pool + 1;
      }
    }

    /** The consumer with every event returned to the pool: draining keeps
        every pooled event accounted for. */
    method EventsProcess(t: Transport)
      modifies this
      ensures queue == []
      ensures Snapshot() == Drain(old(Snapshot()), t, old(queue))
      ensures pool == old(pool) + |old(queue)|
      ensures old(Conserved()) ==> Conserved() && pool == PoolSize
    {
      ghost var s0, q0, p0 := Snapshot(), queue, pool;
      while |queue| > 0
        invariant Drain(Snapshot(), t, queue) == Drain(s0, t, q0)
        invariant pool + |queue| == p0 + |q0|
        decreases |queue|
      {
        var ev := queue[0];
        queue := queue[1..];
        if !(ev.kind.Malformed? && ev.kind.code < 0) {
          Dispatch(t, ev);
        }
        pool := pool + 1;
      }
    }
  }
}
