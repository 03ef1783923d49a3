/** Ports and their connections (src/audio/port.c).

    A `Port` keeps its edges in fixed-size parallel arrays, as the source
    does: `dests`, `destIds`, `multipliers`, `destLocked` and `destEnabled`
    for the outgoing edges, `srcs` and `srcIds` for the incoming ones, each
    used up to a counter.  `port_connect` and `port_disconnect` are methods
    that write those arrays and counters in place, and their contracts state
    the new lists of the two ports involved.  The same updates, applied to
    the port graph as a value (`Adjacency` lists per port), keep it well
    formed: edges stay among the ports, no edge is listed twice, and the
    source and destination lists mirror each other. */
module Ports {
  import opened Wrappers
  import opened PortIdentifiers

  /** A MIDI event as a port buffer holds it. */
  datatype MidiEvent = MidiEvent(time: int, status: int, data1: int, data2: int)

  class Port {
    var identifier: PortIdentifier
    /** Per-cycle sample buffer (audio and CV ports), `block_length` long. */
    const buf: array<real>
    /** The events of an event port (`midi_events`). */
    var events: seq<MidiEvent>
    /** Current value and modulation baseline of the LV2 control a control
        port wraps, and that control's range. */
    var control: real
    var baseValue: real
    const minf: real
    const maxf: real
    /** The owning track's "had MIDI activity" indicator. */
    var trackActivity: bool
    /** Whether the port wraps an LV2 port (`internal_type ==
        INTERNAL_LV2_PORT`). */
    const internalLv2: bool

    const dests: array<Port?>
    const destIds: array<PortIdentifier>
    const multipliers: array<real>
    const destLocked: array<bool>
    const destEnabled: array<bool>
    var numDests: nat
    const srcs: array<Port?>
    const srcIds: array<PortIdentifier>
    var numSrcs: nat

    /** The arrays this port owns. */
    ghost function Repr(): set<object>
    {
      {buf as object, dests, destIds, multipliers, destLocked, destEnabled, srcs, srcIds}
    }

    ghost predicate Valid()
      reads this`numDests, this`numSrcs
    {
      dests != srcs && destIds != srcIds && multipliers != buf && destLocked != destEnabled &&
      destIds.Length == dests.Length && multipliers.Length == dests.Length &&
      destLocked.Length == dests.Length && destEnabled.Length == dests.Length &&
      srcs.Length == dests.Length && srcIds.Length == dests.Length &&
      numDests <= dests.Length && numSrcs <= srcs.Length
    }

    /** Size of the fixed edge arrays. */
    function Capacity(): nat
    {
      dests.Length
    }

    ghost function DestList(): seq<Port?>
      reads this`numDests, dests
      requires numDests <= dests.Length
    {
      dests[..numDests]
    }

    ghost function DestIds(): seq<PortIdentifier>
      reads this`numDests, destIds
      requires numDests <= destIds.Length
    {
      destIds[..numDests]
    }

    ghost function Multipliers(): seq<real>
      reads this`numDests, multipliers
      requires numDests <= multipliers.Length
    {
      multipliers[..numDests]
    }

    ghost function Locked(): seq<bool>
      reads this`numDests, destLocked
      requires numDests <= destLocked.Length
    {
      destLocked[..numDests]
    }

    ghost function Enabled(): seq<bool>
      reads this`numDests, destEnabled
      requires numDests <= destEnabled.Length
    {
      destEnabled[..numDests]
    }

    ghost function SrcList(): seq<Port?>
      reads this`numSrcs, srcs
      requires numSrcs <= srcs.Length
    {
      srcs[..numSrcs]
    }

    ghost function SrcIds(): seq<PortIdentifier>
      reads this`numSrcs, srcIds
      requires numSrcs <= srcIds.Length
    {
      srcIds[..numSrcs]
    }

    /** `port_new_with_type`: a zero-filled buffer of `blockLength` samples,
        no edges, no events, and an identifier whose track position and
        plugin slot are the unset sentinel -1.  `capacity` is the size of the
        fixed edge arrays; `minf` and `maxf` the range of the wrapped control.
        `internalLv2` is false for `port_new_with_type`, which leaves the
        internal type zeroed, and true for `port_new_with_data` called with
        `INTERNAL_LV2_PORT`. */
    constructor (ptype: PortType, flow: PortFlow, name: string, blockLength: nat, capacity: nat, minf: real, maxf: real,
                 internalLv2: bool)
      ensures Valid() && fresh(Repr())
      ensures identifier == NewIdentifier(ptype, flow, name)
      ensures buf.Length == blockLength && buf[..] == seq(blockLength, _ => 0.0)
      ensures Capacity() == capacity && numDests == 0 && numSrcs == 0
      ensures events == [] && control == 0.0 && baseValue == 0.0 && !trackActivity
      ensures this.minf == minf && this.maxf == maxf && this.internalLv2 == internalLv2
    {
      identifier := NewIdentifier(ptype, flow, name);
      var b := new real[blockLength](_ => 0.0);
      var d := new Port?[capacity];
      var di := new PortIdentifier[capacity](_ => PortIdentifier("", OwnerBackend, TypeUnknown, FlowUnknown, {}, -1, -1, 0));
      var m := new real[capacity](_ => 0.0);
      var dl := new bool[capacity](_ => false);
      var de := new bool[capacity](_ => false);
      var s := new Port?[capacity];
      var si := new PortIdentifier[capacity](_ => PortIdentifier("", OwnerBackend, TypeUnknown, FlowUnknown, {}, -1, -1, 0));
      buf, dests, destIds, multipliers, destLocked, destEnabled, srcs, srcIds := b, d, di, m, dl, de, s, si;
      events, control, baseValue, trackActivity := [], 0.0, 0.0, false;
      this.minf, this.maxf, this.internalLv2 := minf, maxf, internalLv2;
      numDests, numSrcs := 0, 0;
    }

    /** `port_set_owner_plugin`: the port belongs to the plugin in `slot`
        of the track at `trackPos`. */
    method SetOwnerPlugin(trackPos: nat, slot: nat)
      modifies this`identifier
      ensures identifier == Owned(old(identifier), ByPlugin(trackPos, slot))
    {
      identifier := identifier.(owner := OwnerPlugin, trackPos := trackPos, pluginSlot := slot);
    }

    /** `port_set_owner_sample_processor`: only the owner kind changes. */
    method SetOwnerSampleProcessor()
      modifies this`identifier
      ensures identifier == Owned(old(identifier), BySampleProcessor)
    {
      identifier := identifier.(owner := OwnerSampleProcessor);
    }

    /** `port_set_owner_track`. */
    method SetOwnerTrack(trackPos: nat)
      modifies this`identifier
      ensures identifier == Owned(old(identifier), ByTrack(trackPos))
    {
      identifier := identifier.(owner := OwnerTrack, trackPos := trackPos);
    }

    /** `port_set_owner_fader`: the position is that of the fader's track. */
    method SetOwnerFader(trackPos: nat)
      modifies this`identifier
      ensures identifier == Owned(old(identifier), ByFader(trackPos))
    {
      identifier := identifier.(owner := OwnerFader, trackPos := trackPos);
    }

    /** `port_set_owner_prefader`: the position is that of the prefader's
        track. */
    method SetOwnerPrefader(trackPos: nat)
      modifies this`identifier
      ensures identifier == Owned(old(identifier), ByPrefader(trackPos))
    {
      identifier := identifier.(owner := OwnerPrefader, trackPos := trackPos);
    }
  }

  /** Two distinct ports share no array. */
  ghost predicate Separate(p: Port, q: Port)
  {
    p.dests != q.dests && p.dests != q.srcs && p.srcs != q.dests && p.srcs != q.srcs &&
    p.destIds != q.destIds && p.destIds != q.srcIds && p.srcIds != q.destIds && p.srcIds != q.srcIds &&
    p.buf != q.buf && p.buf != q.multipliers && p.multipliers != q.buf && p.multipliers != q.multipliers &&
    p.destLocked != q.destLocked && p.destLocked != q.destEnabled &&
    p.destEnabled != q.destLocked && p.destEnabled != q.destEnabled
  }

  /** Only equal kinds connect, except that CV may drive a control port. */
  predicate Compatible(src: PortType, dest: PortType)
  {
    src == dest || (src == TypeCv && dest == TypeControl)
  }

  // ---------------------------------------------------------------------
  // Sequence helpers

  /** Removing the first occurrence of `x` from a list without repeats
      leaves a list without repeats that holds every other element. */
  lemma RemoveFirstNoDup<T>(s: seq<T>, x: T)
    requires NoDup(s)
    ensures NoDup(RemoveAt(s, IndexOf(s, x)))
    ensures forall y :: y in RemoveAt(s, IndexOf(s, x)) <==> y in s && y != x
  {
    var k := IndexOf(s, x);
    if k >= 0 {
      RemoveAtMembers(s, k);
      RemoveAtNoDup(s, k);
    }
  }

  lemma AppendNoDup<T>(s: seq<T>, x: T)
    requires NoDup(s) && x !in s
    ensures NoDup(s + [x])
  {
  }

  // ---------------------------------------------------------------------
  // The port graph as a value: what connect and disconnect keep

  /** The edges of one port, as its two lists. */
  datatype Adjacency = Adjacency(dests: seq<Port?>, srcs: seq<Port?>)

  /** Edges stay among the ports. */
  ghost predicate Closed(g: map<Port?, Adjacency>)
  {
    (forall p, q | p in g && q in g[p].dests :: q in g) &&
    (forall p, q | p in g && q in g[p].srcs :: q in g)
  }

  /** No edge is listed twice. */
  ghost predicate Distinct(g: map<Port?, Adjacency>)
  {
    forall p | p in g :: NoDup(g[p].dests) && NoDup(g[p].srcs)
  }

  /** `q` is a destination of `p` exactly when `p` is a source of `q`. */
  ghost predicate Mirrored(g: map<Port?, Adjacency>)
  {
    forall p, q | p in g && q in g :: q in g[p].dests <==> p in g[q].srcs
  }

  ghost predicate WellFormed(g: map<Port?, Adjacency>)
  {
    Closed(g) && Distinct(g) && Mirrored(g)
  }

  /** The adjacency after `port_disconnect (src, dest)`. */
  ghost function AfterDisconnect(g: map<Port?, Adjacency>, src: Port?, dest: Port?): map<Port?, Adjacency>
  {
    map p | p in g ::
      Adjacency(
        if p == src then RemoveAt(g[p].dests, IndexOf(g[p].dests, dest)) else g[p].dests,
        if p == dest then RemoveAt(g[p].srcs, IndexOf(g[p].srcs, src)) else g[p].srcs)
  }

  lemma DisconnectMembership(g: map<Port?, Adjacency>, src: Port?, dest: Port?)
    requires Distinct(g) && src in g && dest in g
    ensures forall q :: q in AfterDisconnect(g, src, dest)[src].dests <==> q in g[src].dests && q != dest
    ensures forall q :: q in AfterDisconnect(g, src, dest)[dest].srcs <==> q in g[dest].srcs && q != src
    ensures NoDup(AfterDisconnect(g, src, dest)[src].dests)
    ensures NoDup(AfterDisconnect(g, src, dest)[dest].srcs)
  {
    RemoveFirstNoDup(g[src].dests, dest);
    RemoveFirstNoDup(g[dest].srcs, src);
  }

  lemma RemoveAtSubset<T>(s: seq<T>, k: int)
    ensures forall y :: y in RemoveAt(s, k) ==> y in s
  {
    if 0 <= k < |s| {
      assert s == s[..k] + s[k..];
    }
  }

  /** The elements at odd positions, in order: what a forward loop that
      deletes the element at its index leaves behind. */
  function Odds<T>(s: seq<T>): (r: seq<T>)
    ensures |r| == |s| / 2
    ensures forall k :: 0 <= k < |r| ==> r[k] == s[2 * k + 1]
  {
    seq(|s| / 2, k requires 0 <= k < |s| / 2 => s[2 * k + 1])
  }

  function Min(a: int, b: int): int
  {
    if a < b then a else b
  }

  /** The list after `i` rounds of the forward loop: the first `i`
      survivors of the first `2 * i` entries, then the untouched rest. */
  function Thinned<T>(s: seq<T>, i: nat): seq<T>
  {
    var m := Min(2 * i, |s|);
    Odds(s[..m]) + s[m..]
  }

  /** One forward step: removing position `i` of the partly thinned list
      thins one more pair. */
  lemma {:induction false} OddsStep<T>(s: seq<T>, i: nat)
    requires 2 * i < |s|
    ensures i < |Thinned(s, i)|
    ensures RemoveAt(Thinned(s, i), i) == Thinned(s, i + 1)
  {
    var l := Thinned(s, i);
    var r := Thinned(s, i + 1);
    assert |RemoveAt(l, i)| == |r|;
    forall k | 0 <= k < |r|
      ensures RemoveAt(l, i)[k] == r[k]
    {
      RemoveAtIndex(l, i, k);
    }
  }

  lemma ThinnedLength<T>(s: seq<T>, i: nat)
    requires 2 * i <= |s| + 1
    ensures |Thinned(s, i)| == if 2 * i <= |s| then |s| - i else i - 1
  {
  }

  /** Once the index passes the end of the thinned list, only the odd
      positions are left. */
  lemma ThinnedDone<T>(s: seq<T>, i: nat)
    requires 2 * i <= |s| + 1 && |Thinned(s, i)| <= i
    ensures Thinned(s, i) == Odds(s)
  {
    assert s[..|s|] == s;
  }

  /** Two or more edges are never all removed by the forward loop: the
      second one always survives. */
  lemma OddsKeepsSecond<T>(s: seq<T>)
    requires |s| >= 2
    ensures Odds(s) != [] && Odds(s)[0] == s[1]
  {
  }

  lemma DisconnectClosed(g: map<Port?, Adjacency>, src: Port?, dest: Port?)
    requires Closed(g) && src in g && dest in g
    ensures Closed(AfterDisconnect(g, src, dest))
  {
    var h := AfterDisconnect(g, src, dest);
    RemoveAtSubset(g[src].dests, IndexOf(g[src].dests, dest));
    RemoveAtSubset(g[dest].srcs, IndexOf(g[dest].srcs, src));
    forall p, q | p in h && q in h[p].dests ensures q in h {
      assert q in g[p].dests;
    }
    forall p, q | p in h && q in h[p].srcs ensures q in h {
      assert q in g[p].srcs;
    }
  }

  lemma DisconnectMirrored(g: map<Port?, Adjacency>, src: Port?, dest: Port?)
    requires Mirrored(g) && Distinct(g) && src in g && dest in g
    ensures Mirrored(AfterDisconnect(g, src, dest))
  {
    var h := AfterDisconnect(g, src, dest);
    DisconnectMembership(g, src, dest);
    forall p, q | p in h && q in h
      ensures q in h[p].dests <==> p in h[q].srcs
    {
      assert q in g[p].dests <==> p in g[q].srcs;
      assert q in h[p].dests <==> q in g[p].dests && (p != src || q != dest);
      assert p in h[q].srcs <==> p in g[q].srcs && (p != src || q != dest);
    }
  }

  /** Disconnecting keeps the adjacency well formed and leaves no edge
      between the pair. */
  lemma DisconnectWellFormed(g: map<Port?, Adjacency>, src: Port?, dest: Port?)
    requires WellFormed(g) && src in g && dest in g
    ensures WellFormed(AfterDisconnect(g, src, dest))
    ensures dest !in AfterDisconnect(g, src, dest)[src].dests
    ensures src !in AfterDisconnect(g, src, dest)[dest].srcs
  {
    DisconnectMembership(g, src, dest);
    DisconnectClosed(g, src, dest);
    DisconnectMirrored(g, src, dest);
  }

  /** The edge `src -> dest` appended last to both lists, when `ok`. */
  ghost function AddEdge(h: map<Port?, Adjacency>, src: Port?, dest: Port?, ok: bool): map<Port?, Adjacency>
  {
    map p | p in h ::
      Adjacency(
        if ok && p == src then h[p].dests + [dest] else h[p].dests,
        if ok && p == dest then h[p].srcs + [src] else h[p].srcs)
  }

  /** The adjacency after `port_connect (src, dest)`; `ok` tells whether
      the kinds were compatible, and the edge is only appended then. */
  ghost function AfterConnect(g: map<Port?, Adjacency>, src: Port?, dest: Port?, ok: bool): map<Port?, Adjacency>
  {
    AddEdge(AfterDisconnect(g, src, dest), src, dest, ok)
  }

  /** The lists of `AddEdge`, one port at a time. */
  lemma AddEdgeAt(h: map<Port?, Adjacency>, src: Port?, dest: Port?, ok: bool, p: Port?, q: Port?)
    requires p in h
    ensures p in AddEdge(h, src, dest, ok)
    ensures q in AddEdge(h, src, dest, ok)[p].dests <==> q in h[p].dests || (ok && p == src && q == dest)
    ensures q in AddEdge(h, src, dest, ok)[p].srcs <==> q in h[p].srcs || (ok && p == dest && q == src)
  {
  }

  lemma AddEdgeClosed(h: map<Port?, Adjacency>, src: Port?, dest: Port?, ok: bool)
    requires Closed(h) && src in h && dest in h
    ensures Closed(AddEdge(h, src, dest, ok))
  {
    var c := AddEdge(h, src, dest, ok);
    forall p, q | p in c && q in c[p].dests ensures q in c {
      AddEdgeAt(h, src, dest, ok, p, q);
    }
    forall p, q | p in c && q in c[p].srcs ensures q in c {
      AddEdgeAt(h, src, dest, ok, p, q);
    }
  }

  lemma AddEdgeDistinct(h: map<Port?, Adjacency>, src: Port?, dest: Port?, ok: bool)
    requires Distinct(h) && src in h && dest in h
    requires dest !in h[src].dests && src !in h[dest].srcs
    ensures Distinct(AddEdge(h, src, dest, ok))
  {
    if ok {
      AppendNoDup(h[src].dests, dest);
      AppendNoDup(h[dest].srcs, src);
    }
  }

  lemma AddEdgeMirrored(h: map<Port?, Adjacency>, src: Port?, dest: Port?, ok: bool)
    requires Mirrored(h) && src in h && dest in h
    ensures Mirrored(AddEdge(h, src, dest, ok))
  {
    var c := AddEdge(h, src, dest, ok);
    forall p, q | p in c && q in c
      ensures q in c[p].dests <==> p in c[q].srcs
    {
      AddEdgeAt(h, src, dest, ok, p, q);
      AddEdgeAt(h, src, dest, ok, q, p);
    }
  }

  /** Appending a missing edge to both lists keeps the adjacency well
      formed. */
  lemma AddEdgeWellFormed(h: map<Port?, Adjacency>, src: Port?, dest: Port?, ok: bool)
    requires WellFormed(h) && src in h && dest in h
    requires dest !in h[src].dests && src !in h[dest].srcs
    ensures WellFormed(AddEdge(h, src, dest, ok))
  {
    AddEdgeClosed(h, src, dest, ok);
    AddEdgeDistinct(h, src, dest, ok);
    AddEdgeMirrored(h, src, dest, ok);
  }

  /** Connecting keeps the adjacency well formed: a successful connect
      leaves exactly one edge between the pair, a failed one none, and
      reconnecting an already connected pair does not grow either list. */
  lemma {:induction false} ConnectWellFormed(g: map<Port?, Adjacency>, src: Port?, dest: Port?, ok: bool)
    requires WellFormed(g) && src in g && dest in g
    ensures WellFormed(AfterConnect(g, src, dest, ok))
    ensures dest in AfterConnect(g, src, dest, ok)[src].dests <==> ok
    ensures src in AfterConnect(g, src, dest, ok)[dest].srcs <==> ok
    ensures ok && dest in g[src].dests ==> |AfterConnect(g, src, dest, ok)[src].dests| == |g[src].dests|
    ensures ok && dest !in g[src].dests ==> |AfterConnect(g, src, dest, ok)[src].dests| == |g[src].dests| + 1
  {
    var h := AfterDisconnect(g, src, dest);
    DisconnectWellFormed(g, src, dest);
    AddEdgeWellFormed(h, src, dest, ok);
    var k := IndexOf(g[src].dests, dest);
    if k >= 0 {
      assert |h[src].dests| == |g[src].dests| - 1;
    }
  }

  // ---------------------------------------------------------------------
  // Array primitives

  /** Position of `p` among the first `n` entries of `a` (the search of
      `array_delete_return_pos` and `array_contains`). */
  method FindPort(a: array<Port?>, n: nat, p: Port) returns (pos: int)
    requires n <= a.Length
    ensures pos == IndexOf(a[..n], p)
  {
    var i := 0;
    while i < n
      invariant 0 <= i <= n
      invariant p !in a[..i]
    {
      if a[i] == p {
        assert a[..n][..i] == a[..i];
        IndexOfUnique(a[..n], p, i);
        return i;
      }
      i := i + 1;
    }
    assert a[..n] == a[..i];
    return -1;
  }

  /** Moves the entries after `pos` one place down, over the entry at `pos`
      (the shift of `array_delete_return_pos` and of the identifier loop in
      `port_disconnect`). */
  method ShiftDown<T>(a: array<T>, pos: nat, n: nat)
    requires pos < n <= a.Length
    modifies a
    ensures a[..n - 1] == RemoveAt(old(a[..n]), pos)
    ensures a[n - 1..] == old(a[n - 1..])
  {
    ghost var a0 := a[..];
    var i := pos;
    while i < n - 1
      invariant pos <= i <= n - 1
      invariant forall j :: pos <= j < i ==> a[j] == a0[j + 1]
      invariant forall j :: 0 <= j < a.Length && !(pos <= j < i) ==> a[j] == a0[j]
    {
      a[i] := a[i + 1];
      i := i + 1;
    }
    ghost var r := RemoveAt(a0[..n], pos);
    assert |r| == n - 1;
    forall j | 0 <= j < n - 1
      ensures a[..n - 1][j] == r[j]
    {
      RemoveAtIndex(a0[..n], pos, j);
      assert a0[..n][j] == a0[j] && (j + 1 < n ==> a0[..n][j + 1] == a0[j + 1]);
    }
    assert a[..n - 1] == r;
  }

  // ---------------------------------------------------------------------
  // Connecting and disconnecting

  /** The `dests` half of `port_disconnect` as written: the first
      occurrence of `dest` is removed from `dests` by
      `array_delete_return_pos` and the identifiers after it are shifted
      down, while `multipliers`, `dest_locked` and `dest_enabled` stay where
      they were. */
  method RemoveDestAsWritten(src: Port, dest: Port)
    requires src.Valid()
    modifies src`numDests, src.dests, src.destIds
    ensures src.Valid()
    ensures var k := IndexOf(old(src.DestList()), dest);
      src.DestList() == RemoveAt(old(src.DestList()), k) &&
      src.DestIds() == RemoveAt(old(src.DestIds()), k)
    ensures src.numDests == if dest in old(src.DestList()) then old(src.numDests) - 1 else old(src.numDests)
    ensures src.Multipliers() == old(src.Multipliers())[..src.numDests]
    ensures src.Locked() == old(src.Locked())[..src.numDests]
    ensures src.Enabled() == old(src.Enabled())[..src.numDests]
  {
    var pos := FindPort(src.dests, src.numDests, dest);
    if pos >= 0 {
      ShiftDown(src.dests, pos, src.numDests);
      src.numDests := src.numDests - 1;
      ShiftDown(src.destIds, pos, src.numDests + 1);
    }
  }

  /** The `srcs` half of `port_disconnect`: the first occurrence of `src`
      is removed from `srcs` and the identifiers after it shift down. */
  method RemoveSrc(dest: Port, src: Port)
    requires dest.Valid()
    modifies dest`numSrcs, dest.srcs, dest.srcIds
    ensures dest.Valid()
    ensures var k := IndexOf(old(dest.SrcList()), src);
      dest.SrcList() == RemoveAt(old(dest.SrcList()), k) &&
      dest.SrcIds() == RemoveAt(old(dest.SrcIds()), k)
    ensures dest.numSrcs == if src in old(dest.SrcList()) then old(dest.numSrcs) - 1 else old(dest.numSrcs)
  {
    var pos := FindPort(dest.srcs, dest.numSrcs, src);
    if pos >= 0 {
      ShiftDown(dest.srcs, pos, dest.numSrcs);
      dest.numSrcs := dest.numSrcs - 1;
      ShiftDown(dest.srcIds, pos, dest.numSrcs + 1);
    }
  }

  /** The `dests` half with every parallel array shifted together, so each
      remaining edge keeps its own multiplier, lock and enabled flag. */
  method RemoveDest(src: Port, dest: Port)
    requires src.Valid()
    modifies src`numDests, src.dests, src.destIds, src.multipliers, src.destLocked, src.destEnabled
    ensures src.Valid()
    ensures var k := IndexOf(old(src.DestList()), dest);
      src.DestList() == RemoveAt(old(src.DestList()), k) &&
      src.DestIds() == RemoveAt(old(src.DestIds()), k) &&
      src.Multipliers() == RemoveAt(old(src.Multipliers()), k) &&
      src.Locked() == RemoveAt(old(src.Locked()), k) &&
      src.Enabled() == RemoveAt(old(src.Enabled()), k)
    ensures src.numDests == if dest in old(src.DestList()) then old(src.numDests) - 1 else old(src.numDests)
  {
    var pos := FindPort(src.dests, src.numDests, dest);
    if pos >= 0 {
      var n := src.numDests;
      ShiftDown(src.dests, pos, n);
      ShiftDown(src.destIds, pos, n);
      ShiftDown(src.multipliers, pos, n);
      ShiftDown(src.destLocked, pos, n);
      ShiftDown(src.destEnabled, pos, n);
      src.numDests := n - 1;
    }
  }

  /** `port_disconnect` as written (see RemoveDestAsWritten). */
  method DisconnectAsWritten(src: Port, dest: Port)
    requires src.Valid() && dest.Valid() && Separate(src, dest)
    modifies src`numDests, src.dests, src.destIds, dest`numSrcs, dest.srcs, dest.srcIds
    ensures src.Valid() && dest.Valid()
    ensures var k := IndexOf(old(src.DestList()), dest);
      src.DestList() == RemoveAt(old(src.DestList()), k) &&
      src.DestIds() == RemoveAt(old(src.DestIds()), k)
    ensures var k := IndexOf(old(dest.SrcList()), src);
      dest.SrcList() == RemoveAt(old(dest.SrcList()), k) &&
      dest.SrcIds() == RemoveAt(old(dest.SrcIds()), k)
    ensures src.numDests == if dest in old(src.DestList()) then old(src.numDests) - 1 else old(src.numDests)
    ensures src.Multipliers() == old(src.Multipliers())[..src.numDests]
    ensures src.Locked() == old(src.Locked())[..src.numDests]
    ensures src.Enabled() == old(src.Enabled())[..src.numDests]
  {
    RemoveDestAsWritten(src, dest);
    RemoveSrc(dest, src);
  }

  /** A source connected to `a` with a lock and then to `b` without one:
      disconnecting `a` as written moves `b` into the first slot but leaves
      the lock of `a` there, so `b` reads as locked. */
  method LockAfterDisconnectAsWritten(s: Port, a: Port, b: Port) returns (locked: bool)
    requires s.Valid() && a.Valid() && Separate(s, a) && a != b
    requires s.DestList() == [a, b] && s.Locked() == [true, false]
    modifies s`numDests, s.dests, s.destIds, a`numSrcs, a.srcs, a.srcIds
    ensures s.Valid() && s.DestList() == [b] && locked
  {
    DisconnectAsWritten(s, a);
    assert s.Locked() == [true];
    locked := s.destLocked[0];
  }

  /** The same situation with Disconnect: `b` keeps its own unlocked flag. */
  method LockAfterDisconnect(s: Port, a: Port, b: Port) returns (locked: bool)
    requires s.Valid() && a.Valid() && Separate(s, a) && a != b
    requires s.DestList() == [a, b] && s.Locked() == [true, false]
    modifies s`numDests, s.dests, s.destIds, s.multipliers, s.destLocked, s.destEnabled
    modifies a`numSrcs, a.srcs, a.srcIds
    ensures s.Valid() && s.DestList() == [b] && !locked
  {
    Disconnect(s, a);
    assert s.Locked() == [false];
    locked := s.destLocked[0];
  }

  /** `port_disconnect` with all parallel arrays shifted: removes `dest`
      from the destinations of `src` and `src` from the sources of `dest`,
      keeping the order of the remaining edges and each edge's own
      multiplier, lock and enabled flag; nothing changes when the two were
      not connected. */
  method Disconnect(src: Port, dest: Port)
    requires src.Valid() && dest.Valid() && Separate(src, dest)
    modifies src`numDests, src.dests, src.destIds, src.multipliers, src.destLocked, src.destEnabled
    modifies dest`numSrcs, dest.srcs, dest.srcIds
    ensures src.Valid() && dest.Valid()
    ensures var k := IndexOf(old(src.DestList()), dest);
      src.DestList() == RemoveAt(old(src.DestList()), k) &&
      src.DestIds() == RemoveAt(old(src.DestIds()), k) &&
      src.Multipliers() == RemoveAt(old(src.Multipliers()), k) &&
      src.Locked() == RemoveAt(old(src.Locked()), k) &&
      src.Enabled() == RemoveAt(old(src.Enabled()), k)
    ensures var k := IndexOf(old(dest.SrcList()), src);
      dest.SrcList() == RemoveAt(old(dest.SrcList()), k) &&
      dest.SrcIds() == RemoveAt(old(dest.SrcIds()), k)
    ensures src.SrcList() == old(src.SrcList()) && dest.DestList() == old(dest.DestList())
    ensures src.numDests == if dest in old(src.DestList()) then old(src.numDests) - 1 else old(src.numDests)
    ensures dest.numSrcs == if src in old(dest.SrcList()) then old(dest.numSrcs) - 1 else old(dest.numSrcs)
  {
    RemoveDest(src, dest);
    RemoveSrc(dest, src);
  }

  /** The append half of `port_connect` on the source side. */
  method AppendDest(src: Port, dest: Port, locked: bool)
    requires src.Valid() && src.numDests < src.Capacity()
    modifies src`numDests, src.dests, src.destIds, src.multipliers, src.destLocked, src.destEnabled
    ensures src.Valid()
    ensures src.DestList() == old(src.DestList()) + [dest]
    ensures src.DestIds() == old(src.DestIds()) + [dest.identifier]
    ensures src.Multipliers() == old(src.Multipliers()) + [1.0]
    ensures src.Locked() == old(src.Locked()) + [locked]
    ensures src.Enabled() == old(src.Enabled()) + [true]
  {
    var n := src.numDests;
    src.dests[n] := dest;
    src.destIds[n] := dest.identifier;
    src.multipliers[n] := 1.0;
    src.destLocked[n] := locked;
    src.destEnabled[n] := true;
    src.numDests := n + 1;
    assert src.dests[..n + 1] == old(src.dests[..n]) + [dest];
    assert src.destIds[..n + 1] == old(src.destIds[..n]) + [dest.identifier];
    assert src.multipliers[..n + 1] == old(src.multipliers[..n]) + [1.0];
    assert src.destLocked[..n + 1] == old(src.destLocked[..n]) + [locked];
    assert src.destEnabled[..n + 1] == old(src.destEnabled[..n]) + [true];
  }

  /** The append half of `port_connect` on the destination side. */
  method AppendSrc(dest: Port, src: Port)
    requires dest.Valid() && dest.numSrcs < dest.Capacity()
    modifies dest`numSrcs, dest.srcs, dest.srcIds
    ensures dest.Valid()
    ensures dest.SrcList() == old(dest.SrcList()) + [src]
    ensures dest.SrcIds() == old(dest.SrcIds()) + [src.identifier]
  {
    var n := dest.numSrcs;
    dest.srcs[n] := src;
    dest.srcIds[n] := src.identifier;
    dest.numSrcs := n + 1;
    assert dest.srcs[..n + 1] == old(dest.srcs[..n]) + [src];
    assert dest.srcIds[..n + 1] == old(dest.srcIds[..n]) + [src.identifier];
  }

  /** The append half of `port_connect` for both ends, followed by the
      capture of the modulation baseline when CV drives an LV2 control. */
  method Attach(src: Port, dest: Port, locked: bool)
    requires src.Valid() && dest.Valid() && Separate(src, dest)
    requires src.numDests < src.Capacity() && dest.numSrcs < dest.Capacity()
    modifies src`numDests, src.dests, src.destIds, src.multipliers, src.destLocked, src.destEnabled
    modifies dest`numSrcs, dest.srcs, dest.srcIds, dest`baseValue
    ensures src.Valid() && dest.Valid()
    ensures src.DestList() == old(src.DestList()) + [dest] && src.DestIds() == old(src.DestIds()) + [dest.identifier]
    ensures src.Multipliers() == old(src.Multipliers()) + [1.0]
    ensures src.Locked() == old(src.Locked()) + [locked] && src.Enabled() == old(src.Enabled()) + [true]
    ensures dest.SrcList() == old(dest.SrcList()) + [src] && dest.SrcIds() == old(dest.SrcIds()) + [src.identifier]
    ensures src.SrcList() == old(src.SrcList()) && dest.DestList() == old(dest.DestList())
    ensures dest.baseValue ==
      if src.identifier.ptype == TypeCv && dest.identifier.ptype == TypeControl && dest.internalLv2 then dest.control
      else old(dest.baseValue)
  {
    AppendDest(src, dest, locked);
    AppendSrc(dest, src);
    if src.identifier.ptype == TypeCv && dest.identifier.ptype == TypeControl && dest.internalLv2 {
      dest.baseValue := dest.control;
    }
  }

  /** What `port_connect` needs so that its appends stay inside the fixed
      arrays: a compatible pair that is not yet connected needs a free slot
      on each side.  Reconnecting frees the slot first, and an incompatible
      pair returns before writing anything. */
  ghost predicate ConnectFits(src: Port, dest: Port)
    reads src`numDests, src`numSrcs, src.dests, dest`numDests, dest`numSrcs, dest.srcs, src`identifier, dest`identifier
    requires src.Valid() && dest.Valid()
  {
    (dest in src.DestList() || !Compatible(src.identifier.ptype, dest.identifier.ptype) || src.numDests < src.Capacity()) &&
    (src in dest.SrcList() || !Compatible(src.identifier.ptype, dest.identifier.ptype) || dest.numSrcs < dest.Capacity())
  }

  /** `port_connect`: first disconnects the pair, then fails with -1 when
      the kinds are incompatible; otherwise appends `dest` to the
      destinations of `src` (multiplier 1, enabled, locked as asked) and
      `src` to the sources of `dest`, and for CV driving an LV2 control
      port captures the control's current value as the modulation
      baseline.  This is the corrected connect, built on Disconnect; the
      entries of `src` and `dest` here are those of AfterConnect. */
  method Connect(src: Port, dest: Port, locked: bool) returns (r: int)
    requires src.Valid() && dest.Valid() && Separate(src, dest)
    requires ConnectFits(src, dest)
    modifies src`numDests, src.dests, src.destIds, src.multipliers, src.destLocked, src.destEnabled
    modifies dest`numSrcs, dest.srcs, dest.srcIds, dest`baseValue
    ensures src.Valid() && dest.Valid()
    ensures r == 0 || r == -1
    ensures r == 0 <==> Compatible(src.identifier.ptype, dest.identifier.ptype)
    ensures var k := IndexOf(old(src.DestList()), dest);
      src.DestList() == RemoveAt(old(src.DestList()), k) + (if r == 0 then [dest] else []) &&
      src.DestIds() == RemoveAt(old(src.DestIds()), k) + (if r == 0 then [dest.identifier] else []) &&
      src.Multipliers() == RemoveAt(old(src.Multipliers()), k) + (if r == 0 then [1.0] else []) &&
      src.Locked() == RemoveAt(old(src.Locked()), k) + (if r == 0 then [locked] else []) &&
      src.Enabled() == RemoveAt(old(src.Enabled()), k) + (if r == 0 then [true] else [])
    ensures var k := IndexOf(old(dest.SrcList()), src);
      dest.SrcList() == RemoveAt(old(dest.SrcList()), k) + (if r == 0 then [src] else []) &&
      dest.SrcIds() == RemoveAt(old(dest.SrcIds()), k) + (if r == 0 then [src.identifier] else [])
    ensures src.SrcList() == old(src.SrcList()) && dest.DestList() == old(dest.DestList())
    ensures dest.baseValue ==
      if r == 0 && src.identifier.ptype == TypeCv && dest.identifier.ptype == TypeControl && dest.internalLv2
      then dest.control
      else old(dest.baseValue)
  {
    Disconnect(src, dest);
    if !Compatible(src.identifier.ptype, dest.identifier.ptype) {
      return -1;
    }
    Attach(src, dest, locked);
    return 0;
  }

  /** `port_connect` as written: the disconnect it starts with is
      `port_disconnect` as written, so when the pair was connected the
      multipliers, locks and enabled flags of the remaining edges are only
      cut to the new length, and the flags of the removed edge pass to the
      edge after it. */
  method ConnectAsWritten(src: Port, dest: Port, locked: bool) returns (r: int)
    requires src.Valid() && dest.Valid() && Separate(src, dest)
    requires ConnectFits(src, dest)
    modifies src`numDests, src.dests, src.destIds, src.multipliers, src.destLocked, src.destEnabled
    modifies dest`numSrcs, dest.srcs, dest.srcIds, dest`baseValue
    ensures src.Valid() && dest.Valid()
    ensures r == 0 || r == -1
    ensures r == 0 <==> Compatible(src.identifier.ptype, dest.identifier.ptype)
    ensures var k := IndexOf(old(src.DestList()), dest);
      src.DestList() == RemoveAt(old(src.DestList()), k) + (if r == 0 then [dest] else []) &&
      src.DestIds() == RemoveAt(old(src.DestIds()), k) + (if r == 0 then [dest.identifier] else [])
    ensures var n := if dest in old(src.DestList()) then old(src.numDests) - 1 else old(src.numDests);
      src.Multipliers() == old(src.Multipliers())[..n] + (if r == 0 then [1.0] else []) &&
      src.Locked() == old(src.Locked())[..n] + (if r == 0 then [locked] else []) &&
      src.Enabled() == old(src.Enabled())[..n] + (if r == 0 then [true] else [])
    ensures var k := IndexOf(old(dest.SrcList()), src);
      dest.SrcList() == RemoveAt(old(dest.SrcList()), k) + (if r == 0 then [src] else []) &&
      dest.SrcIds() == RemoveAt(old(dest.SrcIds()), k) + (if r == 0 then [src.identifier] else [])
    ensures src.SrcList() == old(src.SrcList()) && dest.DestList() == old(dest.DestList())
    ensures dest.baseValue ==
      if r == 0 && src.identifier.ptype == TypeCv && dest.identifier.ptype == TypeControl && dest.internalLv2
      then dest.control
      else old(dest.baseValue)
  {
    DisconnectAsWritten(src, dest);
    if !Compatible(src.identifier.ptype, dest.identifier.ptype) {
      return -1;
    }
    Attach(src, dest, locked);
    return 0;
  }

  /** A source connected to `a` (locked, multiplier 0.5) and then to `b`
      (unlocked, multiplier 1) is connected to `a` again without a lock.
      As written, `b` moves into the first slot and takes over the
      multiplier and the lock of the old edge to `a`. */
  method ReconnectAsWritten(s: Port, a: Port, b: Port) returns (multiplier: real, locked: bool)
    requires s.Valid() && a.Valid() && Separate(s, a) && a != b
    requires Compatible(s.identifier.ptype, a.identifier.ptype) && a.numSrcs < a.Capacity()
    requires s.DestList() == [a, b] && s.Multipliers() == [0.5, 1.0] && s.Locked() == [true, false]
    modifies s`numDests, s.dests, s.destIds, s.multipliers, s.destLocked, s.destEnabled
    modifies a`numSrcs, a.srcs, a.srcIds, a`baseValue
    ensures s.Valid() && s.DestList() == [b, a]
    ensures multiplier == 0.5 && locked
  {
    ghost var m0, l0 := s.Multipliers(), s.Locked();
    assert IndexOf(s.DestList(), a) == 0;
    var r := ConnectAsWritten(s, a, false);
    assert s.Multipliers()[0] == m0[0] && s.Locked()[0] == l0[0];
    multiplier, locked := s.multipliers[0], s.destLocked[0];
  }

  /** The same reconnect with Connect: `b` keeps its own multiplier and
      stays unlocked. */
  method Reconnect(s: Port, a: Port, b: Port) returns (multiplier: real, locked: bool)
    requires s.Valid() && a.Valid() && Separate(s, a) && a != b
    requires Compatible(s.identifier.ptype, a.identifier.ptype) && a.numSrcs < a.Capacity()
    requires s.DestList() == [a, b] && s.Multipliers() == [0.5, 1.0] && s.Locked() == [true, false]
    modifies s`numDests, s.dests, s.destIds, s.multipliers, s.destLocked, s.destEnabled
    modifies a`numSrcs, a.srcs, a.srcIds, a`baseValue
    ensures s.Valid() && s.DestList() == [b, a]
    ensures multiplier == 1.0 && !locked
  {
    ghost var m0, l0 := s.Multipliers(), s.Locked();
    assert IndexOf(s.DestList(), a) == 0;
    var r := Connect(s, a, false);
    assert s.Multipliers()[0] == m0[1] && s.Locked()[0] == l0[1];
    multiplier, locked := s.multipliers[0], s.destLocked[0];
  }

  // ---------------------------------------------------------------------
  // Disconnecting everything

  /** The edge arrays of the ports of `N`. */
  ghost function EdgeArrays(N: set<Port>): set<object>
  {
    (set q | q in N :: q.dests as object) + (set q | q in N :: q.destIds as object) +
    (set q | q in N :: q.multipliers as object) + (set q | q in N :: q.destLocked as object) +
    (set q | q in N :: q.destEnabled as object) + (set q | q in N :: q.srcs as object) +
    (set q | q in N :: q.srcIds as object)
  }

  /** `port` shares no array with any port of `N` (and is not one of
      them, so it is not connected to itself). */
  ghost predicate Separated(port: Port, N: set<Port>)
  {
    port !in N && forall q | q in N :: Separate(q, port)
  }

  /** The multiplier and flag arrays of a port separated from `N` are not
      among the edge arrays of `N`, so work on `N` leaves them alone. */
  lemma FlagsOutside(port: Port, N: set<Port>)
    requires Separated(port, N)
    ensures port.multipliers !in EdgeArrays(N) && port.destLocked !in EdgeArrays(N) && port.destEnabled !in EdgeArrays(N)
  {
    forall q | q in N
      ensures q.multipliers != port.multipliers && q.destLocked != port.destLocked && q.destLocked != port.destEnabled
      ensures q.destEnabled != port.destLocked && q.destEnabled != port.destEnabled
    {
      assert Separate(q, port);
    }
  }

  /** Distinct ports of `N` share no array. */
  ghost predicate Apart(N: set<Port>)
  {
    forall q, r | q in N && r in N && q != r :: Separate(q, r)
  }

  ghost predicate AllValid(N: set<Port>)
    reads N
  {
    forall q | q in N :: q.Valid()
  }

  /** Every neighbour of `port` lies in `N`. */
  ghost predicate Within(port: Port, N: set<Port>)
    reads port`numSrcs, port`numDests, port.srcs, port.dests
    requires port.Valid()
  {
    (forall q | q in port.SrcList() :: q in N) &&
    (forall q | q in port.DestList() :: q in N)
  }

  ghost predicate Surrounded(port: Port, N: set<Port>)
    reads port`numSrcs, port`numDests, port.srcs, port.dests, N
  {
    port.Valid() && Separated(port, N) && Apart(N) && AllValid(N) && Within(port, N)
  }

  /** `q` and `port` agree about the edges between them, and `q` lists
      nothing twice: the local shape of a well-formed graph. */
  ghost predicate Linked(port: Port, q: Port)
    reads port`numSrcs, port`numDests, port.srcs, port.dests, q`numSrcs, q`numDests, q.srcs, q.dests
    requires port.Valid() && q.Valid()
  {
    NoDup(q.DestList()) && NoDup(q.SrcList()) &&
    (port in q.DestList() <==> q in port.SrcList()) &&
    (port in q.SrcList() <==> q in port.DestList())
  }

  /** A neighbour's list after its edge with `x` was disconnected (when
      `gone`): the first entry of `x` is removed and the other entries keep
      their order. */
  ghost function Dropped(s: seq<Port?>, x: Port?, gone: bool): seq<Port?>
  {
    if gone then RemoveAt(s, IndexOf(s, x)) else s
  }

  /** In a list without repeats, `x` is left exactly when its edge was not
      disconnected. */
  lemma DroppedMembers(s: seq<Port?>, x: Port?, gone: bool)
    requires NoDup(s)
    ensures x in Dropped(s, x, gone) <==> x in s && !gone
  {
    RemoveFirstNoDup(s, x);
  }

  lemma OddsSubset<T>(s: seq<T>, x: T)
    requires x in Odds(s)
    ensures x in s
  {
    var k :| 0 <= k < |Odds(s)| && Odds(s)[k] == x;
    assert s[2 * k + 1] == x;
  }

  /** The lists of the ports of `N`. */
  ghost function Lists(N: set<Port>): map<Port, Adjacency>
    reads N, EdgeArrays(N)
    requires AllValid(N)
  {
    map r | r in N :: Adjacency(r.DestList(), r.SrcList())
  }

  /** Compared with its lists in `A0`, each port `r` of `N` has lost `port`
      from its destinations when `r` is a source in `S` that is no longer
      in `curS`, and from its sources when `r` is a destination in `D` that
      is no longer in `curD`; its other entries are as they were. */
  ghost predicate DroppedFrom(N: set<Port>, A0: map<Port, Adjacency>, port: Port,
                              S: seq<Port?>, curS: seq<Port?>, D: seq<Port?>, curD: seq<Port?>)
    reads N, EdgeArrays(N)
  {
    forall r | r in N ::
      r.Valid() && r in A0 &&
      r.DestList() == Dropped(A0[r].dests, port, r in S && r !in curS) &&
      r.SrcList() == Dropped(A0[r].srcs, port, r in D && r !in curD)
  }

  /** `port_disconnect (q, port)` seen from both ends: `q` leaves the
      sources of `port`, `port` leaves the destinations of `q`, and the
      other lists of the two stay as they were.  With `asWritten` the
      disconnect is the source's, which leaves the multiplier and flag
      arrays of `q` untouched while the list shifts down, so the remaining
      edges read the flags of the slots they moved into; otherwise the
      flags shift with the list. */
  method DetachSource(q: Port, port: Port, ghost N: set<Port>, asWritten: bool)
    requires q in N && port.Valid() && Separated(port, N) && Apart(N) && AllValid(N)
    modifies q`numDests, q.dests, q.destIds, q.multipliers, q.destLocked, q.destEnabled
    modifies port`numSrcs, port.srcs, port.srcIds
    ensures port.Valid() && AllValid(N)
    ensures port.SrcList() == RemoveAt(old(port.SrcList()), IndexOf(old(port.SrcList()), q))
    ensures port.DestList() == old(port.DestList())
    ensures q.DestList() == RemoveAt(old(q.DestList()), IndexOf(old(q.DestList()), port))
    ensures q.SrcList() == old(q.SrcList())
    ensures q.numDests == if port in old(q.DestList()) then old(q.numDests) - 1 else old(q.numDests)
    ensures asWritten ==>
      q.multipliers[..] == old(q.multipliers[..]) && q.destLocked[..] == old(q.destLocked[..]) &&
      q.destEnabled[..] == old(q.destEnabled[..])
    ensures !asWritten ==> var k := IndexOf(old(q.DestList()), port);
      q.Multipliers() == RemoveAt(old(q.Multipliers()), k) &&
      q.Locked() == RemoveAt(old(q.Locked()), k) && q.Enabled() == RemoveAt(old(q.Enabled()), k)
    ensures forall r | r in N && r != q :: r.DestList() == old(r.DestList()) && r.SrcList() == old(r.SrcList())
  {
    assert Separate(q, port);
    if asWritten {
      DisconnectAsWritten(q, port);
    } else {
      Disconnect(q, port);
    }
    forall r | r in N && r != q
      ensures r.Valid() && r.DestList() == old(r.DestList()) && r.SrcList() == old(r.SrcList())
    {
      assert Separate(r, q) && Separate(r, port);
    }
  }

  /** `port_disconnect (port, q)` seen from both ends: `q` leaves the
      destinations of `port`, `port` leaves the sources of `q`, and the
      other lists of the two stay as they were.  With `asWritten` the
      multiplier and flag arrays of `port` are left untouched; otherwise
      they shift with the list. */
  method DetachDest(port: Port, q: Port, ghost N: set<Port>, asWritten: bool)
    requires q in N && port.Valid() && Separated(port, N) && Apart(N) && AllValid(N)
    modifies port`numDests, port.dests, port.destIds, port.multipliers, port.destLocked, port.destEnabled
    modifies q`numSrcs, q.srcs, q.srcIds
    ensures port.Valid() && AllValid(N)
    ensures port.DestList() == RemoveAt(old(port.DestList()), IndexOf(old(port.DestList()), q))
    ensures port.SrcList() == old(port.SrcList())
    ensures q.SrcList() == RemoveAt(old(q.SrcList()), IndexOf(old(q.SrcList()), port))
    ensures q.DestList() == old(q.DestList())
    ensures port.numDests == if q in old(port.DestList()) then old(port.numDests) - 1 else old(port.numDests)
    ensures asWritten ==>
      port.multipliers[..] == old(port.multipliers[..]) && port.destLocked[..] == old(port.destLocked[..]) &&
      port.destEnabled[..] == old(port.destEnabled[..])
    ensures !asWritten ==> var k := IndexOf(old(port.DestList()), q);
      port.Multipliers() == RemoveAt(old(port.Multipliers()), k) &&
      port.Locked() == RemoveAt(old(port.Locked()), k) && port.Enabled() == RemoveAt(old(port.Enabled()), k)
    ensures forall r | r in N && r != q :: r.DestList() == old(r.DestList()) && r.SrcList() == old(r.SrcList())
  {
    assert Separate(q, port);
    if asWritten {
      DisconnectAsWritten(port, q);
    } else {
      Disconnect(port, q);
    }
    forall r | r in N && r != q
      ensures r.Valid() && r.DestList() == old(r.DestList()) && r.SrcList() == old(r.SrcList())
    {
      assert Separate(r, q) && Separate(r, port);
    }
  }

  /** The state of `port_disconnect_all` between two steps: `port` is
      surrounded by `N` and lists nothing twice, its remaining sources and
      destinations are among those it started with (`S` and `D`), and
      every port of `N` has lost `port` exactly for the edges removed so
      far (relative to its lists `A0`). */
  ghost predicate Stage(port: Port, N: set<Port>, A0: map<Port, Adjacency>, S: seq<Port?>, D: seq<Port?>)
    reads port`numSrcs, port`numDests, port.srcs, port.dests, N, EdgeArrays(N)
  {
    Surrounded(port, N) && NoDup(port.SrcList()) && NoDup(port.DestList()) &&
    (forall r | r in port.SrcList() :: r in S) && (forall r | r in port.DestList() :: r in D) &&
    DroppedFrom(N, A0, port, S, port.SrcList(), D, port.DestList())
  }

  /** One step of a source loop of `port_disconnect_all`: disconnects the
      source `q` at position `i`, so `q` joins the sources whose edge to
      `port` is gone. */
  method DropSourceAt(port: Port, i: nat, ghost N: set<Port>, ghost A0: map<Port, Adjacency>,
                      ghost S: seq<Port?>, ghost D: seq<Port?>, asWritten: bool)
    requires Stage(port, N, A0, S, D) && i < port.numSrcs
    modifies port`numSrcs, port.srcs, port.srcIds, N, EdgeArrays(N)
    ensures Stage(port, N, A0, S, D)
    ensures port.SrcList() == RemoveAt(old(port.SrcList()), i)
    ensures port.DestList() == old(port.DestList())
  {
    var q := port.srcs[i];
    ghost var before := port.SrcList();
    assert before[i] == q && q !in before[..i];
    IndexOfUnique(before, q, i);
    assert q in N && q in S;
    DetachSource(q, port, N, asWritten);
    RemoveFirstNoDup(before, q);
    assert Surrounded(port, N);
    assert forall r | r in port.SrcList() :: r in S;
    forall r | r in N
      ensures r.Valid() && r in A0
      ensures r.DestList() == Dropped(A0[r].dests, port, r in S && r !in port.SrcList())
      ensures r.SrcList() == Dropped(A0[r].srcs, port, r in D && r !in port.DestList())
    {
      if r == q {
        assert old(r.DestList()) == A0[r].dests;
      } else {
        assert r in port.SrcList() <==> r in before;
      }
    }
  }

  /** One step of a destination loop of `port_disconnect_all`: disconnects
      the destination `q` at position `i`, so `q` joins the destinations
      whose edge from `port` is gone. */
  method DropDestAt(port: Port, i: nat, ghost N: set<Port>, ghost A0: map<Port, Adjacency>,
                    ghost S: seq<Port?>, ghost D: seq<Port?>, asWritten: bool)
    requires Stage(port, N, A0, S, D) && i < port.numDests
    modifies port`numDests, port.dests, port.destIds, port.multipliers, port.destLocked, port.destEnabled
    modifies N, EdgeArrays(N)
    ensures Stage(port, N, A0, S, D)
    ensures port.DestList() == RemoveAt(old(port.DestList()), i)
    ensures port.SrcList() == old(port.SrcList())
    ensures asWritten ==>
      port.multipliers[..] == old(port.multipliers[..]) && port.destLocked[..] == old(port.destLocked[..]) &&
      port.destEnabled[..] == old(port.destEnabled[..])
  {
    var q := port.dests[i];
    ghost var before := port.DestList();
    assert before[i] == q && q !in before[..i];
    IndexOfUnique(before, q, i);
    assert q in N && q in D;
    DetachDest(port, q, N, asWritten);
    RemoveFirstNoDup(before, q);
    assert Surrounded(port, N);
    assert forall r | r in port.DestList() :: r in D;
    forall r | r in N
      ensures r.Valid() && r in A0
      ensures r.DestList() == Dropped(A0[r].dests, port, r in S && r !in port.SrcList())
      ensures r.SrcList() == Dropped(A0[r].srcs, port, r in D && r !in port.DestList())
    {
      if r == q {
        assert old(r.SrcList()) == A0[r].srcs;
      } else {
        assert r in port.DestList() <==> r in before;
      }
    }
  }

  /** Disconnects the first remaining source of `port` until none is
      left. */
  method DropSources(port: Port, ghost N: set<Port>, ghost A0: map<Port, Adjacency>, ghost S: seq<Port?>, ghost D: seq<Port?>)
    requires Stage(port, N, A0, S, D)
    modifies port`numSrcs, port.srcs, port.srcIds, N, EdgeArrays(N)
    ensures Stage(port, N, A0, S, D) && port.SrcList() == []
    ensures port.DestList() == old(port.DestList())
  {
    while port.numSrcs > 0
      invariant Stage(port, N, A0, S, D)
      invariant port.DestList() == old(port.DestList())
      decreases port.numSrcs
    {
      DropSourceAt(port, 0, N, A0, S, D, false);
    }
    assert port.SrcList() == [];
  }

  /** Disconnects the first remaining destination of `port` until none is
      left. */
  method DropDests(port: Port, ghost N: set<Port>, ghost A0: map<Port, Adjacency>, ghost S: seq<Port?>, ghost D: seq<Port?>)
    requires Stage(port, N, A0, S, D)
    modifies port`numDests, port.dests, port.destIds, port.multipliers, port.destLocked, port.destEnabled
    modifies N, EdgeArrays(N)
    ensures Stage(port, N, A0, S, D) && port.DestList() == []
    ensures port.SrcList() == old(port.SrcList())
  {
    while port.numDests > 0
      invariant Stage(port, N, A0, S, D)
      invariant port.SrcList() == old(port.SrcList())
      decreases port.numDests
    {
      DropDestAt(port, 0, N, A0, S, D, false);
    }
    assert port.DestList() == [];
  }

  /** The source loop of `port_disconnect_all` as written: it walks
      forward with its index while every disconnect shifts the remaining
      sources down, so only the sources at even positions go. */
  method ThinSources(port: Port, ghost N: set<Port>, ghost A0: map<Port, Adjacency>, ghost S: seq<Port?>, ghost D: seq<Port?>)
    requires Stage(port, N, A0, S, D)
    modifies port`numSrcs, port.srcs, port.srcIds, N, EdgeArrays(N)
    ensures Stage(port, N, A0, S, D)
    ensures port.SrcList() == Odds(old(port.SrcList()))
    ensures port.DestList() == old(port.DestList())
  {
    ghost var S0 := port.SrcList();
    var i := 0;
    while i < port.numSrcs
      invariant Stage(port, N, A0, S, D)
      invariant i <= |S0| && 2 * i <= |S0| + 1
      invariant port.SrcList() == Thinned(S0, i)
      invariant port.DestList() == old(port.DestList())
      decreases |S0| - i
    {
      ThinnedLength(S0, i);
      OddsStep(S0, i);
      DropSourceAt(port, i, N, A0, S, D, true);
      i := i + 1;
    }
    ThinnedDone(S0, i);
  }

  /** The destination loop of `port_disconnect_all` as written, with the
      same forward walk over a shrinking list. */
  method ThinDests(port: Port, ghost N: set<Port>, ghost A0: map<Port, Adjacency>, ghost S: seq<Port?>, ghost D: seq<Port?>)
    requires Stage(port, N, A0, S, D)
    modifies port`numDests, port.dests, port.destIds, port.multipliers, port.destLocked, port.destEnabled
    modifies N, EdgeArrays(N)
    ensures Stage(port, N, A0, S, D)
    ensures port.DestList() == Odds(old(port.DestList()))
    ensures port.SrcList() == old(port.SrcList())
    ensures port.multipliers[..] == old(port.multipliers[..]) && port.destLocked[..] == old(port.destLocked[..]) &&
            port.destEnabled[..] == old(port.destEnabled[..])
  {
    ghost var D0 := port.DestList();
    var i := 0;
    while i < port.numDests
      invariant Stage(port, N, A0, S, D)
      invariant i <= |D0| && 2 * i <= |D0| + 1
      invariant port.DestList() == Thinned(D0, i)
      invariant port.SrcList() == old(port.SrcList())
      invariant port.multipliers[..] == old(port.multipliers[..]) && port.destLocked[..] == old(port.destLocked[..]) &&
                port.destEnabled[..] == old(port.destEnabled[..])
      decreases |D0| - i
    {
      ThinnedLength(D0, i);
      OddsStep(D0, i);
      DropDestAt(port, i, N, A0, S, D, true);
      i := i + 1;
    }
    ThinnedDone(D0, i);
  }

  /** At any stage, each port of `N` has lost `port` exactly for its
      edges in `S` and `D` that are gone from the lists of `port`. */
  lemma StageLists(port: Port, N: set<Port>, A0: map<Port, Adjacency>, S: seq<Port?>, D: seq<Port?>)
    requires Stage(port, N, A0, S, D)
    ensures forall q | q in N :: q in A0 && q.DestList() == Dropped(A0[q].dests, port, q in S && q !in port.SrcList())
    ensures forall q | q in N :: q in A0 && q.SrcList() == Dropped(A0[q].srcs, port, q in D && q !in port.DestList())
  {
  }

  /** Once `port` has no edges left, each port of `N` has lost `port`
      exactly for its edges in `S` and `D`. */
  lemma StageDone(port: Port, N: set<Port>, A0: map<Port, Adjacency>, S: seq<Port?>, D: seq<Port?>)
    requires Stage(port, N, A0, S, D) && port.SrcList() == [] && port.DestList() == []
    ensures forall q | q in N :: q in A0 && q.DestList() == Dropped(A0[q].dests, port, q in S)
    ensures forall q | q in N :: q in A0 && q.SrcList() == Dropped(A0[q].srcs, port, q in D)
  {
    StageLists(port, N, A0, S, D);
  }

  /** A neighbour `q` that listed `port` exactly when `q` was in `S` lists
      it afterwards exactly when `q` is still in `cur`. */
  lemma DroppedAgrees(a: seq<Port?>, port: Port, q: Port, S: seq<Port?>, cur: seq<Port?>)
    requires NoDup(a) && (port in a <==> q in S) && (q in cur ==> q in S)
    ensures port in Dropped(a, port, q in S && q !in cur) <==> q in cur
  {
    DroppedMembers(a, port, q in S && q !in cur);
  }

  /** The first stage: nothing is removed yet. */
  lemma StageStart(port: Port, N: set<Port>)
    requires Surrounded(port, N) && NoDup(port.SrcList()) && NoDup(port.DestList())
    ensures Stage(port, N, Lists(N), port.SrcList(), port.DestList())
  {
  }

  /** `port_disconnect_all` as written: only the edges at even positions
      are removed and those at odd positions stay connected (a port with
      two sources keeps the second, see OddsKeepsSecond).  Each neighbour
      loses `port` only for a removed edge, so where the two ends agreed
      before they still agree: the neighbours keep exactly the edges at odd
      positions. */
  method DisconnectAllAsWritten(port: Port, ghost N: set<Port>)
    requires Surrounded(port, N) && NoDup(port.SrcList()) && NoDup(port.DestList())
    modifies port`numSrcs, port`numDests, port.Repr(), N, EdgeArrays(N)
    ensures Surrounded(port, N)
    ensures port.SrcList() == Odds(old(port.SrcList()))
    ensures port.DestList() == Odds(old(port.DestList()))
    ensures port.multipliers[..] == old(port.multipliers[..]) && port.destLocked[..] == old(port.destLocked[..]) &&
            port.destEnabled[..] == old(port.destEnabled[..])
    ensures forall q | q in N ::
      q.DestList() == Dropped(old(q.DestList()), port, q in old(port.SrcList()) && q !in port.SrcList())
    ensures forall q | q in N ::
      q.SrcList() == Dropped(old(q.SrcList()), port, q in old(port.DestList()) && q !in port.DestList())
    ensures forall q | q in N && old(Linked(port, q)) ::
      (port in q.DestList() <==> q in port.SrcList()) && (port in q.SrcList() <==> q in port.DestList())
  {
    ghost var A0 := Lists(N);
    ghost var S, D := port.SrcList(), port.DestList();
    assert forall q | q in N :: A0[q] == Adjacency(q.DestList(), q.SrcList());
    ghost var linked := set q | q in N && Linked(port, q);
    StageStart(port, N);
    FlagsOutside(port, N);
    ThinSources(port, N, A0, S, D);
    assert port.multipliers[..] == old(port.multipliers[..]) && port.destLocked[..] == old(port.destLocked[..]) &&
           port.destEnabled[..] == old(port.destEnabled[..]);
    ThinDests(port, N, A0, S, D);
    StageLists(port, N, A0, S, D);
    forall q | q in linked
      ensures (port in q.DestList() <==> q in port.SrcList()) && (port in q.SrcList() <==> q in port.DestList())
    {
      if q in port.SrcList() {
        OddsSubset(S, q);
      }
      if q in port.DestList() {
        OddsSubset(D, q);
      }
      DroppedAgrees(A0[q].dests, port, q, S, port.SrcList());
      DroppedAgrees(A0[q].srcs, port, q, D, port.DestList());
    }
  }

  /** `port_disconnect_all` with the loops rewritten to always remove the
      first remaining edge: afterwards `port` has no sources and no
      destinations, every former neighbour has lost exactly its entry of
      `port` and kept its other edges in order, and a neighbour that agreed
      with `port` about their edges lists `port` nowhere. */
  method DisconnectAll(port: Port, ghost N: set<Port>)
    requires Surrounded(port, N) && NoDup(port.SrcList()) && NoDup(port.DestList())
    modifies port`numSrcs, port`numDests, port.Repr(), N, EdgeArrays(N)
    ensures Surrounded(port, N) && port.numSrcs == 0 && port.numDests == 0
    ensures forall q | q in N :: q.DestList() == Dropped(old(q.DestList()), port, q in old(port.SrcList()))
    ensures forall q | q in N :: q.SrcList() == Dropped(old(q.SrcList()), port, q in old(port.DestList()))
    ensures forall q | q in N && old(Linked(port, q)) :: port !in q.DestList() && port !in q.SrcList()
  {
    ghost var A0 := Lists(N);
    ghost var S, D := port.SrcList(), port.DestList();
    assert forall q | q in N :: A0[q] == Adjacency(q.DestList(), q.SrcList());
    ghost var linked := set q | q in N && Linked(port, q);
    StageStart(port, N);
    DropSources(port, N, A0, S, D);
    DropDests(port, N, A0, S, D);
    StageDone(port, N, A0, S, D);
    forall q | q in linked
      ensures port !in q.DestList() && port !in q.SrcList()
    {
      DroppedAgrees(A0[q].dests, port, q, S, []);
      DroppedAgrees(A0[q].srcs, port, q, D, []);
    }
  }

  /** `ports_connected`: a linear scan of the destinations of `src`. */
  method PortsConnected(src: Port, dest: Port) returns (r: bool)
    requires src.Valid()
    ensures r <==> dest in src.DestList()
  {
    var i := 0;
    while i < src.numDests
      invariant i <= src.numDests
      invariant dest !in src.dests[..i]
    {
      if src.dests[i] == dest {
        assert src.DestList()[i] == dest;
        return true;
      }
      assert src.dests[..i + 1] == src.dests[..i] + [src.dests[i]];
      i := i + 1;
    }
    return false;
  }

  /** The connection check `ports_remove` makes before handing a port to
      the deferred free: a warning is raised for each of the source and
      destination lists that is not empty. */
  method ConnectionWarnings(port: Port) returns (warnings: nat)
    ensures warnings == (if port.numSrcs == 0 then 0 else 1) + (if port.numDests == 0 then 0 else 1)
    ensures warnings == 0 <==> port.numSrcs == 0 && port.numDests == 0
  {
    warnings := 0;
    if port.numSrcs != 0 {
      warnings := warnings + 1;
    }
    if port.numDests != 0 {
      warnings := warnings + 1;
    }
  }

  /** Number of warnings the connection checks of `ports_remove` raise over
      a list of ports. */
  ghost function TotalWarnings(ports: seq<Port>): nat
    reads set i | 0 <= i < |ports| :: ports[i]
  {
    if ports == [] then 0
    else
      var last := ports[|ports| - 1];
      TotalWarnings(ports[..|ports| - 1]) + (if last.numSrcs == 0 then 0 else 1) + (if last.numDests == 0 then 0 else 1)
  }

  /** `ports_remove`: every port is handed to the deferred free after its
      connection check; the list is emptied and its former length
      returned.  The warnings counted are those of `ports_remove` itself;
      the deferred `port_free` repeats the same check later. */
  method PortsRemove(ports: seq<Port>) returns (removed: nat, warnings: nat, remaining: nat)
    ensures removed == |ports| && remaining == 0
    ensures warnings == TotalWarnings(ports)
    ensures warnings == 0 <==> forall i :: 0 <= i < |ports| ==> ports[i].numSrcs == 0 && ports[i].numDests == 0
  {
    var i := 0;
    warnings := 0;
    while i < |ports|
      invariant i <= |ports|
      invariant warnings == TotalWarnings(ports[..i])
      invariant warnings == 0 <==> forall j :: 0 <= j < i ==> ports[j].numSrcs == 0 && ports[j].numDests == 0
    {
      var w := ConnectionWarnings(ports[i]);
      assert ports[..i + 1][..i] == ports[..i];
      warnings := warnings + w;
      i := i + 1;
    }
    assert ports[..i] == ports;
    removed, remaining := i, 0;
  }
}
