/** The per-cycle signal work of a port (`port_clear_buffer`,
    `port_apply_fader` and the three branches of
    `port_sum_signal_from_inputs`), written over the `Port` class of the
    Ports module.  Each method is stated against a pure function of the
    buffers it reads, and the properties of the mix are proved about those
    functions. */
module PortSignals {
  import opened Wrappers
  import opened PortIdentifiers
  import opened Ports

  // ---------------------------------------------------------------------
  // Audio mixing as values

  /** Every buffer in `bufs` holds at least `n` samples. */
  predicate LongEnough(bufs: seq<seq<real>>, n: nat)
  {
    forall k :: 0 <= k < |bufs| ==> n <= |bufs[k]|
  }

  /** Sum of frame `l` over the source buffers, added in source order. */
  function Column(bufs: seq<seq<real>>, l: nat): real
    requires LongEnough(bufs, l + 1)
  {
    if bufs == [] then 0.0 else Column(bufs[..|bufs| - 1], l) + bufs[|bufs| - 1][l]
  }

  lemma {:induction false} ColumnAppend(u: seq<seq<real>>, v: seq<seq<real>>, l: nat)
    requires LongEnough(u, l + 1) && LongEnough(v, l + 1)
    ensures LongEnough(u + v, l + 1)
    ensures Column(u + v, l) == Column(u, l) + Column(v, l)
  {
    assert LongEnough(u + v, l + 1) by {
      forall k | 0 <= k < |u + v| ensures l + 1 <= |(u + v)[k]| {
        if k < |u| { assert (u + v)[k] == u[k]; } else { assert (u + v)[k] == v[k - |u|]; }
      }
    }
    if v != [] {
      var v' := v[..|v| - 1];
      assert LongEnough(v', l + 1) by {
        forall k | 0 <= k < |v'| ensures l + 1 <= |v'[k]| { assert v'[k] == v[k]; }
      }
      ColumnAppend(u, v', l);
      assert (u + v)[..|u + v| - 1] == u + v';
    } else {
      assert u + v == u;
    }
  }

  /** Taking one buffer out of the list takes its sample out of the sum. */
  lemma ColumnRemove(b: seq<seq<real>>, i: nat, l: nat)
    requires i < |b| && LongEnough(b, l + 1)
    ensures LongEnough(b[..i] + b[i + 1..], l + 1)
    ensures Column(b, l) == Column(b[..i] + b[i + 1..], l) + b[i][l]
  {
    assert b == b[..i] + ([b[i]] + b[i + 1..]);
    assert LongEnough(b[..i], l + 1) by {
      forall k | 0 <= k < i ensures l + 1 <= |b[..i][k]| { assert b[..i][k] == b[k]; }
    }
    var t := b[i + 1..];
    assert LongEnough(t, l + 1) by {
      forall k | 0 <= k < |t| ensures l + 1 <= |t[k]| { assert t[k] == b[i + 1 + k]; }
    }
    assert Column([b[i]], l) == b[i][l] by {
      assert [b[i]][..0] == [];
    }
    ColumnAppend([b[i]], b[i + 1..], l);
    ColumnAppend(b[..i], [b[i]] + b[i + 1..], l);
    ColumnAppend(b[..i], b[i + 1..], l);
  }

  /** Dropping the last element of `a` and an equal element of `b` keeps
      the two lists permutations of each other. */
  lemma DropMatching<T>(a: seq<T>, b: seq<T>, i: nat)
    requires multiset(a) == multiset(b) && a != [] && i < |b| && b[i] == a[|a| - 1]
    ensures multiset(a[..|a| - 1]) == multiset(b[..i] + b[i + 1..])
  {
    var x := b[i];
    var a' := a[..|a| - 1];
    var b' := b[..i] + b[i + 1..];
    assert multiset(a) == multiset(a') + multiset{x} by {
      assert a == a' + [x];
    }
    assert multiset(b) == multiset(b') + multiset{x} by {
      assert b == b[..i] + [x] + b[i + 1..];
    }
    forall y ensures multiset(a')[y] == multiset(b')[y] {
      assert multiset(a)[y] == multiset(b)[y];
    }
  }

  /** The mix does not depend on the order of the sources. */
  lemma {:induction false} ColumnPermutation(a: seq<seq<real>>, b: seq<seq<real>>, l: nat)
    requires multiset(a) == multiset(b) && LongEnough(a, l + 1)
    ensures LongEnough(b, l + 1)
    ensures Column(a, l) == Column(b, l)
    decreases |a|
  {
    assert LongEnough(b, l + 1) by {
      forall k | 0 <= k < |b| ensures l + 1 <= |b[k]| {
        assert b[k] in multiset(a);
      }
    }
    if a == [] {
      assert |b| == |multiset(b)| == 0;
    } else {
      var n := |a| - 1;
      var x := a[n];
      assert x in multiset(b);
      var i :| 0 <= i < |b| && b[i] == x;
      var b' := b[..i] + b[i + 1..];
      ColumnRemove(b, i, l);
      DropMatching(a, b, i);
      assert LongEnough(a[..n], l + 1) by {
        forall k | 0 <= k < n ensures l + 1 <= |a[..n][k]| { assert a[..n][k] == a[k]; }
      }
      ColumnPermutation(a[..n], b', l);
    }
  }

  /** `buf` after adding every source buffer over frames `[lo, hi)`. */
  function Mixed(buf: seq<real>, bufs: seq<seq<real>>, lo: int, hi: int): seq<real>
    requires LongEnough(bufs, |buf|)
  {
    seq(|buf|, l requires 0 <= l < |buf| => if lo <= l < hi then buf[l] + Column(bufs, l) else buf[l])
  }

  /** `buf` with frames `[lo, hi)` set to silence. */
  function Zeroed(buf: seq<real>, lo: int, hi: int): seq<real>
  {
    seq(|buf|, l requires 0 <= l < |buf| => if lo <= l < hi then 0.0 else buf[l])
  }

  /** Mixing the same sources listed in another order gives the same
      buffer. */
  lemma {:induction false} MixedOrderIrrelevant(buf: seq<real>, a: seq<seq<real>>, b: seq<seq<real>>, lo: int, hi: int)
    requires multiset(a) == multiset(b) && LongEnough(a, |buf|)
    ensures LongEnough(b, |buf|)
    ensures Mixed(buf, a, lo, hi) == Mixed(buf, b, lo, hi)
  {
    assert LongEnough(b, |buf|) by {
      forall k | 0 <= k < |b| ensures |buf| <= |b[k]| { assert b[k] in multiset(a); }
    }
    forall l | 0 <= l < |buf|
      ensures Mixed(buf, a, lo, hi)[l] == Mixed(buf, b, lo, hi)[l]
    {
      ColumnPermutation(a, b, l);
    }
  }

  /** The range `port_sum_signal_from_inputs` walks for a cycle slice that
      starts at `start` and is `nframes` long: the loops stop at
      `nframes`, not at `start + nframes`. */
  function AsWrittenEnd(start: nat, nframes: nat): nat
  {
    nframes
  }

  /** A slice that starts half-way into the cycle mixes nothing as written:
      with one source of ones, frame 1 of a two-frame buffer should receive
      the source sample but keeps its silence. */
  lemma SliceAfterStartMixesNothing()
    ensures Mixed([0.0, 0.0], [[1.0, 1.0]], 1, AsWrittenEnd(1, 1)) == [0.0, 0.0]
    ensures Mixed([0.0, 0.0], [[1.0, 1.0]], 1, 1 + 1) == [0.0, 1.0]
  {
    var bufs := [[1.0, 1.0]];
    assert bufs[..0] == [];
    assert Column(bufs, 1) == 1.0;
  }

  /** `buf` with frames `[lo, hi)` multiplied by `amp`. */
  function Faded(buf: seq<real>, amp: real, lo: int, hi: int): seq<real>
  {
    seq(|buf|, l requires 0 <= l < |buf| => if lo <= l < hi then buf[l] * amp else buf[l])
  }

  /** Two fader passes over the same range act as one pass with the
      product of the amplitudes.  This holds for reals; the source's float
      multiplication is not associative, so there the two can differ in
      the last bits. */
  lemma FadedTwice(buf: seq<real>, a: real, b: real, lo: int, hi: int)
    ensures Faded(Faded(buf, a, lo, hi), b, lo, hi) == Faded(buf, a * b, lo, hi)
  {
    forall l | 0 <= l < |buf|
      ensures Faded(Faded(buf, a, lo, hi), b, lo, hi)[l] == Faded(buf, a * b, lo, hi)[l]
    {
      if lo <= l < hi {
        assert buf[l] * a * b == buf[l] * (a * b);
      }
    }
  }

  /** Unity gain leaves the buffer as it was. */
  lemma FadedUnity(buf: seq<real>, lo: int, hi: int)
    ensures Faded(buf, 1.0, lo, hi) == buf
  {
  }

  // ---------------------------------------------------------------------
  // Events and control as values

  /** Events appended from every source in source order: `window` stands
      for `midi_events_append`, which copies the events of one source that
      fall in the cycle slice into the destination's local time. */
  function Gathered(evs: seq<seq<MidiEvent>>, window: (seq<MidiEvent>, nat, nat) -> seq<MidiEvent>,
                    start: nat, nframes: nat): seq<MidiEvent>
  {
    if evs == [] then []
    else Gathered(evs[..|evs| - 1], window, start, nframes) + window(evs[|evs| - 1], start, nframes)
  }

  /** An event is gathered exactly when some source's window holds it: no
      event is dropped, merged or invented. */
  lemma {:induction false} GatheredMembership(evs: seq<seq<MidiEvent>>, window: (seq<MidiEvent>, nat, nat) -> seq<MidiEvent>,
                                              start: nat, nframes: nat, e: MidiEvent)
    ensures e in Gathered(evs, window, start, nframes) <==> exists k :: 0 <= k < |evs| && e in window(evs[k], start, nframes)
  {
    if evs != [] {
      var n := |evs| - 1;
      GatheredMembership(evs[..n], window, start, nframes, e);
      if e in Gathered(evs, window, start, nframes) {
        if e in Gathered(evs[..n], window, start, nframes) {
          var k :| 0 <= k < n && e in window(evs[..n][k], start, nframes);
          assert evs[..n][k] == evs[k];
        }
      }
      if exists k :: 0 <= k < |evs| && e in window(evs[k], start, nframes) {
        var k :| 0 <= k < |evs| && e in window(evs[k], start, nframes);
        if k < n {
          assert evs[..n][k] == evs[k];
        }
      }
    }
  }

  /** The number of gathered events is the total over the windows. */
  function WindowTotal(evs: seq<seq<MidiEvent>>, window: (seq<MidiEvent>, nat, nat) -> seq<MidiEvent>,
                       start: nat, nframes: nat): nat
  {
    if evs == [] then 0 else WindowTotal(evs[1..], window, start, nframes) + |window(evs[0], start, nframes)|
  }

  lemma {:induction false} GatheredLength(evs: seq<seq<MidiEvent>>, window: (seq<MidiEvent>, nat, nat) -> seq<MidiEvent>,
                                          start: nat, nframes: nat)
    ensures |Gathered(evs, window, start, nframes)| == WindowTotal(evs, window, start, nframes)
  {
    if evs != [] {
      var n := |evs| - 1;
      GatheredLength(evs[..n], window, start, nframes);
      if n > 0 {
        TotalSplit(evs, window, start, nframes);
      } else {
        assert evs[1..] == [];
      }
    }
  }

  lemma {:induction false} TotalSplit(evs: seq<seq<MidiEvent>>, window: (seq<MidiEvent>, nat, nat) -> seq<MidiEvent>,
                                      start: nat, nframes: nat)
    requires |evs| > 0
    ensures WindowTotal(evs, window, start, nframes) ==
            WindowTotal(evs[..|evs| - 1], window, start, nframes) + |window(evs[|evs| - 1], start, nframes)|
    decreases |evs|
  {
    if |evs| > 1 {
      TotalSplit(evs[1..], window, start, nframes);
      assert evs[1..][..|evs[1..]| - 1] == evs[..|evs| - 1][1..];
    }
  }

  /** What one source port offers the control branch: whether it is a CV
      port, its first sample and the multiplier of its edge to the control
      port. */
  datatype ControlInput = ControlInput(isCv: bool, sample: real, multiplier: real)

  /** `CLAMP (x, lo, hi)` of GLib: the upper bound is tested first. */
  function Clamp(x: real, lo: real, hi: real): real
  {
    if x > hi then hi else if x < lo then lo else x
  }

  predicate NoCv(inputs: seq<ControlInput>)
  {
    forall k :: 0 <= k < |inputs| ==> !inputs[k].isCv
  }

  /** The control value after the inputs: each CV input moves the value it
      starts from (the base value for the first CV input, the running
      control value afterwards) by half the range times its sample and
      multiplier, clamped to the range; other inputs are skipped. */
  function Modulated(base: real, current: real, inputs: seq<ControlInput>, minf: real, maxf: real): real
  {
    if inputs == [] then current
    else
      var prefix := inputs[..|inputs| - 1];
      var last := inputs[|inputs| - 1];
      var prev := Modulated(base, current, prefix, minf, maxf);
      if !last.isCv then prev
      else Clamp((if NoCv(prefix) then base else prev) + (maxf - minf) / 2.0 * last.sample * last.multiplier, minf, maxf)
  }

  /** One more input: a CV input modulates the base value when it is the
      first CV input and the running value otherwise; anything else leaves
      the value alone. */
  lemma ModulatedStep(base: real, current: real, inputs: seq<ControlInput>, k: nat, minf: real, maxf: real)
    requires k < |inputs|
    ensures NoCv(inputs[..k + 1]) == (NoCv(inputs[..k]) && !inputs[k].isCv)
    ensures Modulated(base, current, inputs[..k + 1], minf, maxf) ==
      if !inputs[k].isCv then Modulated(base, current, inputs[..k], minf, maxf)
      else Clamp((if NoCv(inputs[..k]) then base else Modulated(base, current, inputs[..k], minf, maxf))
                 + (maxf - minf) / 2.0 * inputs[k].sample * inputs[k].multiplier, minf, maxf)
  {
    var p := inputs[..k + 1];
    assert p[..k] == inputs[..k] && p[k] == inputs[k];
    if NoCv(inputs[..k]) && !inputs[k].isCv {
      forall j | 0 <= j < k + 1 ensures !p[j].isCv {
        if j < k { assert p[j] == inputs[..k][j]; }
      }
    }
  }

  /** With an ordered range, any CV input leaves the control value inside
      `[minf, maxf]`, and without one it is left alone. */
  lemma {:induction false} ModulatedInRange(base: real, current: real, inputs: seq<ControlInput>, minf: real, maxf: real)
    requires minf <= maxf
    ensures NoCv(inputs) ==> Modulated(base, current, inputs, minf, maxf) == current
    ensures !NoCv(inputs) ==> minf <= Modulated(base, current, inputs, minf, maxf) <= maxf
  {
    if inputs != [] {
      var prefix := inputs[..|inputs| - 1];
      ModulatedInRange(base, current, prefix, minf, maxf);
      if NoCv(inputs) {
        assert NoCv(prefix) by {
          forall k | 0 <= k < |prefix| ensures !prefix[k].isCv { assert prefix[k] == inputs[k]; }
        }
      }
      if !inputs[|inputs| - 1].isCv && !NoCv(inputs) {
        var k :| 0 <= k < |inputs| && inputs[k].isCv;
        assert prefix[k] == inputs[k];
      }
    }
  }

  function CvOnly(inputs: seq<ControlInput>): seq<ControlInput>
  {
    if inputs == [] then []
    else CvOnly(inputs[..|inputs| - 1]) + (if inputs[|inputs| - 1].isCv then [inputs[|inputs| - 1]] else [])
  }

  lemma {:induction false} CvOnlyNoCv(inputs: seq<ControlInput>)
    ensures NoCv(CvOnly(inputs)) <==> NoCv(inputs)
  {
    if inputs != [] {
      var prefix := inputs[..|inputs| - 1];
      var last := inputs[|inputs| - 1];
      CvOnlyNoCv(prefix);
      var c := CvOnly(prefix);
      if NoCv(inputs) {
        assert NoCv(prefix) by {
          forall k | 0 <= k < |prefix| ensures !prefix[k].isCv { assert prefix[k] == inputs[k]; }
        }
        assert CvOnly(inputs) == c;
      } else if last.isCv {
        assert CvOnly(inputs)[|c|] == last;
      } else {
        var k :| 0 <= k < |inputs| && inputs[k].isCv;
        assert prefix[k] == inputs[k];
        assert CvOnly(inputs) == c;
      }
    }
  }

  /** Sources that are not CV ports play no part in the control value. */
  lemma {:induction false} ModulatedIgnoresOthers(base: real, current: real, inputs: seq<ControlInput>, minf: real, maxf: real)
    ensures Modulated(base, current, inputs, minf, maxf) == Modulated(base, current, CvOnly(inputs), minf, maxf)
  {
    if inputs != [] {
      var prefix := inputs[..|inputs| - 1];
      var last := inputs[|inputs| - 1];
      ModulatedIgnoresOthers(base, current, prefix, minf, maxf);
      CvOnlyNoCv(prefix);
      if last.isCv {
        var c := CvOnly(prefix) + [last];
        assert c[..|c| - 1] == CvOnly(prefix);
      } else {
        assert CvOnly(inputs) == CvOnly(prefix);
      }
    }
  }

  /** A single CV input modulates the base value, not the stored control
      value. */
  lemma FirstCvUsesBase(base: real, current: real, x: ControlInput, minf: real, maxf: real)
    requires x.isCv
    ensures Modulated(base, current, [x], minf, maxf) == Clamp(base + (maxf - minf) / 2.0 * x.sample * x.multiplier, minf, maxf)
  {
    assert [x][..0] == [];
  }

  // ---------------------------------------------------------------------
  // The buffer loops

  /** Sets frames `[lo, hi)` of `a` to silence. */
  method ZeroRange(a: array<real>, lo: nat, hi: nat)
    requires lo <= hi <= a.Length
    modifies a
    ensures a[..] == Zeroed(old(a[..]), lo, hi)
  {
    var l := lo;
    while l < hi
      invariant lo <= l <= hi
      invariant a[..] == Zeroed(old(a[..]), lo, l)
    {
      a[l] := 0.0;
      l := l + 1;
    }
  }

  /** `port_clear_buffer`: an audio port's whole block is silenced, an
      event port's event list is emptied, any other port is untouched. */
  method ClearBuffer(port: Port)
    modifies port.buf, port`events
    ensures port.identifier.ptype == TypeAudio ==>
      port.buf[..] == seq(port.buf.Length, _ => 0.0) && port.events == old(port.events)
    ensures port.identifier.ptype == TypeEvent ==> port.events == [] && port.buf[..] == old(port.buf[..])
    ensures port.identifier.ptype !in {TypeAudio, TypeEvent} ==>
      port.events == old(port.events) && port.buf[..] == old(port.buf[..])
  {
    if port.identifier.ptype == TypeAudio {
      ZeroRange(port.buf, 0, port.buf.Length);
      return;
    }
    if port.identifier.ptype == TypeEvent {
      port.events := [];
    }
  }

  /** `port_apply_fader`: frames `[start, start + nframes)` are scaled by
      `amp`; the source skips frames that are already silent, which scaling
      leaves silent anyway. */
  method ApplyFader(port: Port, amp: real, start: nat, nframes: nat)
    requires start + nframes <= port.buf.Length
    modifies port.buf
    ensures port.buf[..] == Faded(old(port.buf[..]), amp, start, start + nframes)
  {
    ghost var b0 := port.buf[..];
    var i := start;
    while i < start + nframes
      invariant start <= i <= start + nframes
      invariant forall j :: 0 <= j < port.buf.Length ==> port.buf[j] == if start <= j < i then b0[j] * amp else b0[j]
    {
      if port.buf[i] != 0.0 {
        port.buf[i] := port.buf[i] * amp;
      } else {
        assert port.buf[i] * amp == 0.0;
      }
      i := i + 1;
    }
    assert port.buf[..] == Faded(b0, amp, start, start + nframes) by {
      forall j | 0 <= j < port.buf.Length
        ensures port.buf[..][j] == Faded(b0, amp, start, start + nframes)[j]
      {
      }
    }
  }

  /** Adds `src` into `dst` over frames `[lo, hi)`. */
  method AddInto(dst: array<real>, src: array<real>, lo: nat, hi: nat)
    requires dst != src && lo <= hi <= dst.Length && hi <= src.Length
    modifies dst
    ensures forall l :: 0 <= l < dst.Length ==> dst[l] == if lo <= l < hi then old(dst[l]) + src[l] else old(dst[l])
  {
    var l := lo;
    while l < hi
      invariant lo <= l <= hi
      invariant forall j :: 0 <= j < dst.Length ==> dst[j] == if lo <= j < l then old(dst[j]) + src[j] else old(dst[j])
    {
      dst[l] := dst[l] + src[l];
      l := l + 1;
    }
  }

  /** The sources of `port` still hold the buffers `bufs`, none of which is
      the port's own buffer. */
  ghost predicate SourceBuffers(port: Port, bufs: seq<seq<real>>)
    reads port`numSrcs, port.srcs, set k | 0 <= k < port.numSrcs && k < port.srcs.Length && port.srcs[k] != null :: port.srcs[k].buf
  {
    port.numSrcs <= port.srcs.Length && |bufs| == port.numSrcs && LongEnough(bufs, port.buf.Length) &&
    forall k :: 0 <= k < port.numSrcs ==>
      port.srcs[k] != null && port.srcs[k].buf != port.buf && port.srcs[k].buf[..] == bufs[k]
  }

  /** The summing loops of the audio branch over frames `[lo, hi)`: every
      source buffer is added in source order. */
  method MixRange(port: Port, lo: nat, hi: nat, ghost bufs: seq<seq<real>>)
    requires lo <= hi <= port.buf.Length && SourceBuffers(port, bufs)
    modifies port.buf
    ensures port.buf[..] == Mixed(old(port.buf[..]), bufs, lo, hi)
  {
    var k := 0;
    while k < port.numSrcs
      invariant k <= port.numSrcs && SourceBuffers(port, bufs)
      invariant LongEnough(bufs[..k], port.buf.Length)
      invariant port.buf[..] == Mixed(old(port.buf[..]), bufs[..k], lo, hi)
    {
      var q := port.srcs[k];
      ghost var before := port.buf[..];
      AddInto(port.buf, q.buf, lo, hi);
      assert bufs[..k + 1][..k] == bufs[..k];
      assert port.buf[..] == Mixed(old(port.buf[..]), bufs[..k + 1], lo, hi) by {
        forall l | 0 <= l < port.buf.Length
          ensures port.buf[l] == Mixed(old(port.buf[..]), bufs[..k + 1], lo, hi)[l]
        {
          assert before[l] == Mixed(old(port.buf[..]), bufs[..k], lo, hi)[l];
        }
      }
      k := k + 1;
    }
    assert bufs[..k] == bufs;
  }

  /** The audio branch of `port_sum_signal_from_inputs` as written: both
      the silencing loop and the summing loop run from `start` to
      `nframes`, so a slice that does not start at frame 0 is cut short
      (see SliceAfterStartMixesNothing). */
  method SumAudioAsWritten(port: Port, start: nat, nframes: nat, noroll: bool, ghost bufs: seq<seq<real>>)
    requires start + nframes <= port.buf.Length && SourceBuffers(port, bufs)
    modifies port.buf
    ensures noroll ==> port.buf[..] == Zeroed(old(port.buf[..]), start, AsWrittenEnd(start, nframes))
    ensures !noroll ==> port.buf[..] == Mixed(old(port.buf[..]), bufs, start, AsWrittenEnd(start, nframes))
  {
    var hi := if nframes < start then start else nframes;
    if noroll {
      ZeroRange(port.buf, start, hi);
      assert Zeroed(old(port.buf[..]), start, hi) == Zeroed(old(port.buf[..]), start, nframes);
      return;
    }
    MixRange(port, start, hi, bufs);
    assert Mixed(old(port.buf[..]), bufs, start, hi) == Mixed(old(port.buf[..]), bufs, start, nframes);
  }

  /** The audio branch over the slice `[start, start + nframes)`: with
      `noroll` the slice is silenced, otherwise every source is added into
      it; frames outside the slice are left alone. */
  method SumAudio(port: Port, start: nat, nframes: nat, noroll: bool, ghost bufs: seq<seq<real>>)
    requires start + nframes <= port.buf.Length && SourceBuffers(port, bufs)
    modifies port.buf
    ensures noroll ==> port.buf[..] == Zeroed(old(port.buf[..]), start, start + nframes)
    ensures !noroll ==> port.buf[..] == Mixed(old(port.buf[..]), bufs, start, start + nframes)
  {
    if noroll {
      ZeroRange(port.buf, start, start + nframes);
      return;
    }
    MixRange(port, start, start + nframes, bufs);
  }

  /** The sources of `port` are ports other than itself holding the event
      lists `evs`. */
  ghost predicate SourceEvents(port: Port, evs: seq<seq<MidiEvent>>)
    reads port`numSrcs, port.srcs, set k | 0 <= k < port.numSrcs && k < port.srcs.Length :: port.srcs[k]
  {
    port.numSrcs <= port.srcs.Length && |evs| == port.numSrcs &&
    forall k :: 0 <= k < port.numSrcs ==> port.srcs[k] != null && port.srcs[k] != port && port.srcs[k].events == evs[k]
  }

  /** The event branch of `port_sum_signal_from_inputs`: unless `noroll`,
      the events of every source that fall in the slice are appended in
      source order, and a track-owned port that then holds any event
      flags activity. */
  method SumEvents(port: Port, start: nat, nframes: nat, noroll: bool,
                   window: (seq<MidiEvent>, nat, nat) -> seq<MidiEvent>, ghost evs: seq<seq<MidiEvent>>)
    requires SourceEvents(port, evs)
    modifies port`events, port`trackActivity
    ensures noroll ==> port.events == old(port.events) && port.trackActivity == old(port.trackActivity)
    ensures !noroll ==> port.events == old(port.events) + Gathered(evs, window, start, nframes)
    ensures !noroll ==> port.trackActivity == (old(port.trackActivity) || (|port.events| > 0 && port.identifier.owner == OwnerTrack))
  {
    if noroll {
      return;
    }
    var k := 0;
    while k < port.numSrcs
      invariant k <= port.numSrcs && SourceEvents(port, evs)
      invariant port.events == old(port.events) + Gathered(evs[..k], window, start, nframes)
      invariant port.trackActivity == old(port.trackActivity)
    {
      var q := port.srcs[k];
      port.events := port.events + window(q.events, start, nframes);
      assert evs[..k + 1][..k] == evs[..k];
      k := k + 1;
    }
    assert evs[..k] == evs;
    if |port.events| > 0 && port.identifier.owner == OwnerTrack {
      port.trackActivity := true;
    }
  }

  /** What the source `q` offers the control port `port`: whether it is a
      CV port and, if so, its first sample and the multiplier of its edge
      to `port`. */
  ghost predicate ControlSource(port: Port, q: Port, input: ControlInput)
    reads q, q.buf, q.dests, q.multipliers
  {
    q.Valid() && input.isCv == (q.identifier.ptype == TypeCv) &&
    (input.isCv ==>
      q.buf.Length > 0 && port in q.DestList() && input.sample == q.buf[0] &&
      input.multiplier == q.Multipliers()[IndexOf(q.DestList(), port)])
  }

  /** The sources of `port` offer the control inputs `inputs`; the port is
      not its own source. */
  ghost predicate SourceControls(port: Port, inputs: seq<ControlInput>)
    reads port`numSrcs, port.srcs
    reads set k | 0 <= k < port.numSrcs && k < port.srcs.Length :: port.srcs[k]
    reads set k | 0 <= k < port.numSrcs && k < port.srcs.Length && port.srcs[k] != null :: port.srcs[k].buf
    reads set k | 0 <= k < port.numSrcs && k < port.srcs.Length && port.srcs[k] != null :: port.srcs[k].dests
    reads set k | 0 <= k < port.numSrcs && k < port.srcs.Length && port.srcs[k] != null :: port.srcs[k].multipliers
  {
    port.numSrcs <= port.srcs.Length && |inputs| == port.numSrcs &&
    forall k :: 0 <= k < port.numSrcs ==>
      port.srcs[k] != null && port.srcs[k] != port && ControlSource(port, port.srcs[k], inputs[k])
  }

  /** One CV source acting on the control value: the value it starts
      from, `valToUse`, is moved by half the control range times the
      source's first sample and the multiplier of its edge to `port`, then
      clamped to the range. */
  method CvValue(port: Port, q: Port, valToUse: real, ghost input: ControlInput) returns (v: real)
    requires ControlSource(port, q, input) && input.isCv
    ensures v == Clamp(valToUse + (port.maxf - port.minf) / 2.0 * input.sample * input.multiplier, port.minf, port.maxf)
    ensures port.minf <= port.maxf ==> port.minf <= v <= port.maxf
  {
    var depthRange := (port.maxf - port.minf) / 2.0;
    var idx := FindPort(q.dests, q.numDests, port);
    v := Clamp(valToUse + depthRange * q.buf[0] * q.multipliers[idx], port.minf, port.maxf);
  }

  /** One pass of the control loop over the source `q` at position `k`:
      the running value and the first-CV flag move on by one input. */
  method ControlStep(port: Port, q: Port, k: nat, control: real, firstCv: bool, ghost inputs: seq<ControlInput>)
    returns (control': real, firstCv': bool)
    requires k < |inputs| && ControlSource(port, q, inputs[k])
    requires control == Modulated(port.baseValue, port.control, inputs[..k], port.minf, port.maxf)
    requires firstCv == NoCv(inputs[..k])
    ensures control' == Modulated(port.baseValue, port.control, inputs[..k + 1], port.minf, port.maxf)
    ensures firstCv' == NoCv(inputs[..k + 1])
  {
    ModulatedStep(port.baseValue, port.control, inputs, k, port.minf, port.maxf);
    control', firstCv' := control, firstCv;
    if q.identifier.ptype == TypeCv {
      var valToUse: real;
      if firstCv {
        valToUse := port.baseValue;
        firstCv' := false;
      } else {
        valToUse := control;
      }
      control' := CvValue(port, q, valToUse, inputs[k]);
    }
  }

  /** The loop of the control branch of `port_sum_signal_from_inputs`,
      with the running control value kept in a local: no source is the
      port itself, so nothing the loop reads depends on that value. */
  method ControlFromSources(port: Port, ghost inputs: seq<ControlInput>) returns (control: real)
    requires SourceControls(port, inputs)
    ensures control == Modulated(port.baseValue, port.control, inputs, port.minf, port.maxf)
  {
    control := port.control;
    var firstCv := true;
    var k := 0;
    while k < port.numSrcs
      invariant k <= port.numSrcs
      invariant control == Modulated(port.baseValue, port.control, inputs[..k], port.minf, port.maxf)
      invariant firstCv == NoCv(inputs[..k])
    {
      var q := port.srcs[k];
      assert ControlSource(port, q, inputs[k]);
      control, firstCv := ControlStep(port, q, k, control, firstCv, inputs);
      k := k + 1;
    }
    assert inputs[..k] == inputs;
  }

  /** The control branch of `port_sum_signal_from_inputs`: the control
      value becomes the modulation of the inputs from the CV sources. */
  method SumControl(port: Port, ghost inputs: seq<ControlInput>)
    requires SourceControls(port, inputs)
    modifies port`control
    ensures port.control == Modulated(port.baseValue, old(port.control), inputs, port.minf, port.maxf)
  {
    port.control := ControlFromSources(port, inputs);
  }
}
