/** The chord preset pack manager (src/settings/chord_preset_pack_manager.c).

    The manager holds a list of preset packs: first the built-in standard
    pack, then the user packs loaded from YAML files whose text begins
    with the current schema version.  Packs are added as copies and
    removed by identity; only user packs are ever written back. */
module ChordPresetPackManagers {
  import opened Wrappers

  // ---------------------------------------------------------------------
  // The schema-version header
  // ---------------------------------------------------------------------

  predicate IsDigit(c: char)
  {
    '0' <= c <= '9'
  }

  function Digit(d: nat): char
    requires d < 10
  {
    ('0' as int + d) as char
  }

  /** `%d` of a non-negative number. */
  function Decimal(n: nat): (s: string)
    ensures |s| > 0 && forall i :: 0 <= i < |s| ==> IsDigit(s[i])
    decreases n
  {
    if n < 10 then [Digit(n)] else Decimal(n / 10) + [Digit(n % 10)]
  }

  /** The number a string of digits spells. */
  function DigitsValue(s: string): int
    requires forall i :: 0 <= i < |s| ==> IsDigit(s[i])
    decreases |s|
  {
    if s == [] then 0
    else DigitsValue(s[..|s| - 1]) * 10 + (s[|s| - 1] as int - '0' as int)
  }

  /** Reading back the digits `%d` writes gives the number. */
  lemma {:induction false} DecimalRoundTrip(n: nat)
    ensures DigitsValue(Decimal(n)) == n
    decreases n
  {
    if n >= 10 {
      DecimalRoundTrip(n / 10);
      var s := Decimal(n);
      assert s[..|s| - 1] == Decimal(n / 10);
    }
  }

  /** The first line a pack file of schema `version` starts with. */
  function Header(version: nat): string
  {
    "schema_version: " + Decimal(version) + "\n"
  }

  /** `is_yaml_our_version`: the text starts with the header, bare or
      after a YAML document marker. */
  predicate IsYamlOurVersion(yaml: string, version: nat)
  {
    Header(version) <= yaml || "---\n" + Header(version) <= yaml
  }

  /** Two digit strings each followed by a newline cannot be prefixes of
      one another unless they are equal. */
  lemma DigitsLine(a: string, b: string, rest: string)
    requires forall i :: 0 <= i < |a| ==> IsDigit(a[i])
    requires forall i :: 0 <= i < |b| ==> IsDigit(b[i])
    requires a + "\n" <= b + "\n" + rest
    ensures a == b
  {
    var x, y := a + "\n", b + "\n" + rest;
    var n := if |a| < |b| then |a| else |b|;
    assert x[n] == y[n];
    assert |a| == |b|;
    assert forall i :: 0 <= i < |a| ==> a[i] == x[i] == y[i] == b[i];
  }

  /** A file of schema `v` is accepted as schema `w` exactly when the two
      versions are equal, with or without the document marker. */
  lemma HeaderSelectsVersion(v: nat, w: nat, rest: string)
    ensures IsYamlOurVersion(Header(v) + rest, w) <==> v == w
    ensures IsYamlOurVersion("---\n" + Header(v) + rest, w) <==> v == w
  {
    var hv, hw := Header(v), Header(w);
    var p := "schema_version: ";
    assert hv == p + (Decimal(v) + "\n") && hw == p + (Decimal(w) + "\n");
    if hw <= hv + rest {
      assert Decimal(w) + "\n" <= Decimal(v) + "\n" + rest by {
        assert hv + rest == p + (Decimal(v) + "\n" + rest);
        forall i | 0 <= i < |Decimal(w)| + 1
          ensures (Decimal(w) + "\n")[i] == (Decimal(v) + "\n" + rest)[i]
        {
          assert hw[|p| + i] == (hv + rest)[|p| + i];
        }
      }
      DigitsLine(Decimal(w), Decimal(v), rest);
      DecimalRoundTrip(v);
      DecimalRoundTrip(w);
    }
    if "---\n" + hw <= "---\n" + hv + rest {
      assert hw <= hv + rest by {
        forall i | 0 <= i < |hw|
          ensures hw[i] == (hv + rest)[i]
        {
          assert ("---\n" + hw)[4 + i] == ("---\n" + hv + rest)[4 + i];
        }
      }
      DigitsLine(Decimal(w), Decimal(v), rest) by {
        assert hv + rest == p + (Decimal(v) + "\n" + rest);
        forall i | 0 <= i < |Decimal(w)| + 1
          ensures (Decimal(w) + "\n")[i] == (Decimal(v) + "\n" + rest)[i]
        {
          assert hw[|p| + i] == (hv + rest)[|p| + i];
        }
      }
      DecimalRoundTrip(v);
      DecimalRoundTrip(w);
    }
    assert (hv + rest)[0] == 's' && ("---\n" + hw)[0] == '-';
    assert ("---\n" + hv + rest)[0] == '-' && hw[0] == 's';
    if v == w {
      assert "---\n" + hv + rest == ("---\n" + hv) + rest;
    }
  }

  // ---------------------------------------------------------------------
  // Presets and packs
  // ---------------------------------------------------------------------

  datatype ChordType = ChordTypeMaj | OtherChordType(code: nat)
  datatype ChordAccent = AccentNone | OtherAccent(code: nat)

  /** `NOTE_C`, the first musical note. */
  const NoteC := 0

  datatype ChordDescriptor = ChordDescriptor(root: int, hasBass: bool, bass: int, chordType: ChordType, accent: ChordAccent, inversion: int)

  datatype ChordPreset = ChordPreset(name: string, descr: seq<ChordDescriptor>)

  /** `ADD_SIMPLE_CHORD`: a root-position chord without bass note or accent. */
  function SimpleChord(root: int, t: ChordType): ChordDescriptor
  {
    ChordDescriptor(root, false, root, t, AccentNone, 0)
  }

  /** The standard "Pop" preset: twelve C major chords. */
  function PopPreset(): (p: ChordPreset)
    ensures |p.descr| == 12
    ensures forall i :: 0 <= i < 12 ==> p.descr[i] == ChordDescriptor(NoteC, false, NoteC, ChordTypeMaj, AccentNone, 0)
  {
    ChordPreset("Pop", seq(12, _ => SimpleChord(NoteC, ChordTypeMaj)))
  }

  /** Number of preset slots in a pack without presets. */
  const DefaultPresetsSize := 12

  /** The `presets_size` the loader gives a pack: 12 slots when the file
      had no presets, otherwise exactly the number of presets. */
  function PresetsSize(presets: Option<seq<ChordPreset>>): (r: nat)
    ensures r >= |PresetsOf(presets)|
    ensures presets.Some? ==> r == |presets.value|
    ensures presets.None? ==> r == DefaultPresetsSize
  {
    if presets.None? then DefaultPresetsSize else |presets.value|
  }

  /** The presets in use: none when the file had none. */
  function PresetsOf(presets: Option<seq<ChordPreset>>): seq<ChordPreset>
  {
    if presets.None? then [] else presets.value
  }

  class ChordPresetPack {
    const name: string
    const isStandard: bool
    var presets: seq<ChordPreset>
    var presetsSize: nat

    constructor (name0: string, isStandard0: bool, presets0: seq<ChordPreset>, presetsSize0: nat)
      ensures name == name0 && isStandard == isStandard0
      ensures presets == presets0 && presetsSize == presetsSize0
    {
      name, isStandard := name0, isStandard0;
      presets, presetsSize := presets0, presetsSize0;
    }
  }

  // ---------------------------------------------------------------------
  // Loading user packs
  // ---------------------------------------------------------------------

  /** A pack as the YAML loader returns it; `presets` is NULL when the file
      lists none. */
  datatype PackData = PackData(name: string, isStandard: bool, presets: Option<seq<ChordPreset>>)

  /** A `.yaml` file under the user pack directory: whether it exists, is
      not a directory and was read, its text, and what the YAML loader
      makes of it (None when it fails). */
  datatype UserFile = UserFile(readable: bool, text: string, parsed: Option<PackData>)

  /** The packs the loader adds from `files`, and whether it got through
      them all: unreadable files and files of another schema version are
      skipped, and a file the loader cannot parse ends the scan. */
  function Loaded(files: seq<UserFile>, version: nat): (seq<PackData>, bool)
    decreases |files|
  {
    if files == [] then ([], true)
    else
      var (l, ok) := Loaded(files[..|files| - 1], version);
      var f := files[|files| - 1];
      if !ok || !f.readable || !IsYamlOurVersion(f.text, version) then (l, ok)
      else if f.parsed.None? then (l, false)
      else (l + [f.parsed.value], true)
  }

  /** Every loaded pack comes from a readable file of the current schema
      version, in file order; with all files parsed, every such file is
      loaded. */
  lemma {:induction false} LoadedFromCurrentVersion(files: seq<UserFile>, version: nat)
    ensures forall d :: d in Loaded(files, version).0 ==>
      exists f :: f in files && f.readable && IsYamlOurVersion(f.text, version) && f.parsed == Some(d)
    ensures (forall f :: f in files ==> f.parsed.Some?) ==>
      Loaded(files, version).1 &&
      forall f :: f in files && f.readable && IsYamlOurVersion(f.text, version) ==> f.parsed.value in Loaded(files, version).0
    decreases |files|
  {
    if files != [] {
      var init := files[..|files| - 1];
      LoadedFromCurrentVersion(init, version);
      assert files == init + [files[|files| - 1]];
    }
  }

  /** Pack object `p` holds the loaded pack `d`. */
  ghost predicate Holds(p: ChordPresetPack, d: PackData)
    reads p
  {
    p.name == d.name && p.isStandard == d.isStandard &&
    p.presets == PresetsOf(d.presets) && p.presetsSize == PresetsSize(d.presets)
  }

  /** Pack objects `ps` hold the loaded packs `ds`, one for one. */
  ghost predicate HoldsAll(ps: seq<ChordPresetPack>, ds: seq<PackData>)
    reads set p | p in ps
  {
    |ps| == |ds| && forall k :: 0 <= k < |ps| ==> Holds(ps[k], ds[k])
  }

  /** Packs are never written when they are standard, and the write loop
      stops at the first user pack without a name. */
  function Serialized(packs: seq<ChordPresetPack>): seq<ChordPresetPack>
    decreases |packs|
  {
    if packs == [] then []
    else if packs[0].isStandard then Serialized(packs[1..])
    else if packs[0].name == "" then []
    else [packs[0]] + Serialized(packs[1..])
  }

  /** `serialize` writes no standard pack, only packs of the list, and
      every user pack when all of them are named. */
  lemma {:induction false} SerializedSkipsStandard(packs: seq<ChordPresetPack>)
    ensures forall p :: p in Serialized(packs) ==> p in packs && !p.isStandard && p.name != ""
    ensures (forall p :: p in packs && !p.isStandard ==> p.name != "") ==>
      forall p :: p in packs && !p.isStandard ==> p in Serialized(packs)
    decreases |packs|
  {
    if packs != [] {
      SerializedSkipsStandard(packs[1..]);
      forall p | p in packs[1..]
        ensures p in packs
      {
      }
      assert packs == [packs[0]] + packs[1..];
    }
  }

  class ChordPresetPackManager {
    var packs: seq<ChordPresetPack>

    /** `chord_preset_pack_manager_new` before the user packs are read:
        `add_standard_packs` adds one standard pack with the "Pop" preset.
        The pack constructor is not part of this model; the pack gets the
        12 preset slots a loaded pack without presets gets. */
    constructor ()
      ensures |packs| == 1 && fresh(packs[0])
      ensures packs[0].name == "Standard" && packs[0].isStandard
      ensures packs[0].presets == [PopPreset()] && packs[0].presetsSize == DefaultPresetsSize
    {
      var pack := new ChordPresetPack("Standard", true, [], DefaultPresetsSize);
      pack.presets := pack.presets + [PopPreset()];
      packs := [pack];
    }

    /** The user-pack loop of `chord_preset_pack_manager_new`; `ok` is
        false where the source gives up and returns NULL. */
    method LoadUserPacks(files: seq<UserFile>, version: nat) returns (ok: bool)
      modifies this
      ensures ok == Loaded(files, version).1
      ensures |old(packs)| <= |packs| && packs[..|old(packs)|] == old(packs)
      ensures forall p :: p in packs[|old(packs)|..] ==> fresh(p)
      ensures HoldsAll(packs[|old(packs)|..], Loaded(files, version).0)
    {
      var i := 0;
      ghost var added: seq<PackData> := [];
      ghost var created: seq<ChordPresetPack> := [];
      while i < |files|
        invariant 0 <= i <= |files|
        invariant Loaded(files[..i], version) == (added, true)
        invariant packs == old(packs) + created
        invariant forall p :: p in created ==> fresh(p)
        invariant HoldsAll(created, added)
      {
        var f := files[i];
        assert files[..i + 1][..i] == files[..i];
        if f.readable && IsYamlOurVersion(f.text, version) {
          if f.parsed.None? {
            assert !Loaded(files[..i + 1], version).1;
            LoadedStops(files, version, i + 1);
            assert packs[|old(packs)|..] == created;
            return false;
          }
          var d := f.parsed.value;
          var pack := new ChordPresetPack(d.name, d.isStandard, PresetsOf(d.presets), PresetsSize(d.presets));
          packs := packs + [pack];
          added := added + [d];
          created := created + [pack];
        }
        i := i + 1;
      }
      assert files[..i] == files;
      assert packs[|old(packs)|..] == created;
      return true;
    }

    /** `chord_preset_pack_manager_add_pack`: a copy of `pack` goes at the
        end. */
    method AddPack(pack: ChordPresetPack)
      modifies this
      ensures |packs| == |old(packs)| + 1 && packs[..|old(packs)|] == old(packs)
      ensures fresh(packs[|packs| - 1])
      ensures var p := packs[|packs| - 1];
        p.name == pack.name && p.isStandard == pack.isStandard &&
        p.presets == pack.presets && p.presetsSize == pack.presetsSize
    {
      var clone := new ChordPresetPack(pack.name, pack.isStandard, pack.presets, pack.presetsSize);
      packs := packs + [clone];
    }

    /** `chord_preset_pack_manager_delete_pack`: the first entry that is
        `pack` is removed; nothing changes when it is not listed. */
    method DeletePack(pack: ChordPresetPack)
      modifies this
      ensures packs == RemoveAt(old(packs), IndexOf(old(packs), pack))
      ensures pack in old(packs) ==> |packs| == |old(packs)| - 1
      ensures pack !in old(packs) ==> packs == old(packs)
    {
      var i := 0;
      while i < |packs|
        invariant 0 <= i <= |packs|
        invariant pack !in packs[..i]
      {
        if packs[i] == pack {
          IndexOfUnique(packs, pack, i);
          packs := packs[..i] + packs[i + 1..];
          return;
        }
        i := i + 1;
      }
      assert packs[..i] == packs;
    }

    /** `chord_preset_pack_manager_get_pack_for_preset`: the first pack
        holding the preset. */
    method GetPackForPreset(pset: ChordPreset) returns (r: Option<nat>)
      ensures r.Some? ==> r.value < |packs| && pset in packs[r.value].presets
      ensures r.Some? ==> forall j :: 0 <= j < r.value ==> pset !in packs[j].presets
      ensures r.None? <==> forall j :: 0 <= j < |packs| ==> pset !in packs[j].presets
    {
      var i := 0;
      while i < |packs|
        invariant 0 <= i <= |packs|
        invariant forall j :: 0 <= j < i ==> pset !in packs[j].presets
      {
        if pset in packs[i].presets {
          return Some(i);
        }
        i := i + 1;
      }
      return None;
    }

    /** `chord_preset_pack_manager_delete_preset`: the preset leaves the
        first pack holding it; without such a pack nothing changes. */
    method DeletePreset(pset: ChordPreset) returns (r: Option<nat>)
      modifies packs
      ensures packs == old(packs)
      ensures r.None? ==> forall j :: 0 <= j < |packs| ==> pset !in packs[j].presets
      ensures r.None? ==> forall p :: p in packs ==> unchanged(p)
      ensures r.Some? ==> r.value < |packs| && pset in old(packs[r.value].presets)
      ensures r.Some? ==> forall j :: 0 <= j < r.value ==> pset !in old(packs[j].presets)
      ensures r.Some? ==>
        packs[r.value].presets == RemoveAt(old(packs[r.value].presets), IndexOf(old(packs[r.value].presets), pset))
      ensures r.Some? ==> packs[r.value].presetsSize == old(packs[r.value].presetsSize)
      ensures r.Some? ==> forall p :: p in packs && p != packs[r.value] ==> unchanged(p)
    {
      r := GetPackForPreset(pset);
      if r.None? {
        return;
      }
      var pack := packs[r.value];
      var k := IndexOf(pack.presets, pset);
      pack.presets := RemoveAt(pack.presets, k);
    }

    /** The packs `chord_preset_pack_manager_serialize` writes, in order. */
    method Serialize() returns (written: seq<ChordPresetPack>)
      ensures written == Serialized(packs)
    {
      written := [];
      var i := 0;
      while i < |packs|
        invariant 0 <= i <= |packs|
        invariant Serialized(packs) == written + Serialized(packs[i..])
      {
        assert packs[i..][1..] == packs[i + 1..];
        var pack := packs[i];
        if !pack.isStandard {
          if pack.name == "" {
            return;
          }
          written := written + [pack];
        }
        i := i + 1;
      }
    }
  }

  /** Once the scan has failed on a prefix of the files, the later files
      do not change that. */
  lemma {:induction false} LoadedStops(files: seq<UserFile>, version: nat, n: nat)
    requires n <= |files| && !Loaded(files[..n], version).1
    ensures Loaded(files, version) == Loaded(files[..n], version)
    decreases |files| - n
  {
    if n < |files| {
      assert files[..n + 1][..n] == files[..n];
      LoadedStops(files, version, n + 1);
    } else {
      assert files[..n] == files;
    }
  }
}
