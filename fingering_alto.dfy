/**
 * The alto-saxophone fingering table: a constant map from written MIDI
 * numbers to the set of keys pressed, with an all-keys-up default for
 * notes outside the table, and the per-key boolean view sent to clients.
 */
module FingeringAlto {

  import opened Wrappers

  /** The nineteen keys of the instrument, in declaration order. */
  datatype KeyId =
    | Octave | Lh1 | Lh2 | Lh3
    | Rh1 | Rh2 | Rh3
    | GSharp | BisBb
    | SideBb | SideC | SideEb
    | LowC | LowB | LowBb | LowCsharp
    | PalmD | PalmEb | PalmF

  /** The string value of a key, as it appears in the key-state dictionary. */
  function KeyValue(k: KeyId): string {
    match k
    case Octave => "octave"
    case Lh1 => "lh1"
    case Lh2 => "lh2"
    case Lh3 => "lh3"
    case Rh1 => "rh1"
    case Rh2 => "rh2"
    case Rh3 => "rh3"
    case GSharp => "gSharp"
    case BisBb => "bisBb"
    case SideBb => "sideBb"
    case SideC => "sideC"
    case SideEb => "sideEb"
    case LowC => "lowC"
    case LowB => "lowB"
    case LowBb => "lowBb"
    case LowCsharp => "lowCsharp"
    case PalmD => "palmD"
    case PalmEb => "palmEb"
    case PalmF => "palmF"
  }

  /** The key whose string value is `s`, if any: the enumeration's lookup by value. */
  function KeyFromValue(s: string): Option<KeyId> {
    if s == "octave" then Some(Octave)
    else if s == "lh1" then Some(Lh1)
    else if s == "lh2" then Some(Lh2)
    else if s == "lh3" then Some(Lh3)
    else if s == "rh1" then Some(Rh1)
    else if s == "rh2" then Some(Rh2)
    else if s == "rh3" then Some(Rh3)
    else if s == "gSharp" then Some(GSharp)
    else if s == "bisBb" then Some(BisBb)
    else if s == "sideBb" then Some(SideBb)
    else if s == "sideC" then Some(SideC)
    else if s == "sideEb" then Some(SideEb)
    else if s == "lowC" then Some(LowC)
    else if s == "lowB" then Some(LowB)
    else if s == "lowBb" then Some(LowBb)
    else if s == "lowCsharp" then Some(LowCsharp)
    else if s == "palmD" then Some(PalmD)
    else if s == "palmEb" then Some(PalmEb)
    else if s == "palmF" then Some(PalmF)
    else None
  }

  lemma KeyValueRoundTrip(k: KeyId)
    ensures KeyFromValue(KeyValue(k)) == Some(k)
  {
  }

  /** Distinct keys have distinct string values. */
  lemma KeyValueInjective(k1: KeyId, k2: KeyId)
    ensures KeyValue(k1) == KeyValue(k2) ==> k1 == k2
  {
    KeyValueRoundTrip(k1);
    KeyValueRoundTrip(k2);
  }

  /** Iteration order of the key enumeration. */
  const Keys: seq<KeyId> :=
    [Octave, Lh1, Lh2, Lh3, Rh1, Rh2, Rh3, GSharp, BisBb,
     SideBb, SideC, SideEb, LowC, LowB, LowBb, LowCsharp, PalmD, PalmEb, PalmF]

  /** A fingering: the keys held down and the name of the fingering. */
  datatype Fingering = Fingering(pressed: set<KeyId>, name: string)

  const Standard: string := "standard"

  /** A fingering pressing exactly `keys`. */
  function Pressed(keys: set<KeyId>, name: string := Standard): Fingering {
    Fingering(keys, name)
  }

  /** One row of the fingering table, by written MIDI number. */
  function TableRow(midiWritten: int): Option<Fingering> {
    match midiWritten
    // Low register (written Bb3..C#4)
    case 58 => Some(Pressed({Lh1, Lh2, Lh3, Rh1, Rh2, Rh3, LowBb}))
    case 59 => Some(Pressed({Lh1, Lh2, Lh3, Rh1, Rh2, Rh3, LowB}))
    case 60 => Some(Pressed({Lh1, Lh2, Lh3, Rh1, Rh2, Rh3, LowC}))
    case 61 => Some(Pressed({Lh1, Lh2, Lh3, Rh1, Rh2, Rh3, LowCsharp}))
    // Middle register (written D4..C#5)
    case 62 => Some(Pressed({Lh1, Lh2, Lh3, Rh1, Rh2, Rh3}))
    case 63 => Some(Pressed({Lh1, Lh2, Lh3, Rh1, Rh2, SideEb}))
    case 64 => Some(Pressed({Lh1, Lh2, Lh3, Rh1, Rh2}))
    case 65 => Some(Pressed({Lh1, Lh2, Lh3, Rh1}))
    case 66 => Some(Pressed({Lh1, Lh2, Lh3, SideEb}))
    case 67 => Some(Pressed({Lh1, Lh2, Lh3}))
    case 68 => Some(Pressed({Lh1, Lh2, Lh3, GSharp}))
    case 69 => Some(Pressed({Lh1, Lh2}))
    case 70 => Some(Pressed({Lh1, BisBb}))
    case 71 => Some(Pressed({Lh1, Lh2}))
    case 72 => Some(Pressed({Lh1}))
    case 73 => Some(Pressed({Lh1, SideBb}))
    // Upper register with the octave key (written D5..C#6)
    case 74 => Some(Pressed({Octave, Lh1, Lh2, Lh3, Rh1, Rh2, Rh3}))
    case 75 => Some(Pressed({Octave, Lh1, Lh2, Lh3, Rh1, Rh2, SideEb}))
    case 76 => Some(Pressed({Octave, Lh1, Lh2, Lh3, Rh1, Rh2}))
    case 77 => Some(Pressed({Octave, Lh1, Lh2, Lh3, Rh1}))
    case 78 => Some(Pressed({Octave, Lh1, Lh2, Lh3, SideEb}))
    case 79 => Some(Pressed({Octave, Lh1, Lh2, Lh3}))
    case 80 => Some(Pressed({Octave, Lh1, Lh2, Lh3, GSharp}))
    case 81 => Some(Pressed({Octave, Lh1, Lh2}))
    case 82 => Some(Pressed({Octave, Lh1, BisBb}))
    case 83 => Some(Pressed({Octave, Lh1, Lh2}))
    case 84 => Some(Pressed({Octave, Lh1}))
    case 85 => Some(Pressed({Octave, Lh1, SideBb}))
    // Palm-key region (written D6..F6)
    case 86 => Some(Pressed({Octave, Lh1, Lh2, Lh3, PalmD}))
    case 87 => Some(Pressed({Octave, Lh1, Lh2, Lh3, PalmEb}))
    case 88 => Some(Pressed({Octave, Lh1, Lh2, PalmEb}))
    case 89 => Some(Pressed({Octave, Lh1, Lh2, Lh3, PalmF}))
    case _ => None
  }

  /** The fingering table, keyed by written MIDI number. */
  const Fingerings: map<int, Fingering> :=
    map m | 58 <= m <= 89 && TableRow(m).Some? :: TableRow(m).value

  /** The table's fingering for a written note, or all keys up. */
  function FingeringForWrittenMidi(midiWritten: int): (f: Fingering)
    ensures midiWritten in Fingerings ==> f == Fingerings[midiWritten]
    ensures midiWritten !in Fingerings ==> f.pressed == {} && f.name == Standard
  {
    if midiWritten in Fingerings then Fingerings[midiWritten] else Pressed({})
  }

  predicate IsSupportedWrittenMidi(midiWritten: int) {
    midiWritten in Fingerings
  }

  /** One boolean per key value: is that key held down. */
  function KeyStatesToDict(f: Fingering): (d: map<string, bool>)
    ensures forall k :: KeyValue(k) in d && d[KeyValue(k)] == (k in f.pressed)
    ensures forall s :: s in d ==> exists k :: s == KeyValue(k)
  {
    forall k1, k2 | KeyValue(k1) == KeyValue(k2) ensures k1 == k2 {
      KeyValueInjective(k1, k2);
    }
    map k | k in Keys :: KeyValue(k) := k in f.pressed
  }

  /** The table covers exactly the contiguous written range Bb3 (58) .. F6 (89). */
  lemma SupportedRange(midiWritten: int)
    ensures IsSupportedWrittenMidi(midiWritten) <==> 58 <= midiWritten <= 89
  {
  }

  /** Outside the table every key is up and the fingering is "standard". */
  lemma UnsupportedAllKeysUp(midiWritten: int)
    requires !IsSupportedWrittenMidi(midiWritten)
    ensures FingeringForWrittenMidi(midiWritten) == Fingering({}, "standard")
  {
  }

  /** The octave key is held exactly for written D5 (74) and above. */
  lemma OctaveKeyRegister(midiWritten: int)
    ensures Octave in FingeringForWrittenMidi(midiWritten).pressed <==> 74 <= midiWritten <= 89
  {
  }

  /** D5..C#6 are fingered as the note an octave below plus the octave key. */
  lemma OctaveAbove(midiWritten: int)
    requires 74 <= midiWritten <= 85
    ensures FingeringForWrittenMidi(midiWritten).pressed
         == FingeringForWrittenMidi(midiWritten - 12).pressed + {Octave}
  {
    SupportedRange(midiWritten);
    SupportedRange(midiWritten - 12);
    if midiWritten < 80 {
      RowsD5ToG5(midiWritten);
    } else {
      RowsAb5ToCSharp6(midiWritten);
    }
  }

  lemma RowsD5ToG5(midiWritten: int)
    requires 74 <= midiWritten <= 79
    ensures TableRow(midiWritten).Some? && TableRow(midiWritten - 12).Some?
    ensures TableRow(midiWritten).value.pressed == TableRow(midiWritten - 12).value.pressed + {Octave}
  {
    if midiWritten == 74 {
      assert TableRow(74).value.pressed == TableRow(62).value.pressed + {Octave};
    } else if midiWritten == 75 {
      assert TableRow(75).value.pressed == TableRow(63).value.pressed + {Octave};
    } else if midiWritten == 76 {
      assert TableRow(76).value.pressed == TableRow(64).value.pressed + {Octave};
    } else if midiWritten == 77 {
      assert TableRow(77).value.pressed == TableRow(65).value.pressed + {Octave};
    } else if midiWritten == 78 {
      assert TableRow(78).value.pressed == TableRow(66).value.pressed + {Octave};
    } else if midiWritten == 79 {
      assert TableRow(79).value.pressed == TableRow(67).value.pressed + {Octave};
    }
  }

  lemma RowsAb5ToCSharp6(midiWritten: int)
    requires 80 <= midiWritten <= 85
    ensures TableRow(midiWritten).Some? && TableRow(midiWritten - 12).Some?
    ensures TableRow(midiWritten).value.pressed == TableRow(midiWritten - 12).value.pressed + {Octave}
  {
    if midiWritten == 80 {
      assert TableRow(80).value.pressed == TableRow(68).value.pressed + {Octave};
    } else if midiWritten == 81 {
      assert TableRow(81).value.pressed == TableRow(69).value.pressed + {Octave};
    } else if midiWritten == 82 {
      assert TableRow(82).value.pressed == TableRow(70).value.pressed + {Octave};
    } else if midiWritten == 83 {
      assert TableRow(83).value.pressed == TableRow(71).value.pressed + {Octave};
    } else if midiWritten == 84 {
      assert TableRow(84).value.pressed == TableRow(72).value.pressed + {Octave};
    } else if midiWritten == 85 {
      assert TableRow(85).value.pressed == TableRow(73).value.pressed + {Octave};
    }
  }

  /** Palm keys are held for D6..F6 only. */
  lemma PalmKeysAltissimo(midiWritten: int)
    ensures var p := FingeringForWrittenMidi(midiWritten).pressed;
      (PalmD in p || PalmEb in p || PalmF in p) ==> 86 <= midiWritten <= 89
  {
  }

  /** Each low key belongs to exactly one low note. */
  lemma LowKeys(midiWritten: int)
    ensures var p := FingeringForWrittenMidi(midiWritten).pressed;
      && (LowBb in p <==> midiWritten == 58)
      && (LowB in p <==> midiWritten == 59)
      && (LowC in p <==> midiWritten == 60)
      && (LowCsharp in p <==> midiWritten == 61)
  {
  }

  /** The key-state view has one entry per key, nineteen in all, and as many
      `true` entries as keys pressed. */
  lemma KeyStatesCount(f: Fingering)
    ensures |KeyStatesToDict(f)| == 19
    ensures |set s | s in KeyStatesToDict(f) && KeyStatesToDict(f)[s]| == |f.pressed|
  {
    var d := KeyStatesToDict(f);
    var all := set k | k in Keys;
    KeyCount();
    DictKeysImage(f);
    ImageCardinality(all);
    assert |d| == |d.Keys|;
    PressedEntriesImage(f);
    ImageCardinality(f.pressed);
  }

  lemma KeyCount()
    ensures |set k | k in Keys| == 19
  {
    DistinctCardinality(Keys);
  }

  lemma DictKeysImage(f: Fingering)
    ensures KeyStatesToDict(f).Keys == Image(set k | k in Keys)
  {
  }

  lemma PressedEntriesImage(f: Fingering)
    ensures (set s | s in KeyStatesToDict(f) && KeyStatesToDict(f)[s]) == Image(f.pressed)
  {
  }

  /** A sequence without repetitions has as many distinct elements as entries. */
  lemma {:induction false} DistinctCardinality(s: seq<KeyId>)
    requires forall i, j :: 0 <= i < j < |s| ==> s[i] != s[j]
    ensures |set k | k in s| == |s|
  {
    if s != [] {
      DistinctCardinality(s[1..]);
      assert (set k | k in s) == (set k | k in s[1..]) + {s[0]};
      assert s[0] !in s[1..];
    }
  }

  /** The string values of a set of keys. */
  ghost function Image(s: set<KeyId>): set<string> {
    set k | k in s :: KeyValue(k)
  }

  lemma {:induction false} ImageCardinality(s: set<KeyId>)
    ensures |Image(s)| == |s|
    decreases |s|
  {
    if s != {} {
      var k :| k in s;
      var rest := s - {k};
      ImageCardinality(rest);
      assert Image(s) == Image(rest) + {KeyValue(k)};
      forall k2 | k2 in rest ensures KeyValue(k2) != KeyValue(k) {
        KeyValueInjective(k2, k);
      }
      assert KeyValue(k) !in Image(rest);
    }
  }
}
