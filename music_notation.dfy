/**
 * `hz_to_note_name`, written identically in
 * `crates/pitch-detection/src/music_notation.rs` and `src/music_notation.rs`:
 * "N/A" at or below 0 Hz, else the sharp name of the nearest MIDI note
 * followed by its octave.  The rounding of `69 + 12 log2(hz / 440)` to an
 * `i32` is the parameter `midiOf`.
 */
module MusicNotation {
  import opened Numerics
  import opened Decimal
  import Notes

  const NoteNames: seq<string> := ["C", "C#", "D", "D#", "E", "F", "F#", "G", "G#", "A", "A#", "B"]

  /** The lookup index `midi.rem_euclid(12)`, always a valid index of the twelve names. */
  function NameIndex(midi: int): (i: nat)
    ensures i < |NoteNames|
    ensures (midi - i) % 12 == 0
  {
    midi % 12
  }

  /** The octave `midi / 12 - 1`, with Rust's truncating division. */
  function OctaveOf(midi: int): int
  {
    TruncDiv(midi, 12) - 1
  }

  /** The name of one MIDI number: the sharp name and the decimal octave. */
  function MidiName(midi: int): string
  {
    NoteNames[NameIndex(midi)] + IntToString(OctaveOf(midi))
  }

  /** `hz_to_note_name` */
  function HzToNoteName(midiOf: real -> int, hz: real): (r: string)
    ensures hz <= 0.0 ==> r == "N/A"
    ensures hz > 0.0 ==> r == MidiName(midiOf(hz))
  {
    if hz <= 0.0 then "N/A" else MidiName(midiOf(hz))
  }

  /**
   * The name is the note `Display` of `Note::from_midi` for every MIDI
   * number: the two crates agree, including below MIDI 0.
   */
  lemma MidiNameIsNoteDisplay(midi: int)
    ensures MidiName(midi) == Notes.Display(Notes.FromMidi(midi))
  {
    Notes.FromMidiPitchClass(midi);
    var p := Notes.FromMidi(midi).pitchClass;
    assert Notes.SemitoneOffset(p) == NameIndex(midi);
    assert NoteNames[Notes.SemitoneOffset(p)] == Notes.Name(p) by {
      match p
      case C => case CSharp => case D => case DSharp => case E => case F =>
      case FSharp => case G => case GSharp => case A => case ASharp => case B =>
    }
  }

  /**
   * From MIDI 0 up, the name's class and octave rebuild the MIDI number:
   * 12 * (octave + 1) + index == midi.
   */
  lemma NameDeterminesMidi(midi: int)
    requires midi >= 0
    ensures 12 * (OctaveOf(midi) + 1) + NameIndex(midi) == midi
  {
  }

  /** For MIDI 0 and above, different numbers have different names. */
  lemma MidiNameInjective(a: int, b: int)
    requires a >= 0 && b >= 0
    requires MidiName(a) == MidiName(b)
    ensures a == b
  {
    MidiNameIsNoteDisplay(a);
    MidiNameIsNoteDisplay(b);
    NamesDetermineNotes(Notes.FromMidi(a), Notes.FromMidi(b));
    Notes.MidiRoundTrip(a);
    Notes.MidiRoundTrip(b);
  }

  /** Two notes with the same `Display` text are the same note. */
  lemma NamesDetermineNotes(x: Notes.Note, y: Notes.Note)
    requires Notes.Display(x) == Notes.Display(y)
    ensures x == y
  {
    var nx := Notes.Name(x.pitchClass);
    var ny := Notes.Name(y.pitchClass);
    var dx := IntToString(x.octave);
    var dy := IntToString(y.octave);
    var s := Notes.Display(x);
    assert |nx| == |ny|;
    assert nx == s[..|nx|] == ny;
    assert dx == s[|nx|..] == dy;
    IntToStringInjective(x.octave, y.octave);
    assert x.pitchClass == y.pitchClass by {
      assert Notes.ParsePitchClass(nx) == Some(x.pitchClass);
      assert Notes.ParsePitchClass(ny) == Some(y.pitchClass);
    }
  }

  /**
   * Below MIDI 0 the truncating octave gives MIDI -1 the name "B-1", the
   * name of MIDI 11: the mapping is not one to one there.
   */
  lemma NegativeMidiSharesName()
    ensures MidiName(-1) == MidiName(11) == "B-1"
  {
    assert IntToString(-1) == "-1";
  }

  /** The names in the tests: A4, C4, E4, A5, A2, A0, C#4, D#4 and A#4. */
  lemma NameExamples()
    ensures MidiName(69) == "A4" && MidiName(60) == "C4" && MidiName(64) == "E4"
    ensures MidiName(81) == "A5" && MidiName(45) == "A2" && MidiName(21) == "A0"
    ensures MidiName(61) == "C#4" && MidiName(63) == "D#4" && MidiName(70) == "A#4"
  {
    assert IntToString(4) == "4" && IntToString(5) == "5";
    assert IntToString(2) == "2" && IntToString(0) == "0";
  }

  /** At or below 0 Hz the name is "N/A", whatever the rounding. */
  lemma NonPositiveIsNotANote(midiOf: real -> int)
    ensures HzToNoteName(midiOf, 0.0) == "N/A" && HzToNoteName(midiOf, -10.0) == "N/A"
  {
  }
}
