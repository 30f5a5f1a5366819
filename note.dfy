/**
 * `crates/learning-tools/src/note.rs`: the twelve pitch classes, notes as a
 * pitch class with an octave, MIDI numbers (A4 = 69, middle C = 60), the
 * note-name parser and the `Display` form.  Octaves are `i32` in the crate;
 * the arithmetic here is on unbounded integers.
 */
module Notes {
  import opened Numerics
  import opened Decimal

  datatype PitchClass = C | CSharp | D | DSharp | E | F | FSharp | G | GSharp | A | ASharp | B

  /** The pitch classes in semitone order from C. */
  const Chromatic: seq<PitchClass> := [C, CSharp, D, DSharp, E, F, FSharp, G, GSharp, A, ASharp, B]

  /** `semitone_offset`: C = 0 up to B = 11. */
  function SemitoneOffset(p: PitchClass): (r: int)
    ensures 0 <= r < 12 && Chromatic[r] == p
  {
    match p
    case C => 0
    case CSharp => 1
    case D => 2
    case DSharp => 3
    case E => 4
    case F => 5
    case FSharp => 6
    case G => 7
    case GSharp => 8
    case A => 9
    case ASharp => 10
    case B => 11
  }

  /** `from_semitone_offset`: the class of `offset.rem_euclid(12)`. */
  function FromSemitoneOffset(offset: int): (p: PitchClass)
    ensures SemitoneOffset(p) == offset % 12
  {
    Chromatic[offset % 12]
  }

  /** Offsets name pitch classes one to one: going there and back is the identity. */
  lemma OffsetRoundTrip(p: PitchClass)
    ensures FromSemitoneOffset(SemitoneOffset(p)) == p
  {
  }

  /** `from_semitone_offset` repeats every twelve semitones. */
  lemma OffsetPeriodic(offset: int, k: int)
    ensures FromSemitoneOffset(offset + 12 * k) == FromSemitoneOffset(offset)
  {
    assert (offset + 12 * k) % 12 == offset % 12;
  }

  /** `name`: the sharp spelling. */
  function Name(p: PitchClass): (r: string)
    ensures |r| == 1 || (|r| == 2 && r[1] == '#')
    ensures r[0] in "ABCDEFG"
  {
    match p
    case C => "C"
    case CSharp => "C#"
    case D => "D"
    case DSharp => "D#"
    case E => "E"
    case F => "F"
    case FSharp => "F#"
    case G => "G"
    case GSharp => "G#"
    case A => "A"
    case ASharp => "A#"
    case B => "B"
  }

  /** The flat spelling `PitchClass::parse` also accepts, for the five black keys. */
  function Flat(p: PitchClass): (r: Option<string>)
    ensures r.Some? ==> |r.value| == 2 && r.value[1] == 'b'
  {
    match p
    case CSharp => Some("Db")
    case DSharp => Some("Eb")
    case FSharp => Some("Gb")
    case GSharp => Some("Ab")
    case ASharp => Some("Bb")
    case _ => None
  }

  /**
   * `PitchClass::parse`: `p` is the answer exactly when the text is the sharp
   * name of `p` or its flat spelling; any other text gives `None`.
   */
  function ParsePitchClass(s: string): (r: Option<PitchClass>)
    ensures forall p :: r == Some(p) <==> (s == Name(p) || Flat(p) == Some(s))
  {
    if s == "C" then Some(C)
    else if s == "C#" || s == "Db" then Some(CSharp)
    else if s == "D" then Some(D)
    else if s == "D#" || s == "Eb" then Some(DSharp)
    else if s == "E" then Some(E)
    else if s == "F" then Some(F)
    else if s == "F#" || s == "Gb" then Some(FSharp)
    else if s == "G" then Some(G)
    else if s == "G#" || s == "Ab" then Some(GSharp)
    else if s == "A" then Some(A)
    else if s == "A#" || s == "Bb" then Some(ASharp)
    else if s == "B" then Some(B)
    else None
  }

  /** Text of two characters whose second is neither `#` nor `b` names no pitch class. */
  lemma ParsePitchClassNeedsAccidental(s: string)
    requires |s| == 2 && s[1] != '#' && s[1] != 'b'
    ensures ParsePitchClass(s).None?
  {
  }

  datatype Note = Note(pitchClass: PitchClass, octave: int)

  /** `to_midi`: twelve semitones per octave, with octave -1 starting at 0. */
  function ToMidi(n: Note): (r: int)
    ensures n.octave >= -1 ==> r >= 0
    ensures r % 12 == SemitoneOffset(n.pitchClass)
  {
    (n.octave + 1) * 12 + SemitoneOffset(n.pitchClass)
  }

  /** `from_midi`: truncating `/` for the octave, truncating `%` then `rem_euclid` for the class. */
  function FromMidi(midi: int): Note
  {
    Note(FromSemitoneOffset(TruncMod(midi, 12)), TruncDiv(midi, 12) - 1)
  }

  /** The pitch class of `from_midi(m)` is the class of `m` for every `m`, negative or not. */
  lemma FromMidiPitchClass(midi: int)
    ensures SemitoneOffset(FromMidi(midi).pitchClass) == midi % 12
  {
    var q := TruncDiv(midi, 12);
    var r := TruncMod(midi, 12);
    assert midi == r + q * 12;
    ModShift(r, q);
  }

  /** Adding a multiple of twelve leaves the class alone. */
  lemma ModShift(r: int, q: int)
    ensures (r + q * 12) % 12 == r % 12
  {
    var d := r / 12;
    assert r == d * 12 + r % 12;
    assert r + q * 12 == (d + q) * 12 + r % 12;
  }

  /** For every non-negative MIDI number, `to_midi(from_midi(m)) == m`. */
  lemma MidiRoundTrip(midi: int)
    requires midi >= 0
    ensures ToMidi(FromMidi(midi)) == midi
  {
    FromMidiPitchClass(midi);
  }

  /** A note at octave -1 or above survives the trip through its MIDI number. */
  lemma NoteRoundTrip(n: Note)
    requires n.octave >= -1
    ensures FromMidi(ToMidi(n)) == n
  {
    var m := ToMidi(n);
    assert m / 12 == n.octave + 1;
    FromMidiPitchClass(m);
  }

  /**
   * Below MIDI 0 the truncating octave is one too high whenever the number
   * is not a multiple of twelve: the trip through `from_midi` then adds 12.
   */
  lemma NegativeMidiOffByOctave(midi: int)
    requires midi < 0 && midi % 12 != 0
    ensures ToMidi(FromMidi(midi)) == midi + 12
  {
    FromMidiPitchClass(midi);
    var q := (-midi) / 12;
    assert TruncDiv(midi, 12) == -q;
    assert -midi == 12 * q + (-midi) % 12;
    assert midi % 12 == 12 - (-midi) % 12;
  }

  /** MIDI -1 comes back as MIDI 11: the note one semitone below C-1 is read as B-1. */
  lemma MinusOneComesBackAsEleven()
    ensures FromMidi(-1) == Note(B, -1) && ToMidi(FromMidi(-1)) == 11
  {
    NegativeMidiOffByOctave(-1);
  }

  /** `transpose`: the note `semitones` away, through the MIDI number. */
  function Transpose(n: Note, semitones: int): (r: Note)
    ensures ToMidi(n) + semitones >= 0 ==> ToMidi(r) == ToMidi(n) + semitones
  {
    var midi := ToMidi(n) + semitones;
    if midi >= 0 then MidiRoundTrip(midi); FromMidi(midi) else FromMidi(midi)
  }

  /** A transposition by whole octaves keeps the pitch class and moves the octave. */
  lemma TransposeOctaves(n: Note, k: int)
    requires n.octave >= -1 && n.octave + k >= -1
    ensures Transpose(n, 12 * k) == Note(n.pitchClass, n.octave + k)
  {
    NoteRoundTrip(Note(n.pitchClass, n.octave + k));
  }

  /** `interval_to`: the signed distance in semitones. */
  function IntervalTo(from: Note, to: Note): (r: int)
    ensures r == 0 <==> ToMidi(from) == ToMidi(to)
    ensures r > 0 <==> ToMidi(from) < ToMidi(to)
  {
    ToMidi(to) - ToMidi(from)
  }

  /** The interval back is the negated interval there. */
  lemma IntervalAntisymmetric(a: Note, b: Note)
    ensures IntervalTo(a, b) == -IntervalTo(b, a)
  {
  }

  /** The interval to a transposition is the transposition, while the result stays at MIDI 0 or above. */
  lemma IntervalToTranspose(n: Note, semitones: int)
    requires ToMidi(n) + semitones >= 0
    ensures IntervalTo(n, Transpose(n, semitones)) == semitones
  {
  }

  /** `Display`: the sharp name followed by the decimal octave. */
  function Display(n: Note): (r: string)
    ensures |r| >= 2 && r[0] in "ABCDEFG"
  {
    Name(n.pitchClass) + IntToString(n.octave)
  }

  /**
   * `Note::parse`: `None` below two characters; otherwise a two-character
   * class with the rest as the octave, and failing that a one-character
   * class with the rest as the octave.
   */
  function Parse(s: string): (r: Option<Note>)
    ensures |s| < 2 ==> r.None?
    ensures r.Some? ==> IsI32(r.value.octave)
    ensures r.Some? ==> (|s| >= 3 && ParsePitchClass(s[..2]) == Some(r.value.pitchClass) &&
                           ParseI32(s[2..]) == Some(r.value.octave)) ||
                        (ParsePitchClass(s[..1]) == Some(r.value.pitchClass) &&
                           ParseI32(s[1..]) == Some(r.value.octave))
  {
    if |s| < 2 then None
    else
      var twoChar := if |s| >= 3 then ParsePitchClass(s[..2]) else None;
      var twoOctave := if |s| >= 3 then ParseI32(s[2..]) else None;
      if twoChar.Some? && twoOctave.Some? then Some(Note(twoChar.value, twoOctave.value))
      else
        var oneChar := ParsePitchClass(s[..1]);
        var oneOctave := ParseI32(s[1..]);
        if oneChar.Some? && oneOctave.Some? then Some(Note(oneChar.value, oneOctave.value))
        else None
  }

  /** Parsing a note's `Display` form gives the note back, for every `i32` octave. */
  lemma ParseDisplay(n: Note)
    requires IsI32(n.octave)
    ensures Parse(Display(n)) == Some(n)
  {
    var name := Name(n.pitchClass);
    var digits := IntToString(n.octave);
    var s := Display(n);
    ParseDisplayRoundTrip(n.octave);
    if |name| == 2 {
      assert s[..2] == name && s[2..] == digits;
    } else {
      assert s[..1] == name && s[1..] == digits;
      assert digits[0] == '-' || IsDigit(digits[0]);
      if |s| >= 3 {
        assert s[..2] == [name[0], digits[0]];
        ParsePitchClassNeedsAccidental(s[..2]);
      }
    }
  }

  /** The parser's examples: "A4", "C#5" and the flat spelling "Bb3". */
  lemma ParseExamples()
    ensures Parse("A4") == Some(Note(A, 4))
    ensures Parse("C#5") == Some(Note(CSharp, 5))
    ensures Parse("Bb3") == Some(Note(ASharp, 3))
  {
    ParseA4();
    ParseCSharp5();
    ParseBFlat3();
  }

  lemma ParseA4()
    ensures Parse("A4") == Some(Note(A, 4))
  {
    assert IntToString(4) == "4";
    assert Display(Note(A, 4)) == "A4";
    ParseDisplay(Note(A, 4));
  }

  lemma ParseCSharp5()
    ensures Parse("C#5") == Some(Note(CSharp, 5))
  {
    assert IntToString(5) == "5";
    assert Display(Note(CSharp, 5)) == "C#5";
    ParseDisplay(Note(CSharp, 5));
  }

  lemma ParseBFlat3()
    ensures Parse("Bb3") == Some(Note(ASharp, 3))
  {
    assert IntToString(3) == "3";
    assert Display(Note(ASharp, 3)) == "A#3";
    ParseDisplay(Note(ASharp, 3));
    assert "Bb3"[..2] == "Bb" && "Bb3"[2..] == "3";
    FlatParsesLikeSharp("Bb3", ASharp);
  }

  /** A flat spelling followed by an octave reads like the sharp one. */
  lemma FlatParsesLikeSharp(s: string, p: PitchClass)
    requires |s| >= 3 && Flat(p) == Some(s[..2])
    ensures Parse(s) == Parse(Name(p) + s[2..])
  {
    var t := Name(p) + s[2..];
    assert t[..2] == Name(p) && t[2..] == s[2..];
  }

  /** Text that starts with no pitch-class letter is rejected. */
  lemma ParseRejectsUnknownLetter(s: string)
    requires |s| >= 2 && s[0] !in "ABCDEFG"
    ensures Parse(s).None?
  {
    assert s[..1][0] == s[0];
    if |s| >= 3 {
      assert s[..2][0] == s[0];
    }
  }

  /** `from_frequency`: `None` at or below 0 Hz, else the note of the rounded MIDI number. */
  function FromFrequency(midiOf: real -> int, hz: real): (r: Option<Note>)
    ensures hz <= 0.0 <==> r.None?
    ensures r.Some? ==> r.value == FromMidi(midiOf(hz))
  {
    if hz <= 0.0 then None else Some(FromMidi(midiOf(hz)))
  }
}
