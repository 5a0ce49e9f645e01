/**
 * The chord script reader (lab4/src/Parser.h). The first line holds the tempo
 * in beats per minute; every following line up to `END` is one chord, written
 * as note tokens such as `C4`, `F#3-` or a lone `-`. Tokens are found by a
 * regular-expression search for `([A-G]#?\d-?)|(-)`, so any other character
 * is skipped. A lone `-` repeats the note at the same position of the previous
 * chord, faded out. The input stream is modelled as the sequence of its
 * remaining lines, as `std::getline` delivers them.
 */
module ChordParser {
  import opened Outcomes
  import opened IntText
  import opened Chords

  const UINT_MODULUS: int := 0x1_0000_0000

  // ---------------------------------------------------------------- tempo

  /**
   * The tempo line: `std::stoi` on the first line, converted to `unsigned`
   * (modulo 2^32). A missing line and a line `stoi` rejects are errors.
   */
  function ParseBpm(lines: seq<string>): (r: Result<nat>)
    ensures r.Ok? ==> r.value < UINT_MODULUS
    ensures lines == [] <==> r == Err(RuntimeError("No BPM found"))
  {
    if lines == [] then Err(RuntimeError("No BPM found"))
    else match ParseLeadingInt(lines[0])
      case None => Err(RuntimeError("Invalid BPM format"))
      case Some((v, _)) => Ok(v % UINT_MODULUS)
  }

  /**
   * A tempo line holding a number gives that number back; a negative one
   * wraps around to a large unsigned tempo.
   */
  lemma BpmRoundTrip(n: int, tail: string, rest: seq<string>)
    requires INT_MIN <= n <= INT_MAX
    requires tail == [] || !IsDigit(tail[0])
    ensures ParseBpm([IntToString(n) + tail] + rest) == Ok(if n < 0 then n + UINT_MODULUS else n)
  {
    IntToStringRoundTrip(n, tail);
    var lines := [IntToString(n) + tail] + rest;
    assert lines[0] == IntToString(n) + tail;
    UnsignedOf(n);
  }

  /** The `int` to `unsigned` conversion. */
  lemma UnsignedOf(n: int)
    requires INT_MIN <= n <= INT_MAX
    ensures n % UINT_MODULUS == if n < 0 then n + UINT_MODULUS else n
  {
    if n < 0 {
      var m := n + UINT_MODULUS;
      assert 0 <= m < UINT_MODULUS;
      assert n == m - UINT_MODULUS;
    }
  }

  /** A tempo line without any digit is an invalid format. */
  lemma BpmWithoutDigits(line: string, rest: seq<string>)
    requires forall i :: 0 <= i < |line| ==> !IsDigit(line[i])
    ensures ParseBpm([line] + rest) == Err(RuntimeError("Invalid BPM format"))
  {
    var t := SkipSpaces(line);
    assert forall i :: 0 <= i < |t| ==> t[i] == line[|line| - |t| + i];
    var u := if t != [] && (t[0] == '-' || t[0] == '+') then t[1..] else t;
    assert u == [] || !IsDigit(u[0]);
    assert DigitRun(u) == 0;
  }

  // ---------------------------------------------------------------- tokens

  /** Whether `t` is a whole note token `[A-G]#?\d-?`. */
  predicate IsNoteToken(t: string) {
    |t| >= 2 && 'A' <= t[0] <= 'G' &&
    var j := if t[1] == '#' then 2 else 1;
    j < |t| && IsDigit(t[j]) && (|t| == j + 1 || (|t| == j + 2 && t[j + 1] == '-'))
  }

  predicate IsToken(t: string) {
    t == "-" || IsNoteToken(t)
  }

  /** Length of the token the search finds at the start of `s`, or 0 for none. */
  function MatchLength(s: string): (k: nat)
    ensures k <= |s|
    ensures k > 0 ==> IsToken(s[..k])
  {
    if s == [] then 0
    else if 'A' <= s[0] <= 'G' then
      var j := if |s| >= 3 && s[1] == '#' && IsDigit(s[2]) then 3
               else if |s| >= 2 && IsDigit(s[1]) then 2
               else 0;
      if j == 0 then 0
      else if j < |s| && s[j] == '-' then j + 1
      else j
    else if s[0] == '-' then 1
    else 0
  }

  /** The tokens the search yields on a line, left to right, skipping characters no token starts at. */
  function Tokens(s: string): (r: seq<string>)
    ensures forall i :: 0 <= i < |r| ==> IsToken(r[i])
    decreases |s|
  {
    if s == [] then []
    else
      var k := MatchLength(s);
      if k == 0 then Tokens(s[1..]) else [s[..k]] + Tokens(s[k..])
  }

  /** Characters that no token can start at are skipped. */
  lemma {:induction false} TokensSkipNoise(noise: string, rest: string)
    requires forall i :: 0 <= i < |noise| ==> !('A' <= noise[i] <= 'G') && noise[i] != '-'
    ensures Tokens(noise + rest) == Tokens(rest)
    decreases |noise|
  {
    if noise != [] {
      assert (noise + rest)[1..] == noise[1..] + rest;
      TokensSkipNoise(noise[1..], rest);
    } else {
      assert noise + rest == rest;
    }
  }

  // ---------------------------------------------------------------- notes

  /** The pitch class of a note letter and sharp sign; `B#` and `E#` are plain B and E. */
  function GetNoteType(name: string, sharp: string): (r: Result<NoteType>)
    ensures r.Ok? <==> |name| == 1 && 'A' <= name[0] <= 'G'
    ensures r.Ok? ==> Letter(r.value) == name[0]
    ensures r.Ok? ==> (IsSharp(r.value) <==> sharp != "" && name[0] != 'B' && name[0] != 'E')
    ensures r.Err? ==> r.error == RuntimeError("Invalid note name: " + name)
  {
    if name == "A" then Ok(if sharp == "" then A else Ad)
    else if name == "B" then Ok(B)
    else if name == "C" then Ok(if sharp == "" then C else Cd)
    else if name == "D" then Ok(if sharp == "" then D else Dd)
    else if name == "E" then Ok(E)
    else if name == "F" then Ok(if sharp == "" then F else Fd)
    else if name == "G" then Ok(if sharp == "" then G else Gd)
    else Err(RuntimeError("Invalid note name: " + name))
  }

  /** A note token: letter, optional `#`, octave digit 0 to 8, optional `-` for dim. */
  function ParseNote(s: string): (r: Result<Note>)
    ensures r.Ok? <==> IsNoteToken(s) && s[|s| - (if s[|s| - 1] == '-' then 2 else 1)] != '9'
    ensures r.Ok? ==> Letter(r.value.noteType) == s[0] && 0 <= r.value.octave <= 8
    ensures r.Ok? ==> (r.value.dim <==> s[|s| - 1] == '-')
    ensures r.Ok? ==> (IsSharp(r.value.noteType) <==> s[1] == '#' && s[0] != 'B' && s[0] != 'E')
    ensures !IsNoteToken(s) ==> r == Err(RuntimeError("Invalid note format: " + s))
  {
    if IsNoteToken(s) then
      var j := if s[1] == '#' then 2 else 1;
      match GetNoteType(s[..1], s[1..j])
      case Err(e) => Err(e)
      case Ok(t) =>
        var octave := DigitValue(s[j]);
        if octave > 8 then Err(RuntimeError("Invalid octave"))
        else Ok(Note(t, octave, |s| == j + 2))
    else
      Err(RuntimeError("Invalid note format: " + s))
  }

  /**
   * One token at position `index` of its line: a lone `-` repeats note
   * `index` of the previous chord with `dim` set; anything else is a note.
   */
  function ParseNoteOrDim(noteStr: string, noteIndex: nat, previousChord: Option<Chord>): (r: Result<Note>)
    ensures noteStr == "-" ==>
      (r.Ok? <==> previousChord.Some? && noteIndex < |previousChord.value|)
    ensures noteStr == "-" && r.Ok? ==>
      r.value.dim && r.value.noteType == previousChord.value[noteIndex].noteType
      && r.value.octave == previousChord.value[noteIndex].octave
    ensures noteStr != "-" ==> r == ParseNote(noteStr)
  {
    if noteStr == "-" then
      if previousChord.Some? && noteIndex < |previousChord.value| then
        Ok(previousChord.value[noteIndex].(dim := true))
      else
        Err(RuntimeError("Invalid '-' note: no previous note to repeat"))
    else ParseNote(noteStr)
  }

  /** The chord of one line's tokens, or the first token's error. */
  function ParseTokens(tokens: seq<string>, previousChord: Option<Chord>): (r: Result<Chord>)
    ensures r.Ok? ==> |r.value| == |tokens|
    decreases |tokens|
  {
    if tokens == [] then Ok([])
    else
      var n := |tokens| - 1;
      match ParseTokens(tokens[..n], previousChord)
      case Err(e) => Err(e)
      case Ok(chord) =>
        match ParseNoteOrDim(tokens[n], n, previousChord)
        case Err(e) => Err(e)
        case Ok(note) => Ok(chord + [note])
  }

  // ---------------------------------------------------------------- script

  /** What reading the chord lines produces: the chords or an error, the lines consumed, the remembered chord. */
  datatype ScriptOutcome = ScriptOutcome(chords: Result<seq<Chord>>, consumed: nat, previous: Option<Chord>)

  function Prepend(done: seq<Chord>, r: Result<seq<Chord>>): Result<seq<Chord>> {
    match r
    case Ok(cs) => Ok(done + cs)
    case Err(e) => Err(e)
  }

  /**
   * The chord lines: stop after `END` or at the end of input; a line without
   * tokens adds nothing and keeps the remembered chord; a line whose token
   * fails ends the reading with that error.
   */
  function ReadChords(lines: seq<string>, previous: Option<Chord>): (o: ScriptOutcome)
    ensures o.consumed <= |lines|
    ensures lines != [] ==> o.consumed >= 1
    ensures o.chords.Ok? ==> forall i :: 0 <= i < |o.chords.value| ==> o.chords.value[i] != []
    decreases |lines|
  {
    if lines == [] then ScriptOutcome(Ok([]), 0, previous)
    else if lines[0] == "END" then ScriptOutcome(Ok([]), 1, previous)
    else
      match ParseTokens(Tokens(lines[0]), previous)
      case Err(e) => ScriptOutcome(Err(e), 1, previous)
      case Ok(chord) =>
        var rest := ReadChords(lines[1..], if chord == [] then previous else Some(chord));
        ScriptOutcome(Prepend(if chord == [] then [] else [chord], rest.chords), 1 + rest.consumed, rest.previous)
  }

  /** The outcome of the whole script once `done` chords and `i` lines are behind. */
  function Resume(done: seq<Chord>, i: nat, o: ScriptOutcome): ScriptOutcome {
    ScriptOutcome(Prepend(done, o.chords), i + o.consumed, o.previous)
  }

  class Parser {
    /** The lines of the input stream not read yet. */
    var lines: seq<string>
    /** The last chord read that had at least one note. */
    var previousChord: Option<Chord>

    constructor(input: seq<string>)
      ensures lines == input && previousChord == None
    {
      lines := input;
      previousChord := None;
    }

    /** Reads the tempo line. */
    method GetBpm() returns (bpm: Result<nat>)
      modifies this
      ensures bpm == ParseBpm(old(lines))
      ensures lines == if old(lines) == [] then [] else old(lines)[1..]
      ensures previousChord == old(previousChord)
    {
      if lines == [] {
        return Err(RuntimeError("No BPM found"));
      }
      var line := lines[0];
      lines := lines[1..];
      var parsed := ParseLeadingInt(line);
      if parsed.None? {
        return Err(RuntimeError("Invalid BPM format"));
      }
      bpm := Ok(parsed.value.0 % UINT_MODULUS);
    }

    /** Reads chord lines up to `END`, remembering the last non-empty chord. */
    method GetChords() returns (chords: Result<seq<Chord>>)
      modifies this
      ensures var o := ReadChords(old(lines), old(previousChord));
        chords == o.chords && lines == old(lines)[o.consumed..] && previousChord == o.previous
    {
      var input, start := lines, previousChord;
      var done: seq<Chord> := [];
      var i := 0;
      assert input[0..] == input;
      PrependEmpty(ReadChords(input, start).chords);
      while i < |input|
        invariant 0 <= i <= |input|
        invariant Resume(done, i, ReadChords(input[i..], previousChord)) == ReadChords(input, start)
        invariant lines == input
      {
        var line := input[i];
        assert input[i..][0] == line && input[i..][1..] == input[i + 1..];
        if line == "END" {
          lines := input[i + 1..];
          return Ok(done);
        }
        var chord := ReadLine(line, previousChord);
        if chord.Err? {
          lines := input[i + 1..];
          return Err(chord.error);
        }
        ReadChordsStep(input[i..], previousChord, chord.value);
        if chord.value != [] {
          PrependTwice(done, [chord.value], ReadChords(input[i + 1..], Some(chord.value)).chords);
          done := done + [chord.value];
          previousChord := Some(chord.value);
        } else {
          PrependTwice(done, [], ReadChords(input[i + 1..], previousChord).chords);
          assert done + [] == done;
        }
        i := i + 1;
      }
      assert ReadChords(input[i..], previousChord) == ScriptOutcome(Ok([]), 0, previousChord);
      PrependNothing(done);
      lines := [];
      chords := Ok(done);
    }

    /** The token loop of one line: parses each token in turn into the chord. */
    method ReadLine(line: string, previous: Option<Chord>) returns (chord: Result<Chord>)
      ensures chord == ParseTokens(Tokens(line), previous)
    {
      var tokens := Tokens(line);
      var notes: Chord := [];
      var j := 0;
      while j < |tokens|
        invariant 0 <= j <= |tokens|
        invariant ParseTokens(tokens[..j], previous) == Ok(notes)
      {
        ParseTokensSnoc(tokens, j, previous);
        var note := ParseNoteOrDim(tokens[j], j, previous);
        if note.Err? {
          ErrorStops(tokens, j + 1, previous);
          return Err(note.error);
        }
        notes := notes + [note.value];
        j := j + 1;
      }
      assert tokens[..j] == tokens;
      chord := Ok(notes);
    }
  }

  lemma ParseTokensSnoc(tokens: seq<string>, j: nat, previous: Option<Chord>)
    requires j < |tokens|
    ensures ParseTokens(tokens[..j + 1], previous) ==
      match ParseTokens(tokens[..j], previous)
      case Err(e) => Err(e)
      case Ok(chord) =>
        match ParseNoteOrDim(tokens[j], j, previous)
        case Err(e) => Err(e)
        case Ok(note) => Ok(chord + [note])
  {
    assert tokens[..j + 1][..j] == tokens[..j];
  }

  /** An error in the first `k` tokens is the error of the whole line. */
  lemma {:induction false} ErrorStops(tokens: seq<string>, k: nat, previous: Option<Chord>)
    requires k <= |tokens| && ParseTokens(tokens[..k], previous).Err?
    ensures ParseTokens(tokens, previous) == ParseTokens(tokens[..k], previous)
    decreases |tokens| - k
  {
    if k < |tokens| {
      assert tokens[..k + 1][..k] == tokens[..k];
      ErrorStops(tokens, k + 1, previous);
    } else {
      assert tokens[..k] == tokens;
    }
  }

  /** One chord line read, from the script's point of view. */
  lemma ReadChordsStep(lines: seq<string>, previous: Option<Chord>, chord: Chord)
    requires lines != [] && lines[0] != "END"
    requires ParseTokens(Tokens(lines[0]), previous) == Ok(chord)
    ensures ReadChords(lines, previous)
         == Resume(if chord == [] then [] else [chord], 1,
                   ReadChords(lines[1..], if chord == [] then previous else Some(chord)))
  {
  }

  lemma PrependEmpty(r: Result<seq<Chord>>)
    ensures Prepend([], r) == r
  {
    if r.Ok? {
      assert [] + r.value == r.value;
    }
  }

  lemma PrependNothing(done: seq<Chord>)
    ensures Prepend(done, Ok([])) == Ok(done)
  {
    assert done + [] == done;
  }

  lemma PrependTwice(a: seq<Chord>, b: seq<Chord>, r: Result<seq<Chord>>)
    ensures Prepend(a, Prepend(b, r)) == Prepend(a + b, r)
  {
    if r.Ok? {
      assert a + (b + r.value) == (a + b) + r.value;
    }
  }

  // ---------------------------------------------------------------- partners

  /** The script text of a note, as the token grammar spells it. */
  function NoteText(n: Note): (t: string)
    requires 0 <= n.octave <= 9
    ensures IsNoteToken(t)
  {
    [Letter(n.noteType)] + (if IsSharp(n.noteType) then "#" else "")
    + [DigitChar(n.octave)] + (if n.dim then "-" else "")
  }

  predicate Playable(n: Note) {
    0 <= n.octave <= 8
  }

  /** Parsing the text of a playable note gives the note back. */
  lemma NoteRoundTrip(n: Note)
    requires Playable(n)
    ensures ParseNote(NoteText(n)) == Ok(n)
  {
    var r := ParseNote(NoteText(n));
    assert r.Ok?;
    LetterAndSharpIdentify(r.value.noteType, n.noteType);
  }

  /** Octave 9 matches the token grammar but is rejected. */
  lemma OctaveNineRejected(n: Note)
    requires n.octave == 9
    ensures ParseNote(NoteText(n)) == Err(RuntimeError("Invalid octave"))
  {
  }

  /** The search finds a note's text as one token, when no `-` could extend it. */
  lemma TokensOfNote(n: Note, rest: string)
    requires Playable(n)
    requires n.dim || rest == [] || rest[0] != '-'
    ensures Tokens(NoteText(n) + rest) == [NoteText(n)] + Tokens(rest)
  {
    var t := NoteText(n);
    var s := t + rest;
    assert s[..|t|] == t;
    assert s[|t|..] == rest;
    assert MatchLength(s) == |t|;
  }

  /** A chord line: each note's text followed by a space. */
  function ChordText(c: Chord): string
    requires forall i :: 0 <= i < |c| ==> Playable(c[i])
  {
    if c == [] then "" else assert Playable(c[0]); NoteText(c[0]) + " " + ChordText(c[1..])
  }

  lemma {:induction false} TokensOfChordText(c: Chord)
    requires forall i :: 0 <= i < |c| ==> Playable(c[i])
    ensures |Tokens(ChordText(c))| == |c|
    ensures forall i :: 0 <= i < |c| ==> Tokens(ChordText(c))[i] == NoteText(c[i])
    decreases |c|
  {
    if c != [] {
      TokensOfNote(c[0], " " + ChordText(c[1..]));
      assert NoteText(c[0]) + " " + ChordText(c[1..]) == NoteText(c[0]) + (" " + ChordText(c[1..]));
      TokensSkipNoise(" ", ChordText(c[1..]));
      TokensOfChordText(c[1..]);
    }
  }

  lemma {:induction false} ParseNoteTokens(tokens: seq<string>, c: Chord, previous: Option<Chord>)
    requires |tokens| == |c|
    requires forall i :: 0 <= i < |c| ==> Playable(c[i]) && tokens[i] == NoteText(c[i])
    ensures ParseTokens(tokens, previous) == Ok(c)
    decreases |c|
  {
    if c != [] {
      var n := |c| - 1;
      ParseNoteTokens(tokens[..n], c[..n], previous);
      NoteRoundTrip(c[n]);
      assert c[..n] + [c[n]] == c;
    }
  }

  /** A line written from playable notes reads back as that chord, whatever came before. */
  lemma ChordLineRoundTrip(c: Chord, previous: Option<Chord>)
    requires forall i :: 0 <= i < |c| ==> Playable(c[i])
    ensures ParseTokens(Tokens(ChordText(c)), previous) == Ok(c)
  {
    TokensOfChordText(c);
    ParseNoteTokens(Tokens(ChordText(c)), c, previous);
  }

  function Dashes(k: nat): (t: seq<string>)
    ensures |t| == k && forall i :: 0 <= i < k ==> t[i] == "-"
  {
    seq(k, _ => "-")
  }

  /** `k` lone dashes repeat the first `k` notes of the previous chord, faded; one dash too many fails. */
  lemma {:induction false} DashesRepeatPrevious(k: nat, previous: Chord)
    ensures ParseTokens(Dashes(k), Some(previous)).Ok? <==> k <= |previous|
    ensures ParseTokens(Dashes(k), Some(previous)).Ok? ==>
      forall i :: 0 <= i < k ==> ParseTokens(Dashes(k), Some(previous)).value[i] == previous[i].(dim := true)
    decreases k
  {
    if k > 0 {
      assert Dashes(k)[..k - 1] == Dashes(k - 1);
      DashesRepeatPrevious(k - 1, previous);
    }
  }

  /** A dash with no chord before it fails. */
  lemma DashWithoutPrevious(index: nat)
    ensures ParseNoteOrDim("-", index, None) == Err(RuntimeError("Invalid '-' note: no previous note to repeat"))
  {
  }

  /** A line without tokens adds no chord and keeps the remembered chord. */
  lemma EmptyLineSkipped(line: string, rest: seq<string>, previous: Option<Chord>)
    requires line != "END" && Tokens(line) == []
    ensures ReadChords([line] + rest, previous) == Resume([], 1, ReadChords(rest, previous))
  {
    assert ([line] + rest)[1..] == rest;
    var o := ReadChords(rest, previous);
    if o.chords.Ok? {
      assert [] + o.chords.value == o.chords.value;
    }
  }

  /** Nothing after the `END` line is read. */
  lemma {:induction false} EndStopsReading(lines: seq<string>, k: nat, previous: Option<Chord>)
    requires k < |lines| && lines[k] == "END"
    ensures ReadChords(lines, previous) == ReadChords(lines[..k + 1], previous)
    decreases k
  {
    if k > 0 && lines[0] != "END" {
      assert lines[..k + 1][0] == lines[0];
      assert lines[..k + 1][1..] == lines[1..][..k];
      match ParseTokens(Tokens(lines[0]), previous)
      case Err(_) =>
      case Ok(chord) =>
        EndStopsReading(lines[1..], k - 1, if chord == [] then previous else Some(chord));
    }
  }

  /** The script text of chords: one line per chord. */
  function ScriptLines(chords: seq<Chord>): (lines: seq<string>)
    requires forall i, j :: 0 <= i < |chords| && 0 <= j < |chords[i]| ==> Playable(chords[i][j])
    ensures |lines| == |chords|
  {
    if chords == [] then []
    else
      assert forall j :: 0 <= j < |chords[0]| ==> Playable(chords[0][j]);
      [ChordText(chords[0])] + ScriptLines(chords[1..])
  }

  function LastChord(chords: seq<Chord>, previous: Option<Chord>): Option<Chord> {
    if chords == [] then previous else Some(chords[|chords| - 1])
  }

  /**
   * Round trip: the lines written for non-empty chords of playable notes,
   * then `END`, read back as exactly those chords in order, consume up to and
   * including `END`, and leave the last chord remembered.
   */
  lemma {:induction false} ScriptRoundTrip(chords: seq<Chord>, after: seq<string>, previous: Option<Chord>)
    requires forall i :: 0 <= i < |chords| ==> chords[i] != []
    requires forall i, j :: 0 <= i < |chords| && 0 <= j < |chords[i]| ==> Playable(chords[i][j])
    ensures ReadChords(ScriptLines(chords) + ["END"] + after, previous)
         == ScriptOutcome(Ok(chords), |chords| + 1, LastChord(chords, previous))
    decreases |chords|
  {
    var lines := ScriptLines(chords) + ["END"] + after;
    if chords == [] {
      assert lines[0] == "END";
    } else {
      var c := chords[0];
      assert lines[0] == ChordText(c);
      assert lines[1..] == ScriptLines(chords[1..]) + ["END"] + after;
      ChordLineRoundTrip(c, previous);
      assert ChordText(c) != "END" by {
        TokensOfChordText(c);
        assert Tokens("END") == [];
      }
      ScriptRoundTrip(chords[1..], after, Some(c));
      assert [c] + chords[1..] == chords;
      if |chords| > 1 {
        assert chords[1..][|chords[1..]| - 1] == chords[|chords| - 1];
      }
    }
  }
}
