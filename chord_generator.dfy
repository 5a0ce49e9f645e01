/**
 * The chord sequencer's control state (lab4/src/ChordsGenerator.h): each chord
 * sounds for one beat of `samplesInBeat` samples, then the next chord starts;
 * after the last chord's beat the output is silent for good. The sine
 * generators and their floating-point samples are abstracted: a generator is
 * represented by the note it plays, and a sample by the set of voices summed.
 * Counters are `ma_uint32`, so they are kept below 2^32 and wrap explicitly.
 */
module ChordSequencer {
  import opened Outcomes
  import opened Chords
  import opened Arith

  const UINT32_MODULUS: int := 0x1_0000_0000
  const SECONDS_PER_MINUTE: int := 60

  /** Samples per beat: `sampleRate * 60 / bpm` computed in 32-bit unsigned arithmetic. */
  function SamplesInBeat(sampleRate: nat, bpm: nat): (s: nat)
    requires sampleRate < UINT32_MODULUS && 0 < bpm < UINT32_MODULUS
    ensures s < UINT32_MODULUS
    ensures s * bpm <= (sampleRate * SECONDS_PER_MINUTE) % UINT32_MODULUS < (s + 1) * bpm
  {
    (sampleRate * SECONDS_PER_MINUTE) % UINT32_MODULUS / bpm
  }

  /** `--counter` on an `ma_uint32`. */
  function Decrement(x: nat): (r: nat)
    requires x < UINT32_MODULUS
    ensures r < UINT32_MODULUS && (r + 1) % UINT32_MODULUS == x
  {
    if x == 0 then UINT32_MODULUS - 1 else x - 1
  }

  /** One output sample: silence, or one sample of each voice, summed. */
  datatype Sample = Silence | Mix(voices: seq<Note>)

  /** The sequencer's control state: the current chord and the samples left in its beat. */
  datatype Control = Control(index: nat, beatCount: nat)

  /** What one `GetNextSample` call does to the control state, for `count` chords. */
  function Advance(c: Control, count: nat, samplesInBeat: nat): (r: Control)
    requires c.index < count && c.beatCount < UINT32_MODULUS && samplesInBeat < UINT32_MODULUS
    ensures r.index < count && r.beatCount < UINT32_MODULUS
    ensures r.index == c.index || r.index == c.index + 1
  {
    if c.beatCount == 0 then
      if c.index == count - 1 then c
      else Control(c.index + 1, Decrement(samplesInBeat))
    else Control(c.index, c.beatCount - 1)
  }

  /** The sample one call returns from state `c`. */
  function SampleOf(c: Control, chords: seq<Chord>, samplesInBeat: nat): Sample
    requires c.index < |chords| && c.beatCount < UINT32_MODULUS && samplesInBeat < UINT32_MODULUS
  {
    if c.beatCount == 0 && c.index == |chords| - 1 then Silence
    else Mix(chords[Advance(c, |chords|, samplesInBeat).index])
  }

  class ChordGenerator {
    var sampleRate: nat
    var chords: seq<Chord>
    var currentChordIndex: nat
    var bpm: nat
    var samplesInBeat: nat
    var beatCount: nat
    /** One generator per note of the current chord. */
    var generators: seq<Note>

    ghost predicate Valid()
      reads this
    {
      |chords| >= 1 && currentChordIndex < |chords|
      && sampleRate < UINT32_MODULUS && 0 < bpm < UINT32_MODULUS
      && samplesInBeat == SamplesInBeat(sampleRate, bpm)
      && beatCount < UINT32_MODULUS
      && generators == chords[currentChordIndex]
    }

    function State(): Control
      reads this
    {
      Control(currentChordIndex, beatCount)
    }

    /** The chords must not be empty: the first chord is looked up with a checked access. */
    constructor(sampleRate: nat, bpm: nat, chords: seq<Chord>)
      requires sampleRate < UINT32_MODULUS && 0 < bpm < UINT32_MODULUS
      requires |chords| >= 1
      ensures Valid()
      ensures this.sampleRate == sampleRate && this.bpm == bpm && this.chords == chords
      ensures State() == Control(0, SamplesInBeat(sampleRate, bpm))
    {
      this.sampleRate := sampleRate;
      this.chords := chords;
      this.bpm := bpm;
      currentChordIndex := 0;
      samplesInBeat := SamplesInBeat(sampleRate, bpm);
      beatCount := SamplesInBeat(sampleRate, bpm);
      generators := [];
      new;
      InitGenerators();
    }

    /** One sample: move to the next chord when the beat is over, or stay silent after the last one. */
    method GetNextSample() returns (sample: Sample)
      requires Valid()
      modifies this
      ensures Valid()
      ensures chords == old(chords) && sampleRate == old(sampleRate) && bpm == old(bpm)
      ensures State() == Advance(old(State()), |chords|, samplesInBeat)
      ensures sample == SampleOf(old(State()), chords, samplesInBeat)
    {
      if beatCount == 0 {
        if IsEnd() {
          return Silence;
        }
        NextChord();
      }
      beatCount := Decrement(beatCount);
      sample := Mix(generators);
    }

    /**
     * Whether the current chord is the last one: once its beat is over, a
     * call changes nothing exactly when this holds.
     */
    predicate IsEnd()
      reads this
      ensures Valid() && beatCount == 0 ==>
        (IsEnd() <==> Advance(State(), |chords|, samplesInBeat) == State())
    {
      currentChordIndex == |chords| - 1
    }

    method NextChord()
      requires Valid() && currentChordIndex < |chords| - 1
      modifies this
      ensures Valid()
      ensures beatCount == samplesInBeat && currentChordIndex == old(currentChordIndex) + 1
      ensures chords == old(chords) && sampleRate == old(sampleRate) && bpm == old(bpm)
      ensures samplesInBeat == old(samplesInBeat)
    {
      beatCount := samplesInBeat;
      currentChordIndex := currentChordIndex + 1;
      InitGenerators();
    }

    /** Rebuilds the generators: one per note of the current chord, in order. */
    method InitGenerators()
      requires currentChordIndex < |chords|
      modifies this
      ensures chords == old(chords) && currentChordIndex == old(currentChordIndex)
      ensures sampleRate == old(sampleRate) && bpm == old(bpm)
      ensures samplesInBeat == old(samplesInBeat) && beatCount == old(beatCount)
      ensures generators == chords[currentChordIndex]
    {
      var chord := chords[currentChordIndex];
      generators := [];
      var i := 0;
      while i < |chord|
        invariant 0 <= i <= |chord|
        invariant generators == chord[..i]
        invariant chords == old(chords) && currentChordIndex == old(currentChordIndex)
        invariant sampleRate == old(sampleRate) && bpm == old(bpm)
        invariant samplesInBeat == old(samplesInBeat) && beatCount == old(beatCount)
      {
        generators := generators + [chord[i]];
        i := i + 1;
      }
      assert chord[..i] == chord;
    }
  }

  /** Builds a sequencer; the checked access to the first chord fails on an empty list. */
  method NewChordGenerator(sampleRate: nat, bpm: nat, chords: seq<Chord>) returns (r: Result<ChordGenerator>)
    requires sampleRate < UINT32_MODULUS && 0 < bpm < UINT32_MODULUS
    ensures chords == [] <==> r.Err?
    ensures r.Err? ==> r.error.OutOfRange?
    ensures r.Ok? ==> fresh(r.value) && r.value.Valid() && r.value.chords == chords
    ensures r.Ok? ==> r.value.State() == Control(0, SamplesInBeat(sampleRate, bpm))
  {
    if chords == [] {
      return Err(OutOfRange("vector::_M_range_check"));
    }
    var g := new ChordGenerator(sampleRate, bpm, chords);
    r := Ok(g);
  }

  // ---------------------------------------------------------------- schedule

  /** The control state after `k` calls. */
  function Run(c: Control, k: nat, count: nat, samplesInBeat: nat): (r: Control)
    requires c.index < count && c.beatCount < UINT32_MODULUS && samplesInBeat < UINT32_MODULUS
    ensures r.index < count && r.beatCount < UINT32_MODULUS
    decreases k
  {
    if k == 0 then c else Advance(Run(c, k - 1, count, samplesInBeat), count, samplesInBeat)
  }

  /**
   * The schedule: after `q*s + r + 1` calls (chord `q` of `n`, `r` samples
   * into its beat of `s`), the sequencer is at chord `q` with `s - 1 - r`
   * samples of the beat left.
   */
  lemma {:induction false} Schedule(q: nat, r: nat, n: nat, s: nat)
    requires n >= 1 && 1 <= s < UINT32_MODULUS && q < n && r < s
    ensures Run(Control(0, s), q * s + r + 1, n, s) == Control(q, s - 1 - r)
    decreases q, r
  {
    if r > 0 {
      Schedule(q, r - 1, n, s);
    } else if q > 0 {
      Schedule(q - 1, s - 1, n, s);
      assert (q - 1) * s + (s - 1) + 1 == q * s;
    }
  }

  /** After `n*s` calls the last beat is over, and further calls change nothing. */
  lemma {:induction false} Finished(k: nat, n: nat, s: nat)
    requires n >= 1 && 1 <= s < UINT32_MODULUS && k >= n * s
    ensures Run(Control(0, s), k, n, s) == Control(n - 1, 0)
    decreases k
  {
    if k == n * s {
      Schedule(n - 1, s - 1, n, s);
      assert (n - 1) * s + (s - 1) + 1 == n * s;
    } else {
      Finished(k - 1, n, s);
    }
  }

  /**
   * Sample `q*s + r` (counting from 0, `r < s`) is chord `q`: each chord
   * sounds for exactly one beat, in order.
   */
  lemma SampleSchedule(chords: seq<Chord>, s: nat, q: nat, r: nat)
    requires 1 <= s < UINT32_MODULUS && q < |chords| && r < s
    ensures SampleOf(Run(Control(0, s), q * s + r, |chords|, s), chords, s) == Mix(chords[q])
  {
    var n := |chords|;
    Schedule(q, r, n, s);
    if r > 0 {
      Schedule(q, r - 1, n, s);
    } else if q > 0 {
      Schedule(q - 1, s - 1, n, s);
      assert (q - 1) * s + (s - 1) + 1 == q * s;
    }
  }

  /** From sample `n*s` on, the output is silent for good. */
  lemma SilentAfterLastBeat(chords: seq<Chord>, s: nat, k: nat)
    requires |chords| >= 1 && 1 <= s < UINT32_MODULUS && k >= |chords| * s
    ensures SampleOf(Run(Control(0, s), k, |chords|, s), chords, s) == Silence
  {
    Finished(k, |chords|, s);
  }

  /**
   * With zero samples per beat (a tempo larger than `sampleRate * 60`), the
   * first call skips straight to the second chord and the wrapped counter
   * holds it for 2^32 - 1 samples.
   */
  lemma ZeroBeatSkipsFirstChord(chords: seq<Chord>)
    requires |chords| >= 2
    ensures Run(Control(0, 0), 1, |chords|, 0) == Control(1, UINT32_MODULUS - 1)
    ensures SampleOf(Control(0, 0), chords, 0) == Mix(chords[1])
  {
  }
}
