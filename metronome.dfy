/** The timing engine of the metronome: tempo, time signature, running state,
    the beat counter and the capacity-one beat channel.

    A `Metronome` object is updated in place by its methods; each method is
    specified by a pure function on `Snapshot`, the observable state of the
    object, and the properties of the engine are lemmas about those functions.
    A firing of the ticker is the explicit step `Tick`. */
module Metronome {
  import opened Wrappers

  /** Tempo bounds that `SetBPM` enforces. */
  const MinBPM: int := 20
  const MaxBPM: int := 300

  /** Milliseconds in a minute: the beat interval is this divided by the tempo. */
  const MillisPerMinute: int := 60000

  datatype TimeSignature = TimeSignature(beats: int, beatValue: int, name: string, gnomeSaying: string)

  datatype Preset = Preset(name: string, bpm: int, timeSignature: TimeSignature, description: string)

  /** Two signatures are the same meter when their beats and beat values agree;
      names and sayings are ignored. */
  predicate SameMeter(a: TimeSignature, b: TimeSignature) {
    a.beats == b.beats && a.beatValue == b.beatValue
  }

  const CommonTimeSignatures: seq<TimeSignature> := [
    TimeSignature(4, 4, "4/4 - Garden March", "Four steady steps through the garden path!"),
    TimeSignature(3, 4, "3/4 - Gnome Waltz", "Dance among the toadstools, one-two-three!"),
    TimeSignature(6, 8, "6/8 - Fairy Ring Jig", "Six quick hops around the mushroom circle!"),
    TimeSignature(5, 4, "5/4 - Mystical Garden", "Five beats for the ancient gnome rituals!"),
    TimeSignature(7, 8, "7/8 - Gnome's Riddle", "Seven steps to solve the garden mystery!"),
    TimeSignature(2, 4, "2/4 - Quick March", "Left-right through the gnome village!")
  ]

  const CommonPresets: seq<Preset> := [
    Preset("Peaceful Garden Stroll", 60, CommonTimeSignatures[0], "A leisurely walk through the gnome gardens"),
    Preset("Gnome Work Song", 120, CommonTimeSignatures[0], "Perfect for tending to the mushroom patches"),
    Preset("Toadstool Waltz", 90, CommonTimeSignatures[1], "Dance beneath the moonlit mushrooms"),
    Preset("Pixie Dust Presto", 180, CommonTimeSignatures[0], "When the garden gnomes need to hurry!"),
    Preset("Underground Jig", 140, CommonTimeSignatures[2], "For celebrating in the gnome tunnels"),
    Preset("Meditation by the Pond", 40, CommonTimeSignatures[0], "Slow and steady wins the gnome race")
  ]

  /** The catalog signatures are pairwise different meters, so a structural
      match identifies at most one of them. */
  lemma CatalogMetersDistinct()
    ensures forall i, j :: 0 <= i < j < |CommonTimeSignatures| ==>
      !SameMeter(CommonTimeSignatures[i], CommonTimeSignatures[j])
  {
  }

  /** Every preset has a tempo `SetBPM` accepts and a signature from the catalog. */
  lemma PresetsAreValid()
    ensures forall i :: 0 <= i < |CommonPresets| ==>
      MinBPM <= CommonPresets[i].bpm <= MaxBPM &&
      CommonPresets[i].timeSignature in CommonTimeSignatures
  {
  }

  /** Milliseconds between beats at tempo `bpm`: 60000 / bpm rounded down.
      The Go code panics (division by zero or a non-positive ticker period)
      unless the quotient is at least one. */
  function BeatIntervalMs(bpm: int): (ms: int)
    requires 1 <= bpm <= MillisPerMinute
    ensures 1 <= ms
    ensures ms * bpm <= MillisPerMinute < (ms + 1) * bpm
  {
    var q := MillisPerMinute / bpm;
    assert MillisPerMinute == q * bpm + MillisPerMinute % bpm;
    q
  }

  /** Within the tempo bounds the interval lies between 200 ms and 3 s. */
  lemma IntervalWithinTempoBounds(bpm: int)
    requires MinBPM <= bpm <= MaxBPM
    ensures 200 <= BeatIntervalMs(bpm) <= 3000
  {
  }

  /** The observable state of a `Metronome`: its exported fields, the period
      of the running ticker (None when no ticker runs) and the content of the
      capacity-one beat channel (None when empty). */
  datatype Snapshot = Snapshot(
    bpm: int,
    timeSignature: TimeSignature,
    isPlaying: bool,
    currentBeat: int,
    ticker: Option<int>,
    beatSlot: Option<int>)

  /** The largest beat number the counter can reach: the beats per measure,
      or 1 when the signature has none (the counter then stays on 1). */
  function LastBeat(ts: TimeSignature): (n: int)
    ensures n >= 1 && n >= ts.beats
    ensures ts.beats >= 1 ==> n == ts.beats
  {
    if ts.beats < 1 then 1 else ts.beats
  }

  /** What every reachable engine state satisfies. */
  predicate Coherent(s: Snapshot) {
    && 1 <= s.currentBeat <= LastBeat(s.timeSignature)
    && (!s.isPlaying ==> s.currentBeat == 1 && s.ticker == None)
    && (s.isPlaying ==> 1 <= s.bpm <= MillisPerMinute && s.ticker == Some(BeatIntervalMs(s.bpm)))
    && (s.beatSlot.Some? ==> s.beatSlot.value >= 1)
  }

  /** The state `New` builds. */
  function Fresh(bpm: int, ts: TimeSignature): Snapshot {
    Snapshot(bpm, ts, false, 1, None, None)
  }

  lemma FreshIsStoppedAtDownbeat(bpm: int, ts: TimeSignature)
    ensures Coherent(Fresh(bpm, ts))
    ensures !Fresh(bpm, ts).isPlaying && Fresh(bpm, ts).currentBeat == 1
    ensures Fresh(bpm, ts).beatSlot == None
  {
  }

  /** `Start`: no-op when already playing; otherwise play from beat 1 with a
      ticker of period `BeatIntervalMs(bpm)`. The beat channel is untouched. */
  function Started(s: Snapshot): Snapshot
    requires s.isPlaying || 1 <= s.bpm <= MillisPerMinute
  {
    if s.isPlaying then s
    else s.(isPlaying := true, currentBeat := 1, ticker := Some(BeatIntervalMs(s.bpm)))
  }

  /** `Stop`: no-op when stopped; otherwise stop the ticker and go back to
      beat 1. The beat channel is untouched. */
  function Stopped(s: Snapshot): Snapshot {
    if !s.isPlaying then s
    else s.(isPlaying := false, ticker := None, currentBeat := 1)
  }

  /** `SetBPM`: ignored outside [MinBPM, MaxBPM]; otherwise stop, set the tempo
      and start again if the engine was playing. */
  function WithBPM(s: Snapshot, bpm: int): Snapshot {
    if bpm < MinBPM || bpm > MaxBPM then s
    else
      var halted := if s.isPlaying then Stopped(s) else s;
      var retimed := halted.(bpm := bpm);
      if s.isPlaying then Started(retimed) else retimed
  }

  /** `SetTimeSignature`: stop, set the signature and beat 1, start again if
      the engine was playing. */
  function WithTimeSignature(s: Snapshot, ts: TimeSignature): Snapshot
    requires s.isPlaying ==> 1 <= s.bpm <= MillisPerMinute
  {
    var halted := if s.isPlaying then Stopped(s) else s;
    var changed := halted.(timeSignature := ts, currentBeat := 1);
    if s.isPlaying then Started(changed) else changed
  }

  /** The beat after `beat` in a measure of `ts`. */
  function NextBeat(beat: int, ts: TimeSignature): int {
    if beat + 1 > ts.beats then 1 else beat + 1
  }

  /** One firing of the ticker: while playing, offer the current beat to the
      channel (dropped when the slot is full), then advance the counter. */
  function Ticked(s: Snapshot): Snapshot {
    if !s.isPlaying then s
    else
      var slot := if s.beatSlot.None? then Some(s.currentBeat) else s.beatSlot;
      s.(beatSlot := slot, currentBeat := NextBeat(s.currentBeat, s.timeSignature))
  }

  /** A receive on the beat channel: the pending beat, if any, and the state
      with the slot emptied. None means the receiver keeps waiting. */
  function Received(s: Snapshot): (Option<int>, Snapshot) {
    (s.beatSlot, s.(beatSlot := None))
  }

  lemma StartContract(s: Snapshot)
    requires Coherent(s)
    requires s.isPlaying || 1 <= s.bpm <= MillisPerMinute
    ensures Coherent(Started(s))
    ensures s.isPlaying ==> Started(s) == s
    ensures !s.isPlaying ==> Started(s).isPlaying && Started(s).currentBeat == 1
                              && Started(s).ticker == Some(BeatIntervalMs(s.bpm))
    ensures Started(Started(s)) == Started(s)
    ensures Started(s).bpm == s.bpm && Started(s).timeSignature == s.timeSignature
  {
  }

  lemma StopContract(s: Snapshot)
    requires Coherent(s)
    ensures Coherent(Stopped(s))
    ensures !s.isPlaying ==> Stopped(s) == s
    ensures !Stopped(s).isPlaying && Stopped(s).currentBeat == 1 && Stopped(s).ticker == None
    ensures Stopped(Stopped(s)) == Stopped(s)
    ensures Stopped(s).bpm == s.bpm && Stopped(s).timeSignature == s.timeSignature
  {
  }

  /** Stop followed by Start always plays from the downbeat, whatever the
      beat position was. */
  lemma StopThenStartFromDownbeat(s: Snapshot)
    requires Coherent(s)
    requires 1 <= s.bpm <= MillisPerMinute
    ensures Started(Stopped(s)).isPlaying && Started(Stopped(s)).currentBeat == 1
  {
  }

  /** Stop does not empty the channel: a beat already waiting in the slot is
      still received after the engine stopped. */
  lemma StopKeepsPendingBeat(s: Snapshot)
    requires s.isPlaying && s.beatSlot.Some?
    ensures !Stopped(s).isPlaying
    ensures Received(Stopped(s)).0 == s.beatSlot
  {
  }

  /** A restart does not empty the channel either: when `SetTimeSignature`
      restarts a playing engine while a beat is pending, the first firing
      finds the slot full and drops the new downbeat, and the stale beat,
      which may lie beyond the new measure, is delivered first. */
  lemma RestartDeliversStaleBeat(s: Snapshot, ts: TimeSignature, b: int)
    requires Coherent(s) && s.isPlaying && s.beatSlot == Some(b)
    requires ts.beats >= 2
    ensures Drained(WithTimeSignature(s, ts), 2) == [b, 2]
  {
  }

  lemma SetBPMContract(s: Snapshot, bpm: int)
    requires Coherent(s)
    ensures Coherent(WithBPM(s, bpm))
    ensures bpm < MinBPM || bpm > MaxBPM ==> WithBPM(s, bpm) == s
    ensures MinBPM <= bpm <= MaxBPM ==>
      && WithBPM(s, bpm).bpm == bpm
      && WithBPM(s, bpm).isPlaying == s.isPlaying
      && WithBPM(s, bpm).timeSignature == s.timeSignature
      && WithBPM(s, bpm).currentBeat == 1
      && WithBPM(s, bpm).beatSlot == s.beatSlot
      && (s.isPlaying ==> WithBPM(s, bpm).ticker == Some(BeatIntervalMs(bpm)))
  {
  }

  lemma SetTimeSignatureContract(s: Snapshot, ts: TimeSignature)
    requires Coherent(s)
    ensures Coherent(WithTimeSignature(s, ts))
    ensures WithTimeSignature(s, ts).timeSignature == ts
    ensures WithTimeSignature(s, ts).currentBeat == 1
    ensures WithTimeSignature(s, ts).isPlaying == s.isPlaying
    ensures WithTimeSignature(s, ts).bpm == s.bpm
    ensures WithTimeSignature(s, ts).beatSlot == s.beatSlot
  {
  }

  /** Applying a preset's tempo always takes effect, and its signature is a
      catalog entry. */
  lemma PresetTempoApplies(s: Snapshot, i: int)
    requires Coherent(s)
    requires 0 <= i < |CommonPresets|
    ensures WithBPM(s, CommonPresets[i].bpm).bpm == CommonPresets[i].bpm
    ensures MinBPM <= WithBPM(s, CommonPresets[i].bpm).bpm <= MaxBPM
  {
    PresetsAreValid();
    SetBPMContract(s, CommonPresets[i].bpm);
  }

  /** A firing keeps the counter within the measure and never overwrites a
      pending beat: the slot is filled only when it was empty. */
  lemma TickContract(s: Snapshot)
    requires Coherent(s)
    ensures Coherent(Ticked(s))
    ensures !s.isPlaying ==> Ticked(s) == s
    ensures s.isPlaying && s.beatSlot.None? ==> Ticked(s).beatSlot == Some(s.currentBeat)
    ensures s.beatSlot.Some? ==> Ticked(s).beatSlot == s.beatSlot
    ensures s.isPlaying && s.timeSignature.beats >= 1 ==>
      Ticked(s).currentBeat == s.currentBeat % s.timeSignature.beats + 1
  {
  }

  /** The beats delivered by `n` firings when the consumer empties the
      channel after each one. */
  function Drained(s: Snapshot, n: nat): seq<int>
    decreases n
  {
    if n == 0 then []
    else
      var (beat, rest) := Received(Ticked(s));
      (if beat.Some? then [beat.value] else []) + Drained(rest, n - 1)
  }

  /** Multiplying by a positive number keeps the order. */
  lemma MulMonotone(b: int, m: int, n: int)
    requires b > 0 && m <= n
    ensures b * m <= b * n
  {
    var d := n - m;
    assert b * n == b * m + b * d;
  }

  /** Quotient and remainder are unique: `x == b * q + r` with `0 <= r < b`
      fixes `x % b` as `r`. */
  lemma RemainderUnique(x: int, b: int, q: int, r: int)
    requires b > 0 && 0 <= r < b && x == b * q + r
    ensures x % b == r
  {
    var q', r' := x / b, x % b;
    assert x == b * q' + r';
    if q' < q {
      MulMonotone(b, q' + 1, q);
    } else if q < q' {
      MulMonotone(b, q + 1, q');
    }
  }

  /** Adding a whole measure does not change the position in the measure. */
  lemma WrapStep(beat: int, beats: int, k: nat)
    requires 1 <= beat <= beats
    ensures (beat % beats + k) % beats == (beat + k) % beats
  {
    if beat == beats {
      RemainderUnique(beat, beats, 1, 0);
      RemainderUnique(beat + k, beats, 1 + k / beats, k % beats);
    } else {
      RemainderUnique(beat, beats, 0, beat);
    }
  }

  /** With a promptly drained channel, successive firings deliver every beat
      in order from the current one, wrapping after the last beat of the
      measure: no duplicate and no skipped beat. */
  lemma {:induction false} DrainedBeatsInOrder(s: Snapshot, n: nat)
    requires Coherent(s) && s.isPlaying && s.beatSlot.None?
    requires s.timeSignature.beats >= 1
    decreases n
    ensures |Drained(s, n)| == n
    ensures forall i :: 0 <= i < n ==>
      Drained(s, n)[i] == (s.currentBeat - 1 + i) % s.timeSignature.beats + 1
  {
    if n > 0 {
      var beats, c := s.timeSignature.beats, s.currentBeat;
      var rest := Received(Ticked(s)).1;
      TickContract(s);
      assert rest.currentBeat == c % beats + 1;
      DrainedBeatsInOrder(rest, n - 1);
      var tail := Drained(rest, n - 1);
      assert Drained(s, n) == [c] + tail;
      forall i | 0 <= i < n
        ensures Drained(s, n)[i] == (c - 1 + i) % beats + 1
      {
        if i == 0 {
          RemainderUnique(c - 1, beats, 0, c - 1);
        } else {
          assert Drained(s, n)[i] == tail[i - 1] == (c % beats + (i - 1)) % beats + 1;
          WrapStep(c, beats, i - 1);
        }
      }
    }
  }

  /** From `Start`, a drained engine delivers 1, 2, ..., beats, 1, 2, ... */
  lemma StartedBeatsFromOne(s: Snapshot, n: nat)
    requires Coherent(s) && !s.isPlaying && s.beatSlot.None?
    requires 1 <= s.bpm <= MillisPerMinute
    requires s.timeSignature.beats >= 1
    ensures |Drained(Started(s), n)| == n
    ensures forall i :: 0 <= i < n ==> Drained(Started(s), n)[i] == i % s.timeSignature.beats + 1
  {
    StartContract(s);
    DrainedBeatsInOrder(Started(s), n);
  }

  /** The engine object. `ticker` is the period of the running ticker and
      `beatChan` the capacity-one beat channel. */
  class Metronome {
    var bpm: int
    var timeSignature: TimeSignature
    var isPlaying: bool
    var currentBeat: int
    var ticker: Option<int>
    var beatChan: Option<int>

    function State(): Snapshot
      reads this
    {
      Snapshot(bpm, timeSignature, isPlaying, currentBeat, ticker, beatChan)
    }

    /** The engine invariant holds for the object's state. */
    predicate Valid()
      reads this
    {
      Coherent(State())
    }

    constructor New(bpm0: int, ts: TimeSignature)
      ensures State() == Fresh(bpm0, ts)
      ensures Valid()
    {
      bpm := bpm0;
      timeSignature := ts;
      isPlaying := false;
      currentBeat := 1;
      ticker := None;
      beatChan := None;
    }

    method Start()
      requires Valid()
      requires isPlaying || 1 <= bpm <= MillisPerMinute
      modifies this
      ensures State() == Started(old(State()))
      ensures Valid()
    {
      if isPlaying {
        return;
      }
      isPlaying := true;
      currentBeat := 1;
      ticker := Some(BeatIntervalMs(bpm));
    }

    method Stop()
      requires Valid()
      modifies this
      ensures State() == Stopped(old(State()))
      ensures Valid()
    {
      if !isPlaying {
        return;
      }
      isPlaying := false;
      ticker := None;
      currentBeat := 1;
    }

    method SetBPM(newBPM: int)
      requires Valid()
      modifies this
      ensures State() == WithBPM(old(State()), newBPM)
      ensures Valid()
    {
      if newBPM < MinBPM || newBPM > MaxBPM {
        return;
      }
      var wasPlaying := isPlaying;
      if wasPlaying {
        Stop();
      }
      bpm := newBPM;
      if wasPlaying {
        Start();
      }
    }

    method SetTimeSignature(ts: TimeSignature)
      requires Valid()
      modifies this
      ensures State() == WithTimeSignature(old(State()), ts)
      ensures Valid()
    {
      var wasPlaying := isPlaying;
      if wasPlaying {
        Stop();
      }
      timeSignature := ts;
      currentBeat := 1;
      if wasPlaying {
        Start();
      }
    }

    /** One firing of the ticker, as the body of the ticker loop runs it. */
    method Tick()
      requires Valid()
      modifies this
      ensures State() == Ticked(old(State()))
      ensures Valid()
    {
      if isPlaying {
        if beatChan.None? {
          beatChan := Some(currentBeat);
        }
        currentBeat := currentBeat + 1;
        if currentBeat > timeSignature.beats {
          currentBeat := 1;
        }
      }
    }

    /** A receive on the channel `BeatChannel` hands out. */
    method ReceiveBeat() returns (beat: Option<int>)
      requires Valid()
      modifies this
      ensures (beat, State()) == Received(old(State()))
      ensures Valid()
    {
      beat := beatChan;
      beatChan := None;
    }
  }

  /** The ticker loop driven for `n` firings with a consumer that receives
      after every firing; returns the beats it received. */
  method RunDrained(metro: Metronome, n: nat) returns (beats: seq<int>)
    requires metro.Valid()
    modifies metro
    ensures metro.Valid()
    ensures metro.State() == RunState(old(metro.State()), n)
    ensures beats == Drained(old(metro.State()), n)
  {
    beats := [];
    var i := 0;
    while i < n
      invariant 0 <= i <= n
      invariant metro.Valid()
      invariant Drained(old(metro.State()), n) == beats + Drained(metro.State(), n - i)
      invariant RunState(old(metro.State()), n) == RunState(metro.State(), n - i)
    {
      ghost var before := metro.State();
      metro.Tick();
      var beat := metro.ReceiveBeat();
      if beat.Some? {
        beats := beats + [beat.value];
      }
      assert Drained(before, n - i) == (if beat.Some? then [beat.value] else []) + Drained(metro.State(), n - i - 1);
      i := i + 1;
    }
  }

  /** The engine state after `n` drained firings. */
  function RunState(s: Snapshot, n: nat): Snapshot
    decreases n
  {
    if n == 0 then s else RunState(Received(Ticked(s)).1, n - 1)
  }

  // Tempo descriptions

  const TempoDescriptions: seq<string> := [
    "Gnome hibernation speed",
    "Sleepy garden gnome pace",
    "Morning dew collection tempo",
    "Casual mushroom picking rhythm",
    "Standard gnome work tempo",
    "Energetic garden tending speed",
    "Gnome celebration dance",
    "Chasing garden pests tempo",
    "Gnome emergency response speed",
    "Hyperactive pixie dust overdose!"
  ]

  function GetBPMDescription(bpm: int): (description: string)
    ensures description in TempoDescriptions
  {
    if bpm < 40 then "Gnome hibernation speed"
    else if bpm < 60 then "Sleepy garden gnome pace"
    else if bpm < 80 then "Morning dew collection tempo"
    else if bpm < 100 then "Casual mushroom picking rhythm"
    else if bpm < 120 then "Standard gnome work tempo"
    else if bpm < 140 then "Energetic garden tending speed"
    else if bpm < 160 then "Gnome celebration dance"
    else if bpm < 180 then "Chasing garden pests tempo"
    else if bpm < 200 then "Gnome emergency response speed"
    else "Hyperactive pixie dust overdose!"
  }

  /** The tempo band of `bpm`: band 0 below 40, band k (1..8) for
      [20 + 20k, 40 + 20k), band 9 from 200 on. */
  function TempoBand(bpm: int): (band: nat)
    ensures band < |TempoDescriptions|
    ensures band == 0 <==> bpm < 40
    ensures band == 9 <==> bpm >= 200
    ensures 0 < band < 9 ==> 20 * band + 20 <= bpm < 20 * band + 40
  {
    if bpm < 40 then 0 else if bpm >= 200 then 9 else (bpm - 20) / 20
  }

  /** The description is the text of the tempo's band. */
  lemma DescriptionIsBandText(bpm: int)
    ensures GetBPMDescription(bpm) == TempoDescriptions[TempoBand(bpm)]
  {
    var b := TempoBand(bpm);
    if 0 < b < 9 {
      assert 20 * b + 20 <= bpm < 20 * b + 40;
    }
  }

  /** A faster tempo never falls in a lower band. */
  lemma TempoBandMonotone(a: int, b: int)
    requires a <= b
    ensures TempoBand(a) <= TempoBand(b)
  {
  }

  /** The ten band texts are all different, so the description determines
      the band. */
  lemma DescriptionDeterminesBand(a: int, b: int)
    ensures GetBPMDescription(a) == GetBPMDescription(b) <==> TempoBand(a) == TempoBand(b)
  {
    DescriptionIsBandText(a);
    DescriptionIsBandText(b);
    var i, j := TempoBand(a), TempoBand(b);
    if i != j {
      assert TempoDescriptions[i] != TempoDescriptions[j];
    }
  }
}
