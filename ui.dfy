/** The event reducer of the terminal UI.

    `Model` is the display state, a value that `Update` copies and returns;
    it holds a reference to the shared `Metronome`, which `Update` changes
    through its methods. `Step` is the pure specification of `Update`: from
    the display state, the engine snapshot and the message it gives the new
    display state, the new engine snapshot, the command handed back to the
    event loop and the click, if any, the sound player is asked for. */
module Ui {
  import opened Wrappers
  import opened Metronome

  /** A background star at column `x`, row `y`. */
  datatype Star = Star(x: int, y: int)

  datatype Model = Model(
    metronome: Metronome,
    currentBeat: int,
    selectedPreset: int,
    showPresets: bool,
    showHelp: bool,
    width: int,
    height: int,
    beatAnimation: int,
    gnomeFrame: int,
    soundEnabled: bool,
    starPositions: seq<Star>)

  /** Logical keys; `KeyOther` is any key no binding matches. */
  datatype Key =
    | KeyQuit | KeySpace | KeyUp | KeyDown | KeyLeft | KeyRight
    | KeyTab | KeyPreset | KeySound | KeyHelp | KeyEnter | KeyOther

  datatype Msg =
    | WindowSize(width: int, height: int)
    | Beat(beat: int)
    | AnimationTick
    | KeyPress(key: Key)

  /** The command `Update` returns to the event loop: none, wait for the next
      beat on the engine's channel, schedule the next animation tick, or quit. */
  datatype Command = NoCommand | ListenForBeats | TickAnimation | QuitProgram

  /** The result of handling one message. `click` is Some(isDownbeat) when a
      click sound is started. */
  datatype Transition = Transition(model: Model, engine: Snapshot, cmd: Command, click: Option<bool>)

  /** Animation ticks a beat flash lasts. */
  const BeatFlashTicks: int := 5
  /** Phases of the gnome animation. */
  const FrameCount: int := 4
  /** Tempo change of one Up or Down press. */
  const TempoStep: int := 5
  /** Bounds and density of the background stars. */
  const MinStars: int := 50
  const MaxStars: int := 300
  const CellsPerStar: int := 8

  // Integer helpers of the Go code

  function Abs(x: int): (r: int)
    ensures r >= 0 && (r == x || r == -x)
  {
    if x < 0 then -x else x
  }

  function Min(a: int, b: int): (r: int)
    ensures r <= a && r <= b && (r == a || r == b)
  {
    if a < b then a else b
  }

  function Max(a: int, b: int): (r: int)
    ensures r >= a && r >= b && (r == a || r == b)
  {
    if a > b then a else b
  }

  /** The remainder of Go's `%`: it truncates toward zero, so the result has
      the sign of `a`. For `a >= 0` it agrees with Dafny's `%`. */
  function Rem(a: int, n: int): (r: int)
    requires n > 0
    ensures -n < r < n
    ensures a >= 0 ==> 0 <= r && r == a % n
    ensures a <= 0 ==> r <= 0
    ensures (a - r) % n == 0
  {
    if a >= 0 then
      RemainderUnique(a - a % n, n, a / n, 0);
      a % n
    else
      RemainderUnique(a + (-a) % n, n, -((-a) / n), 0);
      -((-a) % n)
  }

  // Signature cycling

  /** The search and the rotation are stated over any non-empty catalog `cat`;
      the program uses `CommonTimeSignatures`. */

  /** The signature has the same meter as an entry of `cat`. */
  predicate InCatalog(cat: seq<TimeSignature>, ts: TimeSignature) {
    exists j :: 0 <= j < |cat| && SameMeter(cat[j], ts)
  }

  /** No two entries of `cat` have the same meter. */
  predicate DistinctMeters(cat: seq<TimeSignature>) {
    forall i, j :: 0 <= i < j < |cat| ==> !SameMeter(cat[i], cat[j])
  }

  function MeterIndexFrom(cat: seq<TimeSignature>, ts: TimeSignature, from: nat): (index: nat)
    requires 0 < |cat| && from <= |cat|
    decreases |cat| - from
    ensures index < |cat|
    ensures (exists j :: from <= j < |cat| && SameMeter(cat[j], ts)) ==>
      && from <= index
      && SameMeter(cat[index], ts)
      && forall j :: from <= j < index ==> !SameMeter(cat[j], ts)
    ensures (forall j :: from <= j < |cat| ==> !SameMeter(cat[j], ts)) ==>
      index == 0
  {
    if from == |cat| then 0
    else if SameMeter(cat[from], ts) then from
    else MeterIndexFrom(cat, ts, from + 1)
  }

  /** The index of the first entry of `cat` with the same meter as `ts`, or 0
      when there is none. */
  function MeterIndex(cat: seq<TimeSignature>, ts: TimeSignature): (index: nat)
    requires 0 < |cat|
    ensures index < |cat|
    ensures InCatalog(cat, ts) ==>
      SameMeter(cat[index], ts) &&
      forall j :: 0 <= j < index ==> !SameMeter(cat[j], ts)
    ensures !InCatalog(cat, ts) ==> index == 0
  {
    MeterIndexFrom(cat, ts, 0)
  }

  /** The search loop of the Tab handler. */
  method FindMeterIndex(ts: TimeSignature) returns (currentIndex: int)
    ensures currentIndex == MeterIndex(CommonTimeSignatures, ts)
  {
    currentIndex := 0;
    var i := 0;
    while i < |CommonTimeSignatures|
      invariant 0 <= i <= |CommonTimeSignatures|
      invariant forall j :: 0 <= j < i ==> !SameMeter(CommonTimeSignatures[j], ts)
      invariant currentIndex == 0
    {
      if SameMeter(CommonTimeSignatures[i], ts) {
        currentIndex := i;
        break;
      }
      i := i + 1;
    }
  }

  /** The entry Tab switches to: the one after the current signature's first
      match, wrapping around. */
  function NextIn(cat: seq<TimeSignature>, ts: TimeSignature): TimeSignature
    requires 0 < |cat|
  {
    cat[Rem(MeterIndex(cat, ts) + 1, |cat|)]
  }

  /** The signature Tab switches to in the program's catalog. */
  function NextSignature(ts: TimeSignature): TimeSignature {
    NextIn(CommonTimeSignatures, ts)
  }

  /** The signature after `n` Tab presses. */
  function TabPresses(cat: seq<TimeSignature>, ts: TimeSignature, n: nat): TimeSignature
    requires 0 < |cat|
    decreases n
  {
    if n == 0 then ts else TabPresses(cat, NextIn(cat, ts), n - 1)
  }

  /** An entry of a catalog of distinct meters is found at its own index. */
  lemma MeterIndexOfEntry(cat: seq<TimeSignature>, k: int)
    requires DistinctMeters(cat) && 0 <= k < |cat|
    ensures MeterIndex(cat, cat[k]) == k
  {
    assert SameMeter(cat[k], cat[k]);
  }

  /** Advancing a cyclic index once and then `n - 1` more times is advancing it `n` times. */
  lemma CycleIndexStep(k: int, k': int, c: int, n: nat)
    requires 0 <= k < c && n > 0 && k' == (k + 1) % c
    ensures (k' + (n - 1)) % c == (k + n) % c
  {
    WrapStep(k + 1, c, n - 1);
  }

  /** From entry `k`, `n` Tab presses land on entry `(k + n) mod |cat|`. */
  lemma {:induction false} TabPressesAdvance(cat: seq<TimeSignature>, k: int, n: nat)
    requires DistinctMeters(cat) && 0 <= k < |cat|
    decreases n
    ensures TabPresses(cat, cat[k], n) == cat[(k + n) % |cat|]
  {
    if n > 0 {
      var k' := (k + 1) % |cat|;
      MeterIndexOfEntry(cat, k);
      assert NextIn(cat, cat[k]) == cat[k'];
      TabPressesAdvance(cat, k', n - 1);
      CycleIndexStep(k, k', |cat|, n);
    } else {
      RemainderUnique(k, |cat|, 0, k);
    }
  }

  /** Pressing Tab once per catalog entry returns to the signature started
      from; `CatalogMetersDistinct` shows the program's catalog qualifies. */
  lemma TabCycleReturns(cat: seq<TimeSignature>, k: int)
    requires DistinctMeters(cat) && 0 <= k < |cat|
    ensures TabPresses(cat, cat[k], |cat|) == cat[k]
  {
    TabPressesAdvance(cat, k, |cat|);
    RemainderUnique(k + |cat|, |cat|, 1, k);
  }

  /** The program's own catalog: six Tab presses from any of its signatures
      come back to that signature. */
  lemma ProgramTabCycle(k: int)
    requires 0 <= k < |CommonTimeSignatures|
    ensures TabPresses(CommonTimeSignatures, CommonTimeSignatures[k], |CommonTimeSignatures|) == CommonTimeSignatures[k]
  {
    CatalogMetersDistinct();
    TabCycleReturns(CommonTimeSignatures, k);
  }

  // The reducer

  /** What `Update` needs to run without a panic: starting the engine needs a
      positive beat interval, and Enter indexes the preset catalog. */
  predicate CanHandle(m: Model, s: Snapshot, msg: Msg) {
    && (s.isPlaying || msg == KeyPress(KeySpace) ==> 1 <= s.bpm <= MillisPerMinute)
    && (msg == KeyPress(KeyEnter) && m.showPresets ==> 0 <= m.selectedPreset < |CommonPresets|)
  }

  /** One animation tick: the flash counts down to 0 and the gnome frame advances. */
  function Animated(m: Model): Model {
    m.(beatAnimation := if m.beatAnimation > 0 then m.beatAnimation - 1 else m.beatAnimation,
       gnomeFrame := Rem(m.gnomeFrame + 1, FrameCount))
  }

  /** After a tempo or signature change: clear the flash, show beat 1, and
      listen again when the engine plays. */
  function Retimed(m: Model, s: Snapshot): Transition {
    Transition(m.(beatAnimation := 0, currentBeat := 1), s,
               if s.isPlaying then ListenForBeats else NoCommand, None)
  }

  /** The message handler. `stars` are the positions the random source picks
      when a resize to a positive size rebuilds the background. */
  function Step(m: Model, s: Snapshot, msg: Msg, stars: seq<Star>): Transition
    requires CanHandle(m, s, msg)
  {
    match msg
    case WindowSize(w, h) =>
      var resized := m.(width := w, height := h);
      Transition(if w <= 0 || h <= 0 then resized else resized.(starPositions := stars), s, NoCommand, None)
    case Beat(b) =>
      Transition(m.(currentBeat := b, beatAnimation := BeatFlashTicks), s, ListenForBeats,
                 if m.soundEnabled then Some(b == 1) else None)
    case AnimationTick =>
      Transition(Animated(m), s, TickAnimation, None)
    case KeyPress(k) => KeyStep(m, s, k)
  }

  function KeyStep(m: Model, s: Snapshot, k: Key): Transition
    requires CanHandle(m, s, KeyPress(k))
  {
    match k
    case KeyQuit => Transition(m, Stopped(s), QuitProgram, None)
    case KeySpace => Transition(m, if s.isPlaying then Stopped(s) else Started(s), ListenForBeats, None)
    case KeyUp => Retimed(m, WithBPM(s, s.bpm + TempoStep))
    case KeyDown => Retimed(m, WithBPM(s, s.bpm - TempoStep))
    case KeyTab => Retimed(m, WithTimeSignature(s, NextSignature(s.timeSignature)))
    case KeyPreset => Transition(m.(showPresets := !m.showPresets, showHelp := false), s, NoCommand, None)
    case KeySound => Transition(m.(soundEnabled := !m.soundEnabled), s, NoCommand, None)
    case KeyHelp => Transition(m.(showHelp := !m.showHelp, showPresets := false), s, NoCommand, None)
    case KeyLeft =>
      var sel := if m.showPresets && m.selectedPreset > 0 then m.selectedPreset - 1 else m.selectedPreset;
      Transition(m.(selectedPreset := sel), s, NoCommand, None)
    case KeyRight =>
      var sel := if m.showPresets && m.selectedPreset < |CommonPresets| - 1 then m.selectedPreset + 1 else m.selectedPreset;
      Transition(m.(selectedPreset := sel), s, NoCommand, None)
    case KeyEnter =>
      if m.showPresets then
        var preset := CommonPresets[m.selectedPreset];
        var s' := WithTimeSignature(WithBPM(s, preset.bpm), preset.timeSignature);
        Retimed(m.(showPresets := false), s')
      else Transition(m, s, NoCommand, None)
    case KeyOther => Transition(m, s, NoCommand, None)
  }

  method Update(m: Model, msg: Msg) returns (m': Model, cmd: Command, click: Option<bool>)
    requires CanHandle(m, m.metronome.State(), msg)
    requires m.metronome.Valid()
    modifies m.metronome
    ensures m.metronome.Valid()
    ensures Step(m, old(m.metronome.State()), msg, m'.starPositions) == Transition(m', m.metronome.State(), cmd, click)
    ensures msg.WindowSize? && msg.width > 0 && msg.height > 0 ==> StarsFit(m'.starPositions, msg.width, msg.height)
  {
    m', cmd, click := m, NoCommand, None;
    match msg {
      case WindowSize(w, h) =>
        m' := m'.(width := w, height := h);
        m' := InitializeStars(m');
      case Beat(b) =>
        m' := m'.(currentBeat := b, beatAnimation := BeatFlashTicks);
        if m'.soundEnabled {
          click := Some(m'.currentBeat == 1);
        }
        cmd := ListenForBeats;
      case AnimationTick =>
        if m'.beatAnimation > 0 {
          m' := m'.(beatAnimation := m'.beatAnimation - 1);
        }
        m' := m'.(gnomeFrame := Rem(m'.gnomeFrame + 1, FrameCount));
        cmd := TickAnimation;
      case KeyPress(k) =>
        m', cmd := HandleKey(m, k);
    }
  }

  /** The key-press branch of `Update`. */
  method HandleKey(m: Model, k: Key) returns (m': Model, cmd: Command)
    requires CanHandle(m, m.metronome.State(), KeyPress(k))
    requires m.metronome.Valid()
    modifies m.metronome
    ensures m.metronome.Valid()
    ensures KeyStep(m, old(m.metronome.State()), k) == Transition(m', m.metronome.State(), cmd, None)
  {
    m', cmd := m, NoCommand;
    var metro := m.metronome;
    match k {
      case KeyQuit =>
        metro.Stop();
        cmd := QuitProgram;
      case KeySpace =>
        if metro.isPlaying {
          metro.Stop();
        } else {
          metro.Start();
        }
        cmd := ListenForBeats;
      case KeyUp =>
        m', cmd := ChangeTempo(m, k);
      case KeyDown =>
        m', cmd := ChangeTempo(m, k);
      case KeyTab =>
        m', cmd := CycleSignature(m);
      case KeyPreset =>
        m' := m'.(showPresets := !m'.showPresets, showHelp := false);
      case KeySound =>
        m' := m'.(soundEnabled := !m'.soundEnabled);
      case KeyHelp =>
        m' := m'.(showHelp := !m'.showHelp, showPresets := false);
      case KeyLeft =>
        if m'.showPresets && m'.selectedPreset > 0 {
          m' := m'.(selectedPreset := m'.selectedPreset - 1);
        }
      case KeyRight =>
        if m'.showPresets && m'.selectedPreset < |CommonPresets| - 1 {
          m' := m'.(selectedPreset := m'.selectedPreset + 1);
        }
      case KeyEnter =>
        if m'.showPresets {
          m', cmd := ApplyPreset(m);
        }
      case KeyOther =>
    }
  }

  /** The Up and Down branches: five BPM faster or slower. */
  method ChangeTempo(m: Model, k: Key) returns (m': Model, cmd: Command)
    requires k == KeyUp || k == KeyDown
    requires CanHandle(m, m.metronome.State(), KeyPress(k))
    requires m.metronome.Valid()
    modifies m.metronome
    ensures m.metronome.Valid()
    ensures KeyStep(m, old(m.metronome.State()), k) == Transition(m', m.metronome.State(), cmd, None)
  {
    var metro := m.metronome;
    metro.SetBPM(if k == KeyUp then metro.bpm + TempoStep else metro.bpm - TempoStep);
    m', cmd := m.(beatAnimation := 0, currentBeat := 1), NoCommand;
    if metro.isPlaying {
      cmd := ListenForBeats;
    }
  }

  /** The Tab branch: find the current signature and switch to the next one. */
  method CycleSignature(m: Model) returns (m': Model, cmd: Command)
    requires CanHandle(m, m.metronome.State(), KeyPress(KeyTab))
    requires m.metronome.Valid()
    modifies m.metronome
    ensures m.metronome.Valid()
    ensures KeyStep(m, old(m.metronome.State()), KeyTab) == Transition(m', m.metronome.State(), cmd, None)
  {
    var metro := m.metronome;
    var currentIndex := FindMeterIndex(metro.timeSignature);
    var nextIndex := Rem(currentIndex + 1, |CommonTimeSignatures|);
    metro.SetTimeSignature(CommonTimeSignatures[nextIndex]);
    m', cmd := m.(beatAnimation := 0, currentBeat := 1), NoCommand;
    if metro.isPlaying {
      cmd := ListenForBeats;
    }
  }

  /** The Enter branch with the preset overlay shown: apply the selected preset. */
  method ApplyPreset(m: Model) returns (m': Model, cmd: Command)
    requires m.showPresets
    requires CanHandle(m, m.metronome.State(), KeyPress(KeyEnter))
    requires m.metronome.Valid()
    modifies m.metronome
    ensures m.metronome.Valid()
    ensures KeyStep(m, old(m.metronome.State()), KeyEnter) == Transition(m', m.metronome.State(), cmd, None)
  {
    var metro := m.metronome;
    var preset := CommonPresets[m.selectedPreset];
    metro.SetBPM(preset.bpm);
    metro.SetTimeSignature(preset.timeSignature);
    m', cmd := m.(showPresets := false, beatAnimation := 0, currentBeat := 1), NoCommand;
    if metro.isPlaying {
      cmd := ListenForBeats;
    }
  }

  // Properties of the reducer

  /** The display invariant: the engine is coherent with its tempo inside
      the `SetBPM` bounds, the preset cursor is on a preset, at most one
      overlay is shown, and the counters are in range. */
  predicate Consistent(m: Model, s: Snapshot) {
    && Coherent(s)
    && MinBPM <= s.bpm <= MaxBPM
    && 0 <= m.selectedPreset < |CommonPresets|
    && !(m.showPresets && m.showHelp)
    && 0 <= m.beatAnimation <= BeatFlashTicks
    && 0 <= m.gnomeFrame < FrameCount
  }

  /** Every message keeps the display invariant; in particular the tempo
      stays within [20, 300] whatever keys are pressed. */
  lemma StepKeepsConsistent(m: Model, s: Snapshot, msg: Msg, stars: seq<Star>)
    requires Consistent(m, s)
    ensures CanHandle(m, s, msg)
    ensures Consistent(Step(m, s, msg, stars).model, Step(m, s, msg, stars).engine)
  {
    if msg.KeyPress? {
      KeyStepKeepsConsistent(m, s, msg.key);
    }
  }

  /** Between two messages the engine's ticker fires and the beat listener
      receives; both keep the display invariant, so together with
      `StepKeepsConsistent` every reachable state is consistent. */
  lemma EngineStepsKeepConsistent(m: Model, s: Snapshot)
    requires Consistent(m, s)
    ensures Consistent(m, Ticked(s))
    ensures Consistent(m, Received(s).1)
  {
    TickContract(s);
  }

  /** Every key keeps the display invariant. */
  lemma KeyStepKeepsConsistent(m: Model, s: Snapshot, k: Key)
    requires Consistent(m, s)
    ensures CanHandle(m, s, KeyPress(k))
    ensures Consistent(KeyStep(m, s, k).model, KeyStep(m, s, k).engine)
  {
    match k {
      case KeyQuit => StopContract(s);
      case KeySpace => StartContract(s); StopContract(s);
      case KeyUp => SetBPMContract(s, s.bpm + TempoStep);
      case KeyDown => SetBPMContract(s, s.bpm - TempoStep);
      case KeyTab => SetTimeSignatureContract(s, NextSignature(s.timeSignature));
      case KeyEnter =>
        if m.showPresets {
          var preset := CommonPresets[m.selectedPreset];
          PresetTempoApplies(s, m.selectedPreset);
          SetBPMContract(s, preset.bpm);
          SetTimeSignatureContract(WithBPM(s, preset.bpm), preset.timeSignature);
        }
      case _ =>
    }
  }

  /** A beat shows the delivered beat, starts a full flash, always listens
      for the next beat, and clicks (accented on beat 1) when sound is on. */
  lemma BeatShowsDeliveredBeat(m: Model, s: Snapshot, b: int, stars: seq<Star>)
    requires CanHandle(m, s, Beat(b))
    ensures Step(m, s, Beat(b), stars).model.currentBeat == b
    ensures Step(m, s, Beat(b), stars).model.beatAnimation == BeatFlashTicks
    ensures Step(m, s, Beat(b), stars).engine == s
    ensures Step(m, s, Beat(b), stars).cmd == ListenForBeats
    ensures Step(m, s, Beat(b), stars).click.Some? <==> m.soundEnabled
    ensures m.soundEnabled ==> (Step(m, s, Beat(b), stars).click.value <==> b == 1)
  {
  }

  /** The model after `n` animation ticks. */
  function AnimationTicks(m: Model, n: nat): Model
    decreases n
  {
    if n == 0 then m else AnimationTicks(Animated(m), n - 1)
  }

  /** An animation tick never lets the flash go below 0, keeps the frame in
      [0, 3] and always schedules the next tick, leaving the engine alone. */
  lemma AnimationTickContract(m: Model, s: Snapshot, stars: seq<Star>)
    requires CanHandle(m, s, AnimationTick)
    requires m.beatAnimation >= 0 && m.gnomeFrame >= 0
    ensures Step(m, s, AnimationTick, stars).model.beatAnimation == Max(0, m.beatAnimation - 1)
    ensures 0 <= Step(m, s, AnimationTick, stars).model.gnomeFrame < FrameCount
    ensures Step(m, s, AnimationTick, stars).cmd == TickAnimation
    ensures Step(m, s, AnimationTick, stars).engine == s
  {
  }

  /** A flash started by a beat fades after exactly `BeatFlashTicks` animation
      ticks, and the gnome frame cycles through 0, 1, 2, 3. */
  lemma {:induction false} FlashFadesAndFramesCycle(m: Model, n: nat)
    requires m.beatAnimation >= 0 && 0 <= m.gnomeFrame < FrameCount
    decreases n
    ensures AnimationTicks(m, n).beatAnimation == Max(0, m.beatAnimation - n)
    ensures AnimationTicks(m, n).gnomeFrame == (m.gnomeFrame + n) % FrameCount
  {
    if n > 0 {
      var a := Animated(m);
      FlashFadesAndFramesCycle(a, n - 1);
      CycleIndexStep(m.gnomeFrame, a.gnomeFrame, FrameCount, n);
    } else {
      RemainderUnique(m.gnomeFrame, FrameCount, 0, m.gnomeFrame);
    }
  }

  /** Left and Right move the preset cursor only while the preset overlay is
      shown, one step at a time, and never past either end of the catalog. */
  lemma PresetCursorClamped(m: Model, s: Snapshot, k: Key, stars: seq<Star>)
    requires k == KeyLeft || k == KeyRight
    requires CanHandle(m, s, KeyPress(k))
    requires 0 <= m.selectedPreset < |CommonPresets|
    ensures 0 <= Step(m, s, KeyPress(k), stars).model.selectedPreset < |CommonPresets|
    ensures !m.showPresets ==> Step(m, s, KeyPress(k), stars).model == m
    ensures m.showPresets && k == KeyLeft ==>
      Step(m, s, KeyPress(k), stars).model.selectedPreset == Max(0, m.selectedPreset - 1)
    ensures m.showPresets && k == KeyRight ==>
      Step(m, s, KeyPress(k), stars).model.selectedPreset == Min(|CommonPresets| - 1, m.selectedPreset + 1)
    ensures Step(m, s, KeyPress(k), stars).engine == s
  {
  }

  /** The preset and help toggles each clear the other overlay, so after
      either key at most one overlay is shown; no message turns both on. */
  lemma OverlaysExclusive(m: Model, s: Snapshot, msg: Msg, stars: seq<Star>)
    requires CanHandle(m, s, msg)
    requires msg == KeyPress(KeyPreset) || msg == KeyPress(KeyHelp) || !(m.showPresets && m.showHelp)
    ensures !(Step(m, s, msg, stars).model.showPresets && Step(m, s, msg, stars).model.showHelp)
  {
    if msg.KeyPress? {
      match msg.key {
        case KeyPreset =>
        case KeyHelp =>
        case _ =>
      }
    }
  }

  /** Tempo keys, Tab and a confirmed preset clear the flash, show beat 1,
      keep the engine's running state, and listen for beats again exactly
      when the engine plays. */
  lemma RetimingKeysResetDisplay(m: Model, s: Snapshot, k: Key, stars: seq<Star>)
    requires k == KeyUp || k == KeyDown || k == KeyTab || (k == KeyEnter && m.showPresets)
    requires CanHandle(m, s, KeyPress(k))
    requires Coherent(s)
    ensures Step(m, s, KeyPress(k), stars).model.beatAnimation == 0
    ensures Step(m, s, KeyPress(k), stars).model.currentBeat == 1
    ensures Step(m, s, KeyPress(k), stars).engine.isPlaying == s.isPlaying
    ensures Step(m, s, KeyPress(k), stars).cmd == ListenForBeats <==> s.isPlaying
    ensures !s.isPlaying ==> Step(m, s, KeyPress(k), stars).cmd == NoCommand
    ensures k == KeyTab || k == KeyEnter ==> Step(m, s, KeyPress(k), stars).engine.currentBeat == 1
  {
    if k == KeyUp {
      SetBPMContract(s, s.bpm + TempoStep);
    } else if k == KeyDown {
      SetBPMContract(s, s.bpm - TempoStep);
    } else if k == KeyTab {
      SetTimeSignatureContract(s, NextSignature(s.timeSignature));
    } else {
      var preset := CommonPresets[m.selectedPreset];
      SetBPMContract(s, preset.bpm);
      SetTimeSignatureContract(WithBPM(s, preset.bpm), preset.timeSignature);
    }
  }

  /** Up and Down move the tempo by 5 when the result stays within
      [20, 300] and leave it unchanged otherwise. */
  lemma TempoKeysStep(m: Model, s: Snapshot, stars: seq<Star>)
    requires Coherent(s)
    requires CanHandle(m, s, KeyPress(KeyUp))
    ensures Step(m, s, KeyPress(KeyUp), stars).engine.bpm ==
      if s.bpm + TempoStep <= MaxBPM && s.bpm + TempoStep >= MinBPM then s.bpm + TempoStep else s.bpm
    ensures Step(m, s, KeyPress(KeyDown), stars).engine.bpm ==
      if s.bpm - TempoStep >= MinBPM && s.bpm - TempoStep <= MaxBPM then s.bpm - TempoStep else s.bpm
    ensures Step(m, s, KeyPress(KeyUp), stars).engine.timeSignature == s.timeSignature
    ensures Step(m, s, KeyPress(KeyDown), stars).engine.timeSignature == s.timeSignature
  {
    SetBPMContract(s, s.bpm + TempoStep);
    SetBPMContract(s, s.bpm - TempoStep);
  }

  /** Tab moves the engine to the next catalog signature; repeated Tab
      presses therefore follow `TabPresses(CommonTimeSignatures, _, _)`. */
  lemma TabSelectsNextSignature(m: Model, s: Snapshot, stars: seq<Star>)
    requires Coherent(s)
    requires CanHandle(m, s, KeyPress(KeyTab))
    ensures Step(m, s, KeyPress(KeyTab), stars).engine.timeSignature == NextSignature(s.timeSignature)
    ensures Step(m, s, KeyPress(KeyTab), stars).engine.timeSignature in CommonTimeSignatures
    ensures Step(m, s, KeyPress(KeyTab), stars).engine.bpm == s.bpm
  {
    SetTimeSignatureContract(s, NextSignature(s.timeSignature));
  }

  /** Enter applies the selected preset's tempo and signature and closes the
      overlay when the preset overlay is shown, and does nothing otherwise. */
  lemma EnterAppliesPreset(m: Model, s: Snapshot, stars: seq<Star>)
    requires Coherent(s)
    requires CanHandle(m, s, KeyPress(KeyEnter))
    ensures !m.showPresets ==> Step(m, s, KeyPress(KeyEnter), stars) == Transition(m, s, NoCommand, None)
    ensures m.showPresets ==>
      && Step(m, s, KeyPress(KeyEnter), stars).engine.bpm == CommonPresets[m.selectedPreset].bpm
      && Step(m, s, KeyPress(KeyEnter), stars).engine.timeSignature == CommonPresets[m.selectedPreset].timeSignature
      && Step(m, s, KeyPress(KeyEnter), stars).engine.isPlaying == s.isPlaying
      && !Step(m, s, KeyPress(KeyEnter), stars).model.showPresets
  {
    if m.showPresets {
      var preset := CommonPresets[m.selectedPreset];
      PresetTempoApplies(s, m.selectedPreset);
      SetBPMContract(s, preset.bpm);
      SetTimeSignatureContract(WithBPM(s, preset.bpm), preset.timeSignature);
    }
  }

  /** Space stops a playing engine and starts a stopped one, and always
      listens for beats; Quit stops the engine and ends the program. */
  lemma PlayAndQuitKeys(m: Model, s: Snapshot, stars: seq<Star>)
    requires Coherent(s)
    requires CanHandle(m, s, KeyPress(KeySpace))
    ensures Step(m, s, KeyPress(KeySpace), stars).engine.isPlaying == !s.isPlaying
    ensures Step(m, s, KeyPress(KeySpace), stars).engine.currentBeat == 1
    ensures Step(m, s, KeyPress(KeySpace), stars).cmd == ListenForBeats
    ensures Step(m, s, KeyPress(KeySpace), stars).model == m
    ensures !Step(m, s, KeyPress(KeyQuit), stars).engine.isPlaying
    ensures Step(m, s, KeyPress(KeyQuit), stars).cmd == QuitProgram
  {
    StartContract(s);
    StopContract(s);
  }

  // Background stars

  /** How many stars a `width` x `height` terminal gets: one per 8 cells,
      but at least 50 and at most 300. */
  function StarCount(width: int, height: int): (n: int)
    ensures MinStars <= n <= MaxStars
    ensures MinStars <= width * height / CellsPerStar <= MaxStars ==> n == width * height / CellsPerStar
    ensures width * height / CellsPerStar < MinStars ==> n == MinStars
    ensures width * height / CellsPerStar > MaxStars ==> n == MaxStars
  {
    var n := width * height / CellsPerStar;
    if n > MaxStars then MaxStars else if n < MinStars then MinStars else n
  }

  /** A larger terminal never gets fewer stars. */
  lemma StarCountMonotone(w1: int, h1: int, w2: int, h2: int)
    requires w1 * h1 <= w2 * h2
    ensures StarCount(w1, h1) <= StarCount(w2, h2)
  {
  }

  predicate StarsFit(stars: seq<Star>, width: int, height: int) {
    && |stars| == StarCount(width, height)
    && forall i :: 0 <= i < |stars| ==> 0 <= stars[i].x < width && 0 <= stars[i].y < height
  }

  /** Rebuild the background stars for the model's size; each position is an
      arbitrary cell of the terminal. Nothing changes for an empty size. */
  method InitializeStars(m: Model) returns (m': Model)
    ensures m.width <= 0 || m.height <= 0 ==> m' == m
    ensures m.width > 0 && m.height > 0 ==>
      m' == m.(starPositions := m'.starPositions) && StarsFit(m'.starPositions, m.width, m.height)
  {
    if m.width <= 0 || m.height <= 0 {
      return m;
    }
    var numStars := (m.width * m.height) / CellsPerStar;
    if numStars > MaxStars {
      numStars := MaxStars;
    }
    if numStars < MinStars {
      numStars := MinStars;
    }
    var stars := new Star[numStars];
    var i := 0;
    while i < numStars
      invariant 0 <= i <= numStars
      invariant forall j :: 0 <= j < i ==> 0 <= stars[j].x < m.width && 0 <= stars[j].y < m.height
    {
      var x :| 0 <= x < m.width;
      var y :| 0 <= y < m.height;
      stars[i] := Star(x, y);
      i := i + 1;
    }
    m' := m.(starPositions := stars[..]);
  }

  /** The initial model: a stopped engine at 120 BPM in 4/4, sound on, no
      overlay, no size known yet and therefore no stars. */
  method NewModel() returns (m: Model)
    ensures fresh(m.metronome)
    ensures m.metronome.State() == Fresh(120, CommonTimeSignatures[0])
    ensures m == Model(m.metronome, 0, 0, false, false, 0, 0, 0, 0, true, [])
    ensures Consistent(m, m.metronome.State())
  {
    var metro := new Metronome.New(120, CommonTimeSignatures[0]);
    m := Model(metro, 0, 0, false, false, 0, 0, 0, 0, true, []);
    m := InitializeStars(m);
  }

  // Rendering structure

  datatype Screen = HelpScreen | PresetsScreen | MainScreen

  /** Which screen `View` renders: help wins over presets, presets over the
      main view. */
  function View(m: Model): (screen: Screen)
    ensures screen == HelpScreen <==> m.showHelp
    ensures screen == PresetsScreen <==> m.showPresets && !m.showHelp
    ensures screen == MainScreen <==> !m.showPresets && !m.showHelp
  {
    if m.showHelp then HelpScreen
    else if m.showPresets then PresetsScreen
    else MainScreen
  }

  /** From any screen, the preset key shows the preset picker unless it was
      open (then the main view), and the help key likewise for help. */
  lemma OverlayKeysSelectScreen(m: Model, s: Snapshot, stars: seq<Star>)
    requires CanHandle(m, s, KeyPress(KeyPreset)) && CanHandle(m, s, KeyPress(KeyHelp))
    ensures View(Step(m, s, KeyPress(KeyPreset), stars).model) == if m.showPresets then MainScreen else PresetsScreen
    ensures View(Step(m, s, KeyPress(KeyHelp), stars).model) == if m.showHelp then MainScreen else HelpScreen
  {
  }

  /** The four text lines of the gnome at a beat position: arms down at odd
      positions, arms up at even ones. */
  const ArmsDown: seq<string> := ["  △  ", " ಠ_ಠ ", " /|\\ ", " / \\ "]
  const ArmsUp: seq<string> := ["  △  ", " ಠ_ಠ ", " \\|/ ", " / \\ "]
  const GnomeHeight: int := 4
  const GnomeWidth: int := 5
  const GnomeGap: string := "  "

  function GnomeLines(position: int): (lines: seq<string>)
    ensures |lines| == GnomeHeight
    ensures forall l :: 0 <= l < GnomeHeight ==> |lines[l]| == GnomeWidth && '\n' !in lines[l]
  {
    if Rem(position, 2) == 1 then ArmsDown else ArmsUp
  }

  /** Line `line` of gnome `g` (0-based) of `n`, followed by the gap unless
      it is the last gnome. */
  function Segment(line: int, g: int, n: int): string
    requires 0 <= line < GnomeHeight
  {
    GnomeLines(g + 1)[line] + (if g < n - 1 then GnomeGap else "")
  }

  /** Line `line` of the first `k` of `n` gnomes. */
  function RowPrefix(line: int, k: nat, n: int): string
    requires 0 <= line < GnomeHeight
    decreases k
  {
    if k == 0 then "" else RowPrefix(line, k - 1, n) + Segment(line, k - 1, n)
  }

  function GnomeRow(line: int, n: nat): string
    requires 0 <= line < GnomeHeight
  {
    RowPrefix(line, n, n)
  }

  /** The first `j` lines of the gnome block, each but the last followed by
      a newline. */
  function BlockPrefix(j: nat, n: nat): string
    requires j <= GnomeHeight
    decreases j
  {
    if j == 0 then ""
    else BlockPrefix(j - 1, n) + GnomeRow(j - 1, n) + (if j - 1 < GnomeHeight - 1 then "\n" else "")
  }

  /** The gnome row of the main view, built line by line as the Go code does. */
  method GetBeatGnomes(m: Model) returns (result: string)
    requires m.metronome.timeSignature.beats >= 0
    ensures result == BlockPrefix(GnomeHeight, m.metronome.timeSignature.beats)
  {
    var numBeats := m.metronome.timeSignature.beats;
    result := "";
    var lineNum := 0;
    while lineNum < GnomeHeight
      invariant 0 <= lineNum <= GnomeHeight
      invariant result == BlockPrefix(lineNum, numBeats)
    {
      var line := BuildGnomeLine(lineNum, numBeats);
      result := result + line;
      if lineNum < GnomeHeight - 1 {
        result := result + "\n";
      }
      lineNum := lineNum + 1;
    }
  }

  /** The inner loop of `GetBeatGnomes`: one text line across all gnomes. */
  method BuildGnomeLine(lineNum: int, numBeats: nat) returns (line: string)
    requires 0 <= lineNum < GnomeHeight
    ensures line == GnomeRow(lineNum, numBeats)
  {
    line := "";
    var gnomeNum := 0;
    while gnomeNum < numBeats
      invariant 0 <= gnomeNum <= numBeats
      invariant line == RowPrefix(lineNum, gnomeNum, numBeats)
    {
      ghost var before := line;
      line := line + GnomeLines(gnomeNum + 1)[lineNum];
      if gnomeNum < numBeats - 1 {
        line := line + GnomeGap;
      }
      assert line == before + Segment(lineNum, gnomeNum, numBeats);
      gnomeNum := gnomeNum + 1;
    }
  }

  /** A slice inside the left operand of a concatenation. */
  lemma SliceOfLeft(a: string, b: string, lo: int, hi: int)
    requires 0 <= lo <= hi <= |a|
    ensures (a + b)[lo .. hi] == a[lo .. hi]
  {
  }

  /** A slice inside the right operand of a concatenation. */
  lemma SliceOfRight(a: string, b: string, lo: int, hi: int)
    requires |a| <= lo <= hi <= |a| + |b|
    ensures (a + b)[lo .. hi] == b[lo - |a| .. hi - |a|]
  {
  }

  /** A segment is the glyph line, then the gap unless it is the last gnome. */
  lemma SegmentShape(line: int, g: int, n: int)
    requires 0 <= line < GnomeHeight
    ensures |Segment(line, g, n)| == (if g < n - 1 then 7 else GnomeWidth)
    ensures '\n' !in Segment(line, g, n)
    ensures Segment(line, g, n)[.. GnomeWidth] == GnomeLines(g + 1)[line]
    ensures g < n - 1 ==> Segment(line, g, n)[GnomeWidth .. 7] == GnomeGap
  {
    var glyph := GnomeLines(g + 1)[line];
    assert |glyph| == GnomeWidth && '\n' !in glyph;
    if g < n - 1 {
      assert Segment(line, g, n) == glyph + GnomeGap;
      SliceOfLeft(glyph, GnomeGap, 0, GnomeWidth);
      SliceOfRight(glyph, GnomeGap, GnomeWidth, 7);
    } else {
      assert Segment(line, g, n) == glyph + "";
    }
  }

  /** Within a line, gnome `g` occupies columns [7g, 7g + 5) and is followed
      by a two-space gap unless it is the last; a line of `k` complete
      segments is 7k wide, minus the gap missing after the last gnome. */
  lemma {:induction false} RowPrefixLayout(line: int, k: nat, n: nat)
    requires 0 <= line < GnomeHeight
    requires k <= n
    decreases k
    ensures |RowPrefix(line, k, n)| == (if k == n && n > 0 then 7 * k - 2 else 7 * k)
    ensures '\n' !in RowPrefix(line, k, n)
    ensures forall g :: 0 <= g < k ==> RowPrefix(line, k, n)[7 * g .. 7 * g + GnomeWidth] == GnomeLines(g + 1)[line]
    ensures forall g :: 0 <= g < k && g < n - 1 ==> RowPrefix(line, k, n)[7 * g + GnomeWidth .. 7 * g + 7] == GnomeGap
  {
    if k > 0 {
      RowPrefixLayout(line, k - 1, n);
      var prev := RowPrefix(line, k - 1, n);
      var seg := Segment(line, k - 1, n);
      SegmentShape(line, k - 1, n);
      assert RowPrefix(line, k, n) == prev + seg;
      assert |prev| == 7 * (k - 1);
      forall g | 0 <= g < k
        ensures (prev + seg)[7 * g .. 7 * g + GnomeWidth] == GnomeLines(g + 1)[line]
      {
        if g < k - 1 {
          SliceOfLeft(prev, seg, 7 * g, 7 * g + GnomeWidth);
        } else {
          SliceOfRight(prev, seg, 7 * g, 7 * g + GnomeWidth);
        }
      }
      forall g | 0 <= g < k && g < n - 1
        ensures (prev + seg)[7 * g + GnomeWidth .. 7 * g + 7] == GnomeGap
      {
        if g < k - 1 {
          SliceOfLeft(prev, seg, 7 * g + GnomeWidth, 7 * g + 7);
        } else {
          SliceOfRight(prev, seg, 7 * g + GnomeWidth, 7 * g + 7);
        }
      }
    }
  }

  /** The gnome block is exactly four lines joined by newlines; each line
      holds one gnome segment per beat, two spaces apart. */
  lemma GnomeBlockShape(n: nat)
    ensures BlockPrefix(GnomeHeight, n) ==
      GnomeRow(0, n) + "\n" + GnomeRow(1, n) + "\n" + GnomeRow(2, n) + "\n" + GnomeRow(3, n)
    ensures forall line :: 0 <= line < GnomeHeight ==>
      && '\n' !in GnomeRow(line, n)
      && |GnomeRow(line, n)| == (if n == 0 then 0 else 7 * n - 2)
      && (forall g :: 0 <= g < n ==> GnomeRow(line, n)[7 * g .. 7 * g + GnomeWidth] == GnomeLines(g + 1)[line])
      && (forall g :: 0 <= g < n - 1 ==> GnomeRow(line, n)[7 * g + GnomeWidth .. 7 * g + 7] == GnomeGap)
  {
    forall line | 0 <= line < GnomeHeight
      ensures '\n' !in GnomeRow(line, n)
      ensures |GnomeRow(line, n)| == (if n == 0 then 0 else 7 * n - 2)
      ensures forall g :: 0 <= g < n ==> GnomeRow(line, n)[7 * g .. 7 * g + GnomeWidth] == GnomeLines(g + 1)[line]
      ensures forall g :: 0 <= g < n - 1 ==> GnomeRow(line, n)[7 * g + GnomeWidth .. 7 * g + 7] == GnomeGap
    {
      RowPrefixLayout(line, n, n);
    }
  }
}
