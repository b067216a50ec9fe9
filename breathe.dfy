/**
 * The guided-breathing page (frontend/src/pages/Breathe.jsx): a once-a-second
 * countdown that walks inhale -> hold1 -> exhale -> hold2 -> inhale, skipping
 * holds of length 0 and counting cycles, surrounded by the start, pause,
 * reset, technique-change, finish and save handlers.
 *
 * The pure part (`Timer`, `Tick`, `Run`) is the specification; the class
 * `BreathePage` holds the page's state fields and its handlers are proved to
 * follow it.
 */
module Breathe {
  import opened Wrappers

  datatype Phase = Inhale | Hold1 | Exhale | Hold2

  /** One entry of the `techniques` table: a name and four durations in seconds. */
  datatype Technique = Technique(name: string, inhale: nat, hold1: nat, exhale: nat, hold2: nat)

  /** The keys of the `techniques` table: 'box', '478' and 'calm'. */
  datatype TechniqueKey = Box | FourSevenEight | Calm

  function TechniqueOf(key: TechniqueKey): Technique {
    match key
    case Box => Technique("Box Breathing", 4, 4, 4, 4)
    case FourSevenEight => Technique("4-7-8 Technique", 4, 7, 8, 0)
    case Calm => Technique("Calm Breathing", 4, 0, 6, 0)
  }

  function Duration(t: Technique, p: Phase): nat {
    match p
    case Inhale => t.inhale
    case Hold1 => t.hold1
    case Exhale => t.exhale
    case Hold2 => t.hold2
  }

  /** Inhale and exhale, the two phases every cycle passes through, last at least a second. */
  predicate WellFormed(t: Technique) {
    t.inhale > 0 && t.exhale > 0
  }

  lemma ConfiguredTechniquesAreWellFormed(key: TechniqueKey)
    ensures WellFormed(TechniqueOf(key))
  {
  }

  /** The `phase`, `counter` and `cycleCount` state of the page. */
  datatype Timer = Timer(phase: Phase, counter: int, cycles: int)

  /**
   * The timer invariant: the current phase has a non-zero duration and the
   * counter lies between 1 and that duration.
   */
  predicate Inv(t: Technique, s: Timer) {
    Duration(t, s.phase) > 0 && 1 <= s.counter <= Duration(t, s.phase) && s.cycles >= 0
  }

  /** Phase inhale with a full inhale counter and the given cycle count. */
  function AtInhale(t: Technique, cycles: int): Timer {
    Timer(Inhale, t.inhale, cycles)
  }

  /** The fixed cyclic order of the four phases. */
  function Succ(p: Phase): Phase {
    match p
    case Inhale => Hold1
    case Hold1 => Exhale
    case Exhale => Hold2
    case Hold2 => Inhale
  }

  /**
   * Reference definition: the first phase after `p` in the cyclic order whose
   * duration is not zero.
   */
  function NextPhase(t: Technique, p: Phase): Phase {
    if Duration(t, Succ(p)) > 0 then Succ(p)
    else if Duration(t, Succ(Succ(p))) > 0 then Succ(Succ(p))
    else if Duration(t, Succ(Succ(Succ(p)))) > 0 then Succ(Succ(Succ(p)))
    else p
  }

  /** A transition from exhale or hold2 back to inhale: the end of a cycle. */
  predicate Wraps(s: Timer, r: Timer) {
    s.phase != Inhale && r.phase == Inhale
  }

  /** The body of the one-second interval callback (the `setCounter` updater). */
  function Tick(t: Technique, s: Timer): (r: Timer)
    ensures s.counter > 1 ==> r.phase == s.phase && r.cycles == s.cycles && r.counter == s.counter - 1
    ensures WellFormed(t) && Inv(t, s) ==> Inv(t, r)
    ensures r.cycles == if Wraps(s, r) then s.cycles + 1 else s.cycles
  {
    if s.counter > 1 then s.(counter := s.counter - 1)
    else
      match s.phase
      case Inhale =>
        if t.hold1 > 0 then Timer(Hold1, t.hold1, s.cycles) else Timer(Exhale, t.exhale, s.cycles)
      case Hold1 => Timer(Exhale, t.exhale, s.cycles)
      case Exhale =>
        if t.hold2 > 0 then Timer(Hold2, t.hold2, s.cycles) else Timer(Inhale, t.inhale, s.cycles + 1)
      case Hold2 => Timer(Inhale, t.inhale, s.cycles + 1)
  }

  /**
   * On expiry the machine moves to the next non-empty phase of the cyclic
   * order and loads that phase's full duration into the counter.
   */
  lemma TickAtExpiry(t: Technique, s: Timer)
    requires WellFormed(t) && Inv(t, s) && s.counter == 1
    ensures Tick(t, s).phase == NextPhase(t, s.phase)
    ensures Tick(t, s).counter == Duration(t, NextPhase(t, s.phase))
    ensures Tick(t, s).cycles == if NextPhase(t, s.phase) == Inhale then s.cycles + 1 else s.cycles
  {
  }

  /** `n` ticks of the running timer. */
  function Run(t: Technique, s: Timer, n: nat): Timer
    decreases n
  {
    if n == 0 then s else Run(t, Tick(t, s), n - 1)
  }

  /** Any number of ticks keeps the timer invariant. */
  lemma {:induction false} RunKeepsInv(t: Technique, s: Timer, n: nat)
    requires WellFormed(t) && Inv(t, s)
    ensures Inv(t, Run(t, s, n))
    ensures Run(t, s, n).cycles >= s.cycles
    decreases n
  {
    if n > 0 {
      RunKeepsInv(t, Tick(t, s), n - 1);
    }
  }

  lemma {:induction false} RunAdd(t: Technique, s: Timer, a: nat, b: nat)
    ensures Run(t, s, a + b) == Run(t, Run(t, s, a), b)
    decreases a
  {
    if a > 0 {
      RunAdd(t, Tick(t, s), a - 1, b);
    }
  }

  /** While the counter is above 1 the ticks only count down. */
  lemma {:induction false} RunWithinPhase(t: Technique, s: Timer, k: nat)
    requires k < s.counter
    ensures Run(t, s, k) == s.(counter := s.counter - k)
    decreases k
  {
    if k > 0 {
      RunWithinPhase(t, s.(counter := s.counter - 1), k - 1);
    }
  }

  /** A phase entered with counter `c` is left after exactly `c` ticks. */
  lemma PhaseExpires(t: Technique, s: Timer)
    requires s.counter >= 1
    ensures Run(t, s, s.counter) == Tick(t, s.(counter := 1))
  {
    RunAdd(t, s, s.counter - 1, 1);
    RunWithinPhase(t, s, s.counter - 1);
  }

  lemma InhaleAndHold(t: Technique, c: int)
    requires WellFormed(t)
    ensures Run(t, AtInhale(t, c), t.inhale + t.hold1) == Timer(Exhale, t.exhale, c)
  {
    var s0 := AtInhale(t, c);
    RunAdd(t, s0, t.inhale, t.hold1);
    PhaseExpires(t, s0);
    if t.hold1 > 0 {
      PhaseExpires(t, Timer(Hold1, t.hold1, c));
    }
  }

  lemma ExhaleAndHold(t: Technique, c: int)
    requires WellFormed(t)
    ensures Run(t, Timer(Exhale, t.exhale, c), t.exhale + t.hold2) == AtInhale(t, c + 1)
  {
    var s0 := Timer(Exhale, t.exhale, c);
    RunAdd(t, s0, t.exhale, t.hold2);
    PhaseExpires(t, s0);
    if t.hold2 > 0 {
      PhaseExpires(t, Timer(Hold2, t.hold2, c));
    }
  }

  /** Seconds in one cycle: the sum of the four durations. */
  function CycleLength(t: Technique): nat {
    t.inhale + t.hold1 + t.exhale + t.hold2
  }

  /**
   * From the start of inhale, one cycle's worth of ticks brings the timer
   * back to the start of inhale with the cycle count one higher.
   */
  lemma FullCycle(t: Technique, c: int)
    requires WellFormed(t)
    ensures Run(t, AtInhale(t, c), CycleLength(t)) == AtInhale(t, c + 1)
  {
    RunAdd(t, AtInhale(t, c), t.inhale + t.hold1, t.exhale + t.hold2);
    InhaleAndHold(t, c);
    ExhaleAndHold(t, c);
  }

  /** `k` cycles' worth of ticks add exactly `k` to the cycle count. */
  lemma {:induction false} ManyCycles(t: Technique, c: int, k: nat)
    requires WellFormed(t)
    ensures Run(t, AtInhale(t, c), k * CycleLength(t)) == AtInhale(t, c + k)
    decreases k
  {
    if k > 0 {
      calc {
        Run(t, AtInhale(t, c), k * CycleLength(t));
        { assert k * CycleLength(t) == CycleLength(t) + (k - 1) * CycleLength(t);
          RunAdd(t, AtInhale(t, c), CycleLength(t), (k - 1) * CycleLength(t)); }
        Run(t, Run(t, AtInhale(t, c), CycleLength(t)), (k - 1) * CycleLength(t));
        { FullCycle(t, c); }
        Run(t, AtInhale(t, c + 1), (k - 1) * CycleLength(t));
        { ManyCycles(t, c + 1, k - 1); }
        AtInhale(t, c + k);
      }
    }
  }

  /** The value a string-valued state has in a JavaScript condition. */
  predicate Truthy(o: Option<string>) {
    o.Some? && o.value != ""
  }

  /** One element of the stored 'mlh_breathe_stats' list. */
  datatype SessionRecord = SessionRecord(id: int, date: int, technique: string, cycles: int, moodAfter: Option<string>)

  /** The record `saveSession` builds from the page state at clock reading `now`. */
  function NewRecord(key: TechniqueKey, cycles: int, mood: string, now: int): (r: SessionRecord)
    ensures r.technique == TechniqueOf(key).name && r.cycles == cycles && r.moodAfter == Some(mood)
  {
    SessionRecord(now, now, TechniqueOf(key).name, cycles, Some(mood))
  }

  /** The state of the breathing page and the stored session list it appends to. */
  class BreathePage {
    var technique: TechniqueKey
    var isActive: bool
    var phase: Phase
    var counter: int
    var cycleCount: int
    var showFeedback: bool
    var selectedMood: Option<string>
    /** The 'mlh_breathe_stats' list in local storage. */
    var stored: seq<SessionRecord>

    function Clock(): Timer
      reads this
    {
      Timer(phase, counter, cycleCount)
    }

    function Current(): Technique
      reads this
    {
      TechniqueOf(technique)
    }

    predicate Valid()
      reads this
    {
      Inv(Current(), Clock())
    }

    /** The `useState` initialisers: box breathing, inactive, at the start of inhale. */
    constructor (stored: seq<SessionRecord>)
      ensures Valid()
      ensures technique == Box && !isActive && Clock() == AtInhale(TechniqueOf(Box), 0)
      ensures !showFeedback && selectedMood == None && this.stored == stored
    {
      technique := Box;
      isActive := false;
      phase := Inhale;
      counter := TechniqueOf(Box).inhale;
      cycleCount := 0;
      showFeedback := false;
      selectedMood := None;
      this.stored := stored;
    }

    /** One second of the interval; no interval is registered while inactive. */
    method TickSecond()
      requires Valid()
      modifies this`phase, this`counter, this`cycleCount
      ensures Valid()
      ensures old(isActive) ==> Clock() == Tick(Current(), old(Clock()))
      ensures !old(isActive) ==> Clock() == old(Clock())
    {
      if isActive {
        var next := Tick(Current(), Clock());
        phase, counter, cycleCount := next.phase, next.counter, next.cycles;
      }
    }

    /** `handleStart`: the first start counts the cycle in progress as cycle 1. */
    method Start()
      requires Valid()
      modifies this`isActive, this`cycleCount
      ensures Valid() && isActive
      ensures cycleCount == if old(cycleCount) == 0 then 1 else old(cycleCount)
    {
      if cycleCount == 0 {
        cycleCount := 1;
      }
      isActive := true;
    }

    /** `handlePause`: only the active flag changes. */
    method Pause()
      modifies this`isActive
      ensures !isActive
    {
      isActive := false;
    }

    /** `handleReset`: back to the start of inhale of the current technique. */
    method Reset()
      modifies this`isActive, this`phase, this`counter, this`cycleCount, this`showFeedback
      ensures Valid() && !isActive && !showFeedback
      ensures Clock() == AtInhale(Current(), 0)
    {
      isActive := false;
      phase := Inhale;
      counter := Current().inhale;
      cycleCount := 0;
      showFeedback := false;
    }

    /** `handleTechniqueChange`: select `key` and restart from its inhale. */
    method ChangeTechnique(key: TechniqueKey)
      modifies this`technique, this`isActive, this`phase, this`counter, this`cycleCount
      ensures Valid() && technique == key && !isActive
      ensures Clock() == AtInhale(TechniqueOf(key), 0)
    {
      technique := key;
      isActive := false;
      phase := Inhale;
      counter := TechniqueOf(key).inhale;
      cycleCount := 0;
    }

    /** `handleFinish`: stop the timer and open the feedback dialog. */
    method Finish()
      modifies this`isActive, this`showFeedback
      ensures !isActive && showFeedback
    {
      isActive := false;
      showFeedback := true;
    }

    /** A mood button of the feedback dialog. */
    method ChooseMood(mood: string)
      modifies this`selectedMood
      ensures selectedMood == Some(mood)
    {
      selectedMood := Some(mood);
    }

    /** The dialog's Skip button: closes the dialog and records nothing. */
    method Skip()
      modifies this`showFeedback
      ensures !showFeedback
    {
      showFeedback := false;
    }

    /**
     * `saveSession` at clock reading `now`: without a mood nothing happens;
     * otherwise one record is appended to the stored list and the page resets.
     */
    method SaveSession(now: int)
      modifies this
      ensures !Truthy(old(selectedMood)) ==> unchanged(this)
      ensures Truthy(old(selectedMood)) ==>
        && stored == old(stored) + [NewRecord(old(technique), old(cycleCount), old(selectedMood).value, now)]
        && technique == old(technique) && selectedMood == old(selectedMood)
        && Valid() && !isActive && !showFeedback && Clock() == AtInhale(Current(), 0)
    {
      if !Truthy(selectedMood) {
        return;
      }
      var rec := NewRecord(technique, cycleCount, selectedMood.value, now);
      stored := stored + [rec];
      Reset();
    }
  }
}
