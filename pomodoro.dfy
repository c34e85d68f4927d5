/**
 * The Pomodoro timer: a work / break / long-break cycle with a countdown,
 * a long break after every `sessionsUntilLongBreak`-th work session, the
 * `mm:ss` display, and the settings form whose inputs fall back to the
 * default durations.
 */
module Pomodoro {
  import opened Wrappers
  import opened Js
  import opened Types
  import opened Storage

  datatype Mode = Work | Break | LongBreak

  /** The component state the transitions act on. */
  datatype TimerState = TimerState(mode: Mode, timeLeft: int, isRunning: bool, sessionsCompleted: int)

  /**
   * `n % every === 0`. The JavaScript remainder is zero exactly when `every`
   * divides `n`, whatever the signs, and `n % 0` is `NaN`, which is never 0.
   */
  predicate LongBreakDue(n: int, every: int) {
    every != 0 && n % every == 0
  }

  /** The state `handleTimerComplete` leaves behind. */
  function AfterCompletion(st: TimerState, cfg: PomodoroSettings): (r: TimerState)
    ensures !r.isRunning
    ensures st.mode == Work ==> r.sessionsCompleted == st.sessionsCompleted + 1
    ensures st.mode == Work ==>
      (r.mode == LongBreak <==> LongBreakDue(st.sessionsCompleted + 1, cfg.sessionsUntilLongBreak))
    ensures st.mode == Work ==> r.mode != Work
    ensures st.mode != Work ==>
      r.mode == Work && r.timeLeft == cfg.workDuration * 60 && r.sessionsCompleted == st.sessionsCompleted
    ensures r.mode == Break ==> r.timeLeft == cfg.breakDuration * 60
    ensures r.mode == LongBreak ==> r.timeLeft == cfg.longBreakDuration * 60
  {
    if st.mode == Work then
      var n := st.sessionsCompleted + 1;
      if LongBreakDue(n, cfg.sessionsUntilLongBreak) then TimerState(LongBreak, cfg.longBreakDuration * 60, false, n)
      else TimerState(Break, cfg.breakDuration * 60, false, n)
    else
      TimerState(Work, cfg.workDuration * 60, false, st.sessionsCompleted)
  }

  /** The interval exists only while the timer runs with time left. */
  predicate Ticking(st: TimerState) {
    st.isRunning && st.timeLeft > 0
  }

  /** What the `setTimeLeft` updater returns for the previous value `prev`. */
  function TickUpdate(prev: int): (r: int)
    ensures prev > 1 ==> r == prev - 1
    ensures prev <= 1 ==> r == 0
    ensures r >= 0 || r == prev - 1
  {
    if prev <= 1 then 0 else prev - 1
  }

  /**
   * The state after one firing of the interval. When the countdown reaches its
   * end the updater returns 0, but the completion it triggers queues its own
   * `setTimeLeft`, which React applies after it: the completed state wins.
   */
  function Ticked(st: TimerState, cfg: PomodoroSettings): (r: TimerState)
    requires Ticking(st)
    ensures st.timeLeft > 1 ==> r == st.(timeLeft := st.timeLeft - 1)
    ensures st.timeLeft <= 1 ==> r == AfterCompletion(st, cfg)
    ensures r.sessionsCompleted >= st.sessionsCompleted
  {
    if st.timeLeft <= 1 then AfterCompletion(st, cfg) else st.(timeLeft := TickUpdate(st.timeLeft))
  }

  /** `handleReset`, and the timer part of `handleSaveSettings`. */
  function Reset(st: TimerState, cfg: PomodoroSettings): (r: TimerState)
    ensures r == TimerState(Work, cfg.workDuration * 60, false, st.sessionsCompleted)
  {
    st.(isRunning := false, mode := Work, timeLeft := cfg.workDuration * 60)
  }

  // ----------------------------------------------------------- the long-break rule

  /** `k` completions in a row. */
  function RunCompletions(st: TimerState, cfg: PomodoroSettings, k: nat): TimerState
    decreases k
  {
    if k == 0 then st else RunCompletions(AfterCompletion(st, cfg), cfg, k - 1)
  }

  /** How many of those `k` completions start a long break. */
  function LongBreaksStarted(st: TimerState, cfg: PomodoroSettings, k: nat): nat
    decreases k
  {
    if k == 0 then 0
    else (if AfterCompletion(st, cfg).mode == LongBreak then 1 else 0) + LongBreaksStarted(AfterCompletion(st, cfg), cfg, k - 1)
  }

  lemma MulAtLeast(x: int, n: int)
    requires x >= 1 && n > 0
    ensures x * n >= n
  {
    assert x * n == (x - 1) * n + n;
    if x > 1 {
      MulAtLeast(x - 1, n);
    }
  }

  /** Quotient and remainder are the only pair with `a == q * n + r` and `0 <= r < n`. */
  lemma DivModUnique(a: int, n: int, q: int, r: int)
    requires n > 0 && a == q * n + r && 0 <= r < n
    ensures a / n == q && a % n == r
  {
    var q0, r0 := a / n, a % n;
    assert a == q0 * n + r0 && 0 <= r0 < n;
    assert (q - q0) * n == r0 - r;
    if q > q0 {
      MulAtLeast(q - q0, n);
    } else if q < q0 {
      MulAtLeast(q0 - q, n);
    }
  }

  /** Moving from `s` to `s + 1` passes one more multiple of `n` exactly when `s + 1` is one. */
  lemma DivStep(s: int, n: int)
    requires n > 0
    ensures (s + 1) / n - s / n == if (s + 1) % n == 0 then 1 else 0
  {
    var q, r := s / n, s % n;
    assert s == q * n + r && 0 <= r < n;
    if r + 1 == n {
      DivModUnique(s + 1, n, q + 1, 0);
    } else {
      DivModUnique(s + 1, n, q, r + 1);
    }
  }

  /**
   * From a work session with `s` sessions behind it, `n` work sessions each
   * followed by its break come back to work with `s + n` sessions, and the
   * breaks taken include one long break per multiple of the interval passed.
   */
  lemma {:induction false} LongBreakEveryNthSession(st: TimerState, cfg: PomodoroSettings, n: nat)
    requires st.mode == Work && cfg.sessionsUntilLongBreak > 0
    ensures RunCompletions(st, cfg, 2 * n).mode == Work
    ensures RunCompletions(st, cfg, 2 * n).sessionsCompleted == st.sessionsCompleted + n
    ensures LongBreaksStarted(st, cfg, 2 * n) ==
      (st.sessionsCompleted + n) / cfg.sessionsUntilLongBreak - st.sessionsCompleted / cfg.sessionsUntilLongBreak
    decreases n
  {
    if n > 0 {
      var st1 := AfterCompletion(st, cfg);
      var st2 := AfterCompletion(st1, cfg);
      assert RunCompletions(st, cfg, 2 * n) == RunCompletions(st2, cfg, 2 * (n - 1));
      assert LongBreaksStarted(st, cfg, 2 * n) ==
        (if st1.mode == LongBreak then 1 else 0) + LongBreaksStarted(st2, cfg, 2 * (n - 1));
      LongBreakEveryNthSession(st2, cfg, n - 1);
      DivStep(st.sessionsCompleted, cfg.sessionsUntilLongBreak);
    }
  }

  // ------------------------------------------------------------------ the display

  /** `formatTime`: minutes `Math.floor(seconds / 60)`, seconds `seconds % 60`, each padded to two digits. */
  function FormatTime(seconds: int): string {
    PadStart2(IntToString(seconds / 60)) + ":" + PadStart2(IntToString(JsRemainder(seconds, 60)))
  }

  /** Reads an `m:ss` display back into seconds. */
  function ClockSeconds(t: string): Num {
    if |t| < 3 || t[|t| - 3] != ':' then NaN
    else MinutesAndSeconds(ParseInt(t[..|t| - 3]), ParseInt(t[|t| - 2..]))
  }

  function MinutesAndSeconds(m: Num, sec: Num): Num {
    if m.Int? && sec.Int? then Int(m.value * 60 + sec.value) else NaN
  }

  /** For a non-negative count, the display ends in two digits from 00 to 59 and reads back to the count. */
  lemma FormatTimeReadsBack(seconds: nat)
    ensures var t := FormatTime(seconds);
      |t| >= 5 && t[|t| - 3] == ':' && AllDigits(t[|t| - 2..]) && DigitsValue(t[|t| - 2..]) < 60
    ensures ClockSeconds(FormatTime(seconds)) == Int(seconds)
  {
    var mins, secs := seconds / 60, seconds % 60;
    var t := PadStart2(NatToString(mins)) + ":" + PadStart2(NatToString(secs));
    FormatTimeFields(seconds);
    assert FormatTime(seconds) == t;
    FieldsReadBack(mins, secs);
    assert Int(mins * 60 + secs) == Int(seconds);
  }

  /** A padded minutes field, a colon and a padded seconds field read back to the seconds they stand for. */
  lemma FieldsReadBack(mins: nat, secs: nat)
    requires secs < 60
    ensures var t := PadStart2(NatToString(mins)) + ":" + PadStart2(NatToString(secs));
      |t| >= 5 && t[|t| - 3] == ':' && AllDigits(t[|t| - 2..]) && DigitsValue(t[|t| - 2..]) < 60
      && ClockSeconds(t) == Int(mins * 60 + secs)
  {
    var m, ss := PadStart2(NatToString(mins)), PadStart2(NatToString(secs));
    SecondsField(secs);
    PadStart2Parses(mins);
    ClockOfParts(m, ss, mins, secs);
  }

  /** For a non-negative count, the two fields are the padded quotient and remainder. */
  lemma FormatTimeFields(seconds: nat)
    ensures FormatTime(seconds) == PadStart2(NatToString(seconds / 60)) + ":" + PadStart2(NatToString(seconds % 60))
  {
    assert IntToString(seconds / 60) == NatToString(seconds / 60);
    assert JsRemainder(seconds, 60) == seconds % 60;
  }

  /** The seconds field: always two digits, worth the remainder itself. */
  lemma SecondsField(secs: nat)
    requires secs < 60
    ensures var ss := PadStart2(NatToString(secs));
      |ss| == 2 && AllDigits(ss) && DigitsValue(ss) == secs && ParseInt(ss) == Int(secs)
  {
    var ss := PadStart2(NatToString(secs));
    if secs >= 10 {
      assert NatToString(secs) == NatToString(secs / 10) + [DigitChar(secs % 10)];
      assert NatToString(secs / 10) == [DigitChar(secs / 10)];
    }
    PadStart2Parses(secs);
    ParseDigits(ss);
  }

  lemma ClockOfParts(m: string, ss: string, mins: int, secs: int)
    requires |m| >= 2 && |ss| == 2 && ParseInt(m) == Int(mins) && ParseInt(ss) == Int(secs)
    ensures var t := m + ":" + ss;
      |t| >= 5 && t[|t| - 3] == ':' && t[|t| - 2..] == ss && ClockSeconds(t) == Int(mins * 60 + secs)
  {
    var t := m + ":" + ss;
    ClockSplits(m, ss);
    ClockFields(t, m, ss);
  }

  lemma ClockSplits(m: string, ss: string)
    requires |ss| == 2
    ensures var t := m + ":" + ss;
      |t| >= 3 && t[|t| - 3] == ':' && t[..|t| - 3] == m && t[|t| - 2..] == ss
  {
    var t := m + ":" + ss;
    assert t[..|t| - 3] == m;
  }

  lemma ClockFields(t: string, m: string, ss: string)
    requires |t| >= 3 && t[|t| - 3] == ':' && t[..|t| - 3] == m && t[|t| - 2..] == ss
    ensures ClockSeconds(t) == MinutesAndSeconds(ParseInt(m), ParseInt(ss))
  {
  }

  // --------------------------------------------------------------- the settings

  datatype SettingField = WorkDuration | BreakDuration | LongBreakDuration | SessionsUntilLongBreak

  function Setting(cfg: PomodoroSettings, f: SettingField): int {
    match f
    case WorkDuration => cfg.workDuration
    case BreakDuration => cfg.breakDuration
    case LongBreakDuration => cfg.longBreakDuration
    case SessionsUntilLongBreak => cfg.sessionsUntilLongBreak
  }

  /** The fallback each input uses: the same numbers as the stored defaults. */
  function FieldDefault(f: SettingField): (r: int)
    ensures r == Setting(DefaultPomodoroSettings, f) && r > 0
  {
    match f
    case WorkDuration => 25
    case BreakDuration => 5
    case LongBreakDuration => 15
    case SessionsUntilLongBreak => 4
  }

  /** `parseInt(text) || fallback`: `NaN` and 0 both fall back. */
  function SettingFromInput(text: string, fallback: int): (r: int)
    ensures fallback != 0 ==> r != 0
    ensures ParseInt(text).Int? && ParseInt(text).value != 0 ==> r == ParseInt(text).value
    ensures ParseInt(text).NaN? || ParseInt(text) == Int(0) ==> r == fallback
  {
    match ParseInt(text)
    case NaN => fallback
    case Int(v) => if v == 0 then fallback else v
  }

  /** The settings after typing `text` into the input for `f`: `{ ...settings, f: parseInt(text) || default }`. */
  function WithSetting(cfg: PomodoroSettings, f: SettingField, text: string): (r: PomodoroSettings)
    ensures Setting(r, f) == SettingFromInput(text, FieldDefault(f))
    ensures forall g :: g != f ==> Setting(r, g) == Setting(cfg, g)
  {
    var v := SettingFromInput(text, FieldDefault(f));
    match f
    case WorkDuration => cfg.(workDuration := v)
    case BreakDuration => cfg.(breakDuration := v)
    case LongBreakDuration => cfg.(longBreakDuration := v)
    case SessionsUntilLongBreak => cfg.(sessionsUntilLongBreak := v)
  }

  predicate NoZeroSetting(cfg: PomodoroSettings) {
    forall f :: Setting(cfg, f) != 0
  }

  /** Edits through the form never bring a setting to 0: once none is 0, none ever is. */
  lemma FormKeepsSettingsNonZero(cfg: PomodoroSettings, f: SettingField, text: string)
    requires NoZeroSetting(cfg)
    ensures NoZeroSetting(WithSetting(cfg, f, text))
  {
    forall g ensures Setting(WithSetting(cfg, f, text), g) != 0 {
      if g == f {
        assert Setting(WithSetting(cfg, f, text), g) == SettingFromInput(text, FieldDefault(f));
      }
    }
  }

  // ------------------------------------------------------------ the component

  class PomodoroTimer {
    var settings: PomodoroSettings
    var mode: Mode
    var timeLeft: int
    var isRunning: bool
    var sessionsCompleted: int
    var isSettingsOpen: bool

    function State(): TimerState reads this {
      TimerState(mode, timeLeft, isRunning, sessionsCompleted)
    }

    /** The component mounts with the stored settings, in work mode, stopped, with no session done. */
    constructor (store: Store)
      ensures settings == store.PomodoroSettings()
      ensures State() == TimerState(Work, settings.workDuration * 60, false, 0)
      ensures !isSettingsOpen
    {
      var stored := store.PomodoroSettings();
      settings := stored;
      mode := Work;
      timeLeft := stored.workDuration * 60;
      isRunning := false;
      sessionsCompleted := 0;
      isSettingsOpen := false;
    }

    method HandleTimerComplete()
      modifies this
      ensures State() == AfterCompletion(old(State()), settings)
      ensures settings == old(settings) && isSettingsOpen == old(isSettingsOpen)
    {
      isRunning := false;
      if mode == Work {
        var newSessionCount := sessionsCompleted + 1;
        sessionsCompleted := newSessionCount;
        if LongBreakDue(newSessionCount, settings.sessionsUntilLongBreak) {
          mode := LongBreak;
          timeLeft := settings.longBreakDuration * 60;
        } else {
          mode := Break;
          timeLeft := settings.breakDuration * 60;
        }
      } else {
        mode := Work;
        timeLeft := settings.workDuration * 60;
      }
    }

    /** One firing of the one-second interval; returns what the `setTimeLeft` updater yielded. */
    method Tick() returns (yielded: int)
      requires Ticking(State())
      modifies this
      ensures yielded == TickUpdate(old(timeLeft))
      ensures State() == Ticked(old(State()), settings)
      ensures settings == old(settings) && isSettingsOpen == old(isSettingsOpen)
    {
      var prev := timeLeft;
      if prev <= 1 {
        HandleTimerComplete();
        yielded := 0;
      } else {
        yielded := prev - 1;
        timeLeft := yielded;
      }
    }

    method HandlePlayPause()
      modifies this
      ensures State() == old(State()).(isRunning := !old(isRunning))
      ensures settings == old(settings) && isSettingsOpen == old(isSettingsOpen)
    {
      isRunning := !isRunning;
    }

    method HandleReset()
      modifies this
      ensures State() == Reset(old(State()), settings)
      ensures settings == old(settings) && isSettingsOpen == old(isSettingsOpen)
    {
      isRunning := false;
      mode := Work;
      timeLeft := settings.workDuration * 60;
    }

    /** Typing into one of the four number inputs. */
    method HandleSettingInput(f: SettingField, text: string)
      modifies this
      ensures settings == WithSetting(old(settings), f, text)
      ensures State() == old(State()) && isSettingsOpen == old(isSettingsOpen)
    {
      settings := WithSetting(settings, f, text);
    }

    /** Stores the edited settings, restarts the work session stopped, and closes the dialog. */
    method HandleSaveSettings(store: Store, ok: bool)
      modifies this, store
      ensures store.items == Written(old(store.items), PomodoroSettingsKey, SettingsRecord(settings), ok)
      ensures State() == Reset(old(State()), settings)
      ensures settings == old(settings) && !isSettingsOpen
    {
      store.SavePomodoroSettings(settings, ok);
      timeLeft := settings.workDuration * 60;
      mode := Work;
      isRunning := false;
      isSettingsOpen := false;
    }
  }
}
