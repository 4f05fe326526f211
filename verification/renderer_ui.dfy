/** The overlay of the 3D renderer: the 12-hour clock, the sound toggle, the
    camera buttons, and the once-only typing animation of the name and time. */
module RendererUI {
  import opened Wrappers

  /** Milliseconds per typed character. */
  const MsToWriteChar: int := 35

  // ---------------------------------------------------------------- clock

  function Digit(d: int): (c: char)
    requires 0 <= d < 10
    ensures '0' <= c <= '9'
    ensures c as int - '0' as int == d
  {
    ('0' as int + d) as char
  }

  function DigitValue(c: char): int {
    c as int - '0' as int
  }

  /** `String(n)` for a natural number. */
  function Decimal(n: nat): (s: string)
    ensures 1 <= |s|
    ensures forall i | 0 <= i < |s| :: '0' <= s[i] <= '9'
    ensures n < 10 ==> |s| == 1
    ensures 10 <= n < 100 ==> |s| == 2
  {
    if n < 10 then [Digit(n)] else Decimal(n / 10) + [Digit(n % 10)]
  }

  /** Reads a run of decimal digits back into its value. */
  function ParseDecimal(s: string): nat
    decreases |s|
  {
    if s == [] then 0
    else
      var d := DigitValue(s[|s| - 1]);
      ParseDecimal(s[..|s| - 1]) * 10 + (if 0 <= d then d else 0)
  }

  lemma {:induction false} DecimalRoundTrip(n: nat)
    ensures ParseDecimal(Decimal(n)) == n
  {
    var s := Decimal(n);
    if n >= 10 {
      assert s == Decimal(n / 10) + [Digit(n % 10)];
      assert s[..|s| - 1] == Decimal(n / 10);
      DecimalRoundTrip(n / 10);
    } else {
      assert s == [Digit(n)];
    }
  }

  /** `padStart(2, '0')` */
  function PadTwo(s: string): (r: string)
    ensures |s| <= 2 ==> |r| == 2
    ensures |s| >= 2 ==> r == s
  {
    if |s| >= 2 then s else seq(2 - |s|, _ => '0') + s
  }

  /** `hours24 % 12 || 12` */
  function Hour12(hours24: int): (h: int)
    requires 0 <= hours24 < 24
    ensures 1 <= h <= 12
    ensures h == 12 <==> hours24 == 0 || hours24 == 12
    ensures h != 12 ==> h == hours24 % 12
  {
    var r := hours24 % 12;
    if r == 0 then 12 else r
  }

  /** `hours24 >= 12 ? 'PM' : 'AM'` */
  function Suffix(hours24: int): (s: string)
    ensures s == "PM" <==> hours24 >= 12
    ensures s == "AM" <==> hours24 < 12
  {
    if hours24 >= 12 then "PM" else "AM"
  }

  /** `formatTime`: "H:MM" or "HH:MM", then a space and "AM" or "PM". */
  function FormatTime(hours24: int, minutes: int): (r: string)
    requires 0 <= hours24 < 24 && 0 <= minutes < 60
    ensures |r| == (if Hour12(hours24) < 10 then 7 else 8)
    ensures r[|r| - 6] == ':' && r[|r| - 3] == ' '
    ensures r[|r| - 2..] == Suffix(hours24)
    ensures forall i | 0 <= i < |r| - 6 :: '0' <= r[i] <= '9'
    ensures '0' <= r[|r| - 5] <= '9' && '0' <= r[|r| - 4] <= '9'
  {
    Decimal(Hour12(hours24)) + (":" + (PadTwo(Decimal(minutes)) + (" " + Suffix(hours24))))
  }

  /** The hour of the 24-hour day a 12-hour reading with its suffix denotes. */
  function Hours24(hour12: int, pm: bool): int {
    if hour12 == 12 then (if pm then 12 else 0) else (if pm then hour12 + 12 else hour12)
  }

  datatype ClockTime = ClockTime(hours24: int, minutes: int)

  /** Reads a formatted time back. */
  function ParseTime(s: string): (r: Option<ClockTime>) {
    if |s| < 7 || s[|s| - 6] != ':' || s[|s| - 3] != ' ' then None
    else
      var suffix := s[|s| - 2..];
      if suffix != "AM" && suffix != "PM" then None
      else Some(ClockTime(Hours24(ParseDecimal(s[..|s| - 6]), suffix == "PM"),
                          ParseDecimal(s[|s| - 5..|s| - 3])))
  }

  lemma PadTwoValue(m: int)
    requires 0 <= m < 60
    ensures ParseDecimal(PadTwo(Decimal(m))) == m
  {
    DecimalRoundTrip(m);
    if m < 10 {
      var p := PadTwo(Decimal(m));
      assert p == ['0', Digit(m)];
      assert p[..1] == ['0'];
      assert [Digit(m)][..0] == [];
    }
  }

  /** The 12-hour reading and the suffix together give back the hour. */
  lemma Hours24Inverse(hours24: int)
    requires 0 <= hours24 < 24
    ensures Hours24(Hour12(hours24), Suffix(hours24) == "PM") == hours24
  {
  }

  lemma ParseLayout(hs: string, mm: string, suffix: string)
    requires 1 <= |hs| && |mm| == 2 && (suffix == "AM" || suffix == "PM")
    ensures ParseTime(hs + (":" + (mm + (" " + suffix))))
         == Some(ClockTime(Hours24(ParseDecimal(hs), suffix == "PM"), ParseDecimal(mm)))
  {
    var r := hs + (":" + (mm + (" " + suffix)));
    var n := |hs|;
    assert |r| == n + 6;
    assert r[n] == ':' && r[n + 3] == ' ';
    assert r[n + 4..] == suffix;
    assert r[..n] == hs;
    assert r[n + 1..n + 3] == mm;
  }

  /** The formatted time loses nothing: hour, minute and half of the day can be
      read back from it. */
  lemma FormatTimeRoundTrip(hours24: int, minutes: int)
    requires 0 <= hours24 < 24 && 0 <= minutes < 60
    ensures ParseTime(FormatTime(hours24, minutes)) == Some(ClockTime(hours24, minutes))
  {
    ParseLayout(Decimal(Hour12(hours24)), PadTwo(Decimal(minutes)), Suffix(hours24));
    DecimalRoundTrip(Hour12(hours24));
    PadTwoValue(minutes);
    Hours24Inverse(hours24);
  }

  // ---------------------------------------------------------------- sound

  datatype SoundCall = Enable | Disable

  /** The sound service, as the calls it receives. */
  class SoundService {
    var calls: seq<SoundCall>

    constructor ()
      ensures calls == []
    {
      calls := [];
    }

    method EnableSound()
      modifies this
      ensures calls == old(calls) + [Enable]
    {
      calls := calls + [Enable];
    }

    method DisableSound()
      modifies this
      ensures calls == old(calls) + [Disable]
    {
      calls := calls + [Disable];
    }
  }

  function CallFor(enabled: bool): SoundCall {
    if enabled then Enable else Disable
  }

  /** `useSoundManagement`: the enabled flag and the service kept in step. */
  class SoundManagement {
    const service: SoundService
    var isSoundEnabled: bool
    /** How many calls the service had received when this hook was created;
        the flag starts enabled without telling the service. */
    ghost const since: nat

    /** The last call the service received from this hook, if any, agrees
        with the flag. */
    ghost predicate Valid()
      reads this, service
    {
      && since <= |service.calls|
      && (|service.calls| > since ==> service.calls[|service.calls| - 1] == CallFor(isSoundEnabled))
    }

    constructor (service: SoundService)
      ensures Valid()
      ensures this.service == service && isSoundEnabled
      ensures since == |service.calls| && service.calls == old(service.calls)
    {
      this.service := service;
      isSoundEnabled := true;
      since := |service.calls|;
    }

    method EnableSound()
      requires Valid()
      modifies this, service
      ensures Valid()
      ensures isSoundEnabled && service.calls == old(service.calls) + [Enable]
    {
      isSoundEnabled := true;
      service.EnableSound();
    }

    method DisableSound()
      requires Valid()
      modifies this, service
      ensures Valid()
      ensures !isSoundEnabled && service.calls == old(service.calls) + [Disable]
    {
      isSoundEnabled := false;
      service.DisableSound();
    }

    method ToggleSound()
      requires Valid()
      modifies this, service
      ensures Valid()
      ensures isSoundEnabled == !old(isSoundEnabled)
      ensures service.calls == old(service.calls) + [CallFor(isSoundEnabled)]
    {
      if isSoundEnabled {
        DisableSound();
      } else {
        EnableSound();
      }
    }
  }

  // ---------------------------------------------------------------- camera

  /** The camera handler's states; members other than these three are not
      distinguished here. */
  datatype CameraState = Cinematic | MonitorView | FreeRoam | OtherState(name: string)

  /** Whether the sound and camera buttons are shown: exactly in the two
      states the camera button moves between. */
  function ButtonsActive(state: CameraState): (r: bool)
    ensures r <==> ButtonTarget(ButtonTarget(state)) == state
  {
    state.Cinematic? || state.MonitorView?
  }

  /** The state the camera button switches to. */
  function ButtonTarget(state: CameraState): (r: CameraState)
    ensures r == MonitorView <==> state == Cinematic
    ensures r != MonitorView ==> r == Cinematic
  {
    if state == Cinematic then MonitorView else Cinematic
  }

  /** Whether the name and time block is shown: in the one named state
      where the buttons bar is not. */
  predicate NameAndTimeActive(state: CameraState)
    ensures NameAndTimeActive(state) <==> !state.OtherState? && !ButtonsActive(state)
  {
    state == FreeRoam
  }

  /** Where the buttons are shown, the camera button always leaves the current
      state, and pressing it twice comes back. */
  lemma ButtonToggles(state: CameraState)
    requires ButtonsActive(state)
    ensures ButtonTarget(state) != state && ButtonsActive(ButtonTarget(state))
    ensures ButtonTarget(ButtonTarget(state)) == state
  {
  }

  /** The buttons bar and the name and time block are never active in the
      same camera state, and each of the three named states shows exactly one
      of them. (The name block carries its own sound and camera buttons once
      its write-out is done; those are not the buttons bar.) */
  lemma OverlaysExclusive(state: CameraState)
    ensures !(ButtonsActive(state) && NameAndTimeActive(state))
    ensures !state.OtherState? <==> ButtonsActive(state) || NameAndTimeActive(state)
  {
  }

  /** The camera handler, as the state changes it is asked for. */
  class CameraHandler {
    var requests: seq<CameraState>

    constructor ()
      ensures requests == []
    {
      requests := [];
    }

    method ChangeState(target: CameraState)
      modifies this
      ensures requests == old(requests) + [target]
    {
      requests := requests + [target];
    }
  }

  /** `ChangeSceneButton.changeScene`: nothing happens while the handler is absent. */
  method ChangeScene(handler: CameraHandler?, target: CameraState)
    modifies handler
    ensures handler != null ==> handler.requests == old(handler.requests) + [target]
  {
    if handler == null {
      return;
    }
    handler.ChangeState(target);
  }

  // ---------------------------------------------------------------- write-out

  const Name: string := "Abeih Hamani"
  const Title: string := "Computer science student"

  /** The delays `writeOutContent` sets, in milliseconds from its call. */
  datatype Schedule = Schedule(nameStart: int, titleStart: int, timeStart: int, clockStart: int, doneAt: int)

  function WriteOutSchedule(name: string, title: string, time: string): (r: Schedule)
    ensures r.nameStart == 0 < r.titleStart < r.timeStart <= r.clockStart < r.doneAt
  {
    var total := (|time| + |name| + |title| + 2) * MsToWriteChar;
    Schedule(0, (|name| + 1) * MsToWriteChar, (|name| + |title| + 2) * MsToWriteChar, total, total + MsToWriteChar)
  }

  /** Each text starts only after the previous one has been typed out at one
      character per delay, the clock loop starts after the time is typed, and
      the buttons appear after everything. */
  lemma ScheduleOrdered(name: string, title: string, time: string)
    ensures var s := WriteOutSchedule(name, title, time);
      && s.nameStart + |name| * MsToWriteChar < s.titleStart
      && s.titleStart + |title| * MsToWriteChar < s.timeStart
      && s.timeStart + |time| * MsToWriteChar == s.clockStart
      && s.nameStart <= s.titleStart <= s.timeStart <= s.clockStart < s.doneAt
      && s.doneAt == s.clockStart + MsToWriteChar
  {
  }

  /** For this name and title the buttons appear 1610 or 1645 ms in, after a
      time of 7 or 8 characters. */
  lemma DoneAfterTyping(hours24: int, minutes: int)
    requires 0 <= hours24 < 24 && 0 <= minutes < 60
    ensures var s := WriteOutSchedule(Name, Title, FormatTime(hours24, minutes));
      s.doneAt == (if Hour12(hours24) < 10 then 1610 else 1645)
  {
    assert |Name| == 12 && |Title| == 24;
  }

  /** `NameAndTime`'s once-only gate. */
  class NameAndTime {
    var firstTime: bool
    /** The write-outs started so far. */
    var started: seq<Schedule>

    ghost predicate Valid()
      reads this
    {
      && (firstTime <==> started == [])
      && |started| <= 1
    }

    constructor ()
      ensures Valid() && firstTime && started == []
    {
      firstTime := true;
      started := [];
    }

    /** The effect run on a change of camera state, at the given local time. */
    method OnStateChange(state: CameraState, hours24: int, minutes: int)
      requires Valid()
      requires 0 <= hours24 < 24 && 0 <= minutes < 60
      modifies this
      ensures Valid()
      ensures |started| <= 1
      ensures !NameAndTimeActive(state) || !old(firstTime) ==> started == old(started) && firstTime == old(firstTime)
      ensures NameAndTimeActive(state) && old(firstTime) ==>
        started == [WriteOutSchedule(Name, Title, FormatTime(hours24, minutes))]
    {
      if !NameAndTimeActive(state) {
        return;
      }
      var isFirstTime := firstTime;
      if isFirstTime {
        started := started + [WriteOutSchedule(Name, Title, FormatTime(hours24, minutes))];
        firstTime := false;
      }
    }
  }
}
