/** bgPlaybackCtl of js_session.c: one call on the handle that is installed at the time, if any. */
module PlaybackControl {
  import opened Sums
  import opened CStrings
  import opened Playback

  /** The part of switch_file_handle_t a script can change. */
  class FileHandle {
    var paused: bool
    var speed: int
    var vol: int

    ghost function Value(): Handle
      reads this
    {
      Handle(paused, speed, vol)
    }

    constructor ()
      ensures Value() == NEW_HANDLE
    {
      paused, speed, vol := false, 0, 0;
    }
  }

  /** What a call asks for; the action is compared without regard to case, and speed and volume
      need a second argument. */
  function Requested(action: string, level: Option<Level>): Option<Control> {
    if EqualsIgnoreCase(action, "pause") then Some(Pause)
    else if EqualsIgnoreCase(action, "resume") then Some(Resume)
    else if level == None then None
    else if EqualsIgnoreCase(action, "speed") then Some(Speed(level.value))
    else if EqualsIgnoreCase(action, "volume") then Some(Volume(level.value))
    else None
  }

  /** The new value of a level given as a number or as a text. */
  method NewLevel(current: int, level: Level) returns (r: int)
    ensures r == Adjust(current, level)
  {
    match level
    case Number(n) => r := n;
    case Text(s) =>
      if s != [] && (s[0] == '+' || s[0] == '-') {
        var step := Atoi(s);
        r := current + if step == 0 then 1 else step;
      } else {
        r := current + Atoi(s);
      }
  }

  /** js_session_bg_playback_ctl under the session mutex, `fh` being jss->bg_stream_fh: exactly the
      requested control is applied to an installed handle, and its result is always false. */
  method BgPlaybackCtl(fh: FileHandle?, action: string, level: Option<Level>) returns (result: bool)
    modifies fh
    ensures !result
    ensures fh != null ==>
      fh.Value() == match Requested(action, level)
                    case Some(c) => ControlHandle(old(fh.Value()), c)
                    case None => old(fh.Value())
  {
    result := false;
    if fh != null {
      if EqualsIgnoreCase(action, "pause") {
        fh.paused := true;
      } else if EqualsIgnoreCase(action, "resume") {
        fh.paused := false;
      } else if EqualsIgnoreCase(action, "speed") && level.Some? {
        fh.speed := NewLevel(fh.speed, level.value);
      } else if EqualsIgnoreCase(action, "volume") && level.Some? {
        fh.vol := NewLevel(fh.vol, level.value);
      }
    }
  }

  // ---- what a sequence of calls comes to ---------------------------------------------------

  datatype Call = Call(action: string, level: Option<Level>)

  /** The levels that the calls with this action ask for, in order. */
  function LevelsFor(action: string, calls: seq<Call>): seq<Level> {
    if calls == [] then []
    else
      var n := |calls| - 1;
      LevelsFor(action, calls[..n])
        + if EqualsIgnoreCase(calls[n].action, action) && calls[n].level.Some? then [calls[n].level.value] else []
  }

  /** What a text adds to a level. */
  function Offset(level: Level): int { Adjust(0, level) }

  function OffsetSum(levels: seq<Level>): int {
    if levels == [] then 0 else OffsetSum(levels[..|levels| - 1]) + Offset(levels[|levels| - 1])
  }

  /** How many of the levels from the last number on count, that number included. */
  function SinceNumber(levels: seq<Level>): (k: nat)
    ensures k <= |levels|
    ensures forall j :: |levels| - k < j < |levels| ==> levels[j].Text?
    ensures k < |levels| ==> k > 0 && levels[|levels| - k].Number?
  {
    if levels == [] then 0
    else
      var n := |levels| - 1;
      if levels[n].Number? then 1
      else
        var k := SinceNumber(levels[..n]);
        k + 1
  }

  /** The level that remains: the last number and the offsets after it, or all offsets upon the
      level there was. */
  function Remaining(current: int, levels: seq<Level>): int {
    var last := levels[|levels| - SinceNumber(levels)..];
    if last != [] && last[0].Number? then OffsetSum(last) else current + OffsetSum(last)
  }

  function AdjustAll(current: int, levels: seq<Level>): int {
    if levels == [] then current
    else Adjust(AdjustAll(current, levels[..|levels| - 1]), levels[|levels| - 1])
  }

  lemma TextIsOffset(current: int, level: Level)
    ensures level.Text? ==> Adjust(current, level) == current + Offset(level)
    ensures level.Number? ==> Adjust(current, level) == Offset(level)
  {
  }

  lemma OffsetNext(levels: seq<Level>, last: Level)
    ensures OffsetSum(levels + [last]) == OffsetSum(levels) + Offset(last)
  {
    assert (levels + [last])[..|levels|] == levels;
  }

  lemma RemainingNext(current: int, before: seq<Level>, last: Level)
    ensures Remaining(current, before + [last]) == Adjust(Remaining(current, before), last)
  {
    var levels := before + [last];
    assert levels[..|before|] == before;
    TextIsOffset(Remaining(current, before), last);
    if last.Number? {
      assert levels[|before|..] == [] + [last];
      OffsetNext([], last);
    } else {
      var from := |before| - SinceNumber(before);
      assert SinceNumber(levels) == SinceNumber(before) + 1;
      assert levels[from..] == before[from..] + [last];
      OffsetNext(before[from..], last);
    }
  }

  /** One adjustment after the other leaves the last number and the sum of the offsets since. */
  lemma {:induction false} LastNumberAndOffsets(current: int, levels: seq<Level>)
    ensures AdjustAll(current, levels) == Remaining(current, levels)
  {
    if levels != [] {
      var n := |levels| - 1;
      LastNumberAndOffsets(current, levels[..n]);
      RemainingNext(current, levels[..n], levels[n]);
      assert levels[..n] + [levels[n]] == levels;
    }
  }

  /** Whether the stream is left paused: as the last pause or resume says. */
  function LeftPaused(paused: bool, calls: seq<Call>): bool {
    if calls == [] then paused
    else
      var last := calls[|calls| - 1].action;
      if EqualsIgnoreCase(last, "pause") then true
      else if EqualsIgnoreCase(last, "resume") then false
      else LeftPaused(paused, calls[..|calls| - 1])
  }

  lemma NamesDiffer(action: string)
    ensures EqualsIgnoreCase(action, "speed") || EqualsIgnoreCase(action, "volume") ==>
      !EqualsIgnoreCase(action, "pause") && !EqualsIgnoreCase(action, "resume")
    ensures EqualsIgnoreCase(action, "speed") ==> !EqualsIgnoreCase(action, "volume")
    ensures EqualsIgnoreCase(action, "pause") ==> !EqualsIgnoreCase(action, "resume")
  {
    assert |LowerAll(action)| == |action|;
    assert |LowerAll("pause")| == 5 && |LowerAll("speed")| == 5 && |LowerAll("resume")| == 6 && |LowerAll("volume")| == 6;
    assert LowerAll("pause")[0] == 'p' && LowerAll("speed")[0] == 's';
    assert LowerAll("resume")[0] == 'r' && LowerAll("volume")[0] == 'v';
  }

  /** Any sequence of calls on one installed handle. The three settings are independent: the stream
      is left as the last pause or resume says, and each level is the last number given for it
      together with the offsets given since, whatever else was called in between. */
  method CallAll(fh: FileHandle, calls: seq<Call>)
    modifies fh
    ensures fh.paused == LeftPaused(old(fh.paused), calls)
    ensures fh.speed == Remaining(old(fh.speed), LevelsFor("speed", calls))
    ensures fh.vol == Remaining(old(fh.vol), LevelsFor("volume", calls))
  {
    for n := 0 to |calls|
      invariant fh.paused == LeftPaused(old(fh.paused), calls[..n])
      invariant fh.speed == AdjustAll(old(fh.speed), LevelsFor("speed", calls[..n]))
      invariant fh.vol == AdjustAll(old(fh.vol), LevelsFor("volume", calls[..n]))
    {
      NextCall(fh.Value(), calls, n);
      NextLevels("speed", calls, n, old(fh.speed));
      NextLevels("volume", calls, n, old(fh.vol));
      var result := BgPlaybackCtl(fh, calls[n].action, calls[n].level);
    }
    assert calls[..|calls|] == calls;
    LastNumberAndOffsets(old(fh.speed), LevelsFor("speed", calls));
    LastNumberAndOffsets(old(fh.vol), LevelsFor("volume", calls));
  }

  /** What the next call does to each of the settings. */
  lemma NextCall(h: Handle, calls: seq<Call>, n: nat)
    requires n < |calls|
    ensures
      var c := calls[n];
      var r := Requested(c.action, c.level);
      var h' := if r.Some? then ControlHandle(h, r.value) else h;
      && (forall paused :: h.paused == LeftPaused(paused, calls[..n]) ==> h'.paused == LeftPaused(paused, calls[..n + 1]))
      && h'.speed == (if EqualsIgnoreCase(c.action, "speed") && c.level.Some?
                      then Adjust(h.speed, c.level.value) else h.speed)
      && h'.vol == (if EqualsIgnoreCase(c.action, "volume") && c.level.Some?
                    then Adjust(h.vol, c.level.value) else h.vol)
  {
    NamesDiffer(calls[n].action);
    assert calls[..n + 1][..n] == calls[..n];
  }

  lemma NextLevels(action: string, calls: seq<Call>, n: nat, current: int)
    requires n < |calls|
    ensures
      var (before, c) := (LevelsFor(action, calls[..n]), calls[n]);
      AdjustAll(current, LevelsFor(action, calls[..n + 1]))
      == if EqualsIgnoreCase(c.action, action) && c.level.Some? then Adjust(AdjustAll(current, before), c.level.value)
         else AdjustAll(current, before)
  {
    var (before, c) := (LevelsFor(action, calls[..n]), calls[n]);
    assert calls[..n + 1][..n] == calls[..n];
    if EqualsIgnoreCase(c.action, action) && c.level.Some? {
      assert LevelsFor(action, calls[..n + 1]) == before + [c.level.value];
      assert (before + [c.level.value])[..|before|] == before;
    } else {
      assert LevelsFor(action, calls[..n + 1]) == before + [] == before;
    }
  }

  // ---- reading numbers -----------------------------------------------------------------------

  function DigitOf(n: nat): char
    requires n < 10
  {
    '0' + n as char
  }

  /** A number as a script prints it. */
  function Printed(n: nat): (s: string)
    ensures s != [] && forall c :: c in s ==> IsDigit(c)
  {
    if n < 10 then [DigitOf(n)] else Printed(n / 10) + [DigitOf(n % 10)]
  }

  lemma {:induction false} DigitsAppend(s: string, c: char, acc: nat)
    requires IsDigit(c) && forall d :: d in s ==> IsDigit(d)
    ensures Digits(s + [c], acc) == Digits(s, acc) * 10 + (c as int - '0' as int)
  {
    if s == [] {
      assert ([] + [c])[1..] == [];
      assert Digits([], acc * 10 + (c as int - '0' as int)) == acc * 10 + (c as int - '0' as int);
    } else {
      assert (s + [c])[1..] == s[1..] + [c] && IsDigit(s[0]);
      DigitsAppend(s[1..], c, acc * 10 + (s[0] as int - '0' as int));
    }
  }

  lemma {:induction false} DigitsOfPrinted(n: nat)
    ensures Digits(Printed(n), 0) == n
  {
    if n < 10 {
      assert [DigitOf(n)][1..] == [];
      assert Digits([], n) == n;
    } else {
      DigitsOfPrinted(n / 10);
      DigitsAppend(Printed(n / 10), DigitOf(n % 10), 0);
    }
  }

  /** A printed offset moves the level by what it says, with or without a plus sign, except that a
      signed zero moves it up by one. */
  lemma PrintedOffset(level: int, n: nat)
    ensures Adjust(level, Text("+" + Printed(n))) == level + if n == 0 then 1 else n
    ensures Adjust(level, Text("-" + Printed(n))) == if n == 0 then level + 1 else level - n
    ensures Adjust(level, Text(Printed(n))) == level + n
  {
    var p := Printed(n);
    DigitsOfPrinted(n);
    assert IsDigit(p[0]);
    assert ("+" + p)[1..] == p && ("-" + p)[1..] == p;
    assert SkipSpace("+" + p) == "+" + p && SkipSpace("-" + p) == "-" + p && SkipSpace(p) == p;
  }

  /** A level set by a sign step and then by its opposite returns to where it was, except for the
      bare signs, which both go up. */
  lemma StepsCancelIff(level: int, digits: string)
    requires digits == [] || IsDigit(digits[0])
    ensures Adjust(Adjust(level, Text("+" + digits)), Text("-" + digits)) == level <==> Digits(digits, 0) != 0
  {
    assert ("+" + digits)[1..] == digits && ("-" + digits)[1..] == digits;
    assert SkipSpace("+" + digits) == "+" + digits && SkipSpace("-" + digits) == "-" + digits;
    if Digits(digits, 0) == 0 {
      assert Adjust(level, Text("+" + digits)) == level + 1;
    }
  }
}
