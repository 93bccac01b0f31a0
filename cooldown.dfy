/** The cooldown scheduler: a random pause of whole hours and minutes between
    cycles, and the rendering of a duration as "1h 2m 3s". The two draws of
    `Math.random()` and the current time are parameters. */
module Cooldown {
  import opened Text
  import opened Random
  import opened Events
  import Config

  const HourMs: nat := 3600000
  const MinuteMs: nat := 60000
  const SecondMs: nat := 1000

  datatype Pause = Pause(hours: nat, minutes: nat, totalMilliseconds: nat, nextRunTime: int)

  /** `generateRandomCooldown()`: hours and minutes drawn uniformly from the
      configured ranges, their length in milliseconds, and the end time. */
  function GenerateRandomCooldown(hourDraw: Draw, minuteDraw: Draw, now: int): (p: Pause)
    ensures Config.CooldownMinHours <= p.hours <= Config.CooldownMaxHours
    ensures Config.CooldownMinMinutes <= p.minutes <= Config.CooldownMaxMinutes
    ensures p.totalMilliseconds == p.hours * HourMs + p.minutes * MinuteMs
    ensures p.nextRunTime == now + p.totalMilliseconds
  {
    var hours := Index(hourDraw, Config.CooldownMaxHours - Config.CooldownMinHours + 1) + Config.CooldownMinHours;
    var minutes := Index(minuteDraw, Config.CooldownMaxMinutes - Config.CooldownMinMinutes + 1)
                   + Config.CooldownMinMinutes;
    var total := hours * HourMs + minutes * MinuteMs;
    Pause(hours, minutes, total, now + total)
  }

  /** Every pause in the configured ranges is the result of some pair of draws. */
  lemma CooldownCovers(hours: nat, minutes: nat, now: int)
    requires Config.CooldownMinHours <= hours <= Config.CooldownMaxHours
    requires Config.CooldownMinMinutes <= minutes <= Config.CooldownMaxMinutes
    ensures exists hd: Draw, md: Draw :: GenerateRandomCooldown(hd, md, now).hours == hours
                                        && GenerateRandomCooldown(hd, md, now).minutes == minutes
  {
    var hn := Config.CooldownMaxHours - Config.CooldownMinHours + 1;
    var mn := Config.CooldownMaxMinutes - Config.CooldownMinMinutes + 1;
    var hk := hours - Config.CooldownMinHours;
    var mk := minutes - Config.CooldownMinMinutes;
    IndexCovers(hk, hn);
    IndexCovers(mk, mn);
    var hd := Fraction(hk, hn);
    var md := Fraction(mk, mn);
    assert GenerateRandomCooldown(hd, md, now).hours == hours;
  }

  /** The length of a pause gives back its hours and minutes: the pause is
      whole minutes, and its minutes stay below an hour. */
  lemma CooldownSplits(hourDraw: Draw, minuteDraw: Draw, now: int)
    ensures var p := GenerateRandomCooldown(hourDraw, minuteDraw, now);
      && p.totalMilliseconds / HourMs == p.hours
      && (p.totalMilliseconds % HourMs) / MinuteMs == p.minutes
      && p.totalMilliseconds % MinuteMs == 0
  {
    var p := GenerateRandomCooldown(hourDraw, minuteDraw, now);
    var t := p.totalMilliseconds;
    assert t == p.hours * 3600000 + p.minutes * 60000;
    assert t == (p.hours * 60 + p.minutes) * 60000;
    assert p.minutes * 60000 < 3600000;
  }

  /** `waitForCooldown()`: draws a pause and waits for exactly its length, once. */
  method WaitForCooldown(hourDraw: Draw, minuteDraw: Draw, now: int) returns (p: Pause, log: seq<Event>)
    ensures p == GenerateRandomCooldown(hourDraw, minuteDraw, now)
    ensures log == [Sleep(p.totalMilliseconds)]
  {
    p := GenerateRandomCooldown(hourDraw, minuteDraw, now);
    log := [Sleep(p.totalMilliseconds)];
  }

  // ---------------------------------------------------------------------------
  // Durations

  /** JavaScript's `a % b` for b > 0, whose result takes the sign of `a`. */
  function JsRem(a: int, b: nat): (r: int)
    requires b > 0
    ensures a >= 0 ==> r == a % b
    ensures a < 0 ==> -(b as int) < r <= 0
  {
    if a >= 0 then a % b else -((-a) % b)
  }

  /** `Math.floor(a / b)` for b > 0; Dafny's division rounds down for a positive divisor. */
  function FloorDiv(a: int, b: nat): (q: int)
    requires b > 0
    ensures q * b <= a < q * b + b
  {
    a / b
  }

  datatype Parts = Parts(hours: int, minutes: int, seconds: int)

  /** The hours, minutes and seconds `formatDuration` computes. */
  function DurationParts(ms: int): (d: Parts)
  {
    Parts(FloorDiv(ms, HourMs), FloorDiv(JsRem(ms, HourMs), MinuteMs), FloorDiv(JsRem(ms, MinuteMs), SecondMs))
  }

  /** A non-negative duration splits into whole hours, minutes below 60 and
      seconds below 60, leaving less than a second over; a negative one has no
      positive part. */
  lemma DurationPartsSplit(ms: int)
    ensures var d := DurationParts(ms);
      ms >= 0 ==> && d.hours >= 0 && 0 <= d.minutes < 60 && 0 <= d.seconds < 60
                  && d.hours * HourMs + d.minutes * MinuteMs + d.seconds * SecondMs <= ms
                  < d.hours * HourMs + d.minutes * MinuteMs + d.seconds * SecondMs + SecondMs
    ensures var d := DurationParts(ms);
      ms < 0 ==> d.hours < 0 && d.minutes <= 0 && d.seconds <= 0
  {
    var d := DurationParts(ms);
    if ms >= 0 {
      var r := ms % HourMs;
      assert ms == d.hours * HourMs + r;
      assert r == d.minutes * MinuteMs + r % MinuteMs;
      assert ms % MinuteMs == r % MinuteMs by {
        assert ms == (d.hours * 60 + d.minutes) * 60000 + r % 60000;
      }
    }
  }

  /** A component of a duration such as "5m": digits and one letter. */
  function Component(n: nat, unit: char): (w: string)
    ensures |w| >= 2 && IsDigit(w[0]) && w[|w| - 1] == unit
  {
    NatToString(n) + [unit]
  }

  /** The positive components of a duration, in the order hours, minutes, seconds. */
  function Words(d: Parts): seq<string>
  {
    (if d.hours > 0 then [Component(d.hours, 'h')] else [])
    + (if d.minutes > 0 then [Component(d.minutes, 'm')] else [])
    + (if d.seconds > 0 then [Component(d.seconds, 's')] else [])
  }

  function DurationWords(ms: int): seq<string>
  {
    Words(DurationParts(ms))
  }

  /** What `formatDuration` accumulates before trimming: each positive component,
      the hours and minutes followed by a space. */
  function Spaced(d: Parts): string
  {
    (if d.hours > 0 then Component(d.hours, 'h') + " " else "")
    + (if d.minutes > 0 then Component(d.minutes, 'm') + " " else "")
    + (if d.seconds > 0 then Component(d.seconds, 's') else "")
  }

  /** The hour and minute components, each of which `formatDuration` follows
      by a space. */
  function Leading(d: Parts): (ws: seq<string>)
    ensures forall i :: 0 <= i < |ws| ==> Word(ws[i])
  {
    (if d.hours > 0 then [Component(d.hours, 'h')] else [])
    + (if d.minutes > 0 then [Component(d.minutes, 'm')] else [])
  }

  /** The seconds component, which ends the text. */
  function Trailing(d: Parts): (ws: seq<string>)
    ensures |ws| <= 1 && (ws != [] ==> Word(ws[0]))
  {
    if d.seconds > 0 then [Component(d.seconds, 's')] else []
  }

  lemma SpacedSplit(d: Parts)
    ensures Words(d) == Leading(d) + Trailing(d)
    ensures Spaced(d) == Spaces(Leading(d)) + (if Trailing(d) == [] then "" else Trailing(d)[0])
  {
    if d.hours > 0 && d.minutes > 0 {
      SpacesTwo(Component(d.hours, 'h'), Component(d.minutes, 'm'));
    } else if d.hours > 0 {
      SpacesOne(Component(d.hours, 'h'));
    } else if d.minutes > 0 {
      SpacesOne(Component(d.minutes, 'm'));
    } else {
      assert Leading(d) == [];
    }
  }

  /** Trimming the accumulated text leaves the components separated by single spaces. */
  lemma TrimComponents(d: Parts)
    ensures Trim(Spaced(d)) == JoinWith(" ", Words(d))
  {
    SpacedSplit(d);
    TrimSpaced(Leading(d), Trailing(d));
  }

  /** Words each followed by a space, then possibly one more word, trimmed: the
      words joined by single spaces. */
  lemma TrimSpaced(ws: seq<string>, last: seq<string>)
    requires forall i :: 0 <= i < |ws| ==> Word(ws[i])
    requires |last| <= 1 && (last != [] ==> Word(last[0]))
    ensures Trim(Spaces(ws) + (if last == [] then "" else last[0])) == JoinWith(" ", ws + last)
  {
    if last != [] {
      assert last == [last[0]];
      SpacesThenWord(ws, last[0]);
      assert forall i :: 0 <= i < |ws + last| ==> Word((ws + last)[i]);
      JoinedWord(ws + last);
      TrimWord(JoinWith(" ", ws + last));
    } else if ws != [] {
      assert ws + last == ws;
      SpacesTrailing(ws);
      JoinedWord(ws);
      TrimWord(JoinWith(" ", ws));
      assert Spaces(ws) + "" == JoinWith(" ", ws) + " ";
    } else {
      assert Spaces(ws) == "";
    }
  }

  lemma SpacesOne(a: string)
    ensures Spaces([a]) == a + " "
  {
    assert [a][1..] == [];
  }

  lemma SpacesTwo(a: string, b: string)
    ensures Spaces([a, b]) == (a + " ") + (b + " ")
  {
    assert [a, b][1..] == [b];
    SpacesOne(b);
  }

  lemma DurationWordsEmpty(ms: int)
    ensures DurationWords(ms) == [] <==> ms < SecondMs
    ensures JoinWith(" ", DurationWords(ms)) == "" <==> ms < SecondMs
  {
    DurationPartsSplit(ms);
    var ws := DurationWords(ms);
    if ws != [] {
      assert |ws[0]| >= 2;
      if |ws| >= 2 {
        assert ws[0] + " " + JoinWith(" ", ws[1..]) != "";
      }
    }
  }

  /** `formatDuration(milliseconds)`: the positive components, the hours and
      minutes each followed by a space, then trimmed. The result is the positive
      components separated by single spaces, and is empty exactly when the
      duration is under one second. */
  method FormatDuration(ms: int) returns (text: string)
    ensures text == JoinWith(" ", DurationWords(ms))
    ensures text == "" <==> ms < SecondMs
  {
    var d := DurationParts(ms);
    var result := "";
    if d.hours > 0 {
      result := result + (Component(d.hours, 'h') + " ");
    }
    if d.minutes > 0 {
      result := result + (Component(d.minutes, 'm') + " ");
    }
    if d.seconds > 0 {
      result := result + Component(d.seconds, 's');
    }
    assert result == Spaced(d);
    TrimComponents(d);
    text := Trim(result);
    DurationWordsEmpty(ms);
  }

  const ReadyToRun: string := "Ready to run"

  /** `getTimeUntilNextRun(nextRunTime)` at time `now`: "Ready to run" exactly
      when the time has come, and otherwise the remaining duration. */
  method GetTimeUntilNextRun(nextRunTime: int, now: int) returns (text: string)
    ensures text == ReadyToRun <==> nextRunTime - now <= 0
    ensures nextRunTime - now > 0 ==> text == JoinWith(" ", DurationWords(nextRunTime - now))
  {
    var timeDiff := nextRunTime - now;
    if timeDiff <= 0 {
      return ReadyToRun;
    }
    text := FormatDuration(timeDiff);
    NotReady(timeDiff);
  }

  /** A rendered duration never reads "Ready to run": it is empty or starts with a digit. */
  lemma NotReady(ms: int)
    ensures JoinWith(" ", DurationWords(ms)) != ReadyToRun
  {
    var ws := DurationWords(ms);
    if ws != [] {
      var j := JoinWith(" ", ws);
      assert IsDigit(ws[0][0]);
      if |ws| >= 2 {
        assert j == ws[0] + " " + JoinWith(" ", ws[1..]);
      }
      assert j[0] == ws[0][0];
      assert ReadyToRun[0] == 'R';
    }
  }
}
