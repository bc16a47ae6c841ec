/** The routine-time screen (app/screens/Routine/SetRoutineTime.js): the four
    daily slots shown as Korean 12-hour display texts ("오전 8시 30분"), their
    conversion to the backend's 24-hour wire text ("08:30:00"), the ordered
    four-record update payload and its one-by-one dispatch, and the picker
    that writes one slot at a time. */
module RoutineTime {
  import opened JsText

  // ---------------------------------------------------------------------
  // Time of day and the display text (formatTime)
  // ---------------------------------------------------------------------

  type Hour = h: nat | h < 24
  type Minute = m: nat | m < 60

  /** What the screen reads from a JavaScript Date: getHours() and getMinutes(). */
  datatype TimeOfDay = TimeOfDay(hour: Hour, minute: Minute)

  const AM: string := "오전"
  const PM: string := "오후"

  /** The half-day marker: "오후" from noon on, "오전" before. */
  function Meridiem(hour: nat): (marker: string)
    ensures marker == PM <==> hour >= 12
    ensures marker == AM <==> hour < 12
  {
    if hour >= 12 then PM else AM
  }

  /** `hours % 12 || 12`: a 0 remainder is falsy and shows as 12. */
  function TwelveHour(hour: nat): (h12: nat)
    ensures 1 <= h12 <= 12
    ensures h12 % 12 == hour % 12
  {
    if hour % 12 == 0 then 12 else hour % 12
  }

  /** `minutes < 10 ? `0${minutes}` : minutes`. */
  function MinuteText(minute: nat): (text: string)
    ensures |text| >= 2 && AllDigits(text)
    ensures minute < 100 ==> |text| == 2
    ensures ParseDigits(text) == minute
  {
    ParseNatToString(minute);
    if minute < 10 then
      ParseLeadingZero(NatToString(minute));
      "0" + NatToString(minute)
    else
      NatToString(minute)
  }

  /** The display template `${marker} ${hour}시 ${minute}분`. */
  function DisplayText(marker: string, hourText: string, minuteText: string): string {
    marker + " " + hourText + "시 " + minuteText + "분"
  }

  /** formatTime(date) of SetRoutineTime.js. */
  function FormatTime(t: TimeOfDay): (text: string)
    ensures |text| >= 8
    ensures text[..2] == (if t.hour >= 12 then PM else AM)
  {
    DisplayText(Meridiem(t.hour), NatToString(TwelveHour(t.hour)), MinuteText(t.minute))
  }

  /** The display text of a time contains "오후" exactly from noon on, so the
      `includes('오후')` test of convertTimeFormat reads it correctly. */
  lemma FormatTimeMarker(t: TimeOfDay)
    ensures Includes(FormatTime(t), PM) <==> t.hour >= 12
  {
    DisplayTextMarker(Meridiem(t.hour), NatToString(TwelveHour(t.hour)), MinuteText(t.minute));
  }

  // ---------------------------------------------------------------------
  // The regular expression /(\d+)시\s+(\d+)분/ and convertTimeFormat
  // ---------------------------------------------------------------------

  /** `\s` of JavaScript regular expressions: white space and line terminators. */
  predicate IsJsSpace(c: char) {
    c == ' ' || c == '\t' || c == '\n' || c == '\r' || c == '\U{000B}' || c == '\U{000C}'
    || c == '\U{00A0}' || c == '\U{1680}' || ('\U{2000}' <= c <= '\U{200A}')
    || c == '\U{2028}' || c == '\U{2029}' || c == '\U{202F}' || c == '\U{205F}'
    || c == '\U{3000}' || c == '\U{FEFF}'
  }

  /** The end of the longest run of ASCII digits starting at i. */
  function DigitRunEnd(s: string, i: nat): (j: nat)
    requires i <= |s|
    ensures i <= j <= |s| && AllDigits(s[i..j])
    ensures j == |s| || !IsDigit(s[j])
    decreases |s| - i
  {
    if i < |s| && IsDigit(s[i]) then DigitRunEnd(s, i + 1) else i
  }

  /** The end of the longest run of `\s` characters starting at i. */
  function SpaceRunEnd(s: string, i: nat): (j: nat)
    requires i <= |s|
    ensures i <= j <= |s|
    ensures forall k :: i <= k < j ==> IsJsSpace(s[k])
    ensures j == |s| || !IsJsSpace(s[j])
    decreases |s| - i
  {
    if i < |s| && IsJsSpace(s[i]) then SpaceRunEnd(s, i + 1) else i
  }

  /** The two capture groups of a match, each read with parseInt. */
  datatype Match = Match(hours: nat, minutes: nat)

  /** Whether the pattern matches starting exactly at index i. Because '시',
      '분' and every `\s` character are not digits, and a `\s` character is
      not a digit either, each `+` can only succeed with its longest run, so
      backtracking never finds another match at the same start. */
  function MatchAt(s: string, i: nat): (m: Option<Match>)
    requires i <= |s|
    ensures m.Some? ==> i < |s| && IsDigit(s[i])
  {
    var j := DigitRunEnd(s, i);
    if j == i || j == |s| || s[j] != '시' then None
    else
      var k := SpaceRunEnd(s, j + 1);
      if k == j + 1 then None
      else
        var l := DigitRunEnd(s, k);
        if l == k || l == |s| || s[l] != '분' then None
        else Some(Match(ParseDigits(s[i..j]), ParseDigits(s[k..l])))
  }

  /** `s.match(regex)` without the g flag: the leftmost start at or after i
      where the pattern matches. */
  function FirstMatch(s: string, i: nat): Option<Match>
    requires i <= |s|
    decreases |s| - i
  {
    if MatchAt(s, i).Some? then MatchAt(s, i)
    else if i == |s| then None
    else FirstMatch(s, i + 1)
  }

  /** FirstMatch finds a match exactly when one starts at or after i, and
      the one it finds is the leftmost. */
  lemma {:induction false} FirstMatchIsLeftmost(s: string, i: nat)
    requires i <= |s|
    ensures FirstMatch(s, i).None? <==> forall k :: i <= k <= |s| ==> MatchAt(s, k).None?
    ensures FirstMatch(s, i).Some? ==>
              exists k :: i <= k <= |s| && MatchAt(s, k) == FirstMatch(s, i) && (forall k' :: i <= k' < k ==> MatchAt(s, k').None?)
    decreases |s| - i
  {
    if MatchAt(s, i).Some? {
      assert MatchAt(s, i) == FirstMatch(s, i);
    } else if i < |s| {
      assert FirstMatch(s, i) == FirstMatch(s, i + 1);
      FirstMatchIsLeftmost(s, i + 1);
      if FirstMatch(s, i).Some? {
        var k :| i + 1 <= k <= |s| && MatchAt(s, k) == FirstMatch(s, i)
          && forall k' :: i + 1 <= k' < k ==> MatchAt(s, k').None?;
        assert forall k' :: i <= k' < k ==> MatchAt(s, k').None?;
      }
    }
  }

  /** The two adjustments of convertTimeFormat, applied in order: add 12 to
      an afternoon hour below 12, then turn a morning 12 into 0. */
  function Hour24(isPM: bool, hours: nat): (h: nat)
    ensures isPM && hours < 12 ==> h == hours + 12
    ensures !isPM && hours == 12 ==> h == 0
    ensures !(isPM && hours < 12) && !(!isPM && hours == 12) ==> h == hours
  {
    var afternoon := if isPM && hours < 12 then hours + 12 else hours;
    if !isPM && afternoon == 12 then 0 else afternoon
  }

  /** The wire template `${HH}:${MM}:00`, each number padded to two digits. */
  function WireText(hours: nat, minutes: nat): string {
    PadStart2(NatToString(hours)) + ":" + PadStart2(NatToString(minutes)) + ":00"
  }

  /** The wire text of a time of day. */
  function WireTime(t: TimeOfDay): string {
    WireText(t.hour, t.minute)
  }

  /** convertTimeFormat(timeString) of SetRoutineTime.js. Its properties are
      the lemmas ConvertTimeFormatNoMatch, ConvertTimeFormatFields and
      ConvertDisplayText below. */
  function ConvertTimeFormat(timeString: string): string {
    var isPM := Includes(timeString, PM);
    match FirstMatch(timeString, 0)
    case None => "00:00:00"
    case Some(m) => WireText(Hour24(isPM, m.hours), m.minutes)
  }

  /** Without a match the result is the fixed default "00:00:00"; no error is
      signalled. */
  lemma ConvertTimeFormatNoMatch(timeString: string)
    requires FirstMatch(timeString, 0).None?
    ensures ConvertTimeFormat(timeString) == "00:00:00"
  {
  }

  /** On a match, the wire text has three ':' fields; the first reads back as
      the matched hour adjusted by whether the text contains "오후", the
      second as the matched minute. */
  lemma ConvertTimeFormatFields(timeString: string)
    requires FirstMatch(timeString, 0).Some?
    ensures var wire := ConvertTimeFormat(timeString);
      |wire| >= 8 && wire[|wire| - 3..] == ":00"
    ensures var m := FirstMatch(timeString, 0).value;
      var fields := Split(ConvertTimeFormat(timeString), ':');
      |fields| == 3
      && JsNumber(fields[0]) == Num(Hour24(Includes(timeString, PM), m.hours))
      && JsNumber(fields[1]) == Num(m.minutes)
    ensures var m := FirstMatch(timeString, 0).value;
      ConvertTimeFormat(timeString) == WireText(Hour24(Includes(timeString, PM), m.hours), m.minutes)
  {
    var m := FirstMatch(timeString, 0).value;
    WireTextFields(Hour24(Includes(timeString, PM), m.hours), m.minutes);
  }

  // ---------------------------------------------------------------------
  // Lemmas about the converters
  // ---------------------------------------------------------------------

  /** The wire text splits at ':' into the two padded numbers and "00", and
      Number(...) of the first two fields reads the numbers back. */
  lemma WireTextFields(hours: nat, minutes: nat)
    ensures var w := WireText(hours, minutes);
      |w| >= 8 && w[|w| - 3..] == ":00"
      && Split(w, ':') == [PadStart2(NatToString(hours)), PadStart2(NatToString(minutes)), "00"]
      && JsNumber(Split(w, ':')[0]) == Num(hours)
      && JsNumber(Split(w, ':')[1]) == Num(minutes)
  {
    var hh, mm := PadStart2(NatToString(hours)), PadStart2(NatToString(minutes));
    DigitsExclude(hh, ':');
    DigitsExclude(mm, ':');
    var w := WireText(hours, minutes);
    assert w == hh + [':'] + (mm + [':'] + "00");
    SplitFirst(hh, ':', mm + [':'] + "00");
    SplitFirst(mm, ':', "00");
    SplitNone("00", ':');
    ParseNatToString(hours);
    ParseNatToString(minutes);
    if |NatToString(hours)| < 2 { ParseLeadingZero(NatToString(hours)); assert hh == "0" + NatToString(hours); }
    if |NatToString(minutes)| < 2 { ParseLeadingZero(NatToString(minutes)); assert mm == "0" + NatToString(minutes); }
  }

  /** In a display text the afternoon marker occurs iff it is the marker. */
  lemma DisplayTextMarker(marker: string, hourText: string, minuteText: string)
    requires marker == AM || marker == PM
    requires AllDigits(hourText) && AllDigits(minuteText)
    ensures var s := DisplayText(marker, hourText, minuteText);
      s[..2] == marker && (Includes(s, PM) <==> marker == PM)
  {
    var s := DisplayText(marker, hourText, minuteText);
    var H, M := |hourText|, |minuteText|;
    assert s[..2] == marker;
    if marker == PM {
      assert OccursAt(s, PM, 0);
    } else {
      forall k | 1 <= k < |s| ensures s[k] != '오' {
        if k < 3 {
        } else if k < 3 + H {
          assert s[k] == hourText[k - 3];
        } else if k < 5 + H {
        } else if k < 5 + H + M {
          assert s[k] == minuteText[k - 5 - H];
        }
      }
      forall i | 0 <= i <= |s| ensures !OccursAt(s, PM, i) {
        if i <= |s| - 2 {
          assert s[i..i + 2][0] == s[i] && s[i..i + 2][1] == s[i + 1];
          if i == 0 {
            assert s[1] == '전';
          } else {
            assert s[i] != '오';
          }
        }
      }
    }
  }

  /** A run of digits ending at j (before a non-digit or the end) is the
      longest run from i. */
  lemma {:induction false} DigitRunEndAt(s: string, i: nat, j: nat)
    requires i <= j <= |s| && AllDigits(s[i..j])
    requires j == |s| || !IsDigit(s[j])
    ensures DigitRunEnd(s, i) == j
    decreases j - i
  {
    if i < j {
      assert IsDigit(s[i..j][0]);
      assert s[i + 1..j] == s[i..j][1..];
      DigitRunEndAt(s, i + 1, j);
    }
  }

  /** A run of `\s` characters followed by a non-space is the longest run
      from its start. */
  lemma {:induction false} SpaceRunEndAt(s: string, i: nat, j: nat)
    requires i <= j <= |s| && forall k :: i <= k < j ==> IsJsSpace(s[k])
    requires j == |s| || !IsJsSpace(s[j])
    ensures SpaceRunEnd(s, i) == j
    decreases j - i
  {
    if i < j {
      SpaceRunEndAt(s, i + 1, j);
    }
  }

  /** The pattern fits at i: digits in s[i..j], '시' at j, `\s` characters
      in s[j + 1..k], digits in s[k..l] and '분' at l (each run non-empty). */
  predicate PatternAt(s: string, i: nat, j: nat, k: nat, l: nat) {
    i < j && j + 1 < k && k < l < |s|
    && AllDigits(s[i..j]) && s[j] == '시'
    && (forall p :: j + 1 <= p < k ==> IsJsSpace(s[p]))
    && AllDigits(s[k..l]) && s[l] == '분'
  }

  /** Every way the pattern can fit at i uses the longest runs, so
      backtracking finds no other reading, and MatchAt captures exactly
      these two fields. */
  lemma MatchAtGreedy(s: string, i: nat, j: nat, k: nat, l: nat)
    requires PatternAt(s, i, j, k, l)
    ensures j == DigitRunEnd(s, i) && k == SpaceRunEnd(s, j + 1) && l == DigitRunEnd(s, k)
    ensures MatchAt(s, i) == Some(Match(ParseDigits(s[i..j]), ParseDigits(s[k..l])))
  {
    DigitRunEndAt(s, i, j);
    assert IsDigit(s[k]) by { assert s[k] == s[k..l][0]; }
    SpaceRunEndAt(s, j + 1, k);
    DigitRunEndAt(s, k, l);
  }

  /** Conversely, whatever MatchAt finds is a fit of the pattern at i, and
      its captures are that fit's two digit runs. */
  lemma MatchAtSound(s: string, i: nat)
    requires i <= |s|
    ensures MatchAt(s, i).Some? ==>
              exists j: nat, k: nat, l: nat :: PatternAt(s, i, j, k, l)
                && MatchAt(s, i) == Some(Match(ParseDigits(s[i..j]), ParseDigits(s[k..l])))
  {
    if MatchAt(s, i).Some? {
      var j := DigitRunEnd(s, i);
      var k := SpaceRunEnd(s, j + 1);
      var l := DigitRunEnd(s, k);
      assert PatternAt(s, i, j, k, l);
    }
  }

  /** A text in which the pattern fits nowhere converts to "00:00:00". */
  lemma ConvertTimeFormatNoPattern(s: string)
    requires forall i: nat, j: nat, k: nat, l: nat :: !PatternAt(s, i, j, k, l)
    ensures ConvertTimeFormat(s) == "00:00:00"
  {
    forall i | 0 <= i <= |s| ensures MatchAt(s, i).None? {
      MatchAtSound(s, i);
    }
    FirstMatchIsLeftmost(s, 0);
  }

  /** convertTimeFormat of any display-shaped text: the leftmost match is the
      hour and minute fields, and the marker decides the 12-to-24 adjustment.
      No range check is made on either number. */
  lemma ConvertDisplayText(marker: string, hourText: string, minuteText: string)
    requires marker == AM || marker == PM
    requires |hourText| >= 1 && AllDigits(hourText)
    requires |minuteText| >= 1 && AllDigits(minuteText)
    ensures ConvertTimeFormat(DisplayText(marker, hourText, minuteText))
         == WireText(Hour24(marker == PM, ParseDigits(hourText)), ParseDigits(minuteText))
  {
    DisplayTextMarker(marker, hourText, minuteText);
    DisplayTextMatch(marker, hourText, minuteText);
  }

  /** The character layout of a display text. */
  lemma DisplayTextLayout(marker: string, hourText: string, minuteText: string)
    requires |marker| == 2
    ensures var s := DisplayText(marker, hourText, minuteText);
      var H, M := |hourText|, |minuteText|;
      |s| == 6 + H + M && s[0] == marker[0] && s[1] == marker[1] && s[2] == ' '
      && s[3..3 + H] == hourText && s[3 + H] == '시' && s[4 + H] == ' '
      && s[5 + H..5 + H + M] == minuteText && s[5 + H + M] == '분'
  {
  }

  /** The leftmost match in a display text captures its hour and minute fields. */
  lemma DisplayTextMatch(marker: string, hourText: string, minuteText: string)
    requires marker == AM || marker == PM
    requires |hourText| >= 1 && AllDigits(hourText)
    requires |minuteText| >= 1 && AllDigits(minuteText)
    ensures FirstMatch(DisplayText(marker, hourText, minuteText), 0)
         == Some(Match(ParseDigits(hourText), ParseDigits(minuteText)))
  {
    var s := DisplayText(marker, hourText, minuteText);
    DisplayTextLayout(marker, hourText, minuteText);
    LayoutMatch(s, hourText, minuteText);
    NoMatchAtNonDigit(s, 0);
    NoMatchAtNonDigit(s, 1);
    NoMatchAtNonDigit(s, 2);
  }

  /** A start that is not a digit is skipped. */
  lemma NoMatchAtNonDigit(s: string, i: nat)
    requires i < |s| && !IsDigit(s[i])
    ensures FirstMatch(s, i) == FirstMatch(s, i + 1)
  {
  }

  /** A text laid out as two non-digits, a space, digits, '시', a space,
      digits and '분' has its leftmost match at index 3. */
  lemma LayoutMatch(s: string, hourText: string, minuteText: string)
    requires |hourText| >= 1 && AllDigits(hourText)
    requires |minuteText| >= 1 && AllDigits(minuteText)
    requires var H, M := |hourText|, |minuteText|;
      |s| == 6 + H + M && !IsDigit(s[0]) && s[2] == ' '
      && s[3..3 + H] == hourText && s[3 + H] == '시' && s[4 + H] == ' '
      && s[5 + H..5 + H + M] == minuteText && s[5 + H + M] == '분'
    ensures MatchAt(s, 3) == Some(Match(ParseDigits(hourText), ParseDigits(minuteText)))
  {
    var H, M := |hourText|, |minuteText|;
    DigitRunEndAt(s, 3, 3 + H);
    DigitRunEndAt(s, 5 + H, 5 + H + M);
    assert IsDigit(s[5 + H]) by { assert s[5 + H] == s[5 + H..5 + H + M][0]; }
    assert SpaceRunEnd(s, 5 + H) == 5 + H;
    assert SpaceRunEnd(s, 4 + H) == 5 + H;
    var m := Match(ParseDigits(hourText), ParseDigits(minuteText));
    assert MatchAt(s, 3) == Some(m);
  }

  /** Noon and midnight: the afternoon marker keeps 12, the morning marker
      turns 12 into 0; together with TwelveHour this is a bijection between
      24-hour hours and (marker, 1..12). */
  lemma Hour24Inverse(hour: Hour)
    ensures Hour24(Meridiem(hour) == PM, TwelveHour(hour)) == hour
  {
  }

  /** The other direction: a 12-hour reading (marker, 1..12) converted to 24
      hours displays again as the same marker and hour. */
  lemma TwelveHourInverse(isPM: bool, h12: nat)
    requires 1 <= h12 <= 12
    ensures Hour24(isPM, h12) < 24
    ensures (Meridiem(Hour24(isPM, h12)) == PM) == isPM
    ensures TwelveHour(Hour24(isPM, h12)) == h12
  {
  }

  /** Round trip: the display text of a time converts to its wire text. */
  lemma FormatTimeRoundTrip(t: TimeOfDay)
    ensures ConvertTimeFormat(FormatTime(t)) == WireTime(t)
  {
    ConvertDisplayText(Meridiem(t.hour), NatToString(TwelveHour(t.hour)), MinuteText(t.minute));
    ParseNatToString(TwelveHour(t.hour));
    Hour24Inverse(t.hour);
  }

  /** The wire text of a time is eight characters "HH:MM:00" whose fields
      read back the hour and minute; distinct times have distinct wire texts. */
  lemma WireTimeFields(t: TimeOfDay)
    ensures var w := WireTime(t);
      |w| == 8 && w[2] == ':' && w[5..] == ":00" && AllDigits(w[..2]) && AllDigits(w[3..5])
      && ParseDigits(w[..2]) == t.hour && ParseDigits(w[3..5]) == t.minute
  {
    PadStart2Digits(t.hour);
    PadStart2Digits(t.minute);
    var w := WireTime(t);
    assert w[..2] == PadStart2(NatToString(t.hour));
    assert w[3..5] == PadStart2(NatToString(t.minute));
  }

  /** Distinct times have distinct display texts. */
  lemma FormatTimeInjective(t: TimeOfDay, u: TimeOfDay)
    requires FormatTime(t) == FormatTime(u)
    ensures t == u
  {
    FormatTimeRoundTrip(t);
    FormatTimeRoundTrip(u);
    WireTimeFields(t);
    WireTimeFields(u);
  }

  /** No range check in the afternoon: an hour of 12 or more after "오후",
      and any minute, pass straight through ("오후 13시 70분" gives
      "13:70:00"). */
  lemma ConvertAfternoonUnchecked(hours: nat, minutes: nat)
    requires hours >= 12
    ensures ConvertTimeFormat(DisplayText(PM, NatToString(hours), NatToString(minutes))) == WireText(hours, minutes)
  {
    ConvertDisplayText(PM, NatToString(hours), NatToString(minutes));
    ParseNatToString(hours);
    ParseNatToString(minutes);
  }

  /** No range check in the morning: every hour but 12 after "오전", and any
      minute, pass straight through ("오전 25시 70분" gives "25:70:00"). */
  lemma ConvertMorningUnchecked(hours: nat, minutes: nat)
    requires hours != 12
    ensures ConvertTimeFormat(DisplayText(AM, NatToString(hours), NatToString(minutes))) == WireText(hours, minutes)
  {
    ConvertDisplayText(AM, NatToString(hours), NatToString(minutes));
    ParseNatToString(hours);
    ParseNatToString(minutes);
  }

  /** A text without any digit has no match and converts to "00:00:00". */
  lemma ConvertWithoutDigitsIsMidnight(s: string)
    requires forall i :: 0 <= i < |s| ==> !IsDigit(s[i])
    ensures ConvertTimeFormat(s) == "00:00:00"
  {
    FirstMatchIsLeftmost(s, 0);
    ConvertTimeFormatNoMatch(s);
  }

  /** "00:00:00" is also the wire text of midnight, so by FormatTimeRoundTrip
      convertTimeFormat gives text without a match and the display text of
      00:00 the same wire text. */
  lemma MidnightWireText()
    ensures WireTime(TimeOfDay(0, 0)) == "00:00:00"
  {
    assert PadStart2(NatToString(0)) == "00";
  }

  // ---------------------------------------------------------------------
  // Slots, the update payload and the picker state
  // ---------------------------------------------------------------------

  /** The four fixed daily slots, in the order the payload lists them. */
  datatype Slot = Breakfast | Lunch | Dinner | Bedtime

  const SlotOrder: seq<Slot> := [Breakfast, Lunch, Dinner, Bedtime]

  /** The user_schedule_id and schedule_name that the payload gives each slot. */
  function SlotId(slot: Slot): (id: nat)
    ensures 1 <= id <= 4 && SlotOrder[id - 1] == slot
  {
    match slot
    case Breakfast => 1
    case Lunch => 2
    case Dinner => 3
    case Bedtime => 4
  }

  function SlotName(slot: Slot): string
  {
    match slot
    case Breakfast => "아침 식사 후"
    case Lunch => "점심 식사 후"
    case Dinner => "저녁 식사 후"
    case Bedtime => "취침 시간"
  }

  /** The picker's setting type ('아침식사', ...) names at most one slot; any
      other text names none. */
  function SettingSlot(settingType: string): (slot: Option<Slot>)
    ensures slot.Some? ==> SettingType(slot.value) == settingType
  {
    if settingType == "아침식사" then Some(Breakfast)
    else if settingType == "점심식사" then Some(Lunch)
    else if settingType == "저녁식사" then Some(Dinner)
    else if settingType == "취침시간" then Some(Bedtime)
    else None
  }

  /** The setting type each slot's button passes to openTimePicker. */
  function SettingType(slot: Slot): (settingType: string)
  {
    match slot
    case Breakfast => "아침식사"
    case Lunch => "점심식사"
    case Dinner => "저녁식사"
    case Bedtime => "취침시간"
  }

  /** The modal title asked for each slot. */
  function SlotQuestion(slot: Slot): string
  {
    match slot
    case Breakfast => "아침은 주로 몇시에 드시나요?"
    case Lunch => "점심은 주로 몇시에 드시나요?"
    case Dinner => "저녁은 주로 몇시에 드시나요?"
    case Bedtime => "취침은 주로 몇시에 하시나요?"
  }

  lemma SettingSlotOfType(slot: Slot)
    ensures SettingSlot(SettingType(slot)) == Some(slot)
  {
  }

  /** The four slots have four distinct names, ids and setting types. */
  lemma SlotTablesInjective(a: Slot, b: Slot)
    requires SlotName(a) == SlotName(b) || SlotId(a) == SlotId(b)
      || SettingType(a) == SettingType(b) || SlotQuestion(a) == SlotQuestion(b)
    ensures a == b
  {
  }

  /** One request body of updateUserSchedule. */
  datatype UpdateRecord = UpdateRecord(userScheduleId: nat, scheduleName: string, takeTime: string)

  /** The payload for four slot display texts: one record per slot in slot
      order, carrying the slot's fixed id and name and the converted time. */
  function UpdatePayload(breakfast: string, lunch: string, dinner: string, bed: string): (updates: seq<UpdateRecord>)
    ensures |updates| == 4
    ensures forall i :: 0 <= i < 4 ==>
      updates[i].userScheduleId == i + 1 && updates[i].scheduleName == SlotName(SlotOrder[i])
    ensures updates[0].takeTime == ConvertTimeFormat(breakfast) && updates[1].takeTime == ConvertTimeFormat(lunch)
    ensures updates[2].takeTime == ConvertTimeFormat(dinner) && updates[3].takeTime == ConvertTimeFormat(bed)
  {
    [UpdateRecord(1, "아침 식사 후", ConvertTimeFormat(breakfast)),
     UpdateRecord(2, "점심 식사 후", ConvertTimeFormat(lunch)),
     UpdateRecord(3, "저녁 식사 후", ConvertTimeFormat(dinner)),
     UpdateRecord(4, "취침 시간", ConvertTimeFormat(bed))]
  }

  const DefaultBreakfast: TimeOfDay := TimeOfDay(8, 0)
  const DefaultLunch: TimeOfDay := TimeOfDay(12, 0)
  const DefaultDinner: TimeOfDay := TimeOfDay(18, 0)
  const DefaultBedtime: TimeOfDay := TimeOfDay(22, 0)

  /** The display texts of the four default slot times. */
  lemma DefaultSlotTexts()
    ensures FormatTime(DefaultBreakfast) == "오전 8시 00분"
    ensures FormatTime(DefaultLunch) == "오후 12시 00분"
    ensures FormatTime(DefaultDinner) == "오후 6시 00분"
    ensures FormatTime(DefaultBedtime) == "오후 10시 00분"
  {
    assert MinuteText(0) == "00";
    assert NatToString(8) == "8" && NatToString(6) == "6";
    assert NatToString(12) == "12" && NatToString(10) == "10";
    assert DisplayText(AM, "8", "00") == "오전 8시 00분";
    assert DisplayText(PM, "12", "00") == "오후 12시 00분";
    assert DisplayText(PM, "6", "00") == "오후 6시 00분";
    assert DisplayText(PM, "10", "00") == "오후 10시 00분";
  }

  /** The payload of four slot texts whose conversions are known. */
  lemma PayloadOfConverted(b: string, l: string, d: string, bed: string,
                           bw: string, lw: string, dw: string, bedw: string)
    requires ConvertTimeFormat(b) == bw && ConvertTimeFormat(l) == lw
    requires ConvertTimeFormat(d) == dw && ConvertTimeFormat(bed) == bedw
    ensures UpdatePayload(b, l, d, bed)
         == [UpdateRecord(SlotId(Breakfast), SlotName(Breakfast), bw),
             UpdateRecord(SlotId(Lunch), SlotName(Lunch), lw),
             UpdateRecord(SlotId(Dinner), SlotName(Dinner), dw),
             UpdateRecord(SlotId(Bedtime), SlotName(Bedtime), bedw)]
  {
  }

  /** For four picked times, the payload carries each slot's fixed id and
      name and the wire text of its time, in slot order. */
  lemma PayloadOfTimes(b: TimeOfDay, l: TimeOfDay, d: TimeOfDay, bed: TimeOfDay)
    ensures UpdatePayload(FormatTime(b), FormatTime(l), FormatTime(d), FormatTime(bed))
         == [UpdateRecord(SlotId(Breakfast), SlotName(Breakfast), WireTime(b)),
             UpdateRecord(SlotId(Lunch), SlotName(Lunch), WireTime(l)),
             UpdateRecord(SlotId(Dinner), SlotName(Dinner), WireTime(d)),
             UpdateRecord(SlotId(Bedtime), SlotName(Bedtime), WireTime(bed))]
  {
    FormatTimeRoundTrip(b);
    FormatTimeRoundTrip(l);
    FormatTimeRoundTrip(d);
    FormatTimeRoundTrip(bed);
    PayloadOfConverted(FormatTime(b), FormatTime(l), FormatTime(d), FormatTime(bed),
                       WireTime(b), WireTime(l), WireTime(d), WireTime(bed));
  }

  /** The wire text of a time on the hour, from 10 o'clock on. */
  lemma WireTimeOnTheHour(h: Hour)
    requires h >= 10
    ensures WireTime(TimeOfDay(h, 0)) == [DigitChar(h / 10), DigitChar(h % 10)] + ":00:00"
  {
    assert PadStart2(NatToString(0)) == "00";
    assert NatToString(h) == [DigitChar(h / 10), DigitChar(h % 10)];
  }

  /** The wire texts of the four default times. */
  lemma DefaultWireTimes()
    ensures WireTime(DefaultBreakfast) == "08:00:00"
    ensures WireTime(DefaultLunch) == "12:00:00"
    ensures WireTime(DefaultDinner) == "18:00:00"
    ensures WireTime(DefaultBedtime) == "22:00:00"
  {
    assert WireTime(DefaultBreakfast) == "08:00:00";
    WireTimeOnTheHour(12);
    WireTimeOnTheHour(18);
    WireTimeOnTheHour(22);
  }

  /** The screen's state: the picker, the picked time, which slot is being
      set, and the four slot display texts. */
  class RoutineTimeScreen {
    var showTimePicker: bool
    var selectedTime: TimeOfDay
    var currentSettingType: string
    var breakfastTime: string
    var lunchTime: string
    var dinnerTime: string
    var bedTime: string

    /** `now` stands for `new Date()` at mount time. */
    constructor (now: TimeOfDay)
      ensures !showTimePicker && selectedTime == now && currentSettingType == ""
      ensures breakfastTime == FormatTime(DefaultBreakfast) && lunchTime == FormatTime(DefaultLunch)
      ensures dinnerTime == FormatTime(DefaultDinner) && bedTime == FormatTime(DefaultBedtime)
    {
      showTimePicker := false;
      selectedTime := now;
      currentSettingType := "";
      breakfastTime := FormatTime(DefaultBreakfast);
      lunchTime := FormatTime(DefaultLunch);
      dinnerTime := FormatTime(DefaultDinner);
      bedTime := FormatTime(DefaultBedtime);
    }

    /** The display text held for a slot. */
    function SlotText(slot: Slot): string
      reads this
    {
      match slot
      case Breakfast => breakfastTime
      case Lunch => lunchTime
      case Dinner => dinnerTime
      case Bedtime => bedTime
    }

    /** The payload the save button would send now. */
    function Payload(): seq<UpdateRecord>
      reads this
    {
      UpdatePayload(breakfastTime, lunchTime, dinnerTime, bedTime)
    }

    /** onTimeChange: a picked time, or `now` when the picker gives none. */
    method OnTimeChange(picked: Option<TimeOfDay>, now: TimeOfDay)
      modifies this
      ensures selectedTime == if picked.Some? then picked.value else now
      ensures showTimePicker == old(showTimePicker) && currentSettingType == old(currentSettingType)
      ensures forall slot :: SlotText(slot) == old(SlotText(slot))
    {
      selectedTime := if picked.Some? then picked.value else now;
    }

    /** openTimePicker(type). */
    method OpenTimePicker(settingType: string)
      modifies this
      ensures currentSettingType == settingType && showTimePicker
      ensures selectedTime == old(selectedTime)
      ensures forall slot :: SlotText(slot) == old(SlotText(slot))
    {
      currentSettingType := settingType;
      showTimePicker := true;
    }

    /** handleConfirm: write the display text of the picked time into the
      slot the setting type names (none for an unknown type) and close the
      picker. */
    method HandleConfirm()
      modifies this
      ensures !showTimePicker
      ensures selectedTime == old(selectedTime) && currentSettingType == old(currentSettingType)
      ensures forall slot ::
                SlotText(slot) == if SettingSlot(currentSettingType) == Some(slot) then FormatTime(selectedTime) else old(SlotText(slot))
    {
      var formattedTime := FormatTime(selectedTime);
      match SettingSlot(currentSettingType) {
        case Some(Breakfast) => breakfastTime := formattedTime;
        case Some(Lunch) => lunchTime := formattedTime;
        case Some(Dinner) => dinnerTime := formattedTime;
        case Some(Bedtime) => bedTime := formattedTime;
        case None =>
      }
      showTimePicker := false;
    }

    /** getModalTitleText: one question per slot, a generic prompt otherwise. */
    function GetModalTitleText(): (title: string)
      reads this
      ensures title == "시간을 선택해주세요" <==> SettingSlot(currentSettingType).None?
      ensures forall slot :: SettingSlot(currentSettingType) == Some(slot) ==> title == SlotQuestion(slot)
    {
      match SettingSlot(currentSettingType)
      case Some(slot) => SlotQuestion(slot)
      case None => "시간을 선택해주세요"
    }

    /** sendDataToServer: build the four records in slot order, then send
        them one at a time (DispatchInOrder). Returns the records attempted
        and whether every call succeeded. */
    method SendDataToServer(callSucceeds: nat -> bool) returns (attempted: seq<UpdateRecord>, saved: bool)
      ensures 1 <= |attempted| <= 4 && attempted == Payload()[..|attempted|]
      ensures forall k :: 0 <= k < |attempted| - 1 ==> callSucceeds(k)
      ensures saved <==> attempted == Payload() && callSucceeds(3)
      ensures !saved ==> !callSucceeds(|attempted| - 1)
    {
      var scheduleUpdates: seq<UpdateRecord> := [];
      scheduleUpdates := scheduleUpdates + [UpdateRecord(1, "아침 식사 후", ConvertTimeFormat(breakfastTime))];
      scheduleUpdates := scheduleUpdates + [UpdateRecord(2, "점심 식사 후", ConvertTimeFormat(lunchTime))];
      scheduleUpdates := scheduleUpdates + [UpdateRecord(3, "저녁 식사 후", ConvertTimeFormat(dinnerTime))];
      scheduleUpdates := scheduleUpdates + [UpdateRecord(4, "취침 시간", ConvertTimeFormat(bedTime))];
      assert scheduleUpdates == Payload();
      attempted, saved := DispatchInOrder(scheduleUpdates, callSucceeds);
    }
  }

  /** The `for ... of` loop of sendDataToServer: await each update in order;
      a failing call throws out of the loop. `callSucceeds(k)` is the outcome
      of the k-th call (counting from 0). The attempted records are always a
      prefix of the list, every attempted record but the last succeeded, and
      the save succeeded iff all records were sent and accepted. */
  method DispatchInOrder(updates: seq<UpdateRecord>, callSucceeds: nat -> bool)
    returns (attempted: seq<UpdateRecord>, saved: bool)
    ensures |attempted| <= |updates| && attempted == updates[..|attempted|]
    ensures |updates| > 0 ==> |attempted| >= 1
    ensures forall k :: 0 <= k < |attempted| - 1 ==> callSucceeds(k)
    ensures saved <==> attempted == updates && forall k :: 0 <= k < |updates| ==> callSucceeds(k)
    ensures !saved ==> |attempted| >= 1 && !callSucceeds(|attempted| - 1)
  {
    attempted, saved := [], true;
    var i := 0;
    while i < |updates| && saved
      invariant 0 <= i <= |updates|
      invariant attempted == updates[..i]
      invariant saved ==> forall k :: 0 <= k < i ==> callSucceeds(k)
      invariant !saved ==> i >= 1 && !callSucceeds(i - 1) && forall k :: 0 <= k < i - 1 ==> callSucceeds(k)
    {
      attempted := attempted + [updates[i]];
      saved := callSucceeds(i);
      i := i + 1;
    }
  }
}
