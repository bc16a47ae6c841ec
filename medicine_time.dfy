/** The medicine-time screen (app/screens/Routine/SetMedicineTime.js): the
    user's saved schedule is loaded as wire texts ("HH:MM:SS"), turned into
    display texts and kept in a name-to-text dictionary; four buttons show a
    slot's text (or a fixed fallback) and one of them can be selected. */
module MedicineTime {
  import opened JsText
  import RoutineTime

  // ---------------------------------------------------------------------
  // Wire text to display text (formatTime)
  // ---------------------------------------------------------------------

  /** `hour < 12 ? '오전' : '오후'`; NaN is not below 12. */
  function Period(hour: JsValue): (marker: string)
    ensures marker == RoutineTime.AM <==> hour.Num? && hour.n < 12
    ensures marker == RoutineTime.AM || marker == RoutineTime.PM
  {
    if hour.Num? && hour.n < 12 then "오전" else "오후"
  }

  /** `hour % 12 === 0 ? 12 : hour % 12`; NaN stays NaN. */
  function TwelveHourValue(hour: JsValue): (shown: JsValue)
    ensures hour.Num? ==> shown.Num? && 1 <= shown.n <= 12 && shown.n % 12 == hour.n % 12
    ensures !hour.Num? ==> shown == NaN
  {
    if hour.Num? then Num(if hour.n % 12 == 0 then 12 else hour.n % 12) else NaN
  }

  /** formatTime(timeString) of SetMedicineTime.js: split at ':', read the
      first two fields with Number(...), ignore the rest, and fill the
      display template without padding the minute. */
  function FormatTime(timeString: string): (display: string)
    ensures |display| >= 6
    ensures display[..2] == RoutineTime.AM <==> (JsNumber(Split(timeString, ':')[0]).Num? && JsNumber(Split(timeString, ':')[0]).n < 12)
  {
    var fields := Split(timeString, ':');
    var hour := JsNumber(fields[0]);
    var minute := if |fields| >= 2 then JsNumber(fields[1]) else Undefined;
    var display := RoutineTime.DisplayText(Period(hour), Show(TwelveHourValue(hour)), Show(minute));
    assert display[..2] == Period(hour);
    display
  }

  /** Only the first two fields matter: the seconds field, and anything after
      it, is ignored. */
  lemma FormatTimeIgnoresSeconds(a: string, b: string)
    requires Split(a, ':')[0] == Split(b, ':')[0]
    requires |Split(a, ':')| >= 2 && |Split(b, ':')| >= 2
    requires Split(a, ':')[1] == Split(b, ':')[1]
    ensures FormatTime(a) == FormatTime(b)
  {
  }

  /** On the wire text of a time, formatTime shows the same marker and hour
      as the routine screen's display text, and the minute without padding. */
  lemma FormatWireTime(t: RoutineTime.TimeOfDay)
    ensures FormatTime(RoutineTime.WireTime(t))
         == RoutineTime.DisplayText(RoutineTime.Meridiem(t.hour),
                                    NatToString(RoutineTime.TwelveHour(t.hour)),
                                    NatToString(t.minute))
  {
    RoutineTime.WireTextFields(t.hour, t.minute);
  }

  /** The two screens' display texts agree exactly when the minute has two
      digits; below ten minutes this screen drops the leading zero
      ("오전 8시 5분" against "오전 8시 05분"). */
  lemma DisplayTextsAgree(t: RoutineTime.TimeOfDay)
    ensures FormatTime(RoutineTime.WireTime(t)) == RoutineTime.FormatTime(t) <==> t.minute >= 10
  {
    FormatWireTime(t);
    var a := FormatTime(RoutineTime.WireTime(t));
    var b := RoutineTime.FormatTime(t);
    if t.minute < 10 {
      assert |a| + 1 == |b|;
    }
  }

  /** Round trip across the two screens: the routine screen's
      convertTimeFormat turns this screen's display text of a wire time back
      into the same wire time, since `\d+` also reads an unpadded minute. */
  lemma FormatWireTimeRoundTrip(t: RoutineTime.TimeOfDay)
    ensures RoutineTime.ConvertTimeFormat(FormatTime(RoutineTime.WireTime(t))) == RoutineTime.WireTime(t)
  {
    FormatWireTime(t);
    var h12 := RoutineTime.TwelveHour(t.hour);
    RoutineTime.ConvertDisplayText(RoutineTime.Meridiem(t.hour), NatToString(h12), NatToString(t.minute));
    ParseNatToString(h12);
    ParseNatToString(t.minute);
    RoutineTime.Hour24Inverse(t.hour);
  }

  // ---------------------------------------------------------------------
  // The schedule dictionary (fetchUserSchedule)
  // ---------------------------------------------------------------------

  /** One element of the server's schedule list. */
  datatype ScheduleItem = ScheduleItem(name: string, takeTime: string)

  /** The index of the last item with this name, or -1 when none has it. */
  function LastIndexOf(items: seq<ScheduleItem>, name: string): (r: int)
    ensures -1 <= r < |items|
    ensures r == -1 <==> forall j :: 0 <= j < |items| ==> items[j].name != name
    ensures r >= 0 ==> items[r].name == name && forall j :: r < j < |items| ==> items[j].name != name
  {
    if items == [] then -1
    else if items[|items| - 1].name == name then |items| - 1
    else LastIndexOf(items[..|items| - 1], name)
  }

  /** The names occurring in the list. */
  function Names(items: seq<ScheduleItem>): set<string> {
    set i | 0 <= i < |items| :: items[i].name
  }

  /** A dictionary holds one key per distinct name, whose value is the
      display text of the LAST item with that name. */
  ghost predicate IsFormattedSchedule(items: seq<ScheduleItem>, schedule: map<string, string>) {
    && schedule.Keys == Names(items)
    && forall name :: name in schedule ==>
         LastIndexOf(items, name) >= 0 && schedule[name] == FormatTime(items[LastIndexOf(items, name)].takeTime)
  }

  /** Appending an item makes it the last one with its name and leaves the
      last item of every other name where it was. */
  lemma LastIndexOfAppend(items: seq<ScheduleItem>, item: ScheduleItem, name: string)
    ensures LastIndexOf(items + [item], name) == if item.name == name then |items| else LastIndexOf(items, name)
  {
    assert (items + [item])[..|items|] == items;
  }

  /** Appending an item adds its name to the names. */
  lemma NamesAppend(items: seq<ScheduleItem>, item: ScheduleItem)
    ensures Names(items + [item]) == Names(items) + {item.name}
  {
    var extended := items + [item];
    assert extended[|items|].name == item.name;
    forall j | 0 <= j < |items| ensures extended[j].name == items[j].name {
    }
  }

  /** The forEach of fetchUserSchedule: `formattedSchedule[item.name] =
      formatTime(item.take_time)` for each item in order. */
  method FormatSchedule(items: seq<ScheduleItem>) returns (formattedSchedule: map<string, string>)
    ensures formattedSchedule.Keys == Names(items)
    ensures forall name :: name in formattedSchedule ==>
              LastIndexOf(items, name) >= 0
              && formattedSchedule[name] == FormatTime(items[LastIndexOf(items, name)].takeTime)
  {
    formattedSchedule := map[];
    var i := 0;
    while i < |items|
      invariant 0 <= i <= |items|
      invariant formattedSchedule.Keys == Names(items[..i])
      invariant forall name :: name in formattedSchedule ==>
                  LastIndexOf(items[..i], name) >= 0
                  && formattedSchedule[name] == FormatTime(items[LastIndexOf(items[..i], name)].takeTime)
    {
      var item := items[i];
      assert items[..i + 1] == items[..i] + [item];
      NamesAppend(items[..i], item);
      forall name ensures LastIndexOf(items[..i + 1], name)
                          == if item.name == name then i else LastIndexOf(items[..i], name) {
        LastIndexOfAppend(items[..i], item, name);
      }
      formattedSchedule := formattedSchedule[item.name := FormatTime(item.takeTime)];
      i := i + 1;
    }
    assert items[..i] == items;
  }

  // ---------------------------------------------------------------------
  // Button texts
  // ---------------------------------------------------------------------

  /** The four time buttons of the screen. */
  datatype TimeButton = Morning | Noon | Evening | BeforeBed

  /** `d[key] || fallback`: a missing key (undefined) or an empty text
      (falsy) gives the fallback. */
  function OrElse(schedule: map<string, string>, key: string, fallback: string): (text: string)
    ensures key in schedule && schedule[key] != "" ==> text == schedule[key]
    ensures !(key in schedule && schedule[key] != "") ==> text == fallback
  {
    if key in schedule && schedule[key] != "" then schedule[key] else fallback
  }

  /** The time text each button shows. The bedtime button ignores the
      schedule and always shows "오후 10시 30분". */
  function ButtonTimeText(button: TimeButton, schedule: map<string, string>): (text: string)
    ensures text != ""
    ensures button == BeforeBed ==> text == "오후 10시 30분"
    ensures button != BeforeBed && !(ButtonKey(button) in schedule && schedule[ButtonKey(button)] != "") ==>
              text == ButtonFallback(button)
    ensures button != BeforeBed && ButtonKey(button) in schedule && schedule[ButtonKey(button)] != "" ==>
              text == schedule[ButtonKey(button)]
  {
    if button == BeforeBed then ButtonFallback(BeforeBed)
    else OrElse(schedule, ButtonKey(button), ButtonFallback(button))
  }

  /** The schedule name each meal button looks up (the routine slot names).
      The bedtime button looks up nothing; its entry is the bedtime slot's
      name, so that the table lines up with the routine screen's slots. */
  function ButtonKey(button: TimeButton): string {
    match button
    case Morning => RoutineTime.SlotName(RoutineTime.Breakfast)
    case Noon => RoutineTime.SlotName(RoutineTime.Lunch)
    case Evening => RoutineTime.SlotName(RoutineTime.Dinner)
    case BeforeBed => RoutineTime.SlotName(RoutineTime.Bedtime)
  }

  function ButtonFallback(button: TimeButton): string {
    match button
    case Morning => "오전 7시"
    case Noon => "오후 12시"
    case Evening => "오후 7시"
    case BeforeBed => "오후 10시 30분"
  }

  /** After a load, a meal button shows the display text of the last item
      carrying its slot name, or its fallback when no item does. */
  lemma ButtonTextAfterLoad(items: seq<ScheduleItem>, schedule: map<string, string>, button: TimeButton)
    requires IsFormattedSchedule(items, schedule)
    requires button != BeforeBed
    ensures var i := LastIndexOf(items, ButtonKey(button));
      ButtonTimeText(button, schedule) == if i >= 0 then FormatTime(items[i].takeTime) else ButtonFallback(button)
  {
    var key := ButtonKey(button);
    var i := LastIndexOf(items, key);
    if i >= 0 {
      assert key in Names(items);
    } else {
      assert key !in Names(items);
    }
  }

  // ---------------------------------------------------------------------
  // Selection (handleSelect) and the screen state
  // ---------------------------------------------------------------------

  /** `prev === option ? null : option`. */
  function ToggledOption(prev: Option<string>, option: string): (next: Option<string>)
    ensures next == None <==> prev == Some(option)
    ensures next.Some? ==> next.value == option
  {
    if prev == Some(option) then None else Some(option)
  }

  /** Selecting the same option twice restores the previous selection
      exactly when nothing, or that same option, was selected before; from a
      different option it ends with nothing selected. */
  lemma SelectTwice(prev: Option<string>, option: string)
    ensures ToggledOption(ToggledOption(prev, option), option) == prev <==> prev == None || prev == Some(option)
    ensures prev != None && prev != Some(option) ==> ToggledOption(ToggledOption(prev, option), option) == None
  {
  }

  class MedicineTimeScreen {
    var selectedOption: Option<string>
    var scheduleData: map<string, string>

    constructor ()
      ensures selectedOption == None && scheduleData == map[]
    {
      selectedOption := None;
      scheduleData := map[];
    }

    /** handleSelect(option). */
    method HandleSelect(option: string)
      modifies this
      ensures selectedOption == ToggledOption(old(selectedOption), option)
      ensures scheduleData == old(scheduleData)
    {
      selectedOption := if selectedOption == Some(option) then None else Some(option);
    }

    /** fetchUserSchedule: `response` is the server's list, or None when
        getUserSchedule fails (the error is logged and the dictionary kept). */
    method FetchUserSchedule(response: Option<seq<ScheduleItem>>)
      modifies this
      ensures response.Some? ==> IsFormattedSchedule(response.value, scheduleData)
      ensures response.None? ==> scheduleData == old(scheduleData)
      ensures selectedOption == old(selectedOption)
    {
      if response.Some? {
        var formattedSchedule := FormatSchedule(response.value);
        scheduleData := formattedSchedule;
      }
    }
  }
}
