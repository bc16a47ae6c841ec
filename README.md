# MedEasy schedule times and search filters, in Dafny

This project models three screens of the MedEasy React Native app. It proves properties of their logic.

- **Routine times** (`app/screens/Routine/SetRoutineTime.js`). The user sets four daily slots: after breakfast, after lunch, after dinner and bedtime. Each slot is shown as a Korean 12-hour display text, such as "오전 8시 30분".
  - `formatTime` turns a time of day into that text.
  - `convertTimeFormat` turns the text back into the backend's 24-hour wire text, such as "08:30:00".
  - `sendDataToServer` builds four update records in a fixed order and sends them one at a time.
  - The picker (`onTimeChange`, `openTimePicker`, `handleConfirm`, `getModalTitleText`) writes one slot at a time.
- **Medicine times** (`app/screens/Routine/SetMedicineTime.js`).
  - The saved schedule is loaded as wire texts.
  - A second `formatTime` turns them into display texts, without padding the minute.
  - The texts are kept in a name-to-text dictionary.
  - Four buttons show a slot's text or a fixed fallback text.
  - `handleSelect` toggles the selected button.
- **Search filters** (`app/screens/Search/SearchMedicineResults.js`). There are four categories of selected values: color, shape, size and split line.
  - The filter modal edits a temporary copy (`openFilterModal`, `handleFilterChange`, `applyFilters`).
  - `clearFilter` empties one applied category.
  - `getFilterButtonText` summarises a selection.

Modules:

- `JsText` (`jstext.dfy`) states the JavaScript string built-ins that the screens use, over Dafny strings:
  - `toString` of a non-negative integer;
  - `parseInt` of a digit run;
  - `padStart(2, '0')`;
  - `includes`;
  - `split` on one character;
  - `Number(...)` of a split field.
- `RoutineTime` (`routine_time.dfy`) models the routine-time screen.
  - The regular expression `/(\d+)시\s+(\d+)분/` is modelled exactly, as a leftmost match. Both `+` runs are greedy, and what follows each run can never be part of it, so only the longest run at a start can succeed (`MatchAtGreedy`). Conversely, every match the model finds is a fit of the pattern (`MatchAtSound`), so a text in which the pattern fits nowhere converts to "00:00:00" (`ConvertTimeFormatNoPattern`).
  - The screen's state is a class, `RoutineTimeScreen`.
  - The dispatch loop is a method. Each call's outcome comes from a parameter, `callSucceeds`.
- `MedicineTime` (`medicine_time.dfy`) models the medicine-time screen.
  - The dictionary is built by a loop, as the source's `forEach` does.
  - The screen's state is a class, `MedicineTimeScreen`.
- `SearchFilters` (`search_filters.dfy`) models the filter state of the search results screen as a class, `SearchResultsScreen`.

The model follows the code:

- `convertTimeFormat` makes no range check and reports no format error. A text without a match becomes "00:00:00", the same wire text as midnight (`ConvertTimeFormatNoMatch`, `MidnightWireText`). Out-of-range numbers pass straight through, as in "오전 25시 70분" → "25:70:00" (`ConvertMorningUnchecked`).
- The two screens' display texts differ. They agree exactly when the minute is at least 10 (`DisplayTextsAgree`). Even so, `convertTimeFormat` reads either one back to the same wire text (`FormatWireTimeRoundTrip`).
- The bedtime button of the medicine-time screen always shows "오후 10시 30분". It does not consult the loaded schedule.
- The morning fallback text "오전 7시" is not the routine screen's default breakfast time, 08:00.
- Selecting the same option twice restores the earlier selection only if nothing, or that same option, was selected before (`SelectTwice`).

## Model

| member | source | states |
|---|---|---|
| JsText.NatToString | app/screens/Routine/SetRoutineTime.js:58 | `toString` of a non-negative integer is a non-empty digit string with no leading zero; it has one digit iff the number is below 10 |
| JsText.ParseNatToString | app/screens/Routine/SetRoutineTime.js:52-58 | `parseInt` reads back exactly the number that `toString` wrote |
| JsText.NatToStringInjective | app/screens/Routine/SetRoutineTime.js:58 | distinct numbers have distinct decimal texts |
| JsText.ParseLeadingZero | app/screens/Routine/SetRoutineTime.js:105 | a leading '0' does not change the value `parseInt` reads |
| JsText.PadStart2 | app/screens/Routine/SetRoutineTime.js:58 | `padStart(2, '0')` leaves texts of length two or more unchanged; it left-pads shorter texts with '0' to length two; it keeps a digit text a digit text |
| JsText.PadStart2Digits | app/screens/Routine/SetRoutineTime.js:58 | a number below 100, padded, is two digits that read back as the number |
| JsText.SplitFirst | app/screens/Routine/SetMedicineTime.js:34 | splitting at a separator gives the separator-free first piece followed by the pieces of the rest |
| JsText.SplitNone | app/screens/Routine/SetMedicineTime.js:34 | a text without the separator splits to itself alone |
| JsText.ParseDigits | app/screens/Routine/SetRoutineTime.js:52-53 | `parseInt` of a digit run; its meaning is stated by ParseNatToString and ParseLeadingZero |
| JsText.IsDigit | app/screens/Routine/SetRoutineTime.js:49 | `\d`: exactly the ASCII digits '0'..'9' |
| JsText.Includes | app/screens/Routine/SetRoutineTime.js:48 | `includes`: some start index where the text occurs; FormatTimeMarker and DisplayTextMarker state what it reads in a display text |
| JsText.Split | app/screens/Routine/SetMedicineTime.js:34 | `split` on one character always gives at least one piece; SplitFirst and SplitNone give the pieces |
| JsText.Show | app/screens/Routine/SetMedicineTime.js:37 | the text a template literal writes for a value: digits for a number, a non-digit text for NaN and undefined |
| JsText.JsNumber | app/screens/Routine/SetMedicineTime.js:34 | `Number(field)` is a number iff the field is all digits, and then it is the value `parseInt` reads; the empty field is 0 |
| RoutineTime.Meridiem | app/screens/Routine/SetRoutineTime.js:103 | the marker is "오후" iff the hour is at least 12, and "오전" iff it is below 12 |
| RoutineTime.TwelveHour | app/screens/Routine/SetRoutineTime.js:104 | the hour modulo 12, or 12 when that is 0, lies in 1..12 and is congruent to the hour modulo 12 |
| RoutineTime.MinuteText | app/screens/Routine/SetRoutineTime.js:105 | the displayed minute has at least two digits, exactly two for every minute below 100, and reads back as the minute |
| RoutineTime.FormatTime | app/screens/Routine/SetRoutineTime.js:99-107 | the display text starts with "오후" from noon on and with "오전" before |
| RoutineTime.FormatTimeMarker | app/screens/Routine/SetRoutineTime.js:103-106 | the display text contains "오후" iff the hour is at least 12 |
| RoutineTime.DisplayTextMarker | app/screens/Routine/SetRoutineTime.js:106 | in a display text with digit fields, "오후" occurs iff it is the marker, so the `includes('오후')` test of convertTimeFormat reads the marker |
| RoutineTime.DigitRunEnd | app/screens/Routine/SetRoutineTime.js:49 | `\d+` ends at the first non-digit; everything before it is a digit |
| RoutineTime.SpaceRunEnd | app/screens/Routine/SetRoutineTime.js:49 | `\s+` ends at the first non-space; everything before it is a JavaScript space |
| RoutineTime.IsJsSpace | app/screens/Routine/SetRoutineTime.js:49 | `\s`: tab, line feed, vertical tab, form feed, carriage return, space, U+00A0, U+1680, U+2000..U+200A, U+2028, U+2029, U+202F, U+205F, U+3000 and U+FEFF, which are ECMAScript's WhiteSpace and LineTerminator sets |
| RoutineTime.MatchAt | app/screens/Routine/SetRoutineTime.js:49 | a match can only start at a digit |
| RoutineTime.FirstMatch | app/screens/Routine/SetRoutineTime.js:49 | the non-global `match`: scans starts from the left; FirstMatchIsLeftmost states that it finds the leftmost match, and none iff no start matches |
| RoutineTime.FirstMatchIsLeftmost | app/screens/Routine/SetRoutineTime.js:49 | the match found is the leftmost one; there is none iff no start matches |
| RoutineTime.DigitRunEndAt | app/screens/Routine/SetRoutineTime.js:49 | a digit run followed by a non-digit is the longest run from its start |
| RoutineTime.SpaceRunEndAt | app/screens/Routine/SetRoutineTime.js:49 | a `\s` run followed by a non-space is the longest run from its start |
| RoutineTime.MatchAtGreedy | app/screens/Routine/SetRoutineTime.js:49 | every way the pattern can match at a start (digits, '시', `\s` characters, digits, '분') uses the longest runs, so backtracking finds no other reading, and MatchAt captures exactly those two fields |
| RoutineTime.MatchAtSound | app/screens/Routine/SetRoutineTime.js:49 | every match MatchAt finds is a fit of the pattern at that start (digits, '시', `\s` characters, digits, '분'), and its captures are the fit's two digit runs |
| RoutineTime.ConvertTimeFormatNoPattern | app/screens/Routine/SetRoutineTime.js:49-60 | a text in which `/(\d+)시\s+(\d+)분/` fits at no position converts to "00:00:00" |
| RoutineTime.NoMatchAtNonDigit | app/screens/Routine/SetRoutineTime.js:49 | the search skips a start that is not a digit |
| RoutineTime.LayoutMatch | app/screens/Routine/SetRoutineTime.js:49-53 | in a text shaped "xx H시 M분" the match at index 3 captures H and M |
| RoutineTime.DisplayText | app/screens/Routine/SetRoutineTime.js:106 | the display template "marker H시 M분"; DisplayTextLayout states its character layout |
| RoutineTime.DisplayTextLayout | app/screens/Routine/SetRoutineTime.js:106 | the character layout of the display template |
| RoutineTime.DisplayTextMatch | app/screens/Routine/SetRoutineTime.js:49-53 | the leftmost match in a display text captures its hour and minute fields |
| RoutineTime.Hour24 | app/screens/Routine/SetRoutineTime.js:55-56 | afternoon below 12 adds 12; a morning 12 becomes 0; every other hour is unchanged |
| RoutineTime.ConvertTimeFormat | app/screens/Routine/SetRoutineTime.js:46-61 | convertTimeFormat; its contract is ConvertTimeFormatNoMatch and ConvertTimeFormatNoPattern (text the regex does not match gives "00:00:00"), ConvertTimeFormatFields (on a match, the padded wire text of the adjusted hour and the minute, whose fields read them back) and ConvertDisplayText (display-shaped texts convert to the wire text of their numbers) |
| RoutineTime.ConvertTimeFormatNoMatch | app/screens/Routine/SetRoutineTime.js:49-60 | without a match the result is the default "00:00:00"; no error is signalled |
| RoutineTime.ConvertTimeFormatFields | app/screens/Routine/SetRoutineTime.js:46-59 | on a match the result is exactly the wire text `${padStart(2,'0') of hour}:${padStart(2,'0') of minute}:00` of the matched hour, adjusted by whether the text contains "오후", and the matched minute; it ends in ":00", and its three ':' fields read back as those two numbers |
| RoutineTime.WireText | app/screens/Routine/SetRoutineTime.js:58 | the wire template "HH:MM:00"; WireTextFields states its fields |
| RoutineTime.WireTextFields | app/screens/Routine/SetRoutineTime.js:58 | the wire text splits at ':' into the two padded numbers and "00", and `Number` reads the numbers back |
| RoutineTime.ConvertDisplayText | app/screens/Routine/SetRoutineTime.js:46-58 | convertTimeFormat of any display-shaped text is the wire text of its adjusted hour and its minute, with no range check |
| RoutineTime.Hour24Inverse | app/screens/Routine/SetRoutineTime.js:55-56 | the 12-hour reading of an hour, converted back to 24 hours, is that hour (noon and midnight included) |
| RoutineTime.TwelveHourInverse | app/screens/Routine/SetRoutineTime.js:55-56 | the other direction: a 24-hour hour made from a marker and 1..12 displays as the same marker and hour |
| RoutineTime.FormatTimeRoundTrip | app/screens/Routine/SetRoutineTime.js:46-107 | convertTimeFormat(formatTime(t)) is the two-digit hour, ':', the two-digit minute and ":00" |
| RoutineTime.WireTimeFields | app/screens/Routine/SetRoutineTime.js:58 | the wire text of a time is "HH:MM:00", and its fields read back the hour and minute |
| RoutineTime.FormatTimeInjective | app/screens/Routine/SetRoutineTime.js:99-107 | distinct times have distinct display texts |
| RoutineTime.ConvertAfternoonUnchecked | app/screens/Routine/SetRoutineTime.js:55-58 | after "오후" an hour of 12 or more and any minute pass straight through: no range check |
| RoutineTime.ConvertMorningUnchecked | app/screens/Routine/SetRoutineTime.js:52-58 | after "오전" every hour but 12 and any minute pass straight through ("오전 25시 70분" gives "25:70:00") |
| RoutineTime.ConvertWithoutDigitsIsMidnight | app/screens/Routine/SetRoutineTime.js:49-60 | a text without any digit has no match and converts to "00:00:00" |
| RoutineTime.MidnightWireText | app/screens/Routine/SetRoutineTime.js:58-60 | "00:00:00" is the wire text of midnight, so a text without a match and the display text of 00:00 convert alike |
| RoutineTime.SlotId | app/screens/Routine/SetRoutineTime.js:63-85 | ids run 1..4 in slot order |
| RoutineTime.SlotName | app/screens/Routine/SetRoutineTime.js:63-85 | the fixed schedule names "아침 식사 후", "점심 식사 후", "저녁 식사 후" and "취침 시간"; SlotTablesInjective states that they are distinct |
| RoutineTime.SettingType | app/screens/Routine/SetRoutineTime.js:144-153 | the four setting types of the switch; SettingSlotOfType states that each selects its slot |
| RoutineTime.SlotQuestion | app/screens/Routine/SetRoutineTime.js:164-171 | the modal question of each slot; GetModalTitleText states when it is shown |
| RoutineTime.SettingSlot | app/screens/Routine/SetRoutineTime.js:143-156 | a setting type names at most one slot, the one whose type it is |
| RoutineTime.SettingSlotOfType | app/screens/Routine/SetRoutineTime.js:143-156 | each slot's setting type selects that slot |
| RoutineTime.SlotTablesInjective | app/screens/Routine/SetRoutineTime.js:63-85 | the slots' names, ids, setting types and modal titles are pairwise distinct |
| RoutineTime.UpdatePayload | app/screens/Routine/SetRoutineTime.js:63-85 | exactly four records, in order, with ids 1..4, the fixed slot names, and convertTimeFormat of the matching slot text |
| RoutineTime.PayloadOfConverted | app/screens/Routine/SetRoutineTime.js:63-85 | the four records carry the slots' fixed ids and names, in slot order, and the conversions of the four slot texts |
| RoutineTime.PayloadOfTimes | app/screens/Routine/SetRoutineTime.js:63-85 | for slot texts made by formatTime, the records carry the wire texts of the picked times |
| RoutineTime.DefaultSlotTexts | app/screens/Routine/SetRoutineTime.js:110-127 | the initial slot texts are "오전 8시 00분", "오후 12시 00분", "오후 6시 00분" and "오후 10시 00분" |
| RoutineTime.WireTimeOnTheHour | app/screens/Routine/SetRoutineTime.js:58 | from 10 o'clock on, the wire text of a time on the hour is the hour's two digits followed by ":00:00" |
| RoutineTime.DefaultWireTimes | app/screens/Routine/SetRoutineTime.js:110-120 | the default times are sent as "08:00:00", "12:00:00", "18:00:00" and "22:00:00" |
| RoutineTime.RoutineTimeScreen.constructor | app/screens/Routine/SetRoutineTime.js:37-127 | picker closed, no setting type, the picked time is now, slots hold formatTime of the four defaults |
| RoutineTime.RoutineTimeScreen.OnTimeChange | app/screens/Routine/SetRoutineTime.js:129-132 | the picked time, or now when none is given; the slots are unchanged |
| RoutineTime.RoutineTimeScreen.OpenTimePicker | app/screens/Routine/SetRoutineTime.js:134-137 | records the setting type and opens the picker; the slots are unchanged |
| RoutineTime.RoutineTimeScreen.HandleConfirm | app/screens/Routine/SetRoutineTime.js:139-159 | only the slot the setting type names receives formatTime of the picked time; an unknown type changes no slot; the picker is closed |
| RoutineTime.RoutineTimeScreen.GetModalTitleText | app/screens/Routine/SetRoutineTime.js:162-175 | the generic prompt iff the setting type names no slot, otherwise that slot's question |
| RoutineTime.RoutineTimeScreen.SendDataToServer | app/screens/Routine/SetRoutineTime.js:42-97 | the attempted records are a non-empty prefix of the four-record payload; every attempted record except the last was accepted; the save succeeds iff all four were sent and accepted |
| RoutineTime.DispatchInOrder | app/screens/Routine/SetRoutineTime.js:87-97 | records are sent in order and the first failure ends the loop: the attempted records are a prefix, and success means that every record was sent and accepted |
| MedicineTime.Period | app/screens/Routine/SetMedicineTime.js:35 | "오전" iff the hour is a number below 12; NaN gives "오후" |
| MedicineTime.TwelveHourValue | app/screens/Routine/SetMedicineTime.js:36 | a number hour shows in 1..12, congruent modulo 12; NaN stays NaN |
| MedicineTime.FormatTime | app/screens/Routine/SetMedicineTime.js:33-38 | the text starts with "오전" iff the first ':' field is a number below 12 |
| MedicineTime.FormatTimeIgnoresSeconds | app/screens/Routine/SetMedicineTime.js:34 | texts whose first two fields agree format alike; the seconds are ignored |
| MedicineTime.FormatWireTime | app/screens/Routine/SetMedicineTime.js:33-38 | a wire time displays with its marker, its 12-hour hour and its minute unpadded |
| MedicineTime.DisplayTextsAgree | app/screens/Routine/SetMedicineTime.js:37 | this screen's text equals the routine screen's text iff the minute is at least 10 |
| MedicineTime.FormatWireTimeRoundTrip | app/screens/Routine/SetMedicineTime.js:33-38 | convertTimeFormat turns this screen's text of a wire time back into that wire time |
| MedicineTime.LastIndexOf | app/screens/Routine/SetMedicineTime.js:46-48 | the last item with a name, or -1 iff no item has it |
| MedicineTime.LastIndexOfAppend | app/screens/Routine/SetMedicineTime.js:46-48 | a later item with a name becomes the last one with it; other names keep their last item |
| MedicineTime.NamesAppend | app/screens/Routine/SetMedicineTime.js:46-48 | each item adds its name to the keys |
| MedicineTime.FormatSchedule | app/screens/Routine/SetMedicineTime.js:44-48 | one key per distinct item name; each value is formatTime of the last item with that name |
| MedicineTime.OrElse | app/screens/Routine/SetMedicineTime.js:76 | the stored text unless it is missing or empty |
| MedicineTime.ButtonTimeText | app/screens/Routine/SetMedicineTime.js:74-103 | a meal button shows its stored text when it is non-empty, and its fallback when none or an empty text is stored (`||`); the bedtime button always shows "오후 10시 30분" |
| MedicineTime.ButtonKey | app/screens/Routine/SetMedicineTime.js:76-94 | the schedule names the three meal buttons look up, the routine screen's slot names; the bedtime button looks up nothing, and its entry is only the bedtime slot's name |
| MedicineTime.ButtonFallback | app/screens/Routine/SetMedicineTime.js:76-103 | the fallback texts "오전 7시", "오후 12시", "오후 7시" and "오후 10시 30분"; ButtonTimeText states when they are shown |
| MedicineTime.ButtonTextAfterLoad | app/screens/Routine/SetMedicineTime.js:46-94 | after a load, a meal button shows the formatted time of the last item with its slot name, or its fallback when no item has it |
| MedicineTime.ToggledOption | app/screens/Routine/SetMedicineTime.js:20 | nothing is selected iff the option was already selected; otherwise the option is |
| MedicineTime.SelectTwice | app/screens/Routine/SetMedicineTime.js:19-21 | selecting twice restores the prior state iff it was nothing or the same option; from another option it ends with nothing selected |
| MedicineTime.MedicineTimeScreen.constructor | app/screens/Routine/SetMedicineTime.js:16-17 | nothing selected, empty schedule |
| MedicineTime.MedicineTimeScreen.HandleSelect | app/screens/Routine/SetMedicineTime.js:19-21 | the selection toggles; the schedule is unchanged |
| MedicineTime.MedicineTimeScreen.FetchUserSchedule | app/screens/Routine/SetMedicineTime.js:41-54 | a response makes the dictionary the formatted schedule; a failed call leaves it unchanged |
| SearchFilters.CategoryOf | app/screens/Search/SearchMedicineResults.js:227-237 | the category a type string names: 'color', 'shape', 'size', 'split' or none |
| SearchFilters.CategoryKey | app/screens/Search/SearchMedicineResults.js:28-33 | the keys 'color', 'shape', 'size' and 'split' of the filter record and of clearFilter's tests; CategoryOf is its inverse |
| SearchFilters.Filters.Get | app/screens/Search/SearchMedicineResults.js:157 | `prev[type]`: the list stored under a category; With states how it changes |
| SearchFilters.Filters.With | app/screens/Search/SearchMedicineResults.js:167-170 | the named category gets the new list; the other three are unchanged |
| SearchFilters.IndexOf | app/screens/Search/SearchMedicineResults.js:158 | `indexOf`: the first index holding the value, or -1 iff it is absent |
| SearchFilters.Toggled | app/screens/Search/SearchMedicineResults.js:155-172 | a present value loses its first occurrence, an absent one is appended at the end |
| SearchFilters.ToggledContents | app/screens/Search/SearchMedicineResults.js:157-165 | the multiset of values loses or gains exactly one copy of the toggled value; no other value's membership changes |
| SearchFilters.ToggleTwiceAbsent | app/screens/Search/SearchMedicineResults.js:157-165 | toggling an absent value twice gives back the original list |
| SearchFilters.ToggleTwicePresent | app/screens/Search/SearchMedicineResults.js:157-165 | toggling a present value of a duplicate-free list twice moves it to the end |
| SearchFilters.ToggleKeepsNoDuplicates | app/screens/Search/SearchMedicineResults.js:157-165 | a duplicate-free list stays duplicate-free, and afterwards holds the value iff it did not before |
| SearchFilters.CategoryLabel | app/screens/Search/SearchMedicineResults.js:177-179 | the empty-selection labels: '색상', '모양', '크기', and '분할선' for 'split' and every other type |
| SearchFilters.GetFilterButtonText | app/screens/Search/SearchMedicineResults.js:174-187 | no items give the category label; one item gives the item; n ≥ 2 items give the first item, " 외 ", then `toString` of n-1 (digits with no leading zero that read back as n-1), then "건" |
| SearchFilters.SearchResultsScreen.constructor | app/screens/Search/SearchMedicineResults.js:22-33 | no applied or temporary filters, modal closed |
| SearchFilters.SearchResultsScreen.OpenFilterModal | app/screens/Search/SearchMedicineResults.js:135-144 | the temporary filters become the applied lists; the modal opens |
| SearchFilters.SearchResultsScreen.ApplyFilters | app/screens/Search/SearchMedicineResults.js:146-153 | the applied lists become the temporary filters; the modal closes |
| SearchFilters.SearchResultsScreen.HandleFilterChange | app/screens/Search/SearchMedicineResults.js:155-172 | only the given category's temporary list changes, and it becomes the toggled list; the applied lists are unchanged |
| SearchFilters.SearchResultsScreen.ClearFilter | app/screens/Search/SearchMedicineResults.js:227-237 | only the named applied category is emptied; an unknown type changes nothing |
| SearchFilters.SearchResultsScreen.OpenThenApply | app/screens/Search/SearchMedicineResults.js:135-153 | opening the modal and applying with no toggles leaves the applied selection unchanged |
| SearchFilters.SearchResultsScreen.OpenToggleTwiceApply | app/screens/Search/SearchMedicineResults.js:135-172 | opening, toggling an absent value twice and applying leaves the applied selection unchanged |

## Left out

- Rendering is not modelled: JSX, styled components, modals, icons (`renderFilterButtonIcon`), the dummy search results and the colour tables.
- Navigation, `alert`, `console` output and the `onClose` handlers are not modelled.
- The network calls `updateUserSchedule` and `getUserSchedule` are not modelled. Each call's outcome is a parameter: `callSucceeds` for the save loop, an optional response for the schedule load. What the server does with the records is outside the app.
- A JavaScript `Date` is modelled as an hour in 0..23 and a minute in 0..59. Time zones, seconds and `new Date()` (passed as `now`) are not modelled.
- RoutineTime.FormatTime: the `if (!date) return ''` guard is not modelled, because every caller passes a Date.
- React state updates take effect immediately in the model. The asynchronous batching of state setters and stale closures are not modelled, because each user event is modelled as finishing before the next begins.
- JsText.JsNumber: `Number` also accepts surrounding white space, a sign, decimals, hexadecimal and exponents. The model treats such fields as NaN, because the wire texts the app reads are digit fields.
- JsText.ParseNatToString: JavaScript numbers lose precision above 2^53. The model's integers are unbounded, so digit runs that long are read exactly.
- JsText.NatToString: JavaScript's `toString` writes numbers from 1e21 on in exponent notation ("1e+21"). The model always writes plain decimal digits, so ConvertMorningUnchecked and ConvertAfternoonUnchecked overstate what happens to numbers that large.
- Strings are modelled as sequences of Unicode scalar values, not UTF-16 code units. This only matters for the emoji option titles, which are modelled as arbitrary strings.
- SearchFilters.SearchResultsScreen.HandleFilterChange: it takes a category, not a type string. In JavaScript an unknown type makes `[...prev[type]]` throw, and that path is not modelled.
- MedicineTime.MedicineTimeScreen.FetchUserSchedule: an exception partway through `forEach` is not modelled, because `formatTime` cannot throw on a string. A response whose items are not strings is also not modelled.
- MedicineTime.MedicineTimeScreen.constructor: the dictionary starts as an empty map. The source starts it as an empty array, which gives the same lookups.
