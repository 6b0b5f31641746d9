/** The medication guide: the five-slot medication schedule and its summary,
    the day-by-day reminder list, the treatment duration parser and the text
    for voice playback of a medication's instructions. */
module MedicationGuide {
  import opened Wrappers
  import opened Strings

  // ---------------------------------------------------------------------
  // Medications and time slots
  // ---------------------------------------------------------------------

  /** A medication dictionary; each key may be missing. */
  datatype Medication = Medication(
    name: Option<string>,
    dosage: Option<string>,
    frequency: Option<string>,
    timing: Option<string>,
    duration: Option<string>)

  /** The five keys of the schedule, in the order the summary lists them. */
  datatype Slot = Morning | Noon | Evening | Bedtime | AsNeeded

  const AllSlots: seq<Slot> := [Morning, Noon, Evening, Bedtime, AsNeeded]

  /** `med.get("frequency", "").lower()` (ASCII lower-casing). */
  function Frequency(m: Medication): string {
    Lower(m.frequency.GetOr(""))
  }

  /** `med.get("timing", "").lower()`. */
  function Timing(m: Medication): string {
    Lower(m.timing.GetOr(""))
  }

  /** The branch of the scheduling rule table a frequency falls in; the
      first rule that matches wins. */
  datatype FrequencyClass = ThreeTimes | Twice | Once | WhenNeeded | Unrecognised

  function ClassOf(m: Medication): FrequencyClass {
    var f := Frequency(m);
    if Contains(f, "每日3次") || Contains(f, "tid") then ThreeTimes
    else if Contains(f, "每日2次") || Contains(f, "bid") then Twice
    else if Contains(f, "每日1次") || Contains(f, "qd") then Once
    else if Contains(f, "必要时") || Contains(f, "prn") then WhenNeeded
    else Unrecognised
  }

  /** How many slots each class occupies. */
  function Weight(c: FrequencyClass): nat {
    match c
    case ThreeTimes => 3
    case Twice => 2
    case Once => 1
    case WhenNeeded => 1
    case Unrecognised => 0
  }

  /** A once-daily medication taken in the evening or at bedtime. */
  predicate TakenAtNight(m: Medication) {
    Contains(Timing(m), "晚") || Contains(Timing(m), "睡前")
  }

  /** The slots `create_medication_schedule` puts a medication into: as many
      as its class weighs, none twice, at most three. */
  function ScheduleSlots(m: Medication): (slots: seq<Slot>)
    ensures |slots| == Weight(ClassOf(m)) <= 3
    ensures forall i, j :: 0 <= i < j < |slots| ==> slots[i] != slots[j]
    ensures Bedtime in slots <==> ClassOf(m) == Once && TakenAtNight(m)
    ensures AsNeeded in slots <==> ClassOf(m) == WhenNeeded
  {
    match ClassOf(m)
    case ThreeTimes => [Morning, Noon, Evening]
    case Twice => [Morning, Evening]
    case Once => if TakenAtNight(m) then [Bedtime] else [Morning]
    case WhenNeeded => [AsNeeded]
    case Unrecognised => []
  }

  // ---------------------------------------------------------------------
  // The schedule
  // ---------------------------------------------------------------------

  /** The `schedule` dictionary: one list per slot. */
  datatype Schedule = Schedule(
    morning: seq<Medication>,
    noon: seq<Medication>,
    evening: seq<Medication>,
    bedtime: seq<Medication>,
    asNeeded: seq<Medication>)
  {
    function Get(slot: Slot): seq<Medication> {
      match slot
      case Morning => morning
      case Noon => noon
      case Evening => evening
      case Bedtime => bedtime
      case AsNeeded => asNeeded
    }
  }

  const EmptySchedule: Schedule := Schedule([], [], [], [], [])

  /** The medications of `meds` that go into `slot`, in input order. */
  function Bucket(meds: seq<Medication>, slot: Slot): seq<Medication> {
    if |meds| == 0 then []
    else
      Bucket(meds[..|meds| - 1], slot)
      + (if slot in ScheduleSlots(meds[|meds| - 1]) then [meds[|meds| - 1]] else [])
  }

  /** One step of the loop of `create_medication_schedule`: the `if`/`elif`
      chain that appends `med` to the lists of its slots. */
  method PlaceMedication(schedule: Schedule, med: Medication) returns (next: Schedule)
    ensures forall slot :: (next.Get(slot) ==
      schedule.Get(slot) + (if slot in ScheduleSlots(med) then [med] else []))
  {
    var frequency := Lower(med.frequency.GetOr(""));
    var timing := Lower(med.timing.GetOr(""));
    next := schedule;
    if Contains(frequency, "每日3次") || Contains(frequency, "tid") {
      next := next.(morning := next.morning + [med]);
      next := next.(noon := next.noon + [med]);
      next := next.(evening := next.evening + [med]);
    } else if Contains(frequency, "每日2次") || Contains(frequency, "bid") {
      next := next.(morning := next.morning + [med]);
      next := next.(evening := next.evening + [med]);
    } else if Contains(frequency, "每日1次") || Contains(frequency, "qd") {
      if Contains(timing, "晚") || Contains(timing, "睡前") {
        next := next.(bedtime := next.bedtime + [med]);
      } else {
        next := next.(morning := next.morning + [med]);
      }
    } else if Contains(frequency, "必要时") || Contains(frequency, "prn") {
      next := next.(asNeeded := next.asNeeded + [med]);
    }
  }

  /** What `create_medication_schedule` returns. */
  datatype ScheduleResult = ScheduleResult(success: bool, schedule: Schedule, summary: string)

  /** `create_medication_schedule`: every medication is appended, in input
      order, to the list of each of its slots. */
  method CreateMedicationSchedule(medications: seq<Medication>) returns (result: ScheduleResult)
    ensures result.success
    ensures forall slot :: result.schedule.Get(slot) == Bucket(medications, slot)
    ensures result.summary + "\n" == SummaryHeader + Concat(SummaryLines(result.schedule))
  {
    var schedule := EmptySchedule;
    var i := 0;
    while i < |medications|
      invariant i <= |medications|
      invariant forall slot :: schedule.Get(slot) == Bucket(medications[..i], slot)
    {
      schedule := PlaceMedication(schedule, medications[i]);
      assert medications[..i + 1][..i] == medications[..i];
      i := i + 1;
    }
    assert medications[..i] == medications;
    var summary := GenerateScheduleSummary(schedule);
    result := ScheduleResult(true, schedule, summary);
  }

  // ---------------------------------------------------------------------
  // Properties of the schedule
  // ---------------------------------------------------------------------

  /** A medication is in the list of a slot exactly when it is one of the
      medications and the slot is one of its slots. */
  lemma {:induction false} BucketMembership(meds: seq<Medication>, slot: Slot, m: Medication)
    ensures m in Bucket(meds, slot) <==> m in meds && slot in ScheduleSlots(m)
    decreases |meds|
  {
    if |meds| > 0 {
      var init := meds[..|meds| - 1];
      BucketMembership(init, slot, m);
      assert meds == init + [meds[|meds| - 1]];
    }
  }

  /** The list of a slot keeps the medications in input order. */
  lemma {:induction false} BucketIsSubsequence(meds: seq<Medication>, slot: Slot)
    ensures Subsequence(Bucket(meds, slot), meds)
    decreases |meds|
  {
    if |meds| > 0 {
      var init := meds[..|meds| - 1];
      var last := meds[|meds| - 1];
      BucketIsSubsequence(init, slot);
      var b := Bucket(meds, slot);
      if slot in ScheduleSlots(last) {
        assert b == Bucket(init, slot) + [last];
        assert b[..|b| - 1] == Bucket(init, slot);
        assert Subsequence(b[..|b| - 1], meds[..|meds| - 1]);
      } else {
        assert b == Bucket(init, slot) + [];
        assert b == Bucket(init, slot);
        assert Subsequence(b, meds[..|meds| - 1]);
      }
    }
  }

  /** How many of `meds` fall in class `c`. */
  function CountClass(meds: seq<Medication>, c: FrequencyClass): nat {
    if |meds| == 0 then 0
    else CountClass(meds[..|meds| - 1], c) + (if ClassOf(meds[|meds| - 1]) == c then 1 else 0)
  }

  /** The sizes of the five lists. */
  function TotalPlaced(meds: seq<Medication>): nat {
    |Bucket(meds, Morning)| + |Bucket(meds, Noon)| + |Bucket(meds, Evening)|
    + |Bucket(meds, Bedtime)| + |Bucket(meds, AsNeeded)|
  }

  /** One more medication adds as many entries as its class weighs. */
  lemma {:induction false} TotalPlacedSnoc(meds: seq<Medication>)
    requires |meds| > 0
    ensures TotalPlaced(meds) == TotalPlaced(meds[..|meds| - 1]) + Weight(ClassOf(meds[|meds| - 1]))
  {
    var last := meds[|meds| - 1];
    var slots := ScheduleSlots(last);
    assert |slots| == Weight(ClassOf(last));
  }

  /** The lists hold 3 entries per three-times-daily medication, 2 per
      twice-daily one and 1 per once-daily or as-needed one. */
  lemma {:induction false} TotalPlacedCount(meds: seq<Medication>)
    ensures TotalPlaced(meds) ==
      3 * CountClass(meds, ThreeTimes) + 2 * CountClass(meds, Twice)
      + CountClass(meds, Once) + CountClass(meds, WhenNeeded)
    decreases |meds|
  {
    if |meds| > 0 {
      TotalPlacedSnoc(meds);
      TotalPlacedCount(meds[..|meds| - 1]);
    }
  }

  // ---------------------------------------------------------------------
  // The summary
  // ---------------------------------------------------------------------

  const SummaryHeader: string := "您的用药时间安排：\n"

  /** The label a summary line starts with. */
  function SlotLabel(slot: Slot): string {
    match slot
    case Morning => "早上："
    case Noon => "中午："
    case Evening => "晚上："
    case Bedtime => "睡前："
    case AsNeeded => "必要时："
  }

  /** The summary line of a non-empty list. */
  function SlotLineText(schedule: Schedule, slot: Slot): string {
    SlotLabel(slot) + NatToString(|schedule.Get(slot)|) + "种药\n"
  }

  /** The summary lines a slot contributes: one for a non-empty list. */
  function SlotLine(schedule: Schedule, slot: Slot): seq<string> {
    if schedule.Get(slot) != [] then [SlotLineText(schedule, slot)] else []
  }

  /** One line per non-empty list, in the fixed slot order. */
  function SummaryLines(schedule: Schedule): seq<string> {
    SlotLine(schedule, Morning) + SlotLine(schedule, Noon) + SlotLine(schedule, Evening)
    + SlotLine(schedule, Bedtime) + SlotLine(schedule, AsNeeded)
  }

  /** A slot has a summary line exactly when its list is not empty, and the
      line states the size of the list. */
  lemma {:induction false} SummaryLineIffNonEmpty(schedule: Schedule, slot: Slot)
    ensures SlotLineText(schedule, slot) in SummaryLines(schedule) <==> schedule.Get(slot) != []
  {
    var line := SlotLineText(schedule, slot);
    if line in SummaryLines(schedule) {
      if line in SlotLine(schedule, Morning) {
        LabelIdentifiesSlot(schedule, Morning, slot);
      } else if line in SlotLine(schedule, Noon) {
        LabelIdentifiesSlot(schedule, Noon, slot);
      } else if line in SlotLine(schedule, Evening) {
        LabelIdentifiesSlot(schedule, Evening, slot);
      } else if line in SlotLine(schedule, Bedtime) {
        LabelIdentifiesSlot(schedule, Bedtime, slot);
      } else {
        assert line in SlotLine(schedule, AsNeeded);
        LabelIdentifiesSlot(schedule, AsNeeded, slot);
      }
    } else {
      assert line !in SlotLine(schedule, slot);
    }
  }

  /** Two slots' lines are equal only for the same slot: their labels
      differ in the first character and in the length ("早上" and "晚上"
      differ in the first, "必要时" is the only three-letter label). */
  lemma {:induction false} LabelIdentifiesSlot(schedule: Schedule, a: Slot, b: Slot)
    requires SlotLineText(schedule, a) == SlotLineText(schedule, b)
    ensures a == b
  {
    var la, lb := SlotLabel(a), SlotLabel(b);
    var ta, tb := SlotLineText(schedule, a), SlotLineText(schedule, b);
    assert ta[0] == la[0] && tb[0] == lb[0];
    assert ta[2] == la[2] && tb[2] == lb[2];
  }

  /** `_generate_schedule_summary`: the header, one line per non-empty list
      in the fixed order, then `strip()`, which removes only the final newline. */
  method GenerateScheduleSummary(schedule: Schedule) returns (summary: string)
    ensures summary + "\n" == SummaryHeader + Concat(SummaryLines(schedule))
  {
    summary := SummaryHeader;
    if schedule.morning != [] {
      summary := summary + ("早上：" + NatToString(|schedule.morning|) + "种药\n");
    }
    SlotStep(schedule, Morning, SummaryHeader, summary);
    ghost var shown := SlotLine(schedule, Morning);
    ghost var before := summary;
    if schedule.noon != [] {
      summary := summary + ("中午：" + NatToString(|schedule.noon|) + "种药\n");
    }
    SlotStep(schedule, Noon, before, summary);
    ConcatStep(SummaryHeader, shown, SlotLine(schedule, Noon), before, summary);
    shown, before := shown + SlotLine(schedule, Noon), summary;
    if schedule.evening != [] {
      summary := summary + ("晚上：" + NatToString(|schedule.evening|) + "种药\n");
    }
    SlotStep(schedule, Evening, before, summary);
    ConcatStep(SummaryHeader, shown, SlotLine(schedule, Evening), before, summary);
    shown, before := shown + SlotLine(schedule, Evening), summary;
    if schedule.bedtime != [] {
      summary := summary + ("睡前：" + NatToString(|schedule.bedtime|) + "种药\n");
    }
    SlotStep(schedule, Bedtime, before, summary);
    ConcatStep(SummaryHeader, shown, SlotLine(schedule, Bedtime), before, summary);
    shown, before := shown + SlotLine(schedule, Bedtime), summary;
    if schedule.asNeeded != [] {
      summary := summary + ("必要时：" + NatToString(|schedule.asNeeded|) + "种药\n");
    }
    SlotStep(schedule, AsNeeded, before, summary);
    ConcatStep(SummaryHeader, shown, SlotLine(schedule, AsNeeded), before, summary);
    StripFinalNewline(schedule, summary);
    summary := Strip(summary);
  }

  /** Appending the line of a non-empty list appends the text of its lines. */
  lemma {:induction false} SlotStep(schedule: Schedule, slot: Slot, before: string, after: string)
    requires after == if schedule.Get(slot) != [] then before + SlotLineText(schedule, slot) else before
    ensures after == before + Concat(SlotLine(schedule, slot))
  {
    if schedule.Get(slot) != [] {
      ConcatOne(SlotLineText(schedule, slot));
    } else {
      assert before + "" == before;
    }
  }

  /** The text before `strip()` starts with the header and ends with a
      newline after a non-space, so stripping removes that newline only. */
  lemma {:induction false} StripFinalNewline(schedule: Schedule, text: string)
    requires text == SummaryHeader + Concat(SummaryLines(schedule))
    ensures Strip(text) + "\n" == text
  {
    SummaryLinesEnd(schedule);
    SummaryTextEnds(SummaryLines(schedule), text);
    assert text[0] == '您' by {
      assert text[0] == SummaryHeader[0];
    }
    StripFinalNewlineOnly(text);
  }

  /** The text is the bare header or ends with a summary line. */
  lemma {:induction false} SummaryTextEnds(lines: seq<string>, text: string)
    requires text == SummaryHeader + Concat(lines)
    requires forall line :: line in lines ==> EndsWithMedicine(line)
    ensures |text| >= 2 && text[|text| - 1] == '\n'
    ensures text[|text| - 2] == '：' || text[|text| - 2] == '药'
  {
    if lines == [] {
      ConcatEmpty();
      assert text == SummaryHeader + "";
    } else {
      assert lines[|lines| - 1] in lines;
      ConcatLastChars(SummaryHeader, lines);
    }
  }

  /** A line ending in "药" and a newline. */
  predicate EndsWithMedicine(line: string) {
    |line| >= 2 && line[|line| - 2] == '药' && line[|line| - 1] == '\n'
  }

  lemma SlotLineEnds(schedule: Schedule, slot: Slot)
    ensures forall line :: line in SlotLine(schedule, slot) ==> EndsWithMedicine(line)
  {
    if schedule.Get(slot) != [] {
      var head := SlotLabel(slot) + NatToString(|schedule.Get(slot)|);
      var line := SlotLineText(schedule, slot);
      assert line == head + "种药\n";
      assert line[|line| - 2] == '药' && line[|line| - 1] == '\n';
    }
  }

  lemma SummaryLinesEnd(schedule: Schedule)
    ensures forall line :: line in SummaryLines(schedule) ==> EndsWithMedicine(line)
  {
    SlotLineEnds(schedule, Morning);
    SlotLineEnds(schedule, Noon);
    SlotLineEnds(schedule, Evening);
    SlotLineEnds(schedule, Bedtime);
    SlotLineEnds(schedule, AsNeeded);
  }

  // ---------------------------------------------------------------------
  // Reminders
  // ---------------------------------------------------------------------

  /** The slots `generate_reminders` sets reminders for: only the Chinese
      frequency codes are recognised, and never the bedtime slot. */
  function ReminderSlots(m: Medication): (slots: seq<Slot>)
    ensures Bedtime !in slots && AsNeeded !in slots
    ensures |slots| <= 3
  {
    var f := Frequency(m);
    if Contains(f, "每日3次") then [Morning, Noon, Evening]
    else if Contains(f, "每日2次") then [Morning, Evening]
    else if Contains(f, "每日1次") then [Morning]
    else []
  }

  /** The `reminder_times` table; `as_needed` has no entry. */
  function ReminderTime(slot: Slot): string
    requires slot != AsNeeded
  {
    match slot
    case Morning => "08:00"
    case Noon => "12:00"
    case Evening => "18:00"
    case Bedtime => "21:00"
  }

  /** Python's rendering of an optional text in an f-string. */
  function Show(v: Option<string>): string {
    match v
    case Some(s) => s
    case None => "None"
  }

  /** One reminder record; `date` is a day number. */
  datatype Reminder = Reminder(
    date: int,
    time: string,
    medication: Option<string>,
    dosage: Option<string>,
    timing: Option<string>,
    message: string)

  function MakeReminder(m: Medication, date: int, slot: Slot): Reminder
    requires slot != AsNeeded
  {
    Reminder(date, ReminderTime(slot), m.name, m.dosage, m.timing,
             "该吃药了：" + Show(m.name) + " " + Show(m.dosage))
  }

  /** `_parse_duration`: the value of the first run of digits, or 7 when
      there is none. */
  function ParseDuration(text: string): nat {
    var run := FirstDigitRun(text);
    if run == "" then 7 else DigitsValue(run)
  }

  /** The number of days reminders are set for; a missing duration is "7天". */
  function DurationDays(m: Medication): nat {
    ParseDuration(m.duration.GetOr("7天"))
  }

  /** The reminders of one medication on one day, slot by slot. */
  function DayReminders(m: Medication, date: int): (rs: seq<Reminder>)
    ensures |rs| == |ReminderSlots(m)|
  {
    var slots := ReminderSlots(m);
    seq(|slots|, k requires 0 <= k < |slots| => MakeReminder(m, date, slots[k]))
  }

  /** The reminders of one medication for its first `days` days from `start`. */
  function RemindersFor(m: Medication, start: int, days: nat): seq<Reminder> {
    if days == 0 then []
    else RemindersFor(m, start, days - 1) + DayReminders(m, start + days - 1)
  }

  /** The reminders of one medication: for each day from `start` on, one
      per slot, day by day and slot by slot. */
  function MedicationReminders(m: Medication, start: int): seq<Reminder> {
    RemindersFor(m, start, DurationDays(m))
  }

  /** The reminders of all medications, medication by medication. */
  function AllReminders(meds: seq<Medication>, start: int): seq<Reminder> {
    if |meds| == 0 then []
    else AllReminders(meds[..|meds| - 1], start) + MedicationReminders(meds[|meds| - 1], start)
  }

  /** `generate_reminders`: for each medication, for each of its days, one
      reminder per slot. */
  method GenerateReminders(medications: seq<Medication>, start: int) returns (reminders: seq<Reminder>)
    ensures reminders == AllReminders(medications, start)
  {
    reminders := [];
    var i := 0;
    while i < |medications|
      invariant i <= |medications|
      invariant reminders == AllReminders(medications[..i], start)
    {
      var med := medications[i];
      var durationDays := ParseDuration(med.duration.GetOr("7天"));
      var times := ReminderSlots(med);
      ghost var done := reminders;
      var day := 0;
      while day < durationDays
        invariant day <= durationDays
        invariant reminders == done + RemindersFor(med, start, day)
      {
        var date := start + day;
        ghost var today := DayReminders(med, date);
        ghost var before := reminders;
        var k := 0;
        while k < |times|
          invariant k <= |times|
          invariant reminders == before + today[..k]
        {
          TakeSnoc(today, k);
          AppendAssoc(before, today[..k], [today[k]]);
          reminders := reminders + [MakeReminder(med, date, times[k])];
          k := k + 1;
        }
        TakeAll(today);
        AppendAssoc(done, RemindersFor(med, start, day), today);
        day := day + 1;
      }
      assert medications[..i + 1][..i] == medications[..i];
      i := i + 1;
    }
    assert medications[..i] == medications;
  }

  // ---------------------------------------------------------------------
  // Properties of the reminders
  // ---------------------------------------------------------------------

  /** Each day contributes one reminder per slot. */
  lemma {:induction false} RemindersForCount(m: Medication, start: int, days: nat)
    ensures |RemindersFor(m, start, days)| == days * |ReminderSlots(m)|
  {
    if days > 0 {
      RemindersForCount(m, start, days - 1);
      assert days * |ReminderSlots(m)| == (days - 1) * |ReminderSlots(m)| + |ReminderSlots(m)|;
    }
  }

  /** The total number of reminders: each medication contributes its number
      of days times its number of slots. */
  function ReminderCount(meds: seq<Medication>): nat {
    if |meds| == 0 then 0
    else ReminderCount(meds[..|meds| - 1]) + DurationDays(meds[|meds| - 1]) * |ReminderSlots(meds[|meds| - 1])|
  }

  lemma {:induction false} AllRemindersCount(meds: seq<Medication>, start: int)
    ensures |AllReminders(meds, start)| == ReminderCount(meds)
    decreases |meds|
  {
    if |meds| > 0 {
      AllRemindersCount(meds[..|meds| - 1], start);
      RemindersForCount(meds[|meds| - 1], start, DurationDays(meds[|meds| - 1]));
    }
  }

  /** What every reminder of a medication for its first `days` days says. */
  predicate WellFormedReminder(m: Medication, start: int, days: nat, r: Reminder) {
    && r.time in ["08:00", "12:00", "18:00"]
    && r.medication == m.name && r.dosage == m.dosage && r.timing == m.timing
    && r.message == "该吃药了：" + Show(m.name) + " " + Show(m.dosage)
    && start <= r.date < start + days
  }

  lemma {:induction false} RemindersForWellFormed(m: Medication, start: int, days: nat)
    ensures forall r :: r in RemindersFor(m, start, days) ==> WellFormedReminder(m, start, days, r)
  {
    if days > 0 {
      RemindersForWellFormed(m, start, days - 1);
      var today := DayReminders(m, start + days - 1);
      forall r | r in today ensures WellFormedReminder(m, start, days, r) {
        var k :| 0 <= k < |today| && today[k] == r;
        assert ReminderSlots(m)[k] in ReminderSlots(m);
      }
    }
  }

  /** Every reminder is at 08:00, 12:00 or 18:00, names its medication,
      dosage and timing, and falls within the medication's duration. */
  lemma ReminderTimes(m: Medication, start: int)
    ensures forall r :: r in MedicationReminders(m, start) ==> WellFormedReminder(m, start, DurationDays(m), r)
  {
    RemindersForWellFormed(m, start, DurationDays(m));
  }

  /** Reminders whose dates never decrease. */
  predicate Chronological(rs: seq<Reminder>) {
    forall i, j :: 0 <= i < j < |rs| ==> rs[i].date <= rs[j].date
  }

  /** The reminders of a medication come day by day: their dates never decrease. */
  lemma {:induction false} RemindersChronological(m: Medication, start: int, days: nat)
    ensures Chronological(RemindersFor(m, start, days))
  {
    if days > 0 {
      RemindersChronological(m, start, days - 1);
      RemindersForWellFormed(m, start, days - 1);
      var rs := RemindersFor(m, start, days);
      var earlier := RemindersFor(m, start, days - 1);
      var today := DayReminders(m, start + days - 1);
      forall i, j | 0 <= i < j < |rs| ensures rs[i].date <= rs[j].date {
        if j < |earlier| {
          assert rs[i] == earlier[i] && rs[j] == earlier[j];
          assert Chronological(earlier);
        } else if i < |earlier| {
          assert rs[i] == earlier[i] && earlier[i] in earlier;
          assert WellFormedReminder(m, start, days - 1, earlier[i]);
          assert rs[j] == today[j - |earlier|];
          assert today[j - |earlier|].date == start + days - 1;
        } else {
          assert rs[i] == today[i - |earlier|] && rs[j] == today[j - |earlier|];
          assert today[i - |earlier|].date == start + days - 1;
          assert today[j - |earlier|].date == start + days - 1;
        }
      }
    }
  }

  // ---------------------------------------------------------------------
  // The two frequency tables disagree
  // ---------------------------------------------------------------------

  /** For the Chinese three-times code, and for the two-times code when no
      "tid" comes first in the schedule's table, both tables agree. */
  lemma {:induction false} ChineseCodesAgree(m: Medication)
    requires Contains(Frequency(m), "每日3次")
      || (Contains(Frequency(m), "每日2次") && !Contains(Frequency(m), "tid"))
    ensures ReminderSlots(m) == ScheduleSlots(m)
  {
  }

  /** A medication whose frequency has none of the Chinese codes gets no
      reminder, whatever its duration. */
  lemma NoChineseCodeNoReminder(m: Medication, start: int)
    requires !Contains(Frequency(m), "每日3次") && !Contains(Frequency(m), "每日2次")
      && !Contains(Frequency(m), "每日1次")
    ensures ReminderSlots(m) == [] && MedicationReminders(m, start) == []
  {
    RemindersForCount(m, start, DurationDays(m));
  }

  /** So a medication coded only "tid" is scheduled three times a day but
      never reminded of. */
  lemma TidGetsNoReminder(m: Medication, start: int)
    requires Contains(Frequency(m), "tid")
    requires !Contains(Frequency(m), "每日3次") && !Contains(Frequency(m), "每日2次")
      && !Contains(Frequency(m), "每日1次")
    ensures ScheduleSlots(m) == [Morning, Noon, Evening]
    ensures ReminderSlots(m) == [] && MedicationReminders(m, start) == []
  {
    NoChineseCodeNoReminder(m, start);
  }

  /** With the morning as its only reminder slot, a medication gets one
      morning reminder on each day, in date order. */
  lemma {:induction false} MorningOnlyReminders(m: Medication, start: int, days: nat)
    requires ReminderSlots(m) == [Morning]
    ensures |RemindersFor(m, start, days)| == days
    ensures forall k :: 0 <= k < days ==> RemindersFor(m, start, days)[k] == MakeReminder(m, start + k, Morning)
  {
    if days > 0 {
      MorningOnlyReminders(m, start, days - 1);
      assert DayReminders(m, start + days - 1) == [MakeReminder(m, start + days - 1, Morning)];
    }
  }

  /** A once-daily medication taken at night is put in the bedtime list,
      but reminded of at 08:00 on every day of its duration. */
  lemma BedtimeRemindedInMorning(m: Medication, start: int)
    requires ClassOf(m) == Once && TakenAtNight(m)
    requires Contains(Frequency(m), "每日1次")
    requires !Contains(Frequency(m), "每日3次") && !Contains(Frequency(m), "每日2次")
    ensures ScheduleSlots(m) == [Bedtime] && ReminderSlots(m) == [Morning]
    ensures |MedicationReminders(m, start)| == DurationDays(m)
    ensures forall k :: 0 <= k < DurationDays(m) ==>
      MedicationReminders(m, start)[k] == MakeReminder(m, start + k, Morning)
      && MedicationReminders(m, start)[k].time == "08:00"
  {
    MorningOnlyReminders(m, start, DurationDays(m));
  }

  // ---------------------------------------------------------------------
  // Durations and voice text
  // ---------------------------------------------------------------------

  /** A duration is read as the value of its first run of digits (leading
      zeros included): text without digits before the run, and no digit
      right after it. */
  lemma {:induction false} ParseDurationOf(pre: string, ds: string, post: string)
    requires forall i :: 0 <= i < |pre| ==> !IsDigit(pre[i])
    requires ds != "" && AllDigits(ds)
    requires post == "" || !IsDigit(post[0])
    ensures ParseDuration(pre + ds + post) == DigitsValue(ds)
  {
    FirstDigitRunOf(pre, ds, post);
  }

  /** `str(n) + "天"` parses back to `n`; the default "7天" is 7 days. */
  lemma {:induction false} ParseDurationRoundTrip(n: nat)
    ensures ParseDuration(NatToString(n) + "天") == n
    ensures ParseDuration("7天") == 7
  {
    ParseDurationOf("", NatToString(n), "天");
    assert "" + NatToString(n) + "天" == NatToString(n) + "天";
    NatToStringRoundTrip(n);
    ParseDurationOf("", "7", "天");
    assert "" + "7" + "天" == "7天";
  }

  /** Text without digits gives the default of 7 days. */
  lemma {:induction false} ParseDurationDefault(text: string)
    requires forall i :: 0 <= i < |text| ==> !IsDigit(text[i])
    ensures ParseDuration(text) == 7
  {
    FirstDigitRunEmpty(text);
  }

  /** `_generate_voice_instructions`: the name, "的服用方法：", and the first
      200 characters of the instructions. */
  function VoiceInstructions(medicationName: string, instructions: string): (voice: string)
    ensures HasPrefix(voice, medicationName + "的服用方法：")
    ensures |voice| == |medicationName| + 6 + (if |instructions| < 200 then |instructions| else 200)
    ensures |instructions| <= 200 ==> voice == medicationName + "的服用方法：" + instructions
    ensures voice[|medicationName| + 6..] <= instructions
  {
    var cut := if |instructions| < 200 then |instructions| else 200;
    var head := medicationName + "的服用方法：";
    var voice := head + instructions[..cut];
    PrefixSelf(head);
    PrefixOfAppend(head, instructions[..cut], head);
    assert voice[|head|..] == instructions[..cut];
    voice
  }
}
