# Medical-Escort agents in Dafny

This project models the deterministic core of the Medical-Escort assistant.
The assistant accompanies elderly patients through a hospital visit, and its
core is four agent classes in `agents/`:

- **SymptomAnalyzer** (`symptom_analyzer.dfy`). It builds the prompt sent to
  the language model and parses the model's labelled reply into a triage
  record: recommended department, alternatives, urgency and advice. It also
  looks up departments in a fixed guide table.
- **MedicationGuide** (`medication_guide.dfy`). It sorts medications into five
  time-of-day buckets with a first-match rule table and writes the schedule
  summary. It expands the medications into dated reminders and parses
  treatment durations. It also shortens instructions into voice text.
- **GuidanceAgent** (`guidance_agent.dfy`). This is the visit-process guide:
  - a fixed seven-step order and a next-step lookup;
  - per-step guidance with tips;
  - two numbered voice-text builders;
  - location guides with a default;
  - the rules for personalised notes.
- **AppointmentAgent** (`appointment_agent.dfy`). It has a department filter
  over a constant hospital table, a list of upcoming dates and constant slot
  data. Booking and cancellation results echo their inputs, and the QR code is
  derived from the appointment number.

`strings.dfy` models the Python string operations these agents rely on:
- `strip`, `split`, `join`, `find` and `in`;
- ASCII `lower`, and `replace` of one character;
- the first `\d+` match and `str(int)`.

`wrappers.dfy` holds `Option` and `Result`.

The agents keep no mutable state between calls. Each one is a module:
- Straight-line dictionary building becomes functions.
- Every `for` loop of the source becomes a `method` with a `while` loop. Each such
  method is proved equal to a declarative specification function, and the
  lemmas state the source's promises about that function.

The methods are:
- the reply parser `ParseAiResponse`;
- `CreateMedicationSchedule` and `GenerateScheduleSummary`;
- `GenerateReminders`;
- `GenerateVoiceGuidance` and `StepVoiceText`;
- `AvailableDates`.

Dates are integer day numbers, the current time and the generated timestamp
are parameters, and the language model's reply is a `Result<string>`
parameter.

Two behaviours of the code are easy to misread, and the model keeps both:

- **Advice text.** Advice is the reply text after the whole stripped advice
  line, stripped (agents/symptom_analyzer.py:150-153). Advice written on the
  label's own line is therefore dropped. `AdviceAfterOccurrence` states this.
- **Reminder codes.** Reminders recognise only the Chinese frequency codes
  `每日3次/每日2次/每日1次` (agents/medication_guide.py:222-230). So a
  medication whose frequency has none of the Chinese codes gets no reminder
  (`NoChineseCodeNoReminder`), even when bucketing schedules it under
  `tid`/`bid`/`qd` (`TidGetsNoReminder`). A once-daily medication taken at
  night is bucketed at bedtime but reminded at 08:00 every day
  (`BedtimeRemindedInMorning`). The reminder table and the bucketing table
  agree only on the Chinese codes (`ChineseCodesAgree`).

## Model

| member | source | states |
|---|---|---|
| `SymptomAnalyzer.ParseAiResponse` | agents/symptom_analyzer.py:117-155 | the line-by-line pass with its `break` yields exactly `ParsedReply`: each field holds the value of the last matching line before the first advice line, or its default |
| `SymptomAnalyzer.ReadLine` | agents/symptom_analyzer.py:132-153 | one loop iteration: it stops exactly on an advice line, and on stopping it has produced the final result; otherwise the rest of the scan is unchanged |
| `SymptomAnalyzer.NoLabelGivesDefaults` | agents/symptom_analyzer.py:119-127 | a reply without any recognised label line parses to the initial record: `内科`, no alternatives, `normal`, empty advice, with both inputs echoed |
| `SymptomAnalyzer.DepartmentTokens` | agents/symptom_analyzer.py:137 | splitting the department value never yields an empty list |
| `SymptomAnalyzer.EmptyDepartmentValue` | agents/symptom_analyzer.py:137-139 | a department line with nothing after its label sets the primary department to `""` and gives no alternatives |
| `SymptomAnalyzer.ScanFieldsSnocDepartment` | agents/symptom_analyzer.py:134-141 | a department line sets the primary department to the first token, and replaces the alternatives only when there are two or more tokens; the urgency is kept, so the department label wins over the urgency label on the same line |
| `SymptomAnalyzer.ScanFieldsSnocUrgency` | agents/symptom_analyzer.py:143-148 | a line with the urgency label and no department label changes only the urgency |
| `SymptomAnalyzer.ScanFieldsSnocOther` | agents/symptom_analyzer.py:134-150 | a line with neither label leaves department, alternatives and urgency unchanged |
| `SymptomAnalyzer.UrgencyOf` | agents/symptom_analyzer.py:144-148 | the three-way classification: `normal` exactly when the value contains neither `urgent` nor `紧急`; with a marker, `urgent` when the value lacks `semi`, and never `urgent` when it contains `semi` |
| `SymptomAnalyzer.ScanFieldsAppend` | agents/symptom_analyzer.py:131-148 | over two runs of lines, each field comes from the second run when that run has a line of the field's kind, and from the first run otherwise |
| `SymptomAnalyzer.LaterDepartmentLineOverrides` | agents/symptom_analyzer.py:131-148 | for a reply `a + "\n" + b` with no advice line in `a`, a department, listing or urgency line in `b` overrides what `a` set, and otherwise `a`'s value stands |
| `SymptomAnalyzer.AdviceLineEndsScan` | agents/symptom_analyzer.py:150-153 | once an advice line has occurred, later text cannot change the department, alternatives or urgency |
| `SymptomAnalyzer.AdviceAfterOccurrence` | agents/symptom_analyzer.py:151-152 | the advice is the stripped text of the whole reply after the first occurrence of the stripped advice line, and that occurrence exists |
| `SymptomAnalyzer.StrippedLineOccurs` | agents/symptom_analyzer.py:129-152 | every stripped line occurs in the reply, so the `find` in the advice branch never returns -1 |
| `SymptomAnalyzer.ScanFromParses` | agents/symptom_analyzer.py:129-155 | the step-wise scan from the initial record computes `ParsedReply` |
| `SymptomAnalyzer.BuildPrompt` | agents/symptom_analyzer.py:82-115 | the prompt starts with `患者症状：{symptoms}`; without patient data it is followed directly by the fixed questions; with patient data, the patient block comes first |
| `SymptomAnalyzer.AddPatientBlock` | agents/symptom_analyzer.py:86-96 | the patient block is the header line followed by the lines of the truthy fields, in the order age, gender, chronic diseases, allergies |
| `SymptomAnalyzer.PatientLineShownIffTruthy` | agents/symptom_analyzer.py:86-95 | a field's line appears in the block exactly when that field is truthy |
| `SymptomAnalyzer.LineField` | agents/symptom_analyzer.py:86-95 | every line of the block is the line of some truthy field |
| `SymptomAnalyzer.LabelIdentifiesField` | agents/symptom_analyzer.py:88-95 | the field labels are distinct, so a line's label names its field |
| `SymptomAnalyzer.AnalyzeSymptoms` | agents/symptom_analyzer.py:41-80 | a model reply is parsed; a failed call gives the fallback record `内科` / `normal` / fixed advice, carrying the error text |
| `SymptomAnalyzer.GetDepartmentInfo` | agents/symptom_analyzer.py:157-183 | a known department gets its table entry; any other gets a description naming it, the fixed preparation text and no common symptoms, and only those have no common symptoms |
| `MedicationGuide.ScheduleSlots` | agents/medication_guide.py:169-182 | a medication gets 3, 2, 1 or 0 distinct slots by its frequency class; bedtime exactly for once-daily with a night timing; as-needed exactly for `必要时`/`prn` |
| `MedicationGuide.PlaceMedication` | agents/medication_guide.py:169-182 | placing a medication appends it to exactly the buckets of its slots and leaves the others unchanged |
| `MedicationGuide.CreateMedicationSchedule` | agents/medication_guide.py:142-190 | every bucket is the input filtered to the medications scheduled in that slot, in input order; `success` is true; the summary is the stripped summary text |
| `MedicationGuide.BucketMembership` | agents/medication_guide.py:155-182 | a medication is in a bucket exactly when it is in the input and that slot is one of its slots |
| `MedicationGuide.BucketIsSubsequence` | agents/medication_guide.py:155-163 | each bucket is an order-preserving subsequence of the input |
| `MedicationGuide.TotalPlacedSnoc` | agents/medication_guide.py:163-182 | each further medication adds its number of slots to the total bucket size |
| `MedicationGuide.TotalPlacedCount` | agents/medication_guide.py:169-182 | the total bucket size is 3·(three times) + 2·(twice) + (once) + (as needed) |
| `MedicationGuide.GenerateScheduleSummary` | agents/medication_guide.py:342-357 | the stripped summary, with its final newline restored, is the header followed by one line per non-empty bucket in the fixed slot order |
| `MedicationGuide.SummaryLineIffNonEmpty` | agents/medication_guide.py:346-355 | a slot's count line is in the summary exactly when its bucket is non-empty |
| `MedicationGuide.LabelIdentifiesSlot` | agents/medication_guide.py:347-355 | two slots' summary lines are equal only when the slots are the same |
| `MedicationGuide.StripFinalNewline` | agents/medication_guide.py:357 | `strip()` removes only the final newline of the summary text |
| `MedicationGuide.SummaryTextEnds` | agents/medication_guide.py:344-357 | the summary text ends with a newline preceded by `：` or `药`, never by white space |
| `MedicationGuide.SlotLineEnds` | agents/medication_guide.py:347-355 | every count line ends in `种药\n` |
| `MedicationGuide.SummaryLinesEnd` | agents/medication_guide.py:346-355 | every line of the summary ends in `种药\n` |
| `MedicationGuide.ReminderSlots` | agents/medication_guide.py:224-230 | reminder slots never include bedtime or as-needed, and there are at most three |
| `MedicationGuide.DayReminders` | agents/medication_guide.py:235-243 | a medication gets one reminder per reminder slot on each day |
| `MedicationGuide.GenerateReminders` | agents/medication_guide.py:192-247 | the nested loops yield exactly `AllReminders`: by medication in input order, then day `0..n-1`, then slot order |
| `MedicationGuide.RemindersForCount` | agents/medication_guide.py:233-243 | a medication yields exactly duration × number of slots reminders |
| `MedicationGuide.AllRemindersCount` | agents/medication_guide.py:219-243 | the total is the sum over medications of duration × number of slots |
| `MedicationGuide.RemindersForWellFormed` | agents/medication_guide.py:211-243 | each reminder is dated within the window, has time 08:00, 12:00 or 18:00, echoes name, dosage and timing, and has the message `该吃药了：{name} {dosage}` |
| `MedicationGuide.ReminderTimes` | agents/medication_guide.py:219-243 | the same holds for the duration parsed from the medication, `7天` when it is missing |
| `MedicationGuide.RemindersChronological` | agents/medication_guide.py:233-235 | one medication's reminder dates never decrease |
| `MedicationGuide.ChineseCodesAgree` | agents/medication_guide.py:169-228 | for `每日3次`, and for `每日2次` without `tid`, reminder slots equal schedule slots |
| `MedicationGuide.NoChineseCodeNoReminder` | agents/medication_guide.py:224-243 | every medication whose frequency has none of `每日3次/每日2次/每日1次` gets no reminder slot and no reminder, whatever its duration |
| `MedicationGuide.TidGetsNoReminder` | agents/medication_guide.py:169-230 | every medication whose frequency has `tid` but no Chinese code is scheduled morning, noon and evening and gets no reminder |
| `MedicationGuide.MorningOnlyReminders` | agents/medication_guide.py:233-243 | with the morning as the only reminder slot, day k of the window gets exactly one 08:00 reminder, dated start + k |
| `MedicationGuide.BedtimeRemindedInMorning` | agents/medication_guide.py:176-230 | every once-daily medication taken at night with the code `每日1次` is bucketed at bedtime only, and gets one 08:00 reminder on each day of its duration |
| `MedicationGuide.ParseDurationOf` | agents/medication_guide.py:324-330 | the duration is `int` of the first digit run, leading zeros included, whatever non-digit text surrounds it |
| `MedicationGuide.ParseDurationRoundTrip` | agents/medication_guide.py:324-330 | writing `n天` and parsing it gives `n`; the default `7天` gives 7 |
| `MedicationGuide.ParseDurationDefault` | agents/medication_guide.py:330 | text without digits gives 7 |
| `MedicationGuide.VoiceInstructions` | agents/medication_guide.py:332-340 | the voice text is the name, `的服用方法：` and the first at most 200 characters of the instructions; shorter instructions appear whole |
| `GuidanceAgent.StepOrderDistinct` | agents/guidance_agent.py:297-300 | the seven steps of the visit order are distinct |
| `GuidanceAgent.StepOrderCoversTable` | agents/guidance_agent.py:15-80 | the ordered steps are exactly the keys of the process table |
| `GuidanceAgent.IndexOf` | agents/guidance_agent.py:302 | `list.index`: the first position of the value, with absence shown as the length |
| `GuidanceAgent.IndexOfDistinct` | agents/guidance_agent.py:302 | in a list without repeats, the index of the i-th element is i |
| `GuidanceAgent.NextStep` | agents/guidance_agent.py:295-310 | there is a next step exactly for a known step other than `follow_up` |
| `GuidanceAgent.NextStepFollowsOrder` | agents/guidance_agent.py:297-306 | the next step of the i-th step is the name of the (i+1)-th step |
| `GuidanceAgent.StepTips` | agents/guidance_agent.py:269-293 | steps with tips get their three tips; every other step gets `[]` |
| `GuidanceAgent.TipsOnlyForSteps` | agents/guidance_agent.py:271-293 | tips exist only for known steps; examination, payment and follow-up have none |
| `GuidanceAgent.LocationGuidance` | agents/guidance_agent.py:156-209 | a known target gets its table entry; an unknown one gets the two-step route, no landmarks and a description from which the target can be read back |
| `GuidanceAgent.LocationGuidanceProperties` | agents/guidance_agent.py:156-209 | the hospital id does not affect the result; every known location has landmarks |
| `GuidanceAgent.ParseNumberedLine` | agents/guidance_agent.py:234-235 | a numbered line can be read back to its number and its text |
| `GuidanceAgent.GenerateVoiceGuidance` | agents/guidance_agent.py:211-237 | an unknown step gives the fixed text; a known step gives the header followed by one numbered line per instruction |
| `GuidanceAgent.NumberedLines` | agents/guidance_agent.py:234-235 | one numbered line per instruction |
| `GuidanceAgent.StepVoiceLines` | agents/guidance_agent.py:229-237 | the loop builds the header followed by the numbered lines |
| `GuidanceAgent.VoiceLineNumbered` | agents/guidance_agent.py:234-236 | the i-th voice line reads `第{i+1}步，{instruction i}。` |
| `GuidanceAgent.StepVoiceText` | agents/guidance_agent.py:312-317 | the text is the stripped header followed by the `{i}. instruction` lines |
| `GuidanceAgent.GuideLineNumbered` | agents/guidance_agent.py:315-316 | the i-th guide line reads `{i+1}. {instruction i}` |
| `GuidanceAgent.StripRemovesFinalNewline` | agents/guidance_agent.py:317 | for the table's steps, `strip()` removes only the final newline |
| `GuidanceAgent.TableTrimmed` | agents/guidance_agent.py:15-80 | every step has instructions, and no step name or instruction of the table is empty or begins or ends with white space |
| `GuidanceAgent.PersonalizeGuidance` | agents/guidance_agent.py:319-335 | the notes are exactly the ones the rules give: the age note when over seventy, and for examination the cardiology note before the digestion note |
| `GuidanceAgent.NotesForUnique` | agents/guidance_agent.py:319-335 | the note rules determine the notes completely |
| `GuidanceAgent.DeptNoteOnlyForExamination` | agents/guidance_agent.py:328-333 | no department note outside the examination step |
| `GuidanceAgent.GetCurrentStepGuidance` | agents/guidance_agent.py:118-154 | an unknown step gives exactly the error `未知步骤`; a known step gives its name, steps, tips, next step and voice text; personalised notes appear exactly when a context is given |
| `AppointmentAgent.OffsetDates` | agents/appointment_agent.py:218-224 | there is one date per requested day |
| `AppointmentAgent.AvailableDates` | agents/appointment_agent.py:218-224 | the loop yields the dates at offsets 1..n from today, and none for negative n |
| `AppointmentAgent.OffsetDatesAscending` | agents/appointment_agent.py:221-223 | the dates ascend strictly and lie after today, within n days |
| `AppointmentAgent.HospitalTable` | agents/appointment_agent.py:35-63 | the table has three hospitals |
| `AppointmentAgent.SearchHospitals` | agents/appointment_agent.py:19-73 | no department or an empty one returns the whole table; otherwise the table filtered by department |
| `AppointmentAgent.OffersIffSomeEntryContains` | agents/appointment_agent.py:69 | the exact-membership disjunct is redundant: the filter test holds exactly when some entry contains the department |
| `AppointmentAgent.FilterMembership` | agents/appointment_agent.py:66-70 | a hospital is kept exactly when it is in the table and some department entry contains the search text |
| `AppointmentAgent.FilterKeepsOrder` | agents/appointment_agent.py:67-70 | the result keeps table order |
| `AppointmentAgent.SearchCardiology` | agents/appointment_agent.py:35-70 | searching `心血管` returns only the city hospital |
| `AppointmentAgent.NoEntryContains` | agents/appointment_agent.py:69 | a search text whose first character is in none of the entries matches none of them |
| `AppointmentAgent.GetAvailableSlots` | agents/appointment_agent.py:75-116 | nine slots: the five morning slots followed by the four afternoon slots |
| `AppointmentAgent.SlotsAvailable` | agents/appointment_agent.py:96-110 | exactly the 09:00-09:30 and 15:00-15:30 slots are unavailable |
| `AppointmentAgent.AppointmentInstructionsText` | agents/appointment_agent.py:226-248 | stripping removes only the outer blank lines and indentation of the notice, which names the hospital, department and time |
| `AppointmentAgent.MakeAppointment` | agents/appointment_agent.py:144-159 | the number starts with `GH` and the QR code with `QR_GH`; the hospital, department, doctor, time and patient details are echoed; the instructions are the notice naming the hospital, department and time |
| `AppointmentAgent.QrCodeRoundTrip` | agents/appointment_agent.py:144-156 | the QR code is `QR_` + the appointment number, and the timestamp can be recovered from it |
| `AppointmentAgent.CancelAppointment` | agents/appointment_agent.py:187-191 | cancelling succeeds with the fixed message `预约已取消` and echoes the appointment number |
| `AppointmentAgent.CancelNamesBooking` | agents/appointment_agent.py:144-191 | cancelling a booking's number echoes `GH` + the booking's timestamp |

## Left out

- Language-model calls are not modelled. They are in `parse_prescription` and `get_medication_instructions` (agents/medication_guide.py:51-64, 108-121), and in the model call of `analyze_symptoms` (agents/symptom_analyzer.py:46-61). The reply or the error text is a parameter instead.
- `datetime.now`, `fromisoformat`, `timedelta` and `strftime` are not modelled. Dates are integer day numbers, and the appointment timestamp is a string parameter.
- Logging is left out.
- `lower()` is ASCII-only, and `\d` matches ASCII digits only. Unicode case folding and other digit characters are not modelled.
- A dictionary key that holds `None` is modelled as a missing key. A missing `frequency` or `timing` reads as `""`, as in the source. A `frequency` or `timing` key holding `None` would raise on `.lower()` in Python, but the model reads it as `""`.
- `MedicationGuide.DurationDays`: a `duration` key holding `None` reaches `re.search` in Python and raises `TypeError` (agents/medication_guide.py:220, 327). The model gives 7 days instead, as for a missing key.
- A context dictionary given but empty is not modelled. Context and patient data are `Option` values, and `None` stands for both "absent" and "empty".
- `get_full_guidance`, `_generate_timeline`, `_get_emergency_info`, `get_pharmacy_guidance`, `check_drug_interactions` and `get_appointment_status` are left out. They only return constant tables or echo records.
- The `except` branches of `make_appointment` and `cancel_appointment` are left out. Once time is a parameter, nothing in their bodies can raise.
- Some arguments are accepted but unused in the source: the `location` argument of `search_hospitals`, the `hospital_id` of `get_location_guidance` and `get_available_slots`, and the `language` argument of `generate_voice_guidance`. The model drops `language` and keeps the others as unused parameters.
- The HTTP API (`api/`), the ORM models, the database and configuration modules, the demo client and the frontend are outside this model.
- `SymptomAnalyzer.AnalyzeSymptoms`: the prompt is only stated to start with the symptom line. `BuildPrompt` states it in full.
- `MedicationGuide.GenerateScheduleSummary`: the summary is stated as the text whose `strip()` it is, with the final newline restored. `StripFinalNewline` shows that this determines it.
