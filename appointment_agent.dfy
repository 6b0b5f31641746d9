/** The appointment agent: the hospital search with its department filter,
    the bookable dates and time slots, and the records of a booking and of a
    cancellation. Dates are day numbers counted from a given `today`; the
    booking time stamp is a parameter. */
module AppointmentAgent {
  import opened Wrappers
  import opened Strings

  // ---------------------------------------------------------------------
  // Bookable dates
  // ---------------------------------------------------------------------

  /** The days `today + 1` to `today + days`. */
  function OffsetDates(today: int, days: nat): (dates: seq<int>)
    ensures |dates| == days
  {
    seq(days, i requires 0 <= i < days => today + i + 1)
  }

  /** `_get_available_dates`: one date per day of `range(1, days + 1)`,
      which is empty for `days <= 0`. */
  method AvailableDates(today: int, days: int) returns (dates: seq<int>)
    ensures dates == OffsetDates(today, if days < 0 then 0 else days)
  {
    dates := [];
    var i := 1;
    while i < days + 1
      invariant 1 <= i <= (if days < 0 then 1 else days + 1)
      invariant dates == OffsetDates(today, i - 1)
    {
      assert OffsetDates(today, i) == OffsetDates(today, i - 1) + [today + i];
      dates := dates + [today + i];
      i := i + 1;
    }
  }

  /** The dates are strictly ascending and all lie in the `days` days after `today`. */
  lemma {:induction false} OffsetDatesAscending(today: int, days: nat)
    ensures forall i, j :: 0 <= i < j < days ==> OffsetDates(today, days)[i] < OffsetDates(today, days)[j]
    ensures forall i :: 0 <= i < days ==> today < OffsetDates(today, days)[i] <= today + days
  {
  }

  // ---------------------------------------------------------------------
  // Hospital search
  // ---------------------------------------------------------------------

  datatype Hospital = Hospital(
    id: string,
    name: string,
    address: string,
    level: string,
    distance: string,
    departments: seq<string>,
    availableDates: seq<int>)

  const CityDepartments: seq<string> := ["内科", "外科", "心血管内科", "消化内科", "骨科"]
  const ChineseMedicineDepartments: seq<string> := ["中医内科", "针灸科", "康复科", "骨伤科"]
  const DistrictDepartments: seq<string> := ["内科", "外科", "儿科", "妇科"]

  /** The three hospitals of `search_hospitals`, in table order. */
  function HospitalTable(today: int): (hs: seq<Hospital>)
    ensures |hs| == 3
  {
    [ Hospital("h001", "市人民医院", "城区人民路123号", "三甲", "2.5公里", CityDepartments, OffsetDates(today, 7)),
      Hospital("h002", "市中医院", "城区中山路456号", "三甲", "3.8公里", ChineseMedicineDepartments, OffsetDates(today, 7)),
      Hospital("h003", "区中心医院", "新区建设路789号", "二甲", "4.2公里", DistrictDepartments, OffsetDates(today, 5)) ]
  }

  /** `any(department in d for d in departments)`. */
  predicate SomeEntryContains(departments: seq<string>, department: string) {
    exists i :: 0 <= i < |departments| && Contains(departments[i], department)
  }

  /** The condition of the filter: an exact entry or an entry containing the department. */
  predicate Offers(h: Hospital, department: string) {
    department in h.departments || SomeEntryContains(h.departments, department)
  }

  /** The list comprehension of the filter, in order. */
  function FilterHospitals(hs: seq<Hospital>, department: string): seq<Hospital> {
    if |hs| == 0 then []
    else
      FilterHospitals(hs[..|hs| - 1], department)
      + (if Offers(hs[|hs| - 1], department) then [hs[|hs| - 1]] else [])
  }

  /** `search_hospitals`: builds the table with its dates and, when the
      department is given and non-empty, keeps the hospitals that offer it.
      The location is not used. */
  method SearchHospitals(location: string, department: Option<string>, today: int)
    returns (hospitals: seq<Hospital>)
    ensures department.None? || department == Some("") ==> hospitals == HospitalTable(today)
    ensures department.Some? && department.value != "" ==>
      hospitals == FilterHospitals(HospitalTable(today), department.value)
  {
    var sevenDays := AvailableDates(today, 7);
    var sevenMore := AvailableDates(today, 7);
    var fiveDays := AvailableDates(today, 5);
    hospitals := [
      Hospital("h001", "市人民医院", "城区人民路123号", "三甲", "2.5公里", CityDepartments, sevenDays),
      Hospital("h002", "市中医院", "城区中山路456号", "三甲", "3.8公里", ChineseMedicineDepartments, sevenMore),
      Hospital("h003", "区中心医院", "新区建设路789号", "二甲", "4.2公里", DistrictDepartments, fiveDays)];
    if department.Some? && department.value != "" {
      hospitals := FilterHospitals(hospitals, department.value);
    }
  }

  /** An exact entry is an entry containing the department, so the first
      half of the filter's condition adds nothing. */
  lemma OffersIffSomeEntryContains(h: Hospital, department: string)
    ensures Offers(h, department) <==> SomeEntryContains(h.departments, department)
  {
    if department in h.departments {
      var i :| 0 <= i < |h.departments| && h.departments[i] == department;
      ContainsSelf(department);
    }
  }

  /** The filter keeps exactly the hospitals that offer the department. */
  lemma {:induction false} FilterMembership(hs: seq<Hospital>, department: string, h: Hospital)
    ensures h in FilterHospitals(hs, department) <==> h in hs && SomeEntryContains(h.departments, department)
    decreases |hs|
  {
    OffersIffSomeEntryContains(h, department);
    if |hs| > 0 {
      FilterMembership(hs[..|hs| - 1], department, h);
      assert hs == hs[..|hs| - 1] + [hs[|hs| - 1]];
    }
  }

  /** The filter keeps the table order. */
  lemma {:induction false} FilterKeepsOrder(hs: seq<Hospital>, department: string)
    ensures Subsequence(FilterHospitals(hs, department), hs)
    decreases |hs|
  {
    if |hs| > 0 {
      var init := hs[..|hs| - 1];
      var last := hs[|hs| - 1];
      FilterKeepsOrder(init, department);
      var r := FilterHospitals(hs, department);
      if Offers(last, department) {
        assert r == FilterHospitals(init, department) + [last];
        assert r[..|r| - 1] == FilterHospitals(init, department);
        assert Subsequence(r[..|r| - 1], hs[..|hs| - 1]);
      } else {
        assert r == FilterHospitals(init, department) + [];
        assert r == FilterHospitals(init, department);
        assert Subsequence(r, hs[..|hs| - 1]);
      }
    }
  }

  /** Searching for cardiology finds only the city hospital. */
  lemma SearchCardiology(today: int)
    ensures FilterHospitals(HospitalTable(today), "心血管") == [HospitalTable(today)[0]]
  {
    var hs := HospitalTable(today);
    assert Contains(CityDepartments[2], "心血管") by {
      assert OccursAt("心血管内科", "心血管", 0);
    }
    assert Offers(hs[0], "心血管");
    NoEntryContains(ChineseMedicineDepartments, "心血管");
    NoEntryContains(DistrictDepartments, "心血管");
    assert hs[..1] == [hs[0]] && hs[..2] == hs[..1] + [hs[1]] && hs[..3] == hs[..2] + [hs[2]];
    assert FilterHospitals(hs[..1], "心血管") == [hs[0]] by {
      assert hs[..1][..0] == [];
    }
  }

  /** Entries shorter than the department, or without its first character,
      do not contain it. */
  lemma NoEntryContains(departments: seq<string>, department: string)
    requires department != []
    requires forall i :: 0 <= i < |departments| ==> department[0] !in departments[i]
    ensures !SomeEntryContains(departments, department)
  {
    forall i, k | 0 <= i < |departments| && 0 <= k <= |departments[i]| - |department|
      ensures !OccursAt(departments[i], department, k)
    {
      assert departments[i][k] in departments[i];
    }
  }

  // ---------------------------------------------------------------------
  // Time slots
  // ---------------------------------------------------------------------

  datatype TimeSlot = TimeSlot(time: string, available: bool, doctor: string, title: string)

  const MorningSlots: seq<TimeSlot> := [
    TimeSlot("08:00-08:30", true, "张主任", "主任医师"),
    TimeSlot("08:30-09:00", true, "李医生", "副主任医师"),
    TimeSlot("09:00-09:30", false, "王医生", "主治医师"),
    TimeSlot("09:30-10:00", true, "赵医生", "主治医师"),
    TimeSlot("10:00-10:30", true, "张主任", "主任医师")]

  const AfternoonSlots: seq<TimeSlot> := [
    TimeSlot("14:00-14:30", true, "孙医生", "副主任医师"),
    TimeSlot("14:30-15:00", true, "周医生", "主治医师"),
    TimeSlot("15:00-15:30", false, "吴医生", "主任医师"),
    TimeSlot("15:30-16:00", true, "郑医生", "主治医师")]

  /** `get_available_slots`: the five morning slots and then the four
      afternoon ones, whatever hospital, department and date are asked for. */
  method GetAvailableSlots(hospitalId: string, department: string, date: string) returns (slots: seq<TimeSlot>)
    ensures |slots| == 9
    ensures slots[..5] == MorningSlots && slots[5..] == AfternoonSlots
  {
    slots := [];
    slots := slots + MorningSlots;
    slots := slots + AfternoonSlots;
    assert slots[..5] == MorningSlots;
    assert slots[5..] == AfternoonSlots;
  }

  /** Two of the nine slots are taken, the 09:00 and the 15:00 ones; the
      other seven can be booked. */
  lemma SlotsAvailable(slots: seq<TimeSlot>)
    requires |slots| == 9 && slots[..5] == MorningSlots && slots[5..] == AfternoonSlots
    ensures forall i :: 0 <= i < 9 ==> (!slots[i].available <==> i == 2 || i == 7)
    ensures slots[2].time == "09:00-09:30" && slots[7].time == "15:00-15:30"
  {
    forall i | 0 <= i < 9
      ensures !slots[i].available <==> i == 2 || i == 7
    {
      if i < 5 {
        assert slots[i] == slots[..5][i];
      } else {
        assert slots[i] == slots[5..][i - 5];
      }
    }
    assert slots[2] == slots[..5][2] && slots[7] == slots[5..][2];
  }

  // ---------------------------------------------------------------------
  // Booking and cancelling
  // ---------------------------------------------------------------------

  /** The user dictionary; either key may be missing. */
  datatype UserInfo = UserInfo(name: Option<string>, phone: Option<string>)

  datatype Appointment = Appointment(
    appointmentNumber: string,
    hospitalId: string,
    hospitalName: string,
    department: string,
    doctor: string,
    appointmentTime: string,
    patientName: Option<string>,
    patientPhone: Option<string>,
    qrCode: string,
    instructions: string)

  const NoticeHead: string := "【就诊须知】\n\n您已成功预约"
  const NoticeTail: string :=
    "\n\n请注意：\n1. 请提前30分钟到达医院\n2. 携带身份证、医保卡\n3. 如需空腹检查，请不要进食\n4. 到达后请先在自助机或窗口取号\n5. 到相应科室候诊区等待叫号\n\n如需帮助，请联系医院服务台或拨打医院电话。"

  /** `_generate_appointment_instructions`: the triple-quoted template,
      which opens with a newline and closes with a newline and eight
      spaces, with `strip()` applied. */
  function AppointmentInstructions(hospitalName: string, department: string, appointmentTime: string): (text: string) {
    Strip("\n" + NoticeHead + hospitalName + " " + department + "\n\n就诊时间：" + appointmentTime + NoticeTail
      + "\n        ")
  }

  /** `strip()` removes exactly the template's outer newline and indentation. */
  lemma AppointmentInstructionsText(hospitalName: string, department: string, appointmentTime: string)
    ensures AppointmentInstructions(hospitalName, department, appointmentTime)
      == NoticeHead + hospitalName + " " + department + "\n\n就诊时间：" + appointmentTime + NoticeTail
  {
    var body := NoticeHead + hospitalName + " " + department + "\n\n就诊时间：" + appointmentTime + NoticeTail;
    assert body[0] == '【';
    assert body[|body| - 1] == '。';
    assert AllSpaces("\n") && AllSpaces("\n        ");
    assert "\n" + NoticeHead + hospitalName + " " + department + "\n\n就诊时间：" + appointmentTime + NoticeTail
      + "\n        " == "\n" + body + "\n        ";
    StripPadded("\n", body, "\n        ");
  }

  /** `make_appointment`: number `GH` + time stamp, QR code `QR_` + number,
      the arguments echoed and the patient's name and phone from the user
      record. `timestamp` is the `%Y%m%d%H%M%S` rendering of the clock. */
  function MakeAppointment(userInfo: UserInfo, hospitalId: string, hospitalName: string, department: string,
                           doctor: string, appointmentTime: string, timestamp: string): (a: Appointment)
    ensures HasPrefix(a.appointmentNumber, "GH") && HasPrefix(a.qrCode, "QR_GH")
    ensures a.hospitalId == hospitalId && a.hospitalName == hospitalName && a.department == department
    ensures a.doctor == doctor && a.appointmentTime == appointmentTime
    ensures a.patientName == userInfo.name && a.patientPhone == userInfo.phone
    ensures a.instructions
      == NoticeHead + hospitalName + " " + department + "\n\n就诊时间：" + appointmentTime + NoticeTail
  {
    AppointmentInstructionsText(hospitalName, department, appointmentTime);
    var number := "GH" + timestamp;
    assert number[..2] == "GH";
    assert ("QR_" + number)[..5] == "QR_GH";
    Appointment(number, hospitalId, hospitalName, department, doctor, appointmentTime,
                userInfo.name, userInfo.phone, "QR_" + number,
                AppointmentInstructions(hospitalName, department, appointmentTime))
  }

  /** The time stamp read back from a QR code. */
  function TimestampOfQrCode(qrCode: string): Option<string> {
    if HasPrefix(qrCode, "QR_GH") then Some(qrCode[5..]) else None
  }

  /** The QR code carries the appointment number, and so the time stamp. */
  lemma QrCodeRoundTrip(userInfo: UserInfo, hospitalId: string, hospitalName: string, department: string,
                        doctor: string, appointmentTime: string, timestamp: string)
    ensures var a := MakeAppointment(userInfo, hospitalId, hospitalName, department, doctor, appointmentTime, timestamp);
      a.qrCode == "QR_" + a.appointmentNumber
      && TimestampOfQrCode(a.qrCode) == Some(timestamp)
  {
    var a := MakeAppointment(userInfo, hospitalId, hospitalName, department, doctor, appointmentTime, timestamp);
    assert a.qrCode == "QR_" + ("GH" + timestamp);
    assert a.qrCode[5..] == timestamp;
  }

  datatype Cancellation = Cancellation(success: bool, message: string, appointmentNumber: string)

  /** `cancel_appointment`: always succeeds and echoes the number. */
  function CancelAppointment(appointmentNumber: string): (c: Cancellation)
    ensures c.success && c.appointmentNumber == appointmentNumber
    ensures c.message == "预约已取消"
  {
    Cancellation(true, "预约已取消", appointmentNumber)
  }

  /** Cancelling a booking names that booking. */
  lemma CancelNamesBooking(userInfo: UserInfo, hospitalId: string, hospitalName: string, department: string,
                           doctor: string, appointmentTime: string, timestamp: string)
    ensures var a := MakeAppointment(userInfo, hospitalId, hospitalName, department, doctor, appointmentTime, timestamp);
      CancelAppointment(a.appointmentNumber).appointmentNumber == "GH" + timestamp
  {
  }
}
