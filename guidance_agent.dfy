/** The visit-process guide: the seven steps of a hospital visit, the
    guidance for the current step with its tips, next step and personal
    notes, the numbered voice texts, and directions to places inside the
    hospital. */
module GuidanceAgent {
  import opened Wrappers
  import opened Strings

  // ---------------------------------------------------------------------
  // The process table
  // ---------------------------------------------------------------------

  /** One entry of `process_steps`: the step's display name and its instructions. */
  datatype StepInfo = StepInfo(name: string, steps: seq<string>)

  /** The entries of `process_steps`. */
  const RegistrationInfo: StepInfo := StepInfo("挂号取号", [
    "到达医院后，找到挂号大厅",
    "在自助机上扫描预约二维码，或到人工窗口报预约号",
    "取得挂号单和候诊号码",
    "保管好挂号单，看病时需要"])
  const WaitingInfo: StepInfo := StepInfo("候诊等待", [
    "根据挂号单上的科室信息，找到对应的诊区",
    "在候诊区坐下等待",
    "留意大屏幕或广播叫号",
    "听到您的号码时，到相应的诊室"])
  const ConsultationInfo: StepInfo := StepInfo("医生诊疗", [
    "进入诊室后向医生问好",
    "清楚描述您的不舒服症状",
    "如实回答医生的问题",
    "如果听不清楚，请让医生说慢一点",
    "医生开处方或检查单后，请确认是否听明白"])
  const ExaminationInfo: StepInfo := StepInfo("检查检验", [
    "拿着检查单到缴费窗口或自助机缴费",
    "缴费后到相应的检查科室",
    "向工作人员出示缴费凭证",
    "按照医护人员指示配合检查",
    "检查完成后询问多久能取结果"])
  const PaymentInfo: StepInfo := StepInfo("缴费", [
    "拿着医生开的处方到收费窗口",
    "可以使用医保卡、现金或手机支付",
    "保存好缴费凭证"])
  const PharmacyInfo: StepInfo := StepInfo("取药", [
    "缴费后到药房窗口",
    "把缴费凭证给药房工作人员",
    "等待叫号取药",
    "取药时请核对药品名称和数量",
    "询问药师如何服用药物"])
  const FollowUpInfo: StepInfo := StepInfo("复诊安排", [
    "如果医生要求复诊，记住复诊时间",
    "可以在离开前预约下次挂号",
    "保存好所有的检查报告和病历"])

  /** `process_steps`, set once when the agent is created and never changed. */
  const ProcessSteps: map<string, StepInfo> := map[
    "registration" := RegistrationInfo,
    "waiting" := WaitingInfo,
    "consultation" := ConsultationInfo,
    "examination" := ExaminationInfo,
    "payment" := PaymentInfo,
    "pharmacy" := PharmacyInfo,
    "follow_up" := FollowUpInfo]

  /** The order of the visit, used by `_get_next_step`. */
  const StepOrder: seq<string> :=
    ["registration", "waiting", "consultation", "examination", "payment", "pharmacy", "follow_up"]

  /** No key occurs twice in a list. */
  predicate Distinct(xs: seq<string>) {
    forall i, j :: 0 <= i < j < |xs| ==> xs[i] != xs[j]
  }

  /** No step occurs twice in the order. */
  lemma StepOrderDistinct()
    ensures Distinct(StepOrder)
  {
  }

  /** The order lists exactly the steps of the table. */
  lemma StepOrderCoversTable()
    ensures forall key :: key in ProcessSteps <==> key in StepOrder
  {
  }

  // ---------------------------------------------------------------------
  // The next step
  // ---------------------------------------------------------------------

  /** Python's `xs.index(x)`, with `|xs|` standing for the `ValueError`
      raised when `x` is absent. */
  function IndexOf(xs: seq<string>, x: string): (i: nat)
    ensures i <= |xs|
    ensures i < |xs| <==> x in xs
    ensures i < |xs| ==> xs[i] == x
    ensures forall j :: 0 <= j < i ==> xs[j] != x
  {
    if |xs| == 0 then 0
    else if xs[0] == x then 0
    else
      var i := 1 + IndexOf(xs[1..], x);
      assert forall j :: 1 <= j < |xs| ==> xs[j] == xs[1..][j - 1];
      i
  }

  /** In a list without repeats, the index of the `i`-th key is `i`. */
  lemma {:induction false} IndexOfDistinct(xs: seq<string>, i: nat)
    requires Distinct(xs) && i < |xs|
    ensures IndexOf(xs, xs[i]) == i
  {
    var j := IndexOf(xs, xs[i]);
    assert xs[j] == xs[i];
  }

  /** `_get_next_step`: the display name of the step after `current`; `None`
      for the last step and for a step not in the order. */
  function NextStep(current: string): (next: Option<string>)
    ensures next.Some? <==> current in StepOrder && current != "follow_up"
  {
    var i := IndexOf(StepOrder, current);
    if i < |StepOrder| - 1 then
      assert StepOrder[i + 1] in StepOrder;
      Some(ProcessSteps[StepOrder[i + 1]].name)
    else None
  }

  /** Each step but the last is followed by the next one in the order. */
  lemma NextStepFollowsOrder(i: nat)
    requires i < |StepOrder| - 1
    ensures StepOrder[i + 1] in ProcessSteps
    ensures NextStep(StepOrder[i]) == Some(ProcessSteps[StepOrder[i + 1]].name)
  {
    StepOrderDistinct();
    IndexOfDistinct(StepOrder, i);
    assert StepOrder[i + 1] in StepOrder;
  }

  // ---------------------------------------------------------------------
  // Tips and directions
  // ---------------------------------------------------------------------

  const StepTipsTable: map<string, seq<string>> := map[
    "registration" := ["如果不会用自助机，可以去人工窗口", "告诉工作人员您的预约号或姓名", "不要着急，慢慢来"],
    "waiting" := ["坐在候诊椅上休息", "如果等待时间长，可以喝点水", "不要走远，以免错过叫号"],
    "consultation" := ["不要紧张，医生很和蔼", "把症状说清楚", "有问题就问医生"],
    "pharmacy" := ["仔细听药师讲解服药方法", "记住每天吃几次，每次吃几片", "有不明白的一定要问"]]

  /** `_get_step_tips`: three tips for the steps that have them, none otherwise. */
  function StepTips(step: string): (tips: seq<string>)
    ensures tips == [] <==> step !in StepTipsTable
    ensures step in StepTipsTable ==> tips == StepTipsTable[step] && |tips| == 3
  {
    if step in StepTipsTable then StepTipsTable[step] else []
  }

  /** Only steps of the process have tips; examination, payment and follow-up have none. */
  lemma TipsOnlyForSteps()
    ensures forall step :: step in StepTipsTable ==> step in ProcessSteps
    ensures StepTips("examination") == [] && StepTips("payment") == [] && StepTips("follow_up") == []
  {
  }

  /** The directions to one place. */
  datatype LocationGuide = LocationGuide(description: string, route: seq<string>, landmarks: seq<string>)

  const LocationGuides: map<string, LocationGuide> := map[
    "药房" := LocationGuide("药房在一楼大厅左侧",
      ["从门诊大厅进入", "向左转", "看到绿色的「药房」标志", "在窗口等待叫号"],
      ["ATM机旁边", "便利店对面"]),
    "检验科" := LocationGuide("检验科在二楼",
      ["乘坐电梯到二楼", "出电梯后向右走", "看到「检验科」标识", "在抽血窗口排队"],
      ["儿科诊区旁边"]),
    "收费处" := LocationGuide("收费处在一楼大厅",
      ["在门诊大厅中央", "有多个窗口", "也可使用自助缴费机"],
      ["挂号处对面"])]

  const AskPrefix: string := "请向医院导医台询问"
  const AskSuffix: string := "的位置"

  /** `get_location_guidance`: the table's directions, or for any other place
      a description that names it, two route steps and no landmarks. The
      hospital id is not used. */
  function LocationGuidance(hospitalId: string, target: string): (g: LocationGuide)
    ensures target in LocationGuides ==> g == LocationGuides[target]
    ensures target !in LocationGuides ==>
      && g.route == ["找到导医台", "向工作人员询问"]
      && g.landmarks == []
      && |g.description| == |AskPrefix| + |target| + |AskSuffix|
      && HasPrefix(g.description, AskPrefix)
      && g.description[|AskPrefix|..|g.description| - |AskSuffix|] == target
  {
    if target in LocationGuides then LocationGuides[target]
    else
      var d := AskPrefix + target + AskSuffix;
      assert d[..|AskPrefix|] == AskPrefix;
      assert d[|AskPrefix|..|d| - |AskSuffix|] == target;
      LocationGuide(d, ["找到导医台", "向工作人员询问"], [])
  }

  /** The default directions never depend on the hospital, and every place
      in the table has at least one landmark. */
  lemma LocationGuidanceProperties(h1: string, h2: string, target: string)
    ensures LocationGuidance(h1, target) == LocationGuidance(h2, target)
    ensures target in LocationGuides ==> LocationGuidance(h1, target).landmarks != []
  {
  }

  // ---------------------------------------------------------------------
  // Numbered lines and their inverse
  // ---------------------------------------------------------------------

  /** A line numbered `n`: `prefix`, the decimal `n`, `mid`, the text and `suffix`. */
  function NumberedLine(prefix: string, n: nat, mid: string, text: string, suffix: string): string {
    prefix + NatToString(n) + mid + text + suffix
  }

  datatype Numbered = Numbered(number: nat, text: string)

  /** Reads a numbered line back: the number after `prefix` and the text
      between `mid` and `suffix`. */
  function ParseNumbered(line: string, prefix: string, mid: string, suffix: string): Option<Numbered> {
    if !HasPrefix(line, prefix) then None
    else
      var rest := line[|prefix|..];
      var ds := LeadingDigits(rest);
      var tail := rest[|ds|..];
      if ds != "" && |tail| >= |mid| + |suffix| && tail[..|mid|] == mid
        && tail[|tail| - |suffix|..] == suffix
      then Some(Numbered(DigitsValue(ds), tail[|mid|..|tail| - |suffix|]))
      else None
  }

  /** A numbered line reads back as its number and text, whenever the
      separator after the number does not start with a digit. */
  lemma {:induction false} ParseNumberedLine(prefix: string, n: nat, mid: string, text: string, suffix: string)
    requires mid != "" && !IsDigit(mid[0])
    ensures ParseNumbered(NumberedLine(prefix, n, mid, text, suffix), prefix, mid, suffix)
      == Some(Numbered(n, text))
  {
    var line := NumberedLine(prefix, n, mid, text, suffix);
    var ds := NatToString(n);
    var tail := mid + text + suffix;
    assert line == prefix + (ds + tail) by {
      AppendAssoc(prefix + ds + mid, text, suffix);
      AppendAssoc(prefix + ds, mid, text + suffix);
      AppendAssoc(prefix, ds, mid + (text + suffix));
      AppendAssoc(mid, text, suffix);
    }
    assert line[..|prefix|] == prefix && line[|prefix|..] == ds + tail by {
      TakeAppend(prefix, ds + tail, |prefix|);
      DropAppend(prefix, ds + tail, |prefix|);
      TakeAll(prefix);
    }
    LeadingDigitsOf(ds, tail);
    assert (ds + tail)[|ds|..] == tail;
    assert tail[..|mid|] == mid && tail[|mid|..|tail| - |suffix|] == text
      && tail[|tail| - |suffix|..] == suffix;
    NatToStringRoundTrip(n);
  }

  // ---------------------------------------------------------------------
  // Voice texts
  // ---------------------------------------------------------------------

  const UnknownStepVoice: string := "请按照医院指示进行操作"

  /** One numbered line per instruction, numbered from 1. */
  function NumberedLines(steps: seq<string>, prefix: string, mid: string, suffix: string): (lines: seq<string>)
    ensures |lines| == |steps|
  {
    seq(|steps|, i requires 0 <= i < |steps| => NumberedLine(prefix, i + 1, mid, steps[i], suffix))
  }

  /** The lines `第{i}步，{instruction}。` numbered from 1. */
  function VoiceLines(steps: seq<string>): seq<string> {
    NumberedLines(steps, "第", "步，", "。\n")
  }

  function VoiceHeader(info: StepInfo): string {
    "现在需要进行" + info.name + "。" + "请按照以下步骤操作：\n"
  }

  /** `generate_voice_guidance`: a fixed sentence for an unknown step;
      otherwise the header and one numbered line per instruction. */
  method GenerateVoiceGuidance(step: string) returns (voiceText: string)
    ensures step !in ProcessSteps ==> voiceText == UnknownStepVoice
    ensures step in ProcessSteps ==>
      voiceText == VoiceHeader(ProcessSteps[step]) + Concat(VoiceLines(ProcessSteps[step].steps))
  {
    if step !in ProcessSteps {
      return UnknownStepVoice;
    }
    voiceText := StepVoiceLines(ProcessSteps[step]);
  }

  /** The text `generate_voice_guidance` builds for a known step. */
  method StepVoiceLines(info: StepInfo) returns (voiceText: string)
    ensures voiceText == VoiceHeader(info) + Concat(VoiceLines(info.steps))
  {
    voiceText := "现在需要进行" + info.name + "。";
    voiceText := voiceText + "请按照以下步骤操作：\n";
    ghost var lines := VoiceLines(info.steps);
    var i := 0;
    while i < |info.steps|
      invariant i <= |info.steps|
      invariant voiceText == VoiceHeader(info) + Concat(lines[..i])
    {
      var line := "第" + NatToString(i + 1) + "步，" + info.steps[i] + "。\n";
      ConcatPrefixStep(VoiceHeader(info), lines, i, voiceText);
      voiceText := voiceText + line;
      i := i + 1;
    }
    TakeAll(lines);
  }

  /** Line `i` of the voice text reads back as number `i + 1` and instruction `i`. */
  lemma VoiceLineNumbered(steps: seq<string>, i: nat)
    requires i < |steps|
    ensures ParseNumbered(VoiceLines(steps)[i], "第", "步，", "。\n") == Some(Numbered(i + 1, steps[i]))
  {
    ParseNumberedLine("第", i + 1, "步，", steps[i], "。\n");
  }

  /** The lines `{i}. {instruction}` numbered from 1. */
  function GuideLines(steps: seq<string>): seq<string> {
    NumberedLines(steps, "", ". ", "\n")
  }

  function GuideHeader(info: StepInfo): string {
    info.name + "指导：\n"
  }

  /** `_generate_voice_guidance`: the header, one numbered line per
      instruction, and `strip()` of the whole. */
  method StepVoiceText(info: StepInfo) returns (text: string)
    ensures text == Strip(GuideHeader(info) + Concat(GuideLines(info.steps)))
  {
    text := info.name + "指导：\n";
    ghost var lines := GuideLines(info.steps);
    var i := 0;
    while i < |info.steps|
      invariant i <= |info.steps|
      invariant text == GuideHeader(info) + Concat(lines[..i])
    {
      var line := NatToString(i + 1) + ". " + info.steps[i] + "\n";
      assert line == lines[i] by {
        assert "" + NatToString(i + 1) == NatToString(i + 1);
      }
      ConcatPrefixStep(GuideHeader(info), lines, i, text);
      text := text + line;
      i := i + 1;
    }
    TakeAll(lines);
    text := Strip(text);
  }

  /** Line `i` of the step guide reads back as number `i + 1` and instruction `i`. */
  lemma GuideLineNumbered(steps: seq<string>, i: nat)
    requires i < |steps|
    ensures ParseNumbered(GuideLines(steps)[i], "", ". ", "\n") == Some(Numbered(i + 1, steps[i]))
  {
    ParseNumberedLine("", i + 1, ". ", steps[i], "\n");
  }

  /** A non-empty text that neither starts nor ends with white space. */
  predicate TrimmedText(s: string) {
    s != [] && !IsSpace(s[0]) && !IsSpace(s[|s| - 1])
  }

  /** At least one instruction, and a name and instructions that are all
      trimmed texts. */
  predicate Trimmed(info: StepInfo) {
    && TrimmedText(info.name)
    && info.steps != []
    && forall j :: 0 <= j < |info.steps| ==> TrimmedText(info.steps[j])
  }

  /** For a trimmed entry, `strip()` removes only the final newline. */
  lemma {:induction false} StripRemovesFinalNewline(info: StepInfo)
    requires Trimmed(info)
    ensures Strip(GuideHeader(info) + Concat(GuideLines(info.steps))) + "\n"
      == GuideHeader(info) + Concat(GuideLines(info.steps))
  {
    var lines := GuideLines(info.steps);
    var text := GuideHeader(info) + Concat(lines);
    var n := |info.steps|;
    var last := info.steps[n - 1];
    var line := lines[n - 1];
    assert line == (NatToString(n) + ". " + last) + "\n" by {
      assert "" + NatToString(n) == NatToString(n);
    }
    ConcatLastChars(GuideHeader(info), lines);
    assert text[0] == info.name[0];
    StripFinalNewlineOnly(text);
  }

  /** Every entry of the table is trimmed. */
  lemma TableTrimmed(key: string)
    requires key in ProcessSteps
    ensures Trimmed(ProcessSteps[key])
  {
    if key == "registration" { RegistrationTrimmed(); }
    else if key == "waiting" { WaitingTrimmed(); }
    else if key == "consultation" { ConsultationTrimmed(); }
    else if key == "examination" { ExaminationTrimmed(); }
    else if key == "payment" { PaymentTrimmed(); }
    else if key == "pharmacy" { PharmacyTrimmed(); }
    else { FollowUpTrimmed(); }
  }

  // Each constant entry is trimmed; one lemma per entry keeps each proof small.

  lemma RegistrationTrimmed()
    ensures Trimmed(RegistrationInfo)
  {
    StepsTrimmed(RegistrationInfo.steps);
  }

  lemma WaitingTrimmed()
    ensures Trimmed(WaitingInfo)
  {
    StepsTrimmed(WaitingInfo.steps);
  }

  lemma ConsultationTrimmed()
    ensures Trimmed(ConsultationInfo)
  {
    StepsTrimmed(ConsultationInfo.steps);
  }

  lemma ExaminationTrimmed()
    ensures Trimmed(ExaminationInfo)
  {
    StepsTrimmed(ExaminationInfo.steps);
  }

  lemma PaymentTrimmed()
    ensures Trimmed(PaymentInfo)
  {
    StepsTrimmed(PaymentInfo.steps);
  }

  lemma PharmacyTrimmed()
    ensures Trimmed(PharmacyInfo)
  {
    StepsTrimmed(PharmacyInfo.steps);
  }

  lemma FollowUpTrimmed()
    ensures Trimmed(FollowUpInfo)
  {
    StepsTrimmed(FollowUpInfo.steps);
  }


  /** Instructions whose first and last characters are CJK characters or
      full-width punctuation are trimmed. */
  lemma StepsTrimmed(steps: seq<string>)
    requires forall j :: 0 <= j < |steps| ==>
      steps[j] != [] && steps[j][0] > '\U{3000}' && steps[j][|steps[j]| - 1] > '\U{3000}'
    ensures forall j :: 0 <= j < |steps| ==> TrimmedText(steps[j])
  {
  }

  // ---------------------------------------------------------------------
  // Personal notes
  // ---------------------------------------------------------------------

  /** The context dictionary; `None` stands for `None` or an empty dict, both
      falsy. `age` and `department` are its two keys the guide reads. */
  datatype Context = Context(age: Option<int>, department: Option<string>)

  /** The notes `_personalize_guidance` may add. */
  datatype Personalized = Personalized(ageNote: Option<string>, deptNote: Option<string>)

  const AgeNote: string := "如需帮助，可以请志愿者陪同"
  const CardioNote: string := "心电图检查时请保持平静，不要紧张"
  const DigestNote: string := "胃镜检查前需要空腹6小时"

  /** `context.get("age") and context["age"] > 70`: a present, non-zero age over 70. */
  predicate OverSeventy(ctx: Context) {
    ctx.age.Some? && ctx.age.value != 0 && ctx.age.value > 70
  }

  /** The department, when present and a non-empty string, contains `word`. */
  predicate DepartmentMentions(ctx: Context, word: string) {
    ctx.department.Some? && ctx.department.value != "" && Contains(ctx.department.value, word)
  }

  /** What the notes for `step` and `ctx` are: the age note exactly for the
      over-seventies; the cardiology note for an examination in a department
      mentioning 心血管; the gastroenterology note for an examination in one
      mentioning 消化 but not 心血管; no other department note. */
  predicate NotesFor(step: string, ctx: Context, p: Personalized) {
    && (p.ageNote.Some? <==> OverSeventy(ctx))
    && (p.ageNote.Some? ==> p.ageNote.value == AgeNote)
    && (p.deptNote == Some(CardioNote) <==> step == "examination" && DepartmentMentions(ctx, "心血管"))
    && (p.deptNote == Some(DigestNote) <==>
          step == "examination" && DepartmentMentions(ctx, "消化") && !DepartmentMentions(ctx, "心血管"))
    && (p.deptNote.Some? ==> p.deptNote == Some(CardioNote) || p.deptNote == Some(DigestNote))
  }

  /** `_personalize_guidance`: starts with no notes and adds them rule by rule. */
  method PersonalizeGuidance(step: string, ctx: Context) returns (personalized: Personalized)
    ensures NotesFor(step, ctx, personalized)
  {
    personalized := Personalized(None, None);
    if ctx.age.Some? && ctx.age.value != 0 && ctx.age.value > 70 {
      personalized := personalized.(ageNote := Some(AgeNote));
    }
    if step == "examination" && ctx.department.Some? && ctx.department.value != "" {
      var dept := ctx.department.value;
      if Contains(dept, "心血管") {
        personalized := personalized.(deptNote := Some(CardioNote));
      } else if Contains(dept, "消化") {
        personalized := personalized.(deptNote := Some(DigestNote));
      }
    }
  }

  /** The description of the notes leaves no choice: it is a specification. */
  lemma NotesForUnique(step: string, ctx: Context, p: Personalized, q: Personalized)
    requires NotesFor(step, ctx, p) && NotesFor(step, ctx, q)
    ensures p == q
  {
  }

  /** A department note is given only at the examination step. */
  lemma DeptNoteOnlyForExamination(step: string, ctx: Context, p: Personalized)
    requires NotesFor(step, ctx, p) && step != "examination"
    ensures p.deptNote == None
  {
  }

  // ---------------------------------------------------------------------
  // Guidance for the current step
  // ---------------------------------------------------------------------

  /** The result of `get_current_step_guidance`. */
  datatype StepGuidance =
    | UnknownStep(error: string)
    | Guidance(stepName: string, steps: seq<string>, tips: seq<string>,
               nextStep: Option<string>, voiceGuidance: string,
               personalizedInfo: Option<Personalized>)

  /** `get_current_step_guidance`: an error for a step not in the table;
      otherwise its name, instructions, tips, next step and voice guide, and
      personal notes exactly when a (truthy) context is given. */
  method GetCurrentStepGuidance(currentStep: string, context: Option<Context>) returns (g: StepGuidance)
    ensures currentStep !in ProcessSteps <==> g == UnknownStep("未知步骤")
    ensures currentStep in ProcessSteps ==>
      && g.Guidance?
      && g.stepName == ProcessSteps[currentStep].name
      && g.steps == ProcessSteps[currentStep].steps
      && g.tips == StepTips(currentStep)
      && g.nextStep == NextStep(currentStep)
      && g.voiceGuidance + "\n" == GuideHeader(ProcessSteps[currentStep]) + Concat(GuideLines(ProcessSteps[currentStep].steps))
      && (g.personalizedInfo.Some? <==> context.Some?)
      && (context.Some? ==> NotesFor(currentStep, context.value, g.personalizedInfo.value))
  {
    if currentStep !in ProcessSteps {
      return UnknownStep("未知步骤");
    }
    var info := ProcessSteps[currentStep];
    var voice := StepVoiceText(info);
    TableTrimmed(currentStep);
    StripRemovesFinalNewline(info);
    var personalized: Option<Personalized> := None;
    if context.Some? {
      var p := PersonalizeGuidance(currentStep, context.value);
      personalized := Some(p);
    }
    g := Guidance(info.name, info.steps, StepTips(currentStep), NextStep(currentStep), voice, personalized);
  }
}
