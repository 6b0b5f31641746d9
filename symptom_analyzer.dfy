/** The symptom analyser: the text of the prompt sent to the language model,
    the forgiving parser that turns the model's free-text reply into a
    department recommendation, the fallback used when the model call fails,
    and the department information table. */
module SymptomAnalyzer {
  import opened Wrappers
  import opened Strings

  // ---------------------------------------------------------------------
  // The result record
  // ---------------------------------------------------------------------

  datatype Urgency = Urgent | SemiUrgent | Normal

  /** The text stored in the result's `urgency` field. */
  function UrgencyName(u: Urgency): string {
    match u
    case Urgent => "urgent"
    case SemiUrgent => "semi-urgent"
    case Normal => "normal"
  }

  /** The dictionary `_parse_ai_response` returns. */
  datatype Analysis = Analysis(
    success: bool,
    originalSymptoms: string,
    recommendedDepartment: string,
    alternativeDepartments: seq<string>,
    urgency: Urgency,
    advice: string,
    aiAnalysis: string)

  const DefaultDepartment: string := "内科"

  /** The record before any line of the reply has been read. */
  function InitialAnalysis(reply: string, symptoms: string): Analysis {
    Analysis(true, symptoms, DefaultDepartment, [], Normal, "", reply)
  }

  // ---------------------------------------------------------------------
  // One line of the reply
  // ---------------------------------------------------------------------

  predicate HasDepartmentLabel(line: string) {
    Contains(line, "【推荐科室】") || Contains(line, "推荐科室：")
  }

  predicate HasUrgencyLabel(line: string) {
    Contains(line, "【紧急程度】") || Contains(line, "紧急程度：")
  }

  predicate HasAdviceLabel(line: string) {
    Contains(line, "【就医建议】") || Contains(line, "就医建议：")
  }

  datatype LineKind = DepartmentLine | UrgencyLine | AdviceLine | OtherLine

  /** The branch of the `if`/`elif` chain a stripped line takes: the
      department label is tested first, the advice label last. */
  function KindOf(line: string): LineKind {
    if HasDepartmentLabel(line) then DepartmentLine
    else if HasUrgencyLabel(line) then UrgencyLine
    else if HasAdviceLabel(line) then AdviceLine
    else OtherLine
  }

  predicate IsDepartmentLine(line: string) { KindOf(line) == DepartmentLine }
  predicate IsUrgencyLine(line: string) { KindOf(line) == UrgencyLine }
  predicate IsAdviceLine(line: string) { KindOf(line) == AdviceLine }

  /** `line.split('】')[-1].split('：')[-1].strip()`: the stripped text after
      the last `】` and then after the last `：`. */
  function LabelValue(line: string): string {
    Strip(AfterLast(AfterLast(line, '】'), '：'))
  }

  /** The department names of a value: `或` becomes `,`, the value is split
      on `,` and each piece is stripped.  Never empty, because a split never is. */
  function DepartmentTokens(value: string): (tokens: seq<string>)
    ensures |tokens| >= 1
  {
    var pieces := Split(ReplaceChar(value, '或', ','), ',');
    seq(|pieces|, k requires 0 <= k < |pieces| => Strip(pieces[k]))
  }

  /** A department line naming two or more departments, the only kind that
      sets the alternatives. */
  predicate IsListingLine(line: string) {
    IsDepartmentLine(line) && |DepartmentTokens(LabelValue(line))| > 1
  }

  /** The urgency an urgency value denotes, after ASCII lower-casing. */
  function UrgencyOf(value: string): (u: Urgency)
    ensures Contains(Lower(value), "semi") ==> u != Urgent
    ensures u == Normal <==> !Contains(Lower(value), "urgent") && !Contains(Lower(value), "紧急")
    ensures (Contains(Lower(value), "urgent") || Contains(Lower(value), "紧急")) && !Contains(Lower(value), "semi")
      ==> u == Urgent
  {
    var v := Lower(value);
    if Contains(v, "urgent") || Contains(v, "紧急") then
      if !Contains(v, "semi") then Urgent else SemiUrgent
    else Normal
  }

  // ---------------------------------------------------------------------
  // The reply as a list of stripped lines
  // ---------------------------------------------------------------------

  /** `[line.strip() for line in reply.split('\n')]`. */
  function StrippedLines(reply: string): seq<string> {
    var parts := Split(reply, '\n');
    seq(|parts|, k requires 0 <= k < |parts| => Strip(parts[k]))
  }

  /** A stripped line is a substring of the reply, so `reply.find(line)`
      never returns -1. */
  lemma {:induction false} StrippedLineOccurs(reply: string, k: nat)
    requires k < |StrippedLines(reply)|
    ensures Contains(reply, StrippedLines(reply)[k])
  {
    SplitPieceOccurs(reply, '\n', k);
    StripOccurs(reply, Split(reply, '\n')[k]);
  }

  /** The index of the last line satisfying `p` (`LastIndexIsLast` states it). */
  function LastIndex(ls: seq<string>, p: string -> bool): (r: Option<nat>)
    ensures r.Some? ==> r.value < |ls|
  {
    if |ls| == 0 then None
    else if p(ls[|ls| - 1]) then Some(|ls| - 1)
    else LastIndex(ls[..|ls| - 1], p)
  }

  lemma {:induction false} LastIndexIsLast(ls: seq<string>, p: string -> bool)
    ensures var r := LastIndex(ls, p);
      && (r.Some? ==> p(ls[r.value]) && forall j :: r.value < j < |ls| ==> !p(ls[j]))
      && (r.None? ==> forall j :: 0 <= j < |ls| ==> !p(ls[j]))
    decreases |ls|
  {
    if |ls| > 0 && !p(ls[|ls| - 1]) {
      LastIndexIsLast(ls[..|ls| - 1], p);
    }
  }

  /** The index of the first line satisfying `p` (`FirstIndexIsFirst` states it). */
  function FirstIndex(ls: seq<string>, p: string -> bool): (r: Option<nat>)
    ensures r.Some? ==> r.value < |ls|
  {
    if |ls| == 0 then None
    else if p(ls[0]) then Some(0)
    else
      var r := FirstIndex(ls[1..], p);
      if r.Some? then Some(r.value + 1) else None
  }

  lemma {:induction false} FirstIndexIsFirst(ls: seq<string>, p: string -> bool)
    ensures var r := FirstIndex(ls, p);
      && (r.Some? ==> p(ls[r.value]) && forall j :: 0 <= j < r.value ==> !p(ls[j]))
      && (r.None? ==> forall j :: 0 <= j < |ls| ==> !p(ls[j]))
    decreases |ls|
  {
    if |ls| > 0 && !p(ls[0]) {
      FirstIndexIsFirst(ls[1..], p);
      assert forall j :: 1 <= j < |ls| ==> ls[j] == ls[1..][j - 1];
    }
  }

  /** What the last line satisfying `p` gives under `f`, or `d` when no line does. */
  function LastValue<T>(ls: seq<string>, p: string -> bool, f: string -> T, d: T): T {
    match LastIndex(ls, p)
    case None => d
    case Some(k) => f(ls[k])
  }

  /** One more line overwrites the value exactly when it satisfies `p`. */
  lemma {:induction false} LastValueSnoc<T>(ls: seq<string>, x: string, p: string -> bool, f: string -> T, d: T)
    ensures LastValue(ls + [x], p, f, d) == if p(x) then f(x) else LastValue(ls, p, f, d)
  {
    assert (ls + [x])[..|ls|] == ls;
  }

  /** After the lines `a` and then `b`, the value comes from `b` when one of
      its lines satisfies `p`, and from `a` otherwise. */
  lemma {:induction false} LastValueAppend<T>(a: seq<string>, b: seq<string>, p: string -> bool, f: string -> T, d: T)
    ensures LastValue(a + b, p, f, d) ==
      if exists j :: 0 <= j < |b| && p(b[j]) then LastValue(b, p, f, d) else LastValue(a, p, f, d)
  {
    LastIndexAppend(a, b, p);
    LastIndexIsLast(b, p);
    match LastIndex(b, p) {
      case Some(k) => assert (a + b)[|a| + k] == b[k];
      case None =>
    }
  }

  /** The primary department a department line names. */
  function PrimaryDepartment(line: string): string {
    DepartmentTokens(LabelValue(line))[0]
  }

  /** The alternatives a department line names. */
  function Alternatives(line: string): seq<string> {
    DepartmentTokens(LabelValue(line))[1..]
  }

  /** The urgency an urgency line states. */
  function LineUrgency(line: string): Urgency {
    UrgencyOf(LabelValue(line))
  }

  /** The fields the department and urgency lines set. */
  datatype Fields = Fields(department: string, alternatives: seq<string>, urgency: Urgency)

  /** What a run of lines leaves in the three fields: the primary department
      of the last department line, the alternatives of the last department
      line that lists two or more, the urgency of the last urgency line, each
      with its default when there is no such line. */
  function ScanFields(ls: seq<string>): Fields {
    Fields(
      LastValue(ls, IsDepartmentLine, PrimaryDepartment, DefaultDepartment),
      LastValue(ls, IsListingLine, Alternatives, []),
      LastValue(ls, IsUrgencyLine, LineUrgency, Normal))
  }

  /** The lines before the first one satisfying `p` (all of them when none does). */
  function Before(ls: seq<string>, p: string -> bool): (r: seq<string>)
    ensures r <= ls
  {
    match FirstIndex(ls, p)
    case None => ls
    case Some(k) => ls[..k]
  }

  /** Prepending lines none of which satisfies `p` prepends them to what is read. */
  lemma {:induction false} BeforeAppend(a: seq<string>, b: seq<string>, p: string -> bool)
    requires forall j :: 0 <= j < |a| ==> !p(a[j])
    ensures Before(a + b, p) == a + Before(b, p)
  {
    FirstIndexAppend(a, b, p);
    FirstIndexIsFirst(a, p);
    assert FirstIndex(a, p).None?;
    match FirstIndex(b, p) {
      case Some(k) => assert (a + b)[..|a| + k] == a + b[..k];
      case None =>
    }
  }

  /** The lines the scan reads: all of them, or those before the first advice line. */
  function ScannedLines(reply: string): seq<string> {
    Before(StrippedLines(reply), IsAdviceLine)
  }

  /** `reply[reply.find(line) + len(line):].strip()`. */
  function AdviceAfter(reply: string, line: string): string {
    Strip(SliceFrom(reply, Find(reply, line) + |line|))
  }

  /** For a line that occurs in the reply, the advice is the stripped text
      after its first occurrence. */
  lemma {:induction false} AdviceAfterOccurrence(reply: string, line: string)
    requires Contains(reply, line)
    ensures var f := Find(reply, line);
      && 0 <= f && OccursAt(reply, line, f)
      && AdviceAfter(reply, line) == Strip(reply[f + |line|..])
  {
    FindContains(reply, line);
    FindIsFirst(reply, line);
    var f := Find(reply, line);
    assert SliceFrom(reply, f + |line|) == reply[f + |line|..];
  }

  /** The analysis of a reply, the specification of `ParseAiResponse`. */
  function ParsedReply(reply: string, symptoms: string): Analysis {
    var ls := StrippedLines(reply);
    var f := ScanFields(ScannedLines(reply));
    var advice := match FirstIndex(ls, IsAdviceLine) {
      case None => ""
      case Some(k) => AdviceAfter(reply, ls[k])
    };
    Analysis(true, symptoms, f.department, f.alternatives, f.urgency, advice, reply)
  }

  // ---------------------------------------------------------------------
  // The parser
  // ---------------------------------------------------------------------

  /** The record holding the given fields and advice. */
  function WithFields(f: Fields, reply: string, symptoms: string, advice: string): Analysis {
    Analysis(true, symptoms, f.department, f.alternatives, f.urgency, advice, reply)
  }

  /** One more line updates the fields as its branch of the `if`/`elif`
      chain does: a department line sets the primary department, and the
      alternatives only when it names two or more ... */
  lemma {:induction false} ScanFieldsSnocDepartment(ls: seq<string>, x: string)
    requires HasDepartmentLabel(x)
    ensures var f, tokens := ScanFields(ls), DepartmentTokens(LabelValue(x));
      ScanFields(ls + [x]) ==
        f.(department := tokens[0], alternatives := if |tokens| > 1 then tokens[1..] else f.alternatives)
  {
    assert KindOf(x) == DepartmentLine;
    LastValueSnoc(ls, x, IsDepartmentLine, PrimaryDepartment, DefaultDepartment);
    LastValueSnoc(ls, x, IsListingLine, Alternatives, []);
    LastValueSnoc(ls, x, IsUrgencyLine, LineUrgency, Normal);
  }

  /** ... an urgency line sets the urgency ... */
  lemma {:induction false} ScanFieldsSnocUrgency(ls: seq<string>, x: string)
    requires !HasDepartmentLabel(x) && HasUrgencyLabel(x)
    ensures ScanFields(ls + [x]) == ScanFields(ls).(urgency := UrgencyOf(LabelValue(x)))
  {
    assert KindOf(x) == UrgencyLine;
    LastValueSnoc(ls, x, IsDepartmentLine, PrimaryDepartment, DefaultDepartment);
    LastValueSnoc(ls, x, IsListingLine, Alternatives, []);
    LastValueSnoc(ls, x, IsUrgencyLine, LineUrgency, Normal);
  }

  /** ... and any other line changes nothing. */
  lemma {:induction false} ScanFieldsSnocOther(ls: seq<string>, x: string)
    requires !HasDepartmentLabel(x) && !HasUrgencyLabel(x)
    ensures ScanFields(ls + [x]) == ScanFields(ls)
  {
    assert KindOf(x) != DepartmentLine && KindOf(x) != UrgencyLine;
    LastValueSnoc(ls, x, IsDepartmentLine, PrimaryDepartment, DefaultDepartment);
    LastValueSnoc(ls, x, IsListingLine, Alternatives, []);
    LastValueSnoc(ls, x, IsUrgencyLine, LineUrgency, Normal);
  }

  /** None of the first `n` lines satisfies `p`. */
  predicate NoneSatisfy(ls: seq<string>, n: int, p: string -> bool) {
    forall j :: 0 <= j < n && j < |ls| ==> !p(ls[j])
  }

  lemma {:induction false} NoneSatisfyExtend(ls: seq<string>, n: nat, p: string -> bool)
    requires n < |ls| && NoneSatisfy(ls, n, p) && !p(ls[n])
    ensures NoneSatisfy(ls, n + 1, p)
  {
  }

  /** A line satisfying `p` with none before it is the first such line. */
  lemma {:induction false} FirstIndexAt(ls: seq<string>, i: nat, p: string -> bool)
    requires i < |ls| && p(ls[i])
    requires NoneSatisfy(ls, i, p)
    ensures FirstIndex(ls, p) == Some(i) && Before(ls, p) == ls[..i]
  {
    FirstIndexIsFirst(ls, p);
  }

  /** A reply whose first advice line is line `i`: the fields are those of
      the lines before it, the advice what follows it in the reply. */
  lemma {:induction false} ParsedAtAdviceLine(reply: string, symptoms: string, i: nat)
    requires i < |StrippedLines(reply)| && IsAdviceLine(StrippedLines(reply)[i])
    requires NoneSatisfy(StrippedLines(reply), i, IsAdviceLine)
    ensures ParsedReply(reply, symptoms) ==
      WithFields(ScanFields(StrippedLines(reply)[..i]), reply, symptoms,
                 AdviceAfter(reply, StrippedLines(reply)[i]))
  {
    FirstIndexAt(StrippedLines(reply), i, IsAdviceLine);
  }

  /** A reply without advice line: the fields are those of all its lines, the advice empty. */
  lemma {:induction false} ParsedWithoutAdviceLine(reply: string, symptoms: string)
    requires NoneSatisfy(StrippedLines(reply), |StrippedLines(reply)|, IsAdviceLine)
    ensures ParsedReply(reply, symptoms) == WithFields(ScanFields(StrippedLines(reply)), reply, symptoms, "")
  {
    NoLineSatisfies(StrippedLines(reply), IsAdviceLine);
  }

  /** Reading the lines from `i` on, after lines none of which is an advice
      line, completes the parse of the whole reply. */
  lemma {:induction false} ScanFromInvariant(reply: string, symptoms: string, i: nat, acc: Analysis)
    requires i <= |StrippedLines(reply)|
    requires NoneSatisfy(StrippedLines(reply), i, IsAdviceLine)
    requires acc == WithFields(ScanFields(StrippedLines(reply)[..i]), reply, symptoms, "")
    ensures ScanFrom(reply, StrippedLines(reply), i, acc) == ParsedReply(reply, symptoms)
    decreases |StrippedLines(reply)| - i
  {
    var ls := StrippedLines(reply);
    if i == |ls| {
      TakeAll(ls);
      ParsedWithoutAdviceLine(reply, symptoms);
    } else {
      var line := ls[i];
      TakeSnoc(ls, i);
      if HasDepartmentLabel(line) {
        ScanFieldsSnocDepartment(ls[..i], line);
        NoneSatisfyExtend(ls, i, IsAdviceLine);
        var depts := DepartmentTokens(LabelValue(line));
        var acc' := acc.(recommendedDepartment := depts[0]);
        var next := if |depts| > 1 then acc'.(alternativeDepartments := depts[1..]) else acc';
        assert next == WithFields(ScanFields(ls[..i + 1]), reply, symptoms, "");
        ScanFromInvariant(reply, symptoms, i + 1, next);
      } else if HasUrgencyLabel(line) {
        ScanFieldsSnocUrgency(ls[..i], line);
        NoneSatisfyExtend(ls, i, IsAdviceLine);
        var next := acc.(urgency := UrgencyOf(LabelValue(line)));
        assert next == WithFields(ScanFields(ls[..i + 1]), reply, symptoms, "");
        ScanFromInvariant(reply, symptoms, i + 1, next);
      } else if HasAdviceLabel(line) {
        ParsedAtAdviceLine(reply, symptoms, i);
      } else {
        ScanFieldsSnocOther(ls[..i], line);
        NoneSatisfyExtend(ls, i, IsAdviceLine);
        ScanFromInvariant(reply, symptoms, i + 1, acc);
      }
    }
  }

  lemma {:induction false} ScanFromParses(reply: string, symptoms: string)
    ensures ScanFrom(reply, StrippedLines(reply), 0, InitialAnalysis(reply, symptoms)) == ParsedReply(reply, symptoms)
  {
    var ls := StrippedLines(reply);
    assert ls[..0] == [];
    ScanFromInvariant(reply, symptoms, 0, InitialAnalysis(reply, symptoms));
  }

  /** The record after the loop has read the lines from `i` on, starting
      from `acc`: the recurrence the loop of `ParseAiResponse` follows. */
  function ScanFrom(reply: string, ls: seq<string>, i: nat, acc: Analysis): Analysis
    decreases |ls| - i
  {
    if i >= |ls| then acc
    else
      var line := ls[i];
      if HasDepartmentLabel(line) then
        var depts := DepartmentTokens(LabelValue(line));
        var acc' := acc.(recommendedDepartment := depts[0]);
        ScanFrom(reply, ls, i + 1, if |depts| > 1 then acc'.(alternativeDepartments := depts[1..]) else acc')
      else if HasUrgencyLabel(line) then
        ScanFrom(reply, ls, i + 1, acc.(urgency := UrgencyOf(LabelValue(line))))
      else if HasAdviceLabel(line) then
        acc.(advice := AdviceAfter(reply, line))
      else
        ScanFrom(reply, ls, i + 1, acc)
  }

  /** The body of the loop of `_parse_ai_response` on the stripped line
      `line` (line `i` of `ls`): the branch of the `if`/`elif` chain it
      takes, and whether the loop breaks there. */
  method ReadLine(reply: string, line: string, acc: Analysis, ghost ls: seq<string>, ghost i: nat)
    returns (next: Analysis, stop: bool)
    requires i < |ls| && ls[i] == line
    ensures stop <==> IsAdviceLine(line)
    ensures stop ==> next == ScanFrom(reply, ls, i, acc)
    ensures !stop ==> ScanFrom(reply, ls, i + 1, next) == ScanFrom(reply, ls, i, acc)
  {
    next, stop := acc, false;
    if HasDepartmentLabel(line) {
      var depts := DepartmentTokens(LabelValue(line));
      next := next.(recommendedDepartment := depts[0]);
      if |depts| > 1 {
        next := next.(alternativeDepartments := depts[1..]);
      }
    } else if HasUrgencyLabel(line) {
      next := next.(urgency := UrgencyOf(LabelValue(line)));
    } else if HasAdviceLabel(line) {
      var adviceStart := Find(reply, line);
      next := next.(advice := Strip(SliceFrom(reply, adviceStart + |line|)));
      stop := true;
    }
  }

  /** `_parse_ai_response`: one pass over the lines, overwriting the fields of
      the default record, until the first advice line. */
  method ParseAiResponse(aiResponse: string, symptoms: string) returns (result: Analysis)
    ensures result == ParsedReply(aiResponse, symptoms)
  {
    result := InitialAnalysis(aiResponse, symptoms);
    var lines := Split(aiResponse, '\n');
    ghost var ls := StrippedLines(aiResponse);
    ScanFromParses(aiResponse, symptoms);
    var i := 0;
    while i < |lines|
      invariant i <= |lines| == |ls|
      invariant ScanFrom(aiResponse, ls, i, result) == ParsedReply(aiResponse, symptoms)
    {
      var line := Strip(lines[i]);
      var stop;
      result, stop := ReadLine(aiResponse, line, result, ls, i);
      if stop {
        return;
      }
      i := i + 1;
    }
  }

  // ---------------------------------------------------------------------
  // Properties of the parse
  // ---------------------------------------------------------------------

  /** A reply none of whose lines carries a label leaves every field at its
      default: department 内科, no alternatives, urgency normal, no advice. */
  lemma {:induction false} NoLabelGivesDefaults(reply: string, symptoms: string)
    requires forall line :: line in Split(reply, '\n') ==> KindOf(Strip(line)) == OtherLine
    ensures ParsedReply(reply, symptoms) == InitialAnalysis(reply, symptoms)
  {
    var ls := StrippedLines(reply);
    var parts := Split(reply, '\n');
    forall k | 0 <= k < |ls| ensures KindOf(ls[k]) == OtherLine {
      assert parts[k] in parts;
    }
    NoLineSatisfies(ls, IsDepartmentLine);
    NoLineSatisfies(ls, IsListingLine);
    NoLineSatisfies(ls, IsUrgencyLine);
    NoLineSatisfies(ls, IsAdviceLine);
  }

  lemma {:induction false} NoLineSatisfies(ls: seq<string>, p: string -> bool)
    requires forall j :: 0 <= j < |ls| ==> !p(ls[j])
    ensures LastIndex(ls, p) == None && FirstIndex(ls, p) == None
  {
    LastIndexIsLast(ls, p);
    FirstIndexIsFirst(ls, p);
  }

  lemma {:induction false} LastIndexAppend(a: seq<string>, b: seq<string>, p: string -> bool)
    ensures LastIndex(a + b, p) ==
      match LastIndex(b, p)
      case Some(k) => Some(|a| + k)
      case None => LastIndex(a, p)
    decreases |b|
  {
    if |b| == 0 {
      assert a + b == a;
    } else {
      assert (a + b)[..|a + b| - 1] == a + b[..|b| - 1];
      LastIndexAppend(a, b[..|b| - 1], p);
    }
  }

  lemma {:induction false} FirstIndexAppend(a: seq<string>, b: seq<string>, p: string -> bool)
    ensures FirstIndex(a + b, p) ==
      match FirstIndex(a, p)
      case Some(k) => Some(k)
      case None => match FirstIndex(b, p) case Some(k) => Some(|a| + k) case None => None
    decreases |a|
  {
    if |a| == 0 {
      assert a + b == b;
    } else {
      assert (a + b)[1..] == a[1..] + b;
      FirstIndexAppend(a[1..], b, p);
    }
  }

  /** Later lines override earlier ones: after the lines `a` and then `b`,
      each field holds what `b` set, and what `a` set only when `b` has no
      line of that kind.  In particular a later department line with a
      single name replaces the primary department but keeps the alternatives. */
  lemma {:induction false} ScanFieldsAppend(a: seq<string>, b: seq<string>)
    ensures ScanFields(a + b).department ==
      if exists j :: 0 <= j < |b| && IsDepartmentLine(b[j])
      then ScanFields(b).department else ScanFields(a).department
    ensures ScanFields(a + b).alternatives ==
      if exists j :: 0 <= j < |b| && IsListingLine(b[j])
      then ScanFields(b).alternatives else ScanFields(a).alternatives
    ensures ScanFields(a + b).urgency ==
      if exists j :: 0 <= j < |b| && IsUrgencyLine(b[j])
      then ScanFields(b).urgency else ScanFields(a).urgency
  {
    LastValueAppend(a, b, IsDepartmentLine, PrimaryDepartment, DefaultDepartment);
    LastValueAppend(a, b, IsListingLine, Alternatives, []);
    LastValueAppend(a, b, IsUrgencyLine, LineUrgency, Normal);
  }

  /** The stripped lines of `a + "\n" + b` are those of `a` followed by those of `b`. */
  lemma {:induction false} StrippedLinesAppend(a: string, b: string)
    ensures StrippedLines(a + "\n" + b) == StrippedLines(a) + StrippedLines(b)
  {
    SplitAppend(a, '\n', b);
  }

  /** When the first part of a reply has no advice line, the scan reads all
      of it and goes on into the second part. */
  lemma {:induction false} ScannedLinesAppend(a: string, b: string)
    requires forall j :: 0 <= j < |StrippedLines(a)| ==> !IsAdviceLine(StrippedLines(a)[j])
    ensures ScannedLines(a + "\n" + b) == StrippedLines(a) + ScannedLines(b)
  {
    StrippedLinesAppend(a, b);
    BeforeAppend(StrippedLines(a), StrippedLines(b), IsAdviceLine);
  }

  /** No line after the first advice line is inspected: appending text to a
      reply that already has an advice line changes none of the department
      and urgency fields. */
  lemma {:induction false} AdviceLineEndsScan(a: string, b: string, symptoms: string)
    requires exists j :: 0 <= j < |StrippedLines(a)| && IsAdviceLine(StrippedLines(a)[j])
    ensures ScannedLines(a + "\n" + b) == ScannedLines(a)
    ensures ParsedReply(a + "\n" + b, symptoms).recommendedDepartment ==
            ParsedReply(a, symptoms).recommendedDepartment
    ensures ParsedReply(a + "\n" + b, symptoms).alternativeDepartments ==
            ParsedReply(a, symptoms).alternativeDepartments
    ensures ParsedReply(a + "\n" + b, symptoms).urgency == ParsedReply(a, symptoms).urgency
  {
    var la, lb := StrippedLines(a), StrippedLines(b);
    StrippedLinesAppend(a, b);
    FirstIndexAppend(la, lb, IsAdviceLine);
    FirstIndexIsFirst(la, IsAdviceLine);
    var k := FirstIndex(la, IsAdviceLine).value;
    assert (la + lb)[..k] == la[..k];
  }

  /** A later department line overrides an earlier one: for a reply made of
      a part `a` without advice line and a part `b`, the primary department
      comes from `b` when `b`'s scanned lines hold a department line, and the
      alternatives from `b` only when one of them lists two or more names. */
  lemma {:induction false} LaterDepartmentLineOverrides(a: string, b: string, symptoms: string)
    requires forall j :: 0 <= j < |StrippedLines(a)| ==> !IsAdviceLine(StrippedLines(a)[j])
    ensures var r, ra, rb := ParsedReply(a + "\n" + b, symptoms), ParsedReply(a, symptoms), ParsedReply(b, symptoms);
      var sb := ScannedLines(b);
      && r.recommendedDepartment ==
           (if exists j :: 0 <= j < |sb| && IsDepartmentLine(sb[j])
            then rb.recommendedDepartment else ra.recommendedDepartment)
      && r.alternativeDepartments ==
           (if exists j :: 0 <= j < |sb| && IsListingLine(sb[j])
            then rb.alternativeDepartments else ra.alternativeDepartments)
      && r.urgency ==
           (if exists j :: 0 <= j < |sb| && IsUrgencyLine(sb[j])
            then rb.urgency else ra.urgency)
  {
    ScannedLinesAppend(a, b);
    var la := StrippedLines(a);
    NoLineSatisfies(la, IsAdviceLine);
    assert ScannedLines(a) == la;
    ScanFieldsAppend(la, ScannedLines(b));
  }

  /** An empty department value (a label with nothing after it) sets the
      primary department to the empty string, because splitting "" gives [""]. */
  lemma {:induction false} EmptyDepartmentValue(line: string)
    requires IsDepartmentLine(line) && LabelValue(line) == ""
    ensures ScanFields([line]).department == ""
    ensures ScanFields([line]).alternatives == []
  {
    assert Split("", ',') == [""];
    assert Strip("") == "";
    assert DepartmentTokens("") == [""];
  }

  // ---------------------------------------------------------------------
  // The prompt
  // ---------------------------------------------------------------------

  /** The departments offered to the model. */
  const Departments: seq<string> := [
    "内科", "外科", "妇科", "儿科", "骨科", "神经内科", "心血管内科",
    "消化内科", "呼吸内科", "内分泌科", "肾内科", "皮肤科", "眼科",
    "耳鼻喉科", "口腔科", "泌尿外科", "胸外科", "神经外科", "肿瘤科",
    "精神科", "中医科", "康复科", "急诊科"
  ]

  /** The patient dictionary: each key may be missing or None. */
  datatype PatientInfo = PatientInfo(
    age: Option<int>,
    gender: Option<string>,
    chronicDiseases: Option<string>,
    allergies: Option<string>)

  /** Python truthiness of an optional text or number. */
  predicate TruthyText(v: Option<string>) { v.Some? && v.value != "" }
  predicate TruthyNumber(v: Option<int>) { v.Some? && v.value != 0 }

  datatype PatientField = Age | Gender | ChronicDiseases | Allergies

  function FieldLabel(f: PatientField): string {
    match f
    case Age => "- 年龄："
    case Gender => "- 性别："
    case ChronicDiseases => "- 既往病史："
    case Allergies => "- 过敏史："
  }

  predicate FieldTruthy(p: PatientInfo, f: PatientField) {
    match f
    case Age => TruthyNumber(p.age)
    case Gender => TruthyText(p.gender)
    case ChronicDiseases => TruthyText(p.chronicDiseases)
    case Allergies => TruthyText(p.allergies)
  }

  /** The prompt line of a truthy field: its label, its value, a newline. */
  function FieldLine(p: PatientInfo, f: PatientField): string
    requires FieldTruthy(p, f)
  {
    match f
    case Age => FieldLabel(Age) + IntToString(p.age.value) + "岁\n"
    case Gender => FieldLabel(Gender) + p.gender.value + "\n"
    case ChronicDiseases => FieldLabel(ChronicDiseases) + p.chronicDiseases.value + "\n"
    case Allergies => FieldLabel(Allergies) + p.allergies.value + "\n"
  }

  /** The lines one field contributes: its line when truthy, none otherwise. */
  function PatientLine(p: PatientInfo, f: PatientField): seq<string> {
    if FieldTruthy(p, f) then [FieldLine(p, f)] else []
  }

  /** The optional patient lines, in the order the prompt adds them. */
  function PatientLines(p: PatientInfo): seq<string> {
    PatientLine(p, Age) + PatientLine(p, Gender) + PatientLine(p, ChronicDiseases) + PatientLine(p, Allergies)
  }

  /** A patient line appears exactly for each truthy field. */
  lemma {:induction false} PatientLineShownIffTruthy(p: PatientInfo, f: PatientField)
    ensures FieldTruthy(p, f) <==> exists line :: line in PatientLines(p) && HasPrefix(line, FieldLabel(f))
  {
    forall line | line in PatientLines(p) && HasPrefix(line, FieldLabel(f)) ensures FieldTruthy(p, f) {
      var g := LineField(p, line);
      LabelIdentifiesField(p, g, f);
    }
    if FieldTruthy(p, f) {
      var line := FieldLine(p, f);
      assert line in PatientLine(p, f);
      assert line in PatientLines(p);
      assert line[..|FieldLabel(f)|] == FieldLabel(f);
    }
  }

  /** Every patient line is the line of a truthy field. */
  lemma {:induction false} LineField(p: PatientInfo, line: string) returns (g: PatientField)
    requires line in PatientLines(p)
    ensures FieldTruthy(p, g) && line == FieldLine(p, g)
  {
    if line in PatientLine(p, Age) { g := Age; }
    else if line in PatientLine(p, Gender) { g := Gender; }
    else if line in PatientLine(p, ChronicDiseases) { g := ChronicDiseases; }
    else { g := Allergies; }
  }

  /** The label a field line starts with names its field: the four labels
      differ in their third character. */
  lemma {:induction false} LabelIdentifiesField(p: PatientInfo, g: PatientField, f: PatientField)
    requires FieldTruthy(p, g) && HasPrefix(FieldLine(p, g), FieldLabel(f))
    ensures g == f
  {
    assert FieldLine(p, g)[2] == FieldLabel(g)[2];
    assert FieldLine(p, g)[2] == FieldLabel(f)[2];
  }

  /** The fixed question block ending the prompt. */
  function PromptQuestions(): string {
    "请根据症状分析并回答以下问题：\n\n"
    + "1. 推荐科室：从以下科室中选择最合适的（可以列出1-2个）\n"
    + "   " + JoinWith(Departments, ", ") + "\n\n"
    + "2. 紧急程度：紧急(urgent)/较急(semi-urgent)/普通(normal)\n\n"
    + "3. 就医建议：给老人简单明了的建议，包括：\n"
    + "   - 为什么推荐这个科室\n"
    + "   - 去医院前需要注意什么\n"
    + "   - 大概的就诊流程\n\n"
    + "请用以下格式回答：\n"
    + "【推荐科室】科室名称\n"
    + "【紧急程度】urgent/semi-urgent/normal\n"
    + "【就医建议】具体建议内容"
  }

  /** `_build_prompt`: the symptoms line, then (for a non-empty patient
      dictionary) the patient block holding one line per truthy field, then
      the questions. */
  method BuildPrompt(symptoms: string, patientInfo: Option<PatientInfo>) returns (prompt: string)
    ensures HasPrefix(prompt, "患者症状：" + symptoms + "\n\n")
    ensures patientInfo.None? ==> prompt == "患者症状：" + symptoms + "\n\n" + PromptQuestions()
    ensures patientInfo.Some? ==>
      prompt == "患者症状：" + symptoms + "\n\n" + "患者信息：\n"
                + Concat(PatientLines(patientInfo.value)) + "\n" + PromptQuestions()
  {
    prompt := "患者症状：" + symptoms + "\n\n";
    ghost var head := prompt;
    assert HasPrefix(prompt, head) by { assert head[..|head|] == head; }
    if patientInfo.Some? {
      prompt := AddPatientBlock(prompt, patientInfo.value);
      PrefixOfAppend(head, prompt[|head|..], head);
    }
    PrefixOfAppend(prompt, PromptQuestions(), head);
    prompt := prompt + PromptQuestions();
  }

  /** The `if patient_info:` block of `_build_prompt`: the heading, one line
      per truthy field in the fixed order, and a blank line. */
  method AddPatientBlock(prompt0: string, p: PatientInfo) returns (prompt: string)
    ensures prompt == prompt0 + "患者信息：\n" + Concat(PatientLines(p)) + "\n"
  {
    prompt := prompt0 + "患者信息：\n";
    ghost var start := prompt;
    if TruthyNumber(p.age) {
      prompt := prompt + ("- 年龄：" + IntToString(p.age.value) + "岁\n");
    }
    FieldStep(p, Age, start, prompt);
    ghost var shown := PatientLine(p, Age);
    ghost var before := prompt;
    if TruthyText(p.gender) {
      prompt := prompt + ("- 性别：" + p.gender.value + "\n");
    }
    FieldStep(p, Gender, before, prompt);
    ConcatStep(start, shown, PatientLine(p, Gender), before, prompt);
    shown, before := shown + PatientLine(p, Gender), prompt;
    if TruthyText(p.chronicDiseases) {
      prompt := prompt + ("- 既往病史：" + p.chronicDiseases.value + "\n");
    }
    FieldStep(p, ChronicDiseases, before, prompt);
    ConcatStep(start, shown, PatientLine(p, ChronicDiseases), before, prompt);
    shown, before := shown + PatientLine(p, ChronicDiseases), prompt;
    if TruthyText(p.allergies) {
      prompt := prompt + ("- 过敏史：" + p.allergies.value + "\n");
    }
    FieldStep(p, Allergies, before, prompt);
    ConcatStep(start, shown, PatientLine(p, Allergies), before, prompt);
    prompt := prompt + "\n";
  }

  /** Appending the text of field `f` when it is truthy appends the text of its lines. */
  lemma {:induction false} FieldStep(p: PatientInfo, f: PatientField, before: string, after: string)
    requires after == if FieldTruthy(p, f) then before + FieldLine(p, f) else before
    ensures after == before + Concat(PatientLine(p, f))
  {
    if FieldTruthy(p, f) {
      assert Concat([FieldLine(p, f)]) == Concat([]) + FieldLine(p, f);
    } else {
      assert before + "" == before;
    }
  }

  // ---------------------------------------------------------------------
  // analyze_symptoms: the model call, its parse, and the fallback
  // ---------------------------------------------------------------------

  /** What `analyze_symptoms` returns: the parsed analysis, or the canned
      answer of its exception handler. */
  datatype SymptomOutcome =
    | Analyzed(analysis: Analysis)
    | Fallback(error: string, recommendedDepartment: string, urgency: Urgency, advice: string)

  const FallbackAdvice: string := "建议先挂内科，由医生进一步诊断。"

  /** `analyze_symptoms`: builds the prompt (returned, as it is what is
      sent to the model) and, given the model's `reply` to it, parses the
      reply or, when the call raised, answers 内科 / normal with fixed advice. */
  method AnalyzeSymptoms(symptoms: string, patientInfo: Option<PatientInfo>, reply: Result<string>)
    returns (prompt: string, outcome: SymptomOutcome)
    ensures HasPrefix(prompt, "患者症状：" + symptoms + "\n\n")
    ensures reply.Success? ==> outcome == Analyzed(ParsedReply(reply.value, symptoms))
    ensures reply.Failure? ==>
      outcome == Fallback(reply.error, DefaultDepartment, Normal, FallbackAdvice)
  {
    prompt := BuildPrompt(symptoms, patientInfo);
    match reply {
      case Success(text) =>
        var analysis := ParseAiResponse(text, symptoms);
        outcome := Analyzed(analysis);
      case Failure(e) =>
        outcome := Fallback(e, DefaultDepartment, Normal, FallbackAdvice);
    }
  }

  // ---------------------------------------------------------------------
  // get_department_info
  // ---------------------------------------------------------------------

  datatype DepartmentInfo = DepartmentInfo(description: string, commonSymptoms: seq<string>, preparation: string)

  const DepartmentGuides: map<string, DepartmentInfo> := map[
    "内科" := DepartmentInfo(
      "诊治内科常见疾病，如感冒、发烧、咳嗽、腹泻等",
      ["发热", "咳嗽", "乏力", "头痛", "腹痛"],
      "无需特殊准备，如需抽血检查建议空腹"),
    "心血管内科" := DepartmentInfo(
      "诊治心脏和血管相关疾病",
      ["胸闷", "胸痛", "心慌", "气短", "高血压"],
      "携带近期心电图和血压记录"),
    "消化内科" := DepartmentInfo(
      "诊治消化系统疾病",
      ["胃痛", "腹泻", "便秘", "恶心", "呕吐"],
      "如需胃镜检查，需提前预约并空腹")
  ]

  /** `get_department_info`: the table entry of a known department; for any
      other a description naming it, no common symptoms and the generic
      preparation.  Only the default has no common symptoms. */
  function GetDepartmentInfo(department: string): (info: DepartmentInfo)
    ensures department in DepartmentGuides ==> info == DepartmentGuides[department]
    ensures department !in DepartmentGuides ==>
      HasPrefix(info.description, department) && info.preparation == "按医院要求准备"
    ensures info.commonSymptoms == [] <==> department !in DepartmentGuides
  {
    if department in DepartmentGuides then DepartmentGuides[department]
    else DepartmentInfo(department + "相关疾病诊治", [], "按医院要求准备")
  }
}
