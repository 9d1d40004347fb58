/**
 * internal/api/output.go: the Ansible-style task block and play recap of the
 * api package. The seconds of a duration, rendered with %.2f, are a parameter
 * (`secs`): the model never computes with floating point.
 */
module ApiOutput {
  import opened Strings
  import Seqs

  const ColorReset := "\U{1B}[0m"
  const ColorGreen := "\U{1B}[32m"
  const ColorYellow := "\U{1B}[33m"
  const ColorRed := "\U{1B}[31m"
  const ColorBlue := "\U{1B}[34m"

  const Indent := "        "
  const CheckModeLine := "\n*** Playbook run in check mode ***"

  /** The api package's own TaskResult (it carries a Status field models.TaskResult lacks). */
  datatype TaskResult = TaskResult(
    name: string,
    status: string,
    changed: bool,
    failed: bool,
    skipReason: string,
    duration: int,
    output: string,
    error: string)

  // ---------------------------------------------------------------------------
  // Classification
  // ---------------------------------------------------------------------------

  /** The four recap buckets. */
  datatype Bucket = Failed | Changed | Skipped | Ok

  /** The bucket of a result, by the switch order failed, changed, skipped, ok. */
  function BucketOf(r: TaskResult): Bucket {
    if r.failed then Failed
    else if r.changed then Changed
    else if r.skipReason != "" then Skipped
    else Ok
  }

  function BucketName(b: Bucket): string {
    match b
    case Failed => "failed"
    case Changed => "changed"
    case Skipped => "skipped"
    case Ok => "ok"
  }

  /**
   * The status word and colour of a task line. In dry-run only the skip reason
   * decides; otherwise the switch of lines 43-56 does.
   */
  function StatusOf(r: TaskResult, dryRun: bool): (sc: (string, string))
    ensures dryRun ==> (sc.0 == "skipped" <==> r.skipReason != "")
    ensures dryRun ==> (sc.0 == "check mode" <==> r.skipReason == "")
    ensures !dryRun ==> sc.0 == BucketName(BucketOf(r))
  {
    if dryRun then
      if r.skipReason != "" then ("skipped", ColorBlue) else ("check mode", ColorYellow)
    else if r.failed then ("failed", ColorRed)
    else if r.changed then ("changed", ColorYellow)
    else if r.skipReason != "" then ("skipped", ColorBlue)
    else ("ok", ColorGreen)
  }

  // ---------------------------------------------------------------------------
  // formatResultDetails
  // ---------------------------------------------------------------------------

  /** One entry of the details object. */
  datatype Detail = CheckModeOn | ChangedOn | FailedOn | SkipReason(reason: string) | Duration(secs: string)

  /** Where an entry may stand in the details object. */
  function Rank(d: Detail): nat {
    match d
    case CheckModeOn => 0
    case ChangedOn => 1
    case FailedOn => 2
    case SkipReason(_) => 3
    case Duration(_) => 4
  }

  function Render(d: Detail): string {
    match d
    case CheckModeOn => "\"check_mode\": true"
    case ChangedOn => "\"changed\": true"
    case FailedOn => "\"failed\": true"
    case SkipReason(reason) => "\"skip_reason\": \"" + reason + "\""
    case Duration(secs) => "\"duration\": " + secs + "s"
  }

  /** Appends `d` when `cond` holds, as `details = append(details, d)` under an `if`. */
  function AppendIf(details: seq<Detail>, cond: bool, d: Detail): seq<Detail> {
    if cond then details + [d] else details
  }

  /** The entries stand in strictly increasing rank. */
  predicate Ordered(ds: seq<Detail>) {
    forall i, j | 0 <= i < j < |ds| :: Rank(ds[i]) < Rank(ds[j])
  }

  /** Every entry ranks below `n`. */
  predicate Below(ds: seq<Detail>, n: nat) {
    forall k | 0 <= k < |ds| :: Rank(ds[k]) < n
  }

  /**
   * The entries of the details object: each flag only when it is set, in the
   * fixed order check_mode, changed, failed, skip_reason, and the duration
   * always, last (DetailsFlags says which entries are present).
   */
  function Details(r: TaskResult, dryRun: bool, secs: string): (d: seq<Detail>)
    ensures |d| >= 1 && d[|d| - 1] == Duration(secs)
    ensures Ordered(d)
  {
    var d0 := AppendIf([], dryRun, CheckModeOn);
    AppendIfOrdered([], dryRun, CheckModeOn);
    var d1 := AppendIf(d0, r.changed, ChangedOn);
    AppendIfOrdered(d0, r.changed, ChangedOn);
    var d2 := AppendIf(d1, r.failed, FailedOn);
    AppendIfOrdered(d1, r.failed, FailedOn);
    var d3 := AppendIf(d2, r.skipReason != "", SkipReason(r.skipReason));
    AppendIfOrdered(d2, r.skipReason != "", SkipReason(r.skipReason));
    AppendIfOrdered(d3, true, Duration(secs));
    assert AppendIf(d3, true, Duration(secs)) == d3 + [Duration(secs)];
    d3 + [Duration(secs)]
  }

  /** Appending an entry that outranks all present ones keeps the ranks increasing. */
  lemma AppendIfOrdered(ds: seq<Detail>, cond: bool, x: Detail)
    requires Ordered(ds) && Below(ds, Rank(x))
    ensures Ordered(AppendIf(ds, cond, x)) && Below(AppendIf(ds, cond, x), Rank(x) + 1)
  {
  }

  /** A conditional append adds `x`, when `cond` holds, and nothing else. */
  lemma AppendIfMembers(ds: seq<Detail>, cond: bool, x: Detail, y: Detail)
    ensures y in AppendIf(ds, cond, x) <==> y in ds || (cond && y == x)
  {
  }

  /** Each flag is listed exactly when it is set, and the skip reason listed is the result's. */
  lemma DetailsFlags(r: TaskResult, dryRun: bool, secs: string)
    ensures var d := Details(r, dryRun, secs);
            (CheckModeOn in d <==> dryRun)
            && (ChangedOn in d <==> r.changed)
            && (FailedOn in d <==> r.failed)
            && (SkipReason(r.skipReason) in d <==> r.skipReason != "")
            && (forall x | SkipReason(x) in d :: x == r.skipReason)
  {
    var d0 := AppendIf([], dryRun, CheckModeOn);
    var d1 := AppendIf(d0, r.changed, ChangedOn);
    var d2 := AppendIf(d1, r.failed, FailedOn);
    var d3 := AppendIf(d2, r.skipReason != "", SkipReason(r.skipReason));
    var d := Details(r, dryRun, secs);
    assert d == AppendIf(d3, true, Duration(secs));
    forall y: Detail
      ensures y in d <==> (dryRun && y == CheckModeOn) || (r.changed && y == ChangedOn)
                          || (r.failed && y == FailedOn)
                          || (r.skipReason != "" && y == SkipReason(r.skipReason))
                          || y == Duration(secs)
    {
      AppendIfMembers([], dryRun, CheckModeOn, y);
      AppendIfMembers(d0, r.changed, ChangedOn, y);
      AppendIfMembers(d1, r.failed, FailedOn, y);
      AppendIfMembers(d2, r.skipReason != "", SkipReason(r.skipReason), y);
      AppendIfMembers(d3, true, Duration(secs), y);
    }
  }

  function RenderAll(ds: seq<Detail>): (r: seq<string>)
    ensures |r| == |ds| && forall k | 0 <= k < |ds| :: r[k] == Render(ds[k])
  {
    if |ds| == 0 then [] else [Render(ds[0])] + RenderAll(ds[1..])
  }

  /** formatResultDetails: the rendered entries, joined with ", " inside braces. */
  function FormatResultDetails(r: TaskResult, dryRun: bool, secs: string): string {
    "{" + Join(RenderAll(Details(r, dryRun, secs)), ", ") + "}"
  }

  // ---------------------------------------------------------------------------
  // formatTaskOutput
  // ---------------------------------------------------------------------------

  /** The header, padded with 80-7-len(taskName) stars; strings.Repeat panics on a negative count. */
  function Header(taskName: string): string
    requires |taskName| <= 73
  {
    "TASK [" + taskName + "] " + Repeat('*', 80 - 7 - |taskName|)
  }

  function ResultLine(r: TaskResult, dryRun: bool, secs: string): string {
    var (status, color) := StatusOf(r, dryRun);
    Indent + status + ": [localhost] => " + color + FormatResultDetails(r, dryRun, secs) + ColorReset
  }

  function OutputLine(line: string): string {
    Indent + "  " + line
  }

  function ErrorLine(error: string): string {
    Indent + "  Error: " + ColorRed + error + ColorReset
  }

  /** The indented non-empty lines among `lines`, in order. */
  function BodyLines(lines: seq<string>): seq<string> {
    if |lines| == 0 then []
    else
      var front := BodyLines(lines[..|lines| - 1]);
      if lines[|lines| - 1] != "" then front + [OutputLine(lines[|lines| - 1])] else front
  }

  /** The "Output:" block of lines 72-90. */
  function OutputLines(r: TaskResult): seq<string> {
    if r.output == "" && r.error == "" then []
    else
      [Indent + "Output:"]
      + (if r.output != "" then BodyLines(Split(r.output, '\n')) else [])
      + (if r.error != "" then [ErrorLine(r.error)] else [])
  }

  /** The whole task block. */
  function TaskText(taskName: string, r: TaskResult, dryRun: bool, secs: string): string
    requires |taskName| <= 73
  {
    Join([Header(taskName), ResultLine(r, dryRun, secs)] + OutputLines(r), "\n")
  }

  /** formatTaskOutput: the header, the result line, then the output lines gathered by a loop. */
  method FormatTaskOutput(taskName: string, result: TaskResult, dryRun: bool, secs: string) returns (text: string)
    requires |taskName| <= 73
    ensures text == TaskText(taskName, result, dryRun, secs)
  {
    var header := Header(taskName);
    var resultLine := ResultLine(result, dryRun, secs);
    var outputLines := GatherOutputLines(result);
    var parts := [header, resultLine];
    if |outputLines| > 0 {
      parts := parts + outputLines;
    }
    assert parts == [header, resultLine] + OutputLines(result);
    text := Join(parts, "\n");
  }

  /** Lines 72-90 of formatTaskOutput: the "Output:" line, each non-empty output line, then the error line. */
  method GatherOutputLines(result: TaskResult) returns (outputLines: seq<string>)
    ensures outputLines == OutputLines(result)
  {
    outputLines := [];
    if result.output != "" || result.error != "" {
      outputLines := outputLines + [Indent + "Output:"];
      if result.output != "" {
        var lines := Split(result.output, '\n');
        var i := 0;
        while i < |lines|
          invariant 0 <= i <= |lines|
          invariant outputLines == [Indent + "Output:"] + BodyLines(lines[..i])
        {
          assert lines[..i + 1][..i] == lines[..i];
          if lines[i] != "" {
            outputLines := outputLines + [OutputLine(lines[i])];
          }
          i := i + 1;
        }
        assert lines[..|lines|] == lines;
      }
      if result.error != "" {
        outputLines := outputLines + [ErrorLine(result.error)];
      }
    }
  }

  // ---------------------------------------------------------------------------
  // formatPlaybookSummary
  // ---------------------------------------------------------------------------

  /** How many results fall into bucket `b`. */
  function Count(rs: seq<TaskResult>, b: Bucket): nat {
    if |rs| == 0 then 0
    else Count(rs[..|rs| - 1], b) + (if BucketOf(rs[|rs| - 1]) == b then 1 else 0)
  }

  const RecapLead := "localhost                  : "

  /** One count of the recap: its tag, the count's digits, then the rest of the line. */
  function Field(tag: string, n: nat, rest: string): string {
    tag + (Itoa(n) + rest)
  }

  /** The recap line lines 142-148 evidently intend: each coloured tag followed by its own count. */
  function RecapLine(ok: nat, changed: nat, failed: nat, skipped: nat): string {
    RecapLead
    + Field(ColorGreen + "ok=", ok,
        Field("    " + ColorYellow + "changed=", changed,
          Field("    " + ColorRed + "failed=", failed,
            Field("    " + ColorBlue + "skipped=", skipped, ColorReset))))
  }

  /**
   * The recap line as fmt.Sprintf prints it. The format has six verbs for
   * nine arguments, which fmt pairs off in order: the second %d meets the
   * yellow colour string, the third the changed count (so "failed=" shows it),
   * the fourth the red colour string, and the final %s the failed count; the
   * blue colour, the skipped count and the reset are reported as EXTRA.
   */
  function RecapLineAsWritten(ok: nat, changed: nat, failed: nat, skipped: nat): string {
    RecapLead
    + Field(ColorGreen + "ok=", ok,
        Field("    changed=%!d(string=" + ColorYellow + ")    failed=", changed,
          Field("    skipped=%!d(string=" + ColorRed + ")%!s(int=", failed,
            Field(")%!(EXTRA string=" + ColorBlue + ", int=", skipped, ", string=" + ColorReset + ")"))))
  }

  const RecapBanner := "\nPLAY RECAP *********************************************************************"

  /** The timing line, led by its newline. */
  function Timing(secs: string): string {
    "\nPlaybook finished in " + secs + " seconds"
  }

  /** The recap text for the four counts. */
  function SummaryText(ok: nat, changed: nat, failed: nat, skipped: nat, secs: string, dryRun: bool): string {
    RecapBanner + "\n" + RecapLineAsWritten(ok, changed, failed, skipped) + Timing(secs) + (if dryRun then CheckModeLine else "")
  }

  /** formatPlaybookSummary: count the results per bucket in one pass, then render. */
  method FormatPlaybookSummary(results: seq<TaskResult>, secs: string, dryRun: bool) returns (text: string)
    ensures text == SummaryText(Count(results, Ok), Count(results, Changed), Count(results, Failed),
                                Count(results, Skipped), secs, dryRun)
  {
    var ok, changed, failed, skipped := 0, 0, 0, 0;
    var i := 0;
    while i < |results|
      invariant 0 <= i <= |results|
      invariant ok == Count(results[..i], Ok) && changed == Count(results[..i], Changed)
      invariant failed == Count(results[..i], Failed) && skipped == Count(results[..i], Skipped)
    {
      assert results[..i + 1][..i] == results[..i];
      var result := results[i];
      if result.failed {
        failed := failed + 1;
      } else if result.changed {
        changed := changed + 1;
      } else if result.skipReason != "" {
        skipped := skipped + 1;
      } else {
        ok := ok + 1;
      }
      i := i + 1;
    }
    assert results[..|results|] == results;
    text := SummaryText(ok, changed, failed, skipped, secs, dryRun);
  }

  // ---------------------------------------------------------------------------
  // Properties
  // ---------------------------------------------------------------------------

  /** Every result falls into exactly one bucket, so the four counts add up to the number of results. */
  lemma {:induction false} CountsCoverResults(rs: seq<TaskResult>)
    ensures Count(rs, Ok) + Count(rs, Changed) + Count(rs, Failed) + Count(rs, Skipped) == |rs|
  {
    if |rs| > 0 {
      CountsCoverResults(rs[..|rs| - 1]);
    }
  }

  /** The non-dry-run task status names the bucket the recap counts the result in. */
  lemma StatusAgreesWithRecap(r: TaskResult, rs: seq<TaskResult>)
    requires |rs| > 0 && rs[|rs| - 1] == r
    ensures StatusOf(r, false).0 == BucketName(BucketOf(r))
    ensures Count(rs, BucketOf(r)) == Count(rs[..|rs| - 1], BucketOf(r)) + 1
  {
  }

  /** The header is 81 characters wide whatever the task name, as long as the name fits. */
  lemma HeaderWidth(taskName: string)
    requires |taskName| <= 73
    ensures |Header(taskName)| == 81
    ensures Header(taskName)[..6 + |taskName| + 2] == "TASK [" + taskName + "] "
  {
    var h := "TASK [" + taskName + "] ";
    assert Header(taskName) == h + Repeat('*', 80 - 7 - |taskName|);
  }

  /** The "Output:" block is present exactly when the result has output or an error. */
  lemma OutputBlockIff(r: TaskResult)
    ensures |OutputLines(r)| > 0 <==> r.output != "" || r.error != ""
    ensures |OutputLines(r)| > 0 ==> OutputLines(r)[0] == Indent + "Output:"
  {
  }

  /** The error line, when there is one, comes last. */
  lemma ErrorLineLast(r: TaskResult)
    requires r.error != ""
    ensures |OutputLines(r)| >= 2 && OutputLines(r)[|OutputLines(r)| - 1] == ErrorLine(r.error)
  {
  }

  lemma OutputLineInjective(a: string, b: string)
    requires OutputLine(a) == OutputLine(b)
    ensures a == b
  {
    var p := Indent + "  ";
    assert OutputLine(a)[|p|..] == a;
    assert OutputLine(b)[|p|..] == b;
  }

  /** The body holds, indented, exactly the non-empty lines. */
  lemma {:induction false} BodyLinesMembership(lines: seq<string>, l: string)
    ensures OutputLine(l) in BodyLines(lines) <==> l in lines && l != ""
  {
    if |lines| > 0 {
      var front, last := lines[..|lines| - 1], lines[|lines| - 1];
      assert lines == front + [last];
      BodyLinesMembership(front, l);
      if OutputLine(l) in BodyLines(lines) && OutputLine(l) !in BodyLines(front) {
        assert OutputLine(l) == OutputLine(last);
        OutputLineInjective(l, last);
      }
    }
  }

  /** The body keeps the order of the lines it shows: it is built by appending at the end. */
  lemma {:induction false} BodyLinesAppend(lines: seq<string>, more: seq<string>)
    ensures BodyLines(lines + more) == BodyLines(lines) + BodyLines(more)
    decreases |more|
  {
    if |more| == 0 {
      assert lines + more == lines;
    } else {
      var front, last := more[..|more| - 1], more[|more| - 1];
      assert (lines + more)[..|lines + more| - 1] == lines + front;
      assert (lines + more)[|lines + more| - 1] == last;
      BodyLinesAppend(lines, front);
    }
  }

  /** In dry-run the Details list leads with check_mode; a failed, unchanged, unskipped result lists failed then duration. */
  lemma FailedDetails(r: TaskResult, secs: string)
    requires r.failed && !r.changed && r.skipReason == ""
    ensures Details(r, false, secs) == [FailedOn, Duration(secs)]
    ensures Details(r, true, secs) == [CheckModeOn, FailedOn, Duration(secs)]
  {
  }

  /** The dry-run recap ends with the check-mode banner; the plain recap ends with " seconds" and so does not. */
  lemma SummaryCheckModeIff(ok: nat, changed: nat, failed: nat, skipped: nat, secs: string, dryRun: bool)
    ensures HasSuffix(SummaryText(ok, changed, failed, skipped, secs, dryRun), CheckModeLine) <==> dryRun
  {
    var text := SummaryText(ok, changed, failed, skipped, secs, dryRun);
    var pre := RecapBanner + "\n" + RecapLineAsWritten(ok, changed, failed, skipped) + Timing(secs);
    if dryRun {
      assert text == pre + CheckModeLine;
      Seqs.DropLeft(pre, CheckModeLine);
    } else {
      assert text == pre + "";
      TimingEndsWithS(secs);
      Seqs.LastOfAppend(RecapBanner + "\n" + RecapLineAsWritten(ok, changed, failed, skipped), Timing(secs));
      assert CheckModeLine[|CheckModeLine| - 1] == '*';
    }
  }

  /** A run of digits followed by a non-digit is read off uniquely. */
  lemma DigitsThenStop(x: string, u: string, y: string, v: string)
    requires forall k | 0 <= k < |x| :: IsDigit(x[k])
    requires forall k | 0 <= k < |y| :: IsDigit(y[k])
    requires |u| > 0 && !IsDigit(u[0]) && |v| > 0 && !IsDigit(v[0])
    ensures x + u == y + v ==> x == y && u == v
  {
    if |x| < |y| {
      assert (x + u)[|x|] == u[0] && (y + v)[|x|] == y[|x|];
    } else if |y| < |x| {
      assert (y + v)[|y|] == v[0] && (x + u)[|y|] == x[|y|];
    } else if x + u == y + v {
      assert x == (x + u)[..|x|];
      assert y == (y + v)[..|y|];
      Seqs.DropLeft(x, u);
      Seqs.DropLeft(y, v);
    }
  }

  /** Two fields with the same tag that end in a non-digit hold the same count and the same rest. */
  lemma FieldUnique(tag: string, a: nat, r1: string, b: nat, r2: string)
    requires |r1| > 0 && !IsDigit(r1[0]) && |r2| > 0 && !IsDigit(r2[0])
    ensures Field(tag, a, r1) == Field(tag, b, r2) ==> a == b && r1 == r2
  {
    if Field(tag, a, r1) == Field(tag, b, r2) {
      Seqs.DropLeft(tag, Itoa(a) + r1);
      Seqs.DropLeft(tag, Itoa(b) + r2);
      DigitsThenStop(Itoa(a), r1, Itoa(b), r2);
      AtoiItoa(a);
      AtoiItoa(b);
    }
  }

  /** A field's first character is its tag's. */
  lemma FieldStart(tag: string, n: nat, rest: string)
    requires |tag| > 0
    ensures |Field(tag, n, rest)| > 0 && Field(tag, n, rest)[0] == tag[0]
  {
  }

  /** The intended recap line determines all four counts: no two different tallies print alike. */
  lemma RecapLineDeterminesCounts(ok1: nat, changed1: nat, failed1: nat, skipped1: nat,
                                  ok2: nat, changed2: nat, failed2: nat, skipped2: nat)
    requires RecapLine(ok1, changed1, failed1, skipped1) == RecapLine(ok2, changed2, failed2, skipped2)
    ensures ok1 == ok2 && changed1 == changed2 && failed1 == failed2 && skipped1 == skipped2
  {
    var l2, l3, l4 := "    " + ColorYellow + "changed=", "    " + ColorRed + "failed=", "    " + ColorBlue + "skipped=";
    var f4a, f4b := Field(l4, skipped1, ColorReset), Field(l4, skipped2, ColorReset);
    var f3a, f3b := Field(l3, failed1, f4a), Field(l3, failed2, f4b);
    var f2a, f2b := Field(l2, changed1, f3a), Field(l2, changed2, f3b);
    Seqs.DropLeft(RecapLead, Field(ColorGreen + "ok=", ok1, f2a));
    Seqs.DropLeft(RecapLead, Field(ColorGreen + "ok=", ok2, f2b));
    FieldStart(l2, changed1, f3a);
    FieldStart(l2, changed2, f3b);
    FieldUnique(ColorGreen + "ok=", ok1, f2a, ok2, f2b);
    FieldStart(l3, failed1, f4a);
    FieldStart(l3, failed2, f4b);
    FieldUnique(l2, changed1, f3a, changed2, f3b);
    FieldStart(l4, skipped1, ColorReset);
    FieldStart(l4, skipped2, ColorReset);
    FieldUnique(l3, failed1, f4a, failed2, f4b);
    FieldUnique(l4, skipped1, ColorReset, skipped2, ColorReset);
  }

  /**
   * As written, the recap line is never the intended one for any tallies: right
   * after the ok count it prints "    changed=%!d(" where the intended line
   * switches to the yellow colour.
   */
  lemma RecapAsWrittenDiffers(ok1: nat, changed1: nat, failed1: nat, skipped1: nat,
                              ok2: nat, changed2: nat, failed2: nat, skipped2: nat)
    ensures RecapLineAsWritten(ok1, changed1, failed1, skipped1) != RecapLine(ok2, changed2, failed2, skipped2)
  {
    var lw := "    changed=%!d(string=" + ColorYellow + ")    failed=";
    var li := "    " + ColorYellow + "changed=";
    var tw := Field("    skipped=%!d(string=" + ColorRed + ")%!s(int=", failed1,
                Field(")%!(EXTRA string=" + ColorBlue + ", int=", skipped1, ", string=" + ColorReset + ")"));
    var ti := Field("    " + ColorRed + "failed=", failed2, Field("    " + ColorBlue + "skipped=", skipped2, ColorReset));
    var rw, ri := Field(lw, changed1, tw), Field(li, changed2, ti);
    assert rw[4] == lw[4] == 'c';
    assert ri[4] == li[4] == '\U{1B}';
    Seqs.DropLeft(RecapLead, Field(ColorGreen + "ok=", ok1, rw));
    Seqs.DropLeft(RecapLead, Field(ColorGreen + "ok=", ok2, ri));
    FieldStart(lw, changed1, tw);
    FieldStart(li, changed2, ti);
    FieldUnique(ColorGreen + "ok=", ok1, rw, ok2, ri);
  }

  lemma TimingEndsWithS(secs: string)
    ensures |Timing(secs)| > 0 && Timing(secs)[|Timing(secs)| - 1] == 's'
  {
    Seqs.LastOfAppend("\nPlaybook finished in " + secs, " seconds");
  }
}
