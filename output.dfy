/**
 * internal/output/output.go: the plain-text task block and play recap.
 * client.go declares character-for-character the same two functions
 * (formatTaskOutput, formatPlaybookSummary), so this module models both.
 * Rendering a time.Duration with %s is a parameter (`took`).
 */
module Output {
  import opened Strings
  import opened Models
  import Seqs

  /** The bucket a result falls into, by the precedence skipped, failed, changed, ok. */
  datatype Kind = Skipped | Failed | Changed | Ok

  function KindOf(r: TaskResult): Kind {
    if r.skipReason != "" then Skipped
    else if r.failed then Failed
    else if r.changed then Changed
    else Ok
  }

  const TaskStars := "****************************************************"
  const RecapHeader := "PLAY RECAP *********************************************************************\n"
  const CheckMode := "(check mode)\n"
  /** The padding between a task name and its recap entry. */
  const Gap := "                : "

  /** The single status line of a task block, as the if-chain of lines 12-20 writes it. */
  function StatusLine(r: TaskResult): string {
    if r.skipReason != "" then "skipping: [" + r.skipReason + "]\n"
    else if r.failed then "failed: [" + r.error + "]\n"
    else if r.changed then "changed: [" + r.output + "]\n"
    else "ok\n"
  }

  /** FormatTaskOutput: the header, one status line, and the check-mode line in dry-run. */
  function FormatTaskOutput(taskName: string, result: TaskResult, dryRun: bool): (out: string)
    ensures var header := "TASK [" + taskName + "] " + TaskStars + "\n";
            |header| <= |out| && out[..|header|] == header
    ensures var header := "TASK [" + taskName + "] " + TaskStars + "\n";
            out[|header|..] == StatusLine(result) + (if dryRun then CheckMode else "")
  {
    var header := "TASK [" + taskName + "] " + TaskStars + "\n";
    var body := StatusLine(result) + (if dryRun then CheckMode else "");
    assert (header + body)[..|header|] == header;
    assert (header + body)[|header|..] == body;
    header + body
  }

  /** What the recap says about one result, by the if-chain of lines 30-38. */
  function RecapVerdict(r: TaskResult): string {
    if r.skipReason != "" then "skip=" + r.skipReason
    else if r.failed then "failed=" + r.error
    else if r.changed then "changed=" + r.output
    else "ok"
  }

  /** The recap entry of one result: its name, the padding, the verdict and a newline. */
  function RecapLine(r: TaskResult): string {
    r.name + Gap + RecapVerdict(r) + "\n"
  }

  /** The recap entries of all results, in input order. */
  function RecapLines(rs: seq<TaskResult>): string {
    if |rs| == 0 then "" else RecapLines(rs[..|rs| - 1]) + RecapLine(rs[|rs| - 1])
  }

  /** The whole recap. */
  function Summary(results: seq<TaskResult>, took: string, dryRun: bool): string {
    RecapHeader + RecapLines(results) + "Playbook run took " + took + "\n" + (if dryRun then CheckMode else "")
  }

  /** FormatPlaybookSummary: the header, then `+=` one entry per result, then the timing line and, in dry-run, the check-mode line. */
  method FormatPlaybookSummary(results: seq<TaskResult>, took: string, dryRun: bool) returns (output: string)
    ensures output == Summary(results, took, dryRun)
  {
    output := RecapHeader;
    var i := 0;
    while i < |results|
      invariant 0 <= i <= |results|
      invariant output == RecapHeader + RecapLines(results[..i])
    {
      var result := results[i];
      var line: string;
      if result.skipReason != "" {
        line := result.name + Gap + "skip=" + result.skipReason + "\n";
      } else if result.failed {
        line := result.name + Gap + "failed=" + result.error + "\n";
      } else if result.changed {
        line := result.name + Gap + "changed=" + result.output + "\n";
      } else {
        line := result.name + Gap + "ok\n";
      }
      assert line == RecapLine(result);
      RecapLinesStep(results, i);
      Seqs.AppendAssoc(RecapHeader, RecapLines(results[..i]), line);
      output := output + line;
      i := i + 1;
    }
    assert results[..|results|] == results;
    output := output + "Playbook run took " + took + "\n";
    if dryRun {
      output := output + CheckMode;
    }
  }

  /** One more result adds its entry at the end. */
  lemma RecapLinesStep(rs: seq<TaskResult>, i: nat)
    requires i < |rs|
    ensures RecapLines(rs[..i + 1]) == RecapLines(rs[..i]) + RecapLine(rs[i])
  {
    assert rs[..i + 1][..i] == rs[..i];
  }

  // ---------------------------------------------------------------------------
  // Properties
  // ---------------------------------------------------------------------------

  /** The status line names exactly the bucket KindOf picks: a skip reason wins over failure, failure over change. */
  lemma StatusLineFollowsKind(r: TaskResult)
    ensures KindOf(r) == Skipped <==> HasPrefix(StatusLine(r), "skipping: [")
    ensures KindOf(r) == Failed <==> HasPrefix(StatusLine(r), "failed: [")
    ensures KindOf(r) == Changed <==> HasPrefix(StatusLine(r), "changed: [")
    ensures KindOf(r) == Ok <==> StatusLine(r) == "ok\n"
  {
    var s := StatusLine(r);
    match KindOf(r)
    case Skipped =>
      assert s[..11] == "skipping: [";
      assert s[..9] != "failed: [" by { assert s[0] == 's'; }
      assert s[..10] != "changed: [" by { assert s[0] == 's'; }
    case Failed =>
      assert s[..9] == "failed: [";
      assert |s| < 11 || s[..11] != "skipping: [" by { assert s[0] == 'f'; }
      assert s[..10] != "changed: [" by { assert s[0] == 'f'; }
    case Changed =>
      assert s[..10] == "changed: [";
      assert s[..11] != "skipping: [" by { assert s[0] == 'c'; }
      assert s[..9] != "failed: [" by { assert s[0] == 'c'; }
    case Ok =>
  }

  /** The recap entry uses the same precedence as the status line. */
  lemma RecapVerdictFollowsKind(r: TaskResult)
    ensures KindOf(r) == Skipped <==> HasPrefix(RecapVerdict(r), "skip=")
    ensures KindOf(r) == Failed <==> HasPrefix(RecapVerdict(r), "failed=")
    ensures KindOf(r) == Changed <==> HasPrefix(RecapVerdict(r), "changed=")
    ensures KindOf(r) == Ok <==> RecapVerdict(r) == "ok"
  {
    var v := RecapVerdict(r);
    match KindOf(r)
    case Skipped =>
      assert v[..5] == "skip=";
      assert v[0] == 's';
    case Failed =>
      assert v[..7] == "failed=";
      assert v[0] == 'f';
    case Changed =>
      assert v[..8] == "changed=";
      assert v[0] == 'c';
    case Ok =>
  }

  /** The check-mode line ends the task block exactly in dry-run: a status line never ends with it. */
  lemma TaskCheckModeIff(taskName: string, result: TaskResult, dryRun: bool)
    ensures HasSuffix(FormatTaskOutput(taskName, result, dryRun), CheckMode) <==> dryRun
  {
    var out := FormatTaskOutput(taskName, result, dryRun);
    if !dryRun {
      var s := StatusLine(result);
      var header := "TASK [" + taskName + "] " + TaskStars + "\n";
      assert out == header + s;
      assert out[|out| - 2] == s[|s| - 2];
      assert s[|s| - 2] == ']' || s[|s| - 2] == 'k';
      assert CheckMode[|CheckMode| - 2] == ')';
    }
  }

  /**
   * The check-mode line ends the recap exactly in dry-run. time.Duration's
   * String always ends with the unit letter 's' ("0s", "1.5ms", "1h2m3s"), so
   * the timing line never ends with the check-mode line.
   */
  lemma SummaryCheckModeIff(results: seq<TaskResult>, took: string, dryRun: bool)
    requires HasSuffix(took, "s")
    ensures HasSuffix(Summary(results, took, dryRun), CheckMode) <==> dryRun
  {
    var x := RecapHeader + RecapLines(results) + "Playbook run took " + took;
    var out := Summary(results, took, dryRun);
    if dryRun {
      assert out == (x + "\n") + CheckMode;
      Seqs.DropLeft(x + "\n", CheckMode);
    } else {
      assert out == x + "\n";
      assert |took| > 0 && took[|took| - 1] == 's';
      Seqs.LastOfAppend(RecapHeader + RecapLines(results) + "Playbook run took ", took);
      assert out[|out| - 2] == x[|x| - 1] == 's';
      assert CheckMode[|CheckMode| - 2] == ')';
    }
  }

  /** The recap entries of two lists of results are the entries of the first followed by those of the second. */
  lemma {:induction false} RecapLinesAppend(a: seq<TaskResult>, b: seq<TaskResult>)
    ensures RecapLines(a + b) == RecapLines(a) + RecapLines(b)
    decreases |b|
  {
    if |b| == 0 {
      assert a + b == a;
    } else {
      var front, last := b[..|b| - 1], b[|b| - 1];
      assert (a + b)[..|a + b| - 1] == a + front;
      assert (a + b)[|a + b| - 1] == last;
      assert RecapLines(a + b) == RecapLines(a + front) + RecapLine(last);
      RecapLinesAppend(a, front);
      Seqs.AppendAssoc(RecapLines(a), RecapLines(front), RecapLine(last));
    }
  }

  /** The timing line follows every entry: the recap ends with it (and, in dry-run, the check-mode line). */
  lemma TimingFollowsEntries(results: seq<TaskResult>, took: string, dryRun: bool)
    ensures var pre := RecapHeader + RecapLines(results);
            var timing := "Playbook run took " + took + "\n";
            Summary(results, took, dryRun) == pre + timing + (if dryRun then CheckMode else "")
            && Summary(results, took, dryRun)[..|pre|] == pre
  {
    var pre := RecapHeader + RecapLines(results);
    var rest := "Playbook run took " + took + "\n" + (if dryRun then CheckMode else "");
    assert Summary(results, took, dryRun) == pre + rest;
    assert (pre + rest)[..|pre|] == pre;
  }
}
