/**
 * internal/api/client.go: the agent. Each cycle fetches this host's task list
 * from the server, skips everything when the ETag has not changed, and
 * otherwise runs (or, in check mode, only reports) every task in order. The
 * network, the clock, os.Hostname and the glob library are parameters; the
 * lines the agent prints are not modelled.
 */
module ApiClient {
  import opened Wrappers
  import opened Strings
  import opened Models
  import Executor
  import Seqs

  /** client.go's own TaskResult has exactly the fields of models.TaskResult. */
  type TaskResult = Models.TaskResult

  /** What the GET of /playbooks produced: a transport error, or a status, a decoded body and the ETag header. */
  datatype Fetch =
    | FetchFailed(msg: string)
    | Response(status: nat, body: Result<seq<Playbook>, string>, etag: string)

  /** The agent's surroundings during a cycle. */
  datatype Host = Host(
    parentEnv: map<string, string>,                  // os.Environ()
    run: Executor.Invocation -> Executor.RunOutcome, // the child process
    compile: string -> Result<string -> bool, string>, // glob.Compile, yielding the matcher
    send: TaskResult -> Option<string>,              // sendResult's error
    elapsed: Task -> Duration)                       // time.Since(startTime) for a task

  /** The tasks of the fetched playbooks, playbook after playbook. */
  function Flatten(pbs: seq<Playbook>): seq<Task> {
    if |pbs| == 0 then [] else Flatten(pbs[..|pbs| - 1]) + pbs[|pbs| - 1].tasks
  }

  /** getTasks: any transport, status or decoding failure is an error; otherwise the flattened tasks and the ETag. */
  function GetTasks(f: Fetch): (r: Result<(seq<Task>, string), string>)
    ensures r.Success? <==> f.Response? && f.status == 200 && f.body.Success?
    ensures r.Success? ==> r.value == (Flatten(f.body.value), f.etag)
    ensures f.FetchFailed? ==> r == Failure("failed to fetch playbooks: " + f.msg)
    ensures f.Response? && f.status != 200 ==> r == Failure("unexpected status code: " + Itoa(f.status))
    ensures f.Response? && f.status == 200 && f.body.Failure? ==> r == Failure("failed to decode playbooks: " + f.body.error)
  {
    match f
    case FetchFailed(msg) => Failure("failed to fetch playbooks: " + msg)
    case Response(status, body, etag) =>
      if status != 200 then Failure("unexpected status code: " + Itoa(status))
      else if body.Failure? then Failure("failed to decode playbooks: " + body.error)
      else Success((Flatten(body.value), etag))
  }

  /** What executeTask leaves in the result and returns. */
  datatype TaskOutcome = TaskOutcome(result: TaskResult, err: Option<string>)

  /**
   * executeTask: a condition that does not compile fails the task; one that
   * does not match the agent's hostname skips it; check mode only marks it
   * changed; otherwise the command runs through ExecuteWithEnv as written (so
   * the shell gets the task's command unrewritten) and its result is sent to
   * the server, whose error is the only error returned.
   */
  function Decide(shell: string, platform: Executor.Platform, hostname: string, dryRun: bool,
                  host: Host, task: Task): TaskOutcome
  {
    var named := NamedResult(task.name);
    if task.when != "" && host.compile(task.when).Failure? then
      TaskOutcome(named.(failed := true, error := "Invalid condition: " + host.compile(task.when).error), None)
    else if task.when != "" && !host.compile(task.when).value(hostname) then
      TaskOutcome(named.(skipReason := "Condition not met: " + task.when), None)
    else if dryRun then
      TaskOutcome(named.(changed := true), None)
    else
      var o := host.run(Executor.AsWrittenInvocation(shell, platform, task.command, task.env, host.parentEnv));
      var ran := named.(duration := host.elapsed(task), output := Executor.SelectOutput(o));
      var result :=
        if Executor.ErrorText(o).Some? then ran.(failed := true, error := Executor.ErrorText(o).value)
        else ran.(changed := true);
      TaskOutcome(result, host.send(result))
  }

  /** The result check mode records for a task that CheckAndExecute does not hand to executeTask. */
  function CheckModeResult(task: Task): TaskResult {
    NamedResult(task.name).(changed := true)
  }

  /** What the task loop of a cycle produced: the results so far, and the error that stopped it. */
  datatype CycleOutcome = CycleOutcome(results: seq<TaskResult>, failure: Option<string>)

  /** The task loop of CheckAndExecute over `tasks`, in order, stopping at the first executeTask error. */
  function RunTasks(shell: string, platform: Executor.Platform, hostname: string, dryRun: bool,
                    host: Host, tasks: seq<Task>): CycleOutcome
  {
    if |tasks| == 0 then CycleOutcome([], None)
    else
      var prev := RunTasks(shell, platform, hostname, dryRun, host, tasks[..|tasks| - 1]);
      var task := tasks[|tasks| - 1];
      if prev.failure.Some? then prev
      else if dryRun then CycleOutcome(prev.results + [CheckModeResult(task)], None)
      else
        var o := Decide(shell, platform, hostname, dryRun, host, task);
        if o.err.Some? then CycleOutcome(prev.results, Some("failed to execute task " + task.name + ": " + o.err.value))
        else CycleOutcome(prev.results + [o.result], None)
  }

  class Client {
    const serverAddr: string
    const executor: Executor.Executor
    const hostname: string
    const checkInterval: Duration
    var lastETag: string
    var dryRun: bool
    const customer: string
    const environment: string

    constructor (serverAddr: string, executor: Executor.Executor, hostname: string, checkInterval: Duration,
                 customer: string, environment: string)
      ensures this.serverAddr == serverAddr && this.executor == executor && this.hostname == hostname
      ensures this.checkInterval == checkInterval && this.customer == customer && this.environment == environment
      ensures lastETag == "" && !dryRun
    {
      this.serverAddr := serverAddr;
      this.executor := executor;
      this.hostname := hostname;
      this.checkInterval := checkInterval;
      this.customer := customer;
      this.environment := environment;
      lastETag := "";
      dryRun := false;
    }

    /** NewClient: the hostname lookup, then a customer, then an environment must be present. */
    static method New(serverAddr: string, checkInterval: Duration, customer: string, environment: string,
                      osHostname: Result<string, string>, platform: Executor.Platform)
      returns (c: Client?, err: Option<string>)
      ensures err.None? <==> osHostname.Success? && customer != "" && environment != ""
      ensures err.None? ==> c != null && fresh(c) && c.hostname == osHostname.value
                            && c.customer == customer && c.environment == environment
                            && c.lastETag == "" && !c.dryRun && c.executor.platform == platform
      ensures err.Some? ==> c == null
      ensures osHostname.Failure? ==> err == Some("failed to get hostname: " + osHostname.error)
      ensures osHostname.Success? && customer == "" ==> err == Some("customer name is required")
      ensures osHostname.Success? && customer != "" && environment == "" ==> err == Some("environment name is required")
    {
      if osHostname.Failure? {
        return null, Some("failed to get hostname: " + osHostname.error);
      }
      if customer == "" {
        return null, Some("customer name is required");
      }
      if environment == "" {
        return null, Some("environment name is required");
      }
      var e := new Executor.Executor(platform);
      c := new Client(serverAddr, e, osHostname.value, checkInterval, customer, environment);
      err := None;
    }

    method SetDryRun(enabled: bool)
      modifies this
      ensures dryRun == enabled && lastETag == old(lastETag)
    {
      dryRun := enabled;
    }

    /** getTasks: the checks on the response, then the loop appending each playbook's tasks. */
    static method FetchTasks(f: Fetch) returns (r: Result<(seq<Task>, string), string>)
      ensures r == GetTasks(f)
    {
      if f.FetchFailed? {
        return Failure("failed to fetch playbooks: " + f.msg);
      }
      if f.status != 200 {
        return Failure("unexpected status code: " + Itoa(f.status));
      }
      if f.body.Failure? {
        return Failure("failed to decode playbooks: " + f.body.error);
      }
      var playbooks := f.body.value;
      var tasks: seq<Task> := [];
      var i := 0;
      while i < |playbooks|
        invariant 0 <= i <= |playbooks|
        invariant tasks == Flatten(playbooks[..i])
      {
        assert playbooks[..i + 1][..i] == playbooks[..i];
        tasks := tasks + playbooks[i].tasks;
        i := i + 1;
      }
      assert playbooks[..|playbooks|] == playbooks;
      r := Success((tasks, f.etag));
    }

    /**
     * CheckAndExecute: one agent cycle. The fetched ETag is compared with the
     * last one recorded; only a cycle that processes every task records the new
     * ETag, so a failed cycle is retried in full on the next tick.
     */
    method CheckAndExecute(osHostname: Result<string, string>, fetch: Fetch, host: Host)
      returns (err: Option<string>, results: seq<TaskResult>)
      modifies this
      ensures dryRun == old(dryRun)
      ensures osHostname.Failure? ==>
                err == Some("failed to get hostname: " + osHostname.error) && results == [] && lastETag == old(lastETag)
      ensures osHostname.Success? && GetTasks(fetch).Failure? ==>
                err == Some(GetTasks(fetch).error) && results == [] && lastETag == old(lastETag)
      ensures osHostname.Success? && GetTasks(fetch).Success? && GetTasks(fetch).value.1 == old(lastETag) ==>
                err == None && results == [] && lastETag == old(lastETag)
      ensures osHostname.Success? && GetTasks(fetch).Success? && GetTasks(fetch).value.1 != old(lastETag) ==>
                var cycle := RunTasks(executor.shell, executor.platform, hostname, dryRun, host, GetTasks(fetch).value.0);
                results == cycle.results && err == cycle.failure
                && lastETag == (if cycle.failure.None? then GetTasks(fetch).value.1 else old(lastETag))
    {
      results := [];
      if osHostname.Failure? {
        return Some("failed to get hostname: " + osHostname.error), [];
      }
      var fetched := FetchTasks(fetch);
      if fetched.Failure? {
        return Some(fetched.error), [];
      }
      var tasks := fetched.value.0;
      var newETag := fetched.value.1;
      if newETag == lastETag {
        return None, [];
      }
      var i := 0;
      while i < |tasks|
        invariant 0 <= i <= |tasks|
        invariant lastETag == old(lastETag) && dryRun == old(dryRun)
        invariant RunTasks(executor.shell, executor.platform, hostname, dryRun, host, tasks[..i]) == CycleOutcome(results, None)
      {
        assert tasks[..i + 1][..i] == tasks[..i];
        var task := tasks[i];
        if dryRun {
          var result := NamedResult(task.name);
          result := result.(changed := true);
          results := results + [result];
        } else {
          var result, taskErr := ExecuteTask(task, host);
          if taskErr.Some? {
            Seqs.SplitAround(tasks, i);
            RunTasksStops(executor.shell, executor.platform, hostname, dryRun, host, tasks[..i], task, tasks[i + 1..]);
            return Some("failed to execute task " + task.name + ": " + taskErr.value), results;
          }
          results := results + [result];
        }
        i := i + 1;
      }
      assert tasks[..|tasks|] == tasks;
      lastETag := newETag;
      err := None;
    }

    /** executeTask, with `*result` returned as a value: the caller passes a fresh zero result each time. */
    method ExecuteTask(task: Task, host: Host) returns (result: TaskResult, err: Option<string>)
      ensures TaskOutcome(result, err) == Decide(executor.shell, executor.platform, hostname, dryRun, host, task)
    {
      result := NamedResult(task.name);
      if task.when != "" {
        var g := host.compile(task.when);
        if g.Failure? {
          result := result.(failed := true, error := "Invalid condition: " + g.error);
          return result, None;
        }
        if !g.value(hostname) {
          result := result.(skipReason := "Condition not met: " + task.when);
          return result, None;
        }
      }
      if dryRun {
        result := result.(changed := true);
        return result, None;
      }
      var env := new Executor.EnvMap(task.env);
      var output, runErr := executor.ExecuteWithEnvAsWritten(task.command, env, host.parentEnv, host.run);
      result := result.(duration := host.elapsed(task), output := output);
      if runErr.Some? {
        result := result.(failed := true, error := runErr.value);
      } else {
        result := result.(changed := true);
      }
      err := host.send(result);
    }
  }

  // ---------------------------------------------------------------------------
  // Properties
  // ---------------------------------------------------------------------------

  /** The task list holds every fetched playbook's tasks, in response order, and nothing else. */
  lemma {:induction false} FlattenAppend(a: seq<Playbook>, b: seq<Playbook>)
    ensures Flatten(a + b) == Flatten(a) + Flatten(b)
    decreases |b|
  {
    if |b| == 0 {
      assert a + b == a;
    } else {
      var init, last := b[..|b| - 1], b[|b| - 1];
      assert (a + b)[..|a + b| - 1] == a + init;
      assert (a + b)[|a + b| - 1] == last;
      FlattenAppend(a, init);
      calc {
        Flatten(a + b);
        Flatten(a + init) + last.tasks;
        (Flatten(a) + Flatten(init)) + last.tasks;
        { Seqs.AppendAssoc(Flatten(a), Flatten(init), last.tasks); }
        Flatten(a) + (Flatten(init) + last.tasks);
        Flatten(a) + Flatten(b);
      }
    }
  }

  /** A task is fetched exactly when some fetched playbook holds it. */
  lemma {:induction false} FlattenMembership(pbs: seq<Playbook>, t: Task)
    ensures t in Flatten(pbs) <==> exists i | 0 <= i < |pbs| :: t in pbs[i].tasks
  {
    if |pbs| > 0 {
      var init := pbs[..|pbs| - 1];
      FlattenMembership(init, t);
      forall i | 0 <= i < |init|
        ensures init[i] == pbs[i]
      {
      }
    }
  }

  /**
   * The server answers with a JSON list of tasks, which the agent decodes as a
   * list of playbooks: only "name" and "description" carry over, and every
   * decoded playbook has no tasks.
   */
  function TaskDecodedAsPlaybook(t: Task): Playbook {
    Playbook(t.name, t.description, [], "", "", [])
  }

  /** So whatever the server serves, the agent's task list is empty and a cycle runs nothing. */
  lemma {:induction false} ServedTasksFlattenToNothing(served: seq<Task>)
    ensures Flatten(seq(|served|, i requires 0 <= i < |served| => TaskDecodedAsPlaybook(served[i]))) == []
  {
    if |served| > 0 {
      var pbs := seq(|served|, i requires 0 <= i < |served| => TaskDecodedAsPlaybook(served[i]));
      var init := served[..|served| - 1];
      ServedTasksFlattenToNothing(init);
      assert pbs[..|pbs| - 1] == seq(|init|, i requires 0 <= i < |init| => TaskDecodedAsPlaybook(init[i]));
    }
  }

  /** The served task list in the shape getTasks decodes: one playbook holding exactly those tasks. */
  function ServedAsPlaybooks(served: seq<Task>): seq<Playbook> {
    [Playbook("", "", [], "", "", served)]
  }

  /** With the answer in that shape, the agent's task list is exactly what the server served. */
  lemma ServedTasksArrive(served: seq<Task>, etag: string)
    ensures GetTasks(Response(200, Success(ServedAsPlaybooks(served)), etag)) == Success((served, etag))
  {
    var pbs := ServedAsPlaybooks(served);
    assert pbs[..0] == [];
    assert Flatten(pbs) == Flatten([]) + served == served;
  }

  /** A condition that does not compile fails the task with the compiler's message; nothing is run or sent. */
  lemma InvalidConditionFails(shell: string, platform: Executor.Platform, hostname: string, dryRun: bool,
                              host: Host, task: Task, otherRun: Executor.Invocation -> Executor.RunOutcome,
                              otherSend: TaskResult -> Option<string>)
    requires task.when != "" && host.compile(task.when).Failure?
    ensures var o := Decide(shell, platform, hostname, dryRun, host, task);
            o.result.failed && !o.result.changed && o.result.skipReason == ""
            && o.result.error == "Invalid condition: " + host.compile(task.when).error
            && o.err == None
            && o == Decide(shell, platform, hostname, dryRun, host.(run := otherRun, send := otherSend), task)
  {
  }

  /** A condition that does not match the hostname skips the task; nothing is run or sent. */
  lemma UnmatchedConditionSkips(shell: string, platform: Executor.Platform, hostname: string, dryRun: bool,
                                host: Host, task: Task, otherRun: Executor.Invocation -> Executor.RunOutcome,
                                otherSend: TaskResult -> Option<string>)
    requires task.when != "" && host.compile(task.when).Success? && !host.compile(task.when).value(hostname)
    ensures var o := Decide(shell, platform, hostname, dryRun, host, task);
            o.result.skipReason == "Condition not met: " + task.when
            && !o.result.changed && !o.result.failed && o.err == None
            && o == Decide(shell, platform, hostname, dryRun, host.(run := otherRun, send := otherSend), task)
  {
  }

  /**
   * A task that runs is either changed or failed, never both; its output is
   * the executor's selected output; a failure carries the executor's error;
   * and the only error returned is the one from sending the result.
   */
  lemma ExecutedTaskOutcome(shell: string, platform: Executor.Platform, hostname: string,
                            host: Host, task: Task)
    requires task.when == "" || (host.compile(task.when).Success? && host.compile(task.when).value(hostname))
    ensures var o := Decide(shell, platform, hostname, false, host, task);
            var run := host.run(Executor.AsWrittenInvocation(shell, platform, task.command, task.env, host.parentEnv));
            o.result.changed != o.result.failed
            && o.result.failed == run.err.Some?
            && o.result.output == Executor.SelectOutput(run)
            && (o.result.failed ==> Some(o.result.error) == Executor.ErrorText(run))
            && o.result.skipReason == ""
            && o.err == host.send(o.result)
  {
  }

  /** A cycle that finishes has exactly one result per task, in task order. */
  lemma {:induction false} OneResultPerTask(shell: string, platform: Executor.Platform, hostname: string, dryRun: bool,
                                            host: Host, tasks: seq<Task>)
    ensures var c := RunTasks(shell, platform, hostname, dryRun, host, tasks);
            c.failure.None? ==> |c.results| == |tasks| && forall i | 0 <= i < |tasks| :: c.results[i].name == tasks[i].name
    ensures var c := RunTasks(shell, platform, hostname, dryRun, host, tasks);
            c.failure.Some? ==> |c.results| < |tasks|
  {
    if |tasks| > 0 {
      var init := tasks[..|tasks| - 1];
      OneResultPerTask(shell, platform, hostname, dryRun, host, init);
      var prev := RunTasks(shell, platform, hostname, dryRun, host, init);
      if prev.failure.None? {
        forall i | 0 <= i < |init|
          ensures prev.results[i].name == tasks[i].name
        {
          assert init[i] == tasks[i];
        }
      }
    }
  }

  /** In check mode every task yields a changed result and no condition is evaluated: the glob library plays no part. */
  lemma {:induction false} CheckModeMarksAllChanged(shell: string, platform: Executor.Platform, hostname: string,
                                                    host: Host, tasks: seq<Task>,
                                                    otherCompile: string -> Result<string -> bool, string>)
    ensures var c := RunTasks(shell, platform, hostname, true, host, tasks);
            c.failure.None? && |c.results| == |tasks|
            && (forall i | 0 <= i < |tasks| :: c.results[i] == CheckModeResult(tasks[i]))
            && c == RunTasks(shell, platform, hostname, true, host.(compile := otherCompile), tasks)
  {
    if |tasks| > 0 {
      var init := tasks[..|tasks| - 1];
      CheckModeMarksAllChanged(shell, platform, hostname, host, init, otherCompile);
      var prev := RunTasks(shell, platform, hostname, true, host, init);
      forall i | 0 <= i < |init|
        ensures prev.results[i] == CheckModeResult(tasks[i])
      {
        assert init[i] == tasks[i];
      }
    }
  }

  /**
   * The loop's early return: when executeTask errs on `task`, the cycle's
   * error names it, the results are those of the tasks before it, and the
   * tasks after it are never run.
   */
  lemma RunTasksStops(shell: string, platform: Executor.Platform, hostname: string, dryRun: bool,
                      host: Host, done: seq<Task>, task: Task, rest: seq<Task>)
    requires !dryRun
    requires RunTasks(shell, platform, hostname, dryRun, host, done).failure.None?
    requires Decide(shell, platform, hostname, dryRun, host, task).err.Some?
    ensures var c := RunTasks(shell, platform, hostname, dryRun, host, done + [task] + rest);
            c.results == RunTasks(shell, platform, hostname, dryRun, host, done).results
            && c.failure == Some("failed to execute task " + task.name + ": "
                                 + Decide(shell, platform, hostname, dryRun, host, task).err.value)
  {
    RunTasksFailsAt(shell, platform, hostname, dryRun, host, done, task);
    RunTasksFailureSticks(shell, platform, hostname, dryRun, host, done + [task], rest);
  }

  /** One more task whose execution errs ends the cycle with that error. */
  lemma RunTasksFailsAt(shell: string, platform: Executor.Platform, hostname: string, dryRun: bool,
                        host: Host, done: seq<Task>, task: Task)
    requires !dryRun
    requires RunTasks(shell, platform, hostname, dryRun, host, done).failure.None?
    requires Decide(shell, platform, hostname, dryRun, host, task).err.Some?
    ensures RunTasks(shell, platform, hostname, dryRun, host, done + [task])
            == CycleOutcome(RunTasks(shell, platform, hostname, dryRun, host, done).results,
                            Some("failed to execute task " + task.name + ": "
                                 + Decide(shell, platform, hostname, dryRun, host, task).err.value))
  {
    assert (done + [task])[..|done|] == done;
  }

  /** Once a task has failed, later tasks change nothing: they are never run. */
  lemma {:induction false} RunTasksFailureSticks(shell: string, platform: Executor.Platform, hostname: string, dryRun: bool,
                                                 host: Host, s: seq<Task>, t: seq<Task>)
    requires RunTasks(shell, platform, hostname, dryRun, host, s).failure.Some?
    ensures RunTasks(shell, platform, hostname, dryRun, host, s + t) == RunTasks(shell, platform, hostname, dryRun, host, s)
    decreases |t|
  {
    if |t| == 0 {
      assert s + t == s;
    } else {
      assert (s + t)[..|s + t| - 1] == s + t[..|t| - 1];
      RunTasksFailureSticks(shell, platform, hostname, dryRun, host, s, t[..|t| - 1]);
    }
  }
}
