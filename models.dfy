/**
 * The wire and file types of internal/models/models.go. Go's nil and empty maps
 * are both the empty map here: no code in the core tells them apart, except the
 * executor's in-place write into a caller's map (see the Executor module).
 */
module Models {

  /** A time.Duration: a count of nanoseconds. */
  type Duration = int

  /** A single shell command, with an optional host condition and environment overlay. */
  datatype Task = Task(
    name: string,
    command: string,
    when: string,
    variables: map<string, string>,
    description: string,
    env: map<string, string>)

  /** A named, ordered list of tasks, scoped by customer and environment. */
  datatype Playbook = Playbook(
    name: string,
    description: string,
    hosts: seq<string>,
    customer: string,
    environment: string,
    tasks: seq<Task>)

  /** What running (or skipping) one task produced. */
  datatype TaskResult = TaskResult(
    name: string,
    changed: bool,
    failed: bool,
    skipReason: string,
    output: string,
    duration: Duration,
    error: string)

  /** The zero value of TaskResult with only the name set: `var result TaskResult; result.Name = ...`. */
  function NamedResult(name: string): TaskResult {
    TaskResult(name, false, false, "", "", 0, "")
  }
}
