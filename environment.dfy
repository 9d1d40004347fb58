/**
 * internal/api/environment.go: the server's table from environment name to
 * the playbooks found in that environment's directory, kept current by
 * filesystem events. The filesystem is a value `Disk`: whether a directory can
 * be watched, what a walk of a directory visits, and which files parse as a
 * playbook (reading plus YAML decoding). Log lines are not modelled.
 */
module Environment {
  import opened Wrappers
  import opened Models
  import Seqs

  // ---------------------------------------------------------------------------
  // Paths (path/filepath on '/'-separated paths)
  // ---------------------------------------------------------------------------

  /** filepath.Ext: the suffix from the last '.' of the last element, or "" when that element has none. */
  function Ext(path: string): (r: string)
    ensures |r| <= |path| && r == path[|path| - |r|..]
    ensures r == "" || (r[0] == '.' && forall k | 1 <= k < |r| :: r[k] != '.' && r[k] != '/')
  {
    if |path| == 0 || path[|path| - 1] == '/' then ""
    else if path[|path| - 1] == '.' then "."
    else
      var e := Ext(path[..|path| - 1]);
      if e == "" then "" else e + [path[|path| - 1]]
  }

  /** The path with trailing '/' removed. */
  function TrimTrailingSlashes(path: string): (r: string)
    ensures |r| <= |path| && r == path[..|r|]
    ensures r == [] || r[|r| - 1] != '/'
    ensures forall k | |r| <= k < |path| :: path[k] == '/'
  {
    if |path| > 0 && path[|path| - 1] == '/' then TrimTrailingSlashes(path[..|path| - 1]) else path
  }

  /** The part of `s` after its last '/'. */
  function LastElement(s: string): (r: string)
    ensures |r| <= |s| && r == s[|s| - |r|..] && '/' !in r
    ensures |r| < |s| ==> s[|s| - |r| - 1] == '/'
  {
    if |s| == 0 || s[|s| - 1] == '/' then "" else LastElement(s[..|s| - 1]) + [s[|s| - 1]]
  }

  /** filepath.Base: the last element once trailing slashes are dropped; "." for "", "/" for all slashes. */
  function Base(path: string): (r: string)
    ensures r != ""
    ensures path != "" && TrimTrailingSlashes(path) != "" ==> '/' !in r
  {
    if path == "" then "."
    else
      var t := TrimTrailingSlashes(path);
      if t == "" then "/" else LastElement(t)
  }

  /** filepath.Dir without its final Clean: everything up to and including the last '/'. */
  function Dir(path: string): (r: string)
    ensures |r| <= |path| && r == path[..|r|]
    ensures r == "" || r[|r| - 1] == '/'
  {
    var last := LastElement(path);
    path[..|path| - |last|]
  }

  /** filepath.Join of the base directory and one environment name. */
  function JoinPath(dir: string, name: string): string {
    dir + "/" + name
  }

  // ---------------------------------------------------------------------------
  // The filesystem and the walk
  // ---------------------------------------------------------------------------

  /** One call of the WalkDir callback: a visited path, or the error WalkDir hands it. */
  datatype WalkStep = Visit(path: string, isDir: bool) | WalkErr(msg: string)

  /** A directory entry returned by os.ReadDir. */
  datatype DirEntry = DirEntry(name: string, isDir: bool)

  /** The filesystem as the manager sees it. */
  datatype Disk = Disk(
    watchErr: string -> Option<string>,      // watcher.Add(dir)'s error
    walk: string -> seq<WalkStep>,           // what filepath.WalkDir(dir) visits, in order
    parse: string -> Option<Playbook>)       // loadPlaybook(path): None when reading or decoding fails

  /** The step visits a regular file with extension exactly ".yml" that parses to `p`. */
  predicate Yields(step: WalkStep, parse: string -> Option<Playbook>, p: Playbook) {
    step.Visit? && !step.isDir && Ext(step.path) == ".yml" && parse(step.path) == Some(p)
  }

  /** A walk step that contributes a playbook: a regular file ending in exactly ".yml" that parses. */
  function Pick(step: WalkStep, parse: string -> Option<Playbook>): seq<Playbook> {
    if step.Visit? && !step.isDir && Ext(step.path) == ".yml" && parse(step.path).Some?
    then [parse(step.path).value]
    else []
  }

  /** The playbooks a walk collects, in walk order; unparsable files are skipped. */
  function Collected(steps: seq<WalkStep>, parse: string -> Option<Playbook>): seq<Playbook> {
    if |steps| == 0 then [] else Collected(steps[..|steps| - 1], parse) + Pick(steps[|steps| - 1], parse)
  }

  /** The first error the walk reports, which stops it. */
  function WalkError(steps: seq<WalkStep>): Option<string> {
    if |steps| == 0 then None
    else
      var e := WalkError(steps[..|steps| - 1]);
      if e.Some? then e
      else if steps[|steps| - 1].WalkErr? then Some(steps[|steps| - 1].msg)
      else None
  }

  /** What loadEnvironment makes of a directory: the playbooks to store, or the error that keeps the old ones. */
  function LoadOutcome(disk: Disk, envDir: string): Result<seq<Playbook>, string> {
    if disk.watchErr(envDir).Some? then Failure("failed to watch environment directory: " + disk.watchErr(envDir).value)
    else if WalkError(disk.walk(envDir)).Some? then
      Failure("failed to walk environment directory: " + WalkError(disk.walk(envDir)).value)
    else Success(Collected(disk.walk(envDir), disk.parse))
  }

  /** The table after loadEnvironment: replaced wholesale on success, untouched on failure. */
  function Reloaded(envs: map<string, seq<Playbook>>, baseDir: string, envName: string, disk: Disk)
    : map<string, seq<Playbook>>
  {
    var out := LoadOutcome(disk, JoinPath(baseDir, envName));
    if out.Success? then envs[envName := out.value] else envs
  }

  // ---------------------------------------------------------------------------
  // Events
  // ---------------------------------------------------------------------------

  /** The fsnotify operations; an event carries a set of them (Go's bitmask). */
  datatype Op = Create | Write | Remove | Rename | Chmod

  /** What the watcher delivers: an event, or an error on the error channel. */
  datatype Notice = Event(name: string, ops: set<Op>) | WatcherError(msg: string)

  /** A notice together with the filesystem as it is when the notice is handled. */
  datatype Arrival = Arrival(notice: Notice, disk: Disk)

  /** What the event loop does with a notice. */
  datatype Action = Load(envName: string) | Delete(envName: string) | Ignore

  /**
   * The routing of watchEnvironments: an extensionless name is a directory,
   * loaded on exactly Create and deleted on exactly Remove; a ".yml" name
   * reloads the environment of its directory; anything else is ignored.
   */
  function Route(n: Notice): Action {
    if n.WatcherError? then Ignore
    else if Ext(n.name) == "" then
      if n.ops == {Create} then Load(Base(n.name))
      else if n.ops == {Remove} then Delete(Base(n.name))
      else Ignore
    else if Ext(n.name) == ".yml" then Load(Base(Dir(n.name)))
    else Ignore
  }

  /** The table after one notice. */
  function Apply(envs: map<string, seq<Playbook>>, baseDir: string, a: Arrival): map<string, seq<Playbook>> {
    match Route(a.notice)
    case Load(env) => Reloaded(envs, baseDir, env, a.disk)
    case Delete(env) => envs - {env}
    case Ignore => envs
  }

  /** The table after a stream of notices, handled in order. */
  function Replay(envs: map<string, seq<Playbook>>, baseDir: string, arrivals: seq<Arrival>): map<string, seq<Playbook>> {
    if |arrivals| == 0 then envs
    else Apply(Replay(envs, baseDir, arrivals[..|arrivals| - 1]), baseDir, arrivals[|arrivals| - 1])
  }

  /** The table after the startup scan: every subdirectory of the base directory loaded in turn. */
  function LoadAll(envs: map<string, seq<Playbook>>, baseDir: string, entries: seq<DirEntry>, disk: Disk)
    : map<string, seq<Playbook>>
  {
    if |entries| == 0 then envs
    else
      var prev := LoadAll(envs, baseDir, entries[..|entries| - 1], disk);
      var e := entries[|entries| - 1];
      if e.isDir then Reloaded(prev, baseDir, e.name, disk) else prev
  }

  // ---------------------------------------------------------------------------
  // Host query
  // ---------------------------------------------------------------------------

  /** The server-side condition: no condition, or one literally equal to the hostname. */
  predicate Matches(t: Task, hostname: string) {
    t.when == "" || t.when == hostname
  }

  /** The tasks of one list that match, in order. */
  function MatchingTasks(ts: seq<Task>, hostname: string): seq<Task> {
    if |ts| == 0 then [] else
      MatchingTasks(ts[..|ts| - 1], hostname) + (if Matches(ts[|ts| - 1], hostname) then [ts[|ts| - 1]] else [])
  }

  /** The matching tasks of a playbook list, playbook by playbook. */
  function PlaybookTasks(pbs: seq<Playbook>, hostname: string): seq<Task> {
    if |pbs| == 0 then [] else PlaybookTasks(pbs[..|pbs| - 1], hostname) + MatchingTasks(pbs[|pbs| - 1].tasks, hostname)
  }

  /** The matching tasks of the environments named by `order`, environment by environment. */
  function HostTasks(envs: map<string, seq<Playbook>>, order: seq<string>, hostname: string): seq<Task>
    requires forall i | 0 <= i < |order| :: order[i] in envs
  {
    if |order| == 0 then []
    else HostTasks(envs, order[..|order| - 1], hostname) + PlaybookTasks(envs[order[|order| - 1]], hostname)
  }

  // ---------------------------------------------------------------------------
  // The manager
  // ---------------------------------------------------------------------------

  class EnvironmentManager {
    var environments: map<string, seq<Playbook>>
    const baseDir: string

    constructor (baseDir: string)
      ensures this.baseDir == baseDir && environments == map[]
    {
      this.baseDir := baseDir;
      environments := map[];
    }

    /**
     * NewEnvironmentManager: creating the watcher, creating and watching the
     * base directory and reading it must all succeed; then every
     * subdirectory is loaded, and a failing one is only logged.
     */
    static method New(baseDir: string, watcherErr: Option<string>, mkdirErr: Option<string>,
                      readDir: Result<seq<DirEntry>, string>, disk: Disk)
      returns (m: EnvironmentManager?, err: Option<string>)
      ensures err.None? <==> watcherErr.None? && mkdirErr.None? && disk.watchErr(baseDir).None? && readDir.Success?
      ensures err.None? ==> m != null && fresh(m) && m.baseDir == baseDir
                            && m.environments == LoadAll(map[], baseDir, readDir.value, disk)
      ensures err.Some? ==> m == null
      ensures watcherErr.Some? ==> err == Some("failed to create watcher: " + watcherErr.value)
      ensures watcherErr.None? && mkdirErr.Some? ==>
                err == Some("failed to load environments: " + ("failed to create base directory: " + mkdirErr.value))
      ensures watcherErr.None? && mkdirErr.None? && disk.watchErr(baseDir).Some? ==>
                err == Some("failed to load environments: " + ("failed to watch base directory: " + disk.watchErr(baseDir).value))
      ensures watcherErr.None? && mkdirErr.None? && disk.watchErr(baseDir).None? && readDir.Failure? ==>
                err == Some("failed to load environments: " + ("failed to read base directory: " + readDir.error))
    {
      if watcherErr.Some? {
        return null, Some("failed to create watcher: " + watcherErr.value);
      }
      m := new EnvironmentManager(baseDir);
      var loadErr := m.LoadEnvironments(mkdirErr, readDir, disk);
      if loadErr.Some? {
        return null, Some("failed to load environments: " + loadErr.value);
      }
      err := None;
    }

    /** loadEnvironments: the startup scan of the base directory. */
    method LoadEnvironments(mkdirErr: Option<string>, readDir: Result<seq<DirEntry>, string>, disk: Disk)
      returns (err: Option<string>)
      modifies this
      ensures err.None? <==> mkdirErr.None? && disk.watchErr(baseDir).None? && readDir.Success?
      ensures err.None? ==> environments == LoadAll(old(environments), baseDir, readDir.value, disk)
      ensures err.Some? ==> environments == old(environments)
      ensures mkdirErr.Some? ==> err == Some("failed to create base directory: " + mkdirErr.value)
      ensures mkdirErr.None? && disk.watchErr(baseDir).Some? ==>
                err == Some("failed to watch base directory: " + disk.watchErr(baseDir).value)
      ensures mkdirErr.None? && disk.watchErr(baseDir).None? && readDir.Failure? ==>
                err == Some("failed to read base directory: " + readDir.error)
    {
      if mkdirErr.Some? {
        return Some("failed to create base directory: " + mkdirErr.value);
      }
      if disk.watchErr(baseDir).Some? {
        return Some("failed to watch base directory: " + disk.watchErr(baseDir).value);
      }
      if readDir.Failure? {
        return Some("failed to read base directory: " + readDir.error);
      }
      var entries := readDir.value;
      var i := 0;
      while i < |entries|
        invariant 0 <= i <= |entries|
        invariant environments == LoadAll(old(environments), baseDir, entries[..i], disk)
      {
        assert entries[..i + 1][..i] == entries[..i];
        if entries[i].isDir {
          var _ := LoadEnvironment(entries[i].name, disk);
        }
        i := i + 1;
      }
      assert entries[..|entries|] == entries;
      err := None;
    }

    /** loadEnvironment: walk the environment's directory and replace its entry, unless watching or walking fails. */
    method LoadEnvironment(envName: string, disk: Disk) returns (err: Option<string>)
      modifies this
      ensures environments == Reloaded(old(environments), baseDir, envName, disk)
      ensures err.None? <==> LoadOutcome(disk, JoinPath(baseDir, envName)).Success?
      ensures err.Some? ==> err.value == LoadOutcome(disk, JoinPath(baseDir, envName)).error
    {
      var envDir := JoinPath(baseDir, envName);
      if disk.watchErr(envDir).Some? {
        return Some("failed to watch environment directory: " + disk.watchErr(envDir).value);
      }
      var playbooks, walkErr := Walk(disk.walk(envDir), disk.parse);
      if walkErr.Some? {
        return Some("failed to walk environment directory: " + walkErr.value);
      }
      environments := environments[envName := playbooks];
      err := None;
    }

    /** The WalkDir callback run over the visited steps: collect parsed ".yml" files, stop at the first error. */
    static method Walk(steps: seq<WalkStep>, parse: string -> Option<Playbook>)
      returns (playbooks: seq<Playbook>, err: Option<string>)
      ensures err == WalkError(steps)
      ensures err.None? ==> playbooks == Collected(steps, parse)
    {
      playbooks := [];
      var i := 0;
      while i < |steps|
        invariant 0 <= i <= |steps|
        invariant WalkError(steps[..i]) == None
        invariant playbooks == Collected(steps[..i], parse)
      {
        assert steps[..i + 1][..i] == steps[..i];
        match steps[i]
        case WalkErr(msg) =>
          WalkStopsAt(steps, i);
          return playbooks, Some(msg);
        case Visit(path, isDir) =>
          if !isDir && Ext(path) == ".yml" {
            var p := parse(path);
            if p.Some? {
              playbooks := playbooks + [p.value];
            }
          }
        i := i + 1;
      }
      assert steps[..|steps|] == steps;
      err := None;
    }

    /** watchEnvironments over a finite stream of notices. */
    method Watch(arrivals: seq<Arrival>)
      modifies this
      ensures environments == Replay(old(environments), baseDir, arrivals)
    {
      var i := 0;
      while i < |arrivals|
        invariant 0 <= i <= |arrivals|
        invariant environments == Replay(old(environments), baseDir, arrivals[..i])
      {
        assert arrivals[..i + 1][..i] == arrivals[..i];
        HandleNotice(arrivals[i]);
        i := i + 1;
      }
      assert arrivals[..|arrivals|] == arrivals;
    }

    /** One iteration of the event loop. */
    method HandleNotice(a: Arrival)
      modifies this
      ensures environments == Apply(old(environments), baseDir, a)
    {
      if a.notice.WatcherError? {
        return;
      }
      var name := a.notice.name;
      if Ext(name) == "" {
        if a.notice.ops == {Create} {
          var _ := LoadEnvironment(Base(name), a.disk);
        } else if a.notice.ops == {Remove} {
          environments := environments - {Base(name)};
        }
        return;
      }
      if Ext(name) == ".yml" {
        var _ := LoadEnvironment(Base(Dir(name)), a.disk);
      }
    }

    /**
     * GetPlaybooksForHost: every task, over all environments (in the map's
     * iteration order, recorded in `order`), then playbooks, then tasks, whose
     * condition is empty or equal to `hostname`.
     */
    method GetPlaybooksForHost(hostname: string) returns (tasks: seq<Task>, ghost order: seq<string>)
      ensures forall i | 0 <= i < |order| :: order[i] in environments
      ensures forall i, j | 0 <= i < j < |order| :: order[i] != order[j]
      ensures forall k | k in environments :: k in order
      ensures tasks == HostTasks(environments, order, hostname)
    {
      tasks := [];
      order := [];
      var todo := environments.Keys;
      while todo != {}
        invariant todo <= environments.Keys
        invariant forall i | 0 <= i < |order| :: order[i] in environments && order[i] !in todo
        invariant forall i, j | 0 <= i < j < |order| :: order[i] != order[j]
        invariant forall k | k in environments :: k in todo || k in order
        invariant tasks == HostTasks(environments, order, hostname)
        decreases |todo|
      {
        var env :| env in todo;
        var playbooks := environments[env];
        var found := MatchingInPlaybooks(playbooks, hostname);
        tasks := tasks + found;
        assert (order + [env])[..|order|] == order;
        order := order + [env];
        todo := todo - {env};
      }
    }

    /** The middle and inner loops of GetPlaybooksForHost over one environment. */
    static method MatchingInPlaybooks(playbooks: seq<Playbook>, hostname: string) returns (tasks: seq<Task>)
      ensures tasks == PlaybookTasks(playbooks, hostname)
    {
      tasks := [];
      var p := 0;
      while p < |playbooks|
        invariant 0 <= p <= |playbooks|
        invariant tasks == PlaybookTasks(playbooks[..p], hostname)
      {
        assert playbooks[..p + 1][..p] == playbooks[..p];
        var ts := playbooks[p].tasks;
        ghost var before := tasks;
        var t := 0;
        while t < |ts|
          invariant 0 <= t <= |ts|
          invariant tasks == before + MatchingTasks(ts[..t], hostname)
        {
          assert ts[..t + 1][..t] == ts[..t];
          if ts[t].when == "" || ts[t].when == hostname {
            tasks := tasks + [ts[t]];
          }
          t := t + 1;
        }
        assert ts[..|ts|] == ts;
        p := p + 1;
      }
      assert playbooks[..|playbooks|] == playbooks;
    }

    /** GetEnvironments: a copy of the table, key by key. */
    method GetEnvironments() returns (copy: map<string, seq<Playbook>>)
      ensures copy == environments
    {
      copy := map[];
      var todo := environments.Keys;
      while todo != {}
        invariant todo <= environments.Keys
        invariant copy == map k | k in environments.Keys - todo :: environments[k]
        decreases |todo|
      {
        var env :| env in todo;
        copy := copy[env := environments[env]];
        todo := todo - {env};
      }
    }
  }

  // ---------------------------------------------------------------------------
  // Properties
  // ---------------------------------------------------------------------------

  /** The first error step is the walk's error. */
  lemma WalkStopsAt(steps: seq<WalkStep>, i: nat)
    requires i < |steps| && WalkError(steps[..i]) == None && steps[i].WalkErr?
    ensures WalkError(steps) == Some(steps[i].msg)
  {
    WalkErrorStep(steps[..i], steps[i]);
    WalkErrorExtends(steps[..i] + [steps[i]], steps[i + 1..]);
    Seqs.SplitAround(steps, i);
  }

  /** The first error step of a walk is its error. */
  lemma WalkErrorStep(s: seq<WalkStep>, x: WalkStep)
    requires WalkError(s) == None && x.WalkErr?
    ensures WalkError(s + [x]) == Some(x.msg)
  {
    assert (s + [x])[..|s|] == s;
  }

  /** An error in the walk so far is the walk's error whatever comes after. */
  lemma {:induction false} WalkErrorExtends(s: seq<WalkStep>, t: seq<WalkStep>)
    requires WalkError(s).Some?
    ensures WalkError(s + t) == WalkError(s)
    decreases |t|
  {
    if |t| > 0 {
      var u := s + t[..|t| - 1];
      assert (s + t)[..|s + t| - 1] == u;
      assert t[..|t| - 1] == t[..|t| - 1];
      WalkErrorExtends(s, t[..|t| - 1]);
    } else {
      assert s + t == s;
    }
  }

  /** A ".yml" file anywhere in the walk that parses is collected, even when its siblings fail to parse. */
  lemma {:induction false} CollectedComplete(steps: seq<WalkStep>, parse: string -> Option<Playbook>, p: Playbook, i: nat)
    requires i < |steps| && Yields(steps[i], parse, p)
    ensures p in Collected(steps, parse)
  {
    var n := |steps| - 1;
    if i < n {
      assert steps[..n][i] == steps[i];
      CollectedComplete(steps[..n], parse, p, i);
    } else {
      assert Pick(steps[n], parse) == [p];
    }
  }

  /** Only regular ".yml" files that parse are collected: other extensions, directories and unparsable files contribute nothing. */
  lemma {:induction false} CollectedSound(steps: seq<WalkStep>, parse: string -> Option<Playbook>, p: Playbook)
    requires p in Collected(steps, parse)
    ensures exists i | 0 <= i < |steps| :: Yields(steps[i], parse, p)
  {
    var n := |steps| - 1;
    if p in Collected(steps[..n], parse) {
      CollectedSound(steps[..n], parse, p);
      var i :| 0 <= i < n && Yields(steps[..n][i], parse, p);
      assert steps[..n][i] == steps[i];
    } else {
      assert p in Pick(steps[n], parse);
      assert Yields(steps[n], parse, p);
    }
  }

  /** Collecting is order-preserving over the walk: two halves of a walk collect the two halves of the list. */
  lemma {:induction false} CollectedAppend(s: seq<WalkStep>, t: seq<WalkStep>, parse: string -> Option<Playbook>)
    ensures Collected(s + t, parse) == Collected(s, parse) + Collected(t, parse)
    decreases |t|
  {
    if |t| == 0 {
      assert s + t == s;
    } else {
      var init := t[..|t| - 1];
      var last := t[|t| - 1];
      assert (s + t)[..|s + t| - 1] == s + init;
      assert (s + t)[|s + t| - 1] == last;
      assert Collected(s + t, parse) == Collected(s + init, parse) + Pick(last, parse);
      CollectedAppend(s, init, parse);
      assert Collected(t, parse) == Collected(init, parse) + Pick(last, parse);
      Seqs.AppendAssoc(Collected(s, parse), Collected(init, parse), Pick(last, parse));
    }
  }

  /** A failed load leaves the environment's previous playbooks in place; a successful one stores exactly the collected list. */
  lemma ReloadedKeepsOnFailure(envs: map<string, seq<Playbook>>, baseDir: string, envName: string, disk: Disk)
    ensures var dir := JoinPath(baseDir, envName);
            var r := Reloaded(envs, baseDir, envName, disk);
            (disk.watchErr(dir).Some? || WalkError(disk.walk(dir)).Some? ==> r == envs)
            && (disk.watchErr(dir).None? && WalkError(disk.walk(dir)).None? ==>
                  r == envs[envName := Collected(disk.walk(dir), disk.parse)])
  {
  }

  /** Only the named environment is touched by a load, whatever happens. */
  lemma ReloadedFrame(envs: map<string, seq<Playbook>>, baseDir: string, envName: string, disk: Disk, other: string)
    requires other != envName
    ensures other in Reloaded(envs, baseDir, envName, disk) <==> other in envs
    ensures other in envs ==> Reloaded(envs, baseDir, envName, disk)[other] == envs[other]
  {
  }

  /** An extensionless Remove event deletes that environment and nothing else. */
  lemma RemoveEventDeletes(envs: map<string, seq<Playbook>>, baseDir: string, name: string, disk: Disk)
    requires Ext(name) == ""
    ensures var r := Apply(envs, baseDir, Arrival(Event(name, {Remove}), disk));
            Base(name) !in r && forall k | k in envs && k != Base(name) :: k in r && r[k] == envs[k]
  {
    assert {Remove} != {Create} by { assert Remove !in {Create}; }
  }

  /** An extensionless event that is not exactly Create or Remove (a Write, or Create|Chmod) changes nothing. */
  lemma OtherDirectoryEventIgnored(envs: map<string, seq<Playbook>>, baseDir: string, n: Notice, disk: Disk)
    requires n.Event? && Ext(n.name) == "" && n.ops != {Create} && n.ops != {Remove}
    ensures Apply(envs, baseDir, Arrival(n, disk)) == envs
  {
    assert Route(n) == Ignore;
  }

  /** An event on a file whose extension is neither empty nor ".yml" changes nothing. */
  lemma OtherExtensionIgnored(envs: map<string, seq<Playbook>>, baseDir: string, n: Notice, disk: Disk)
    requires n.Event? && Ext(n.name) != "" && Ext(n.name) != ".yml"
    ensures Apply(envs, baseDir, Arrival(n, disk)) == envs
  {
    assert Route(n) == Ignore;
  }

  /** A trailing '.' is an extension of its own. */
  lemma ExtDot(p: string)
    ensures Ext(p + ['.']) == "."
  {
    var s := p + ['.'];
    assert s[|s| - 1] == '.';
  }

  /** An extension grows by every further character that is neither '.' nor '/'. */
  lemma ExtGrows(p: string, c: char)
    requires Ext(p) != "" && c != '.' && c != '/'
    ensures Ext(p + [c]) == Ext(p) + [c]
  {
    var s := p + [c];
    assert s[..|s| - 1] == p && s[|s| - 1] == c;
  }

  /** Every name ending in ".yml" has extension ".yml". */
  lemma YmlExt(x: string)
    ensures Ext(x + ".yml") == ".yml"
  {
    var s1 := x + ['.'];
    ExtDot(x);
    var s2 := s1 + ['y'];
    ExtGrows(s1, 'y');
    var s3 := s2 + ['m'];
    ExtGrows(s2, 'm');
    var s4 := s3 + ['l'];
    ExtGrows(s3, 'l');
    YmlSpelled(x);
  }

  lemma YmlSpelled(x: string)
    ensures x + ['.'] + ['y'] + ['m'] + ['l'] == x + ".yml"
  {
    assert ['.'] + ['y'] + ['m'] + ['l'] == ".yml";
  }

  /** A character other than '/' extends the last element. */
  lemma LastElementStep(s: string, c: char)
    requires c != '/'
    ensures LastElement(s + [c]) == LastElement(s) + [c]
  {
    var t := s + [c];
    assert t[..|t| - 1] == s && t[|t| - 1] == c;
  }

  /** The last element of "<dir>/<name>" is "<name>" when the name has no slash. */
  lemma {:induction false} LastElementAfterSlash(dir: string, name: string)
    requires |dir| > 0 && dir[|dir| - 1] == '/' && '/' !in name
    ensures LastElement(dir + name) == name
    decreases |name|
  {
    if |name| == 0 {
      assert dir + name == dir;
    } else {
      var init, last := name[..|name| - 1], name[|name| - 1];
      assert name == init + [last];
      assert '/' !in init by { assert forall c | c in init :: c in name; }
      LastElementAfterSlash(dir, init);
      assert last in name;
      LastElementStep(dir + init, last);
      Seqs.AppendAssoc(dir, init, [last]);
    }
  }

  /** The directory of "<dir>/<name>" is "<dir>/" when the name has no slash. */
  lemma DirAfterSlash(dir: string, name: string)
    requires |dir| > 0 && dir[|dir| - 1] == '/' && '/' !in name
    ensures Dir(dir + name) == dir
  {
    LastElementAfterSlash(dir, name);
    assert (dir + name)[..|dir|] == dir;
  }

  /** The base of "<dir>/<env>/" is "<env>" when the name is non-empty and has no slash. */
  lemma BaseOfDirectory(dir: string, env: string)
    requires |dir| > 0 && dir[|dir| - 1] == '/' && env != "" && '/' !in env
    ensures Base(dir + env + "/") == env
  {
    var d := dir + env + "/";
    assert d[..|d| - 1] == dir + env;
    assert (dir + env)[|dir + env| - 1] == env[|env| - 1];
    assert TrimTrailingSlashes(d) == dir + env;
    LastElementAfterSlash(dir, env);
  }

  /** A ".yml" event reloads the environment named by the base of its directory. */
  lemma RouteYml(name: string, ops: set<Op>)
    requires Ext(name) == ".yml"
    ensures Route(Event(name, ops)) == Load(Base(Dir(name)))
  {
  }

  /** A ".yml" event on "<base>/<env>/<file>.yml" reloads the environment "<env>". */
  lemma PlaybookEventReloadsItsEnvironment(baseDir: string, env: string, file: string, ops: set<Op>)
    requires env != "" && '/' !in env && '/' !in file
    ensures Route(Event(baseDir + "/" + env + "/" + file + ".yml", ops)) == Load(env)
  {
    var prefix := baseDir + "/";
    var dir := prefix + env + "/";
    var last := file + ".yml";
    var name := dir + last;
    assert baseDir + "/" + env + "/" + file + ".yml" == name;
    assert '/' !in last by {
      assert forall k | 0 <= k < |last| :: last[k] == (if k < |file| then file[k] else ".yml"[k - |file|]);
    }
    YmlExt(dir + file);
    assert dir + file + ".yml" == name;
    DirAfterSlash(dir, last);
    BaseOfDirectory(prefix, env);
    RouteYml(name, ops);
  }

  /** Replaying two streams one after the other is replaying their concatenation. */
  lemma {:induction false} ReplayAppend(envs: map<string, seq<Playbook>>, baseDir: string, s: seq<Arrival>, t: seq<Arrival>)
    ensures Replay(envs, baseDir, s + t) == Replay(Replay(envs, baseDir, s), baseDir, t)
    decreases |t|
  {
    if |t| == 0 {
      assert s + t == s;
    } else {
      assert (s + t)[..|s + t| - 1] == s + t[..|t| - 1];
      assert (s + t)[|s + t| - 1] == t[|t| - 1];
      ReplayAppend(envs, baseDir, s, t[..|t| - 1]);
    }
  }

  /** A task is served to a host exactly when its condition is empty or equal to the hostname (the position within the list is irrelevant). */
  lemma {:induction false} MatchingTasksMembership(ts: seq<Task>, hostname: string, t: Task)
    ensures t in MatchingTasks(ts, hostname) <==> t in ts && Matches(t, hostname)
  {
    if |ts| > 0 {
      MatchingTasksMembership(ts[..|ts| - 1], hostname, t);
      assert ts == ts[..|ts| - 1] + [ts[|ts| - 1]];
    }
  }

  lemma {:induction false} PlaybookTasksMembership(pbs: seq<Playbook>, hostname: string, t: Task)
    ensures t in PlaybookTasks(pbs, hostname) <==>
            Matches(t, hostname) && exists i | 0 <= i < |pbs| :: t in pbs[i].tasks
  {
    if |pbs| > 0 {
      var init := pbs[..|pbs| - 1];
      PlaybookTasksMembership(init, hostname, t);
      MatchingTasksMembership(pbs[|pbs| - 1].tasks, hostname, t);
      forall i | 0 <= i < |init|
        ensures init[i] == pbs[i]
      {
      }
    }
  }

  /**
   * GetPlaybooksForHost returns exactly the tasks, in any environment and any
   * playbook, whose condition is empty or equal to the hostname. Playbook
   * hosts, customer and environment fields play no part.
   */
  lemma {:induction false} HostTasksMembership(envs: map<string, seq<Playbook>>, order: seq<string>, hostname: string, t: Task)
    requires forall i | 0 <= i < |order| :: order[i] in envs
    requires forall k | k in envs :: k in order
    ensures t in HostTasks(envs, order, hostname) <==>
            Matches(t, hostname) && exists k, i | k in envs && 0 <= i < |envs[k]| :: t in envs[k][i].tasks
  {
    HostTasksPrefix(envs, order, hostname, t);
  }

  lemma {:induction false} HostTasksPrefix(envs: map<string, seq<Playbook>>, order: seq<string>, hostname: string, t: Task)
    requires forall i | 0 <= i < |order| :: order[i] in envs
    ensures t in HostTasks(envs, order, hostname) <==>
            Matches(t, hostname) && exists j, i | 0 <= j < |order| && 0 <= i < |envs[order[j]]| :: t in envs[order[j]][i].tasks
  {
    if |order| > 0 {
      var init := order[..|order| - 1];
      HostTasksPrefix(envs, init, hostname, t);
      PlaybookTasksMembership(envs[order[|order| - 1]], hostname, t);
      forall j | 0 <= j < |init|
        ensures init[j] == order[j]
      {
      }
    }
  }

  /** GetPlaybooksForHost never looks at a playbook's host list: changing every host list changes no answer. */
  lemma {:induction false} HostsIgnored(pbs: seq<Playbook>, hosts: seq<seq<string>>, hostname: string)
    requires |hosts| == |pbs|
    ensures PlaybookTasks(pbs, hostname) == PlaybookTasks(seq(|pbs|, i requires 0 <= i < |pbs| => pbs[i].(hosts := hosts[i])), hostname)
  {
    if |pbs| > 0 {
      var re := seq(|pbs|, i requires 0 <= i < |pbs| => pbs[i].(hosts := hosts[i]));
      HostsIgnored(pbs[..|pbs| - 1], hosts[..|hosts| - 1], hostname);
      assert re[..|re| - 1] == seq(|pbs| - 1, i requires 0 <= i < |pbs| - 1 => pbs[..|pbs| - 1][i].(hosts := hosts[..|hosts| - 1][i]));
    }
  }
}
