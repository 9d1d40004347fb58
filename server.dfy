/**
 * internal/api/server.go: the three HTTP handlers of the server. A handler
 * writes its headers, status and body into a `ResponseWriter` step by step.
 * JSON encoding and decoding, SHA-256 and hex are parameters (`Codec`), and so
 * are the clock, address splitting and the inventory file's save outcome
 * that UpdateClient needs. Logging and the listener are not modelled.
 */
module ApiServer {
  import opened Wrappers
  import opened Models
  import Inventory
  import Environment

  /** The `/results` body as the handler decodes it. */
  datatype ResultReport = ResultReport(hostname: string, playbookName: string, taskName: string,
                                       output: string, error: string)

  /** encoding/json, and sha256 plus hex, as the handlers use them. */
  datatype Codec = Codec(
    marshalTasks: seq<Task> -> Option<string>,              // json.Marshal of the task list; None on failure
    hashHex: string -> string,                              // hex.EncodeToString(sha256.Sum256(data))
    decodeReport: string -> Result<ResultReport, string>,   // json Decode of a /results body
    encodeEntries: seq<Inventory.Entry> -> string)          // json Encode of the inventory list

  /** An incoming request: its method, query values, the If-None-Match header, peer address and body. */
  datatype Request = Request(verb: string, query: map<string, seq<string>>, ifNoneMatch: string,
                             remoteAddr: string, body: string)

  /** url.Values.Get: the first value of a key, or "" when there is none. */
  function QueryGet(q: map<string, seq<string>>, key: string): string {
    if key in q && |q[key]| > 0 then q[key][0] else ""
  }

  /** The inventory side effects a request may cause: the time and address facts UpdateClient needs. */
  datatype Sighting = Sighting(now: Inventory.Time, splitHost: string -> Option<string>, save: Inventory.SaveOutcome)

  /** The response as the client sees it. */
  datatype Reply = Reply(status: nat, header: map<string, string>, body: string)

  /** net/http's ResponseWriter: headers set before the status, a status written once, then the body. */
  class ResponseWriter {
    var header: map<string, string>
    var status: nat   // 0 until the status is written
    var body: string

    constructor ()
      ensures header == map[] && status == 0 && body == ""
    {
      header := map[];
      status := 0;
      body := "";
    }

    method SetHeader(key: string, value: string)
      modifies this
      ensures header == old(header)[key := value] && status == old(status) && body == old(body)
    {
      header := header[key := value];
    }

    /** The first status written wins; later ones are superfluous and ignored. net/http panics on a code outside 100-999. */
    method WriteHeader(code: nat)
      requires 100 <= code <= 999
      modifies this
      ensures status == (if old(status) == 0 then code else old(status))
      ensures header == old(header) && body == old(body)
    {
      if status == 0 {
        status := code;
      }
    }

    /** Writing a body without a status first sends 200. */
    method Write(data: string)
      modifies this
      ensures status == (if old(status) == 0 then 200 else old(status))
      ensures header == old(header) && body == old(body) + data
    {
      if status == 0 {
        status := 200;
      }
      body := body + data;
    }

    /** http.Error: a plain-text message line with the given status. */
    method Error(msg: string, code: nat)
      requires 100 <= code <= 999
      modifies this
      ensures header == (old(header) - {"Content-Length"})
                        ["Content-Type" := "text/plain; charset=utf-8"]["X-Content-Type-Options" := "nosniff"]
      ensures status == (if old(status) == 0 then code else old(status))
      ensures body == old(body) + msg + "\n"
    {
      header := header - {"Content-Length"};
      SetHeader("Content-Type", "text/plain; charset=utf-8");
      SetHeader("X-Content-Type-Options", "nosniff");
      WriteHeader(code);
      Write(msg + "\n");
    }

    function Sent(): Reply
      reads this
    {
      Reply(status, header, body)
    }
  }

  /** The headers http.Error leaves on a response that had none. */
  const ErrorHeader: map<string, string> :=
    map["Content-Type" := "text/plain; charset=utf-8", "X-Content-Type-Options" := "nosniff"]

  /**
   * The reply of /playbooks once the host's tasks are known: 500 when the list
   * does not marshal; otherwise the ETag is the hex SHA-256 of the marshalled
   * list, sent on both outcomes, and the reply is 304 with no body exactly
   * when If-None-Match carries that ETag, else 200 with the list as JSON.
   */
  function PlaybooksReply(tasks: seq<Task>, ifNoneMatch: string, codec: Codec): (r: Reply)
    ensures r.status == 500 <==> codec.marshalTasks(tasks).None?
    ensures r.status == 304 <==> codec.marshalTasks(tasks).Some? && ifNoneMatch == codec.hashHex(codec.marshalTasks(tasks).value)
    ensures r.status in {200, 304, 500}
    ensures r.status != 500 ==> "ETag" in r.header && r.header["ETag"] == codec.hashHex(codec.marshalTasks(tasks).value)
    ensures r.status == 304 ==> r.body == ""
    ensures r.status == 200 ==> "Content-Type" in r.header && r.header["Content-Type"] == "application/json" && r.body == codec.marshalTasks(tasks).value + "\n"
  {
    match codec.marshalTasks(tasks)
    case None => Reply(500, ErrorHeader, "Failed to marshal playbooks\n")
    case Some(data) =>
      var etag := codec.hashHex(data);
      if ifNoneMatch == etag then Reply(304, map["ETag" := etag], "")
      else Reply(200, map["ETag" := etag, "Content-Type" := "application/json"], data + "\n")
  }

  /** The two tasks lists that marshal to the same JSON get the same ETag: the ETag depends on nothing else. */
  lemma EqualListsEqualETags(t1: seq<Task>, t2: seq<Task>, inm1: string, inm2: string, codec: Codec)
    requires codec.marshalTasks(t1).Some? && codec.marshalTasks(t1) == codec.marshalTasks(t2)
    ensures PlaybooksReply(t1, inm1, codec).status != 500
    ensures PlaybooksReply(t1, inm1, codec).header["ETag"] == PlaybooksReply(t2, inm2, codec).header["ETag"]
  {
  }

  /** The reply of /results: 405 unless POST, 400 with the decoder's message when the body does not decode, else 200. */
  function ResultsReply(verb: string, body: string, codec: Codec): (r: Reply)
    ensures r.status == 405 <==> verb != "POST"
    ensures r.status == 400 <==> verb == "POST" && codec.decodeReport(body).Failure?
    ensures r.status == 200 <==> verb == "POST" && codec.decodeReport(body).Success?
  {
    if verb != "POST" then Reply(405, ErrorHeader, "method not allowed\n")
    else if codec.decodeReport(body).Failure? then Reply(400, ErrorHeader, codec.decodeReport(body).error + "\n")
    else Reply(200, map[], "")
  }

  class Server {
    const envManager: Environment.EnvironmentManager
    const inventory: Inventory.InventoryManager
    const addr: string

    constructor (envManager: Environment.EnvironmentManager, inventory: Inventory.InventoryManager, addr: string)
      ensures this.envManager == envManager && this.inventory == inventory && this.addr == addr
    {
      this.envManager := envManager;
      this.inventory := inventory;
      this.addr := addr;
    }

    /**
     * The /playbooks handler. A missing hostname is rejected before anything
     * else; otherwise the inventory records the sighting (a save error only
     * logs) before the tasks are looked up and the ETag compared.
     */
    method HandlePlaybooks(w: ResponseWriter, req: Request, seen: Sighting, codec: Codec)
      returns (ghost order: seq<string>)
      requires w.Sent() == Reply(0, map[], "")
      modifies w, inventory
      ensures var hostname := QueryGet(req.query, "hostname");
              hostname == "" ==> w.Sent() == Reply(400, ErrorHeader, "hostname parameter required\n")
                                 && inventory.entries == old(inventory.entries)
      ensures var hostname := QueryGet(req.query, "hostname");
              hostname != "" ==>
                inventory.entries == Inventory.Upsert(old(inventory.entries), hostname,
                                                      Inventory.IpOf(req.remoteAddr, seen.splitHost), seen.now)
                && (forall i | 0 <= i < |order| :: order[i] in envManager.environments)
                && (forall i, j | 0 <= i < j < |order| :: order[i] != order[j])
                && (forall k | k in envManager.environments :: k in order)
                && w.Sent() == PlaybooksReply(Environment.HostTasks(envManager.environments, order, hostname),
                                              req.ifNoneMatch, codec)
    {
      order := [];
      var hostname := QueryGet(req.query, "hostname");
      if hostname == "" {
        w.Error("hostname parameter required", 400);
        return;
      }
      var _ := inventory.UpdateClient(hostname, req.remoteAddr, seen.now, seen.splitHost, seen.save);
      ghost var recorded := inventory.entries;
      var playbooks;
      playbooks, order := envManager.GetPlaybooksForHost(hostname);
      AnswerPlaybooks(w, playbooks, req.ifNoneMatch, codec);
      assert inventory.entries == recorded;
    }

    /** Lines 61-79 of the /playbooks handler: marshal, hash, compare with If-None-Match, answer. */
    static method AnswerPlaybooks(w: ResponseWriter, tasks: seq<Task>, ifNoneMatch: string, codec: Codec)
      requires w.Sent() == Reply(0, map[], "")
      modifies w
      ensures w.Sent() == PlaybooksReply(tasks, ifNoneMatch, codec)
    {
      var json := codec.marshalTasks(tasks);
      if json.None? {
        w.Error("Failed to marshal playbooks", 500);
        return;
      }
      var etag := codec.hashHex(json.value);
      w.SetHeader("ETag", etag);
      if ifNoneMatch == etag {
        w.WriteHeader(304);
        return;
      }
      w.SetHeader("Content-Type", "application/json");
      w.Write(json.value + "\n");
    }

    /** The /inventory handler: every method but GET is refused; GET lists the inventory as JSON. */
    method HandleInventory(w: ResponseWriter, req: Request, codec: Codec)
      returns (ghost listed: seq<Inventory.Entry>, ghost order: seq<string>)
      requires w.Sent() == Reply(0, map[], "")
      modifies w
      ensures req.verb != "GET" ==> w.Sent() == Reply(405, ErrorHeader, "method not allowed\n")
      ensures req.verb == "GET" ==>
                |listed| == |inventory.entries| == |order|
                && (forall i | 0 <= i < |order| :: order[i] in inventory.entries && listed[i] == inventory.entries[order[i]])
                && (forall i, j | 0 <= i < j < |order| :: order[i] != order[j])
                && w.Sent() == Reply(200, map["Content-Type" := "application/json"], codec.encodeEntries(listed))
    {
      listed, order := [], [];
      if req.verb != "GET" {
        w.Error("method not allowed", 405);
        return;
      }
      var list;
      list, order := inventory.GetInventory();
      listed := list;
      w.SetHeader("Content-Type", "application/json");
      w.Write(codec.encodeEntries(list));
    }

    /** The /results handler: the reporting host is recorded under the hostname the body carries. */
    method HandleResults(w: ResponseWriter, req: Request, seen: Sighting, codec: Codec)
      requires w.Sent() == Reply(0, map[], "")
      modifies w, inventory
      ensures w.Sent() == ResultsReply(req.verb, req.body, codec)
      ensures ResultsReply(req.verb, req.body, codec).status == 200 ==>
                inventory.entries == Inventory.Upsert(old(inventory.entries), codec.decodeReport(req.body).value.hostname,
                                                      Inventory.IpOf(req.remoteAddr, seen.splitHost), seen.now)
      ensures ResultsReply(req.verb, req.body, codec).status != 200 ==> inventory.entries == old(inventory.entries)
    {
      if req.verb != "POST" {
        w.Error("method not allowed", 405);
        return;
      }
      var decoded := codec.decodeReport(req.body);
      if decoded.Failure? {
        w.Error(decoded.error, 400);
        return;
      }
      var _ := inventory.UpdateClient(decoded.value.hostname, req.remoteAddr, seen.now, seen.splitHost, seen.save);
      w.WriteHeader(200);
    }
  }

  /**
   * NewServer: the environment manager over `dataDir`/environments is built
   * first, then the inventory; the first failure is the server's error.
   */
  method NewServer(addr: string, dataDir: string, envWatcherErr: Option<string>, envMkdirErr: Option<string>,
                   envReadDir: Result<seq<Environment.DirEntry>, string>, disk: Environment.Disk,
                   invMkdirErr: Option<string>, invLoad: Inventory.LoadOutcome)
    returns (s: Server?, err: Option<string>)
    ensures var envOk := envWatcherErr.None? && envMkdirErr.None? && disk.watchErr(dataDir + "/environments").None?
                         && envReadDir.Success?;
            err.None? <==> envOk && invMkdirErr.None? && (invLoad.NotExist? || invLoad.Decoded?)
    ensures err.None? ==> s != null && fresh(s) && s.addr == addr
                          && s.envManager.baseDir == dataDir + "/environments"
                          && s.envManager.environments == Environment.LoadAll(map[], dataDir + "/environments", envReadDir.value, disk)
                          && s.inventory.inventoryFile == dataDir + "/inventory.json"
                          && s.inventory.entries == (if invLoad.Decoded? then invLoad.entries else map[])
    ensures err.Some? ==> s == null
    ensures envWatcherErr.Some? ==>
              err == Some("failed to create environment manager: " + ("failed to create watcher: " + envWatcherErr.value))
    ensures envWatcherErr.None? && envMkdirErr.Some? ==>
              err == Some("failed to create environment manager: "
                          + ("failed to load environments: " + ("failed to create base directory: " + envMkdirErr.value)))
    ensures var base := dataDir + "/environments";
            envWatcherErr.None? && envMkdirErr.None? && disk.watchErr(base).Some? ==>
              err == Some("failed to create environment manager: "
                          + ("failed to load environments: " + ("failed to watch base directory: " + disk.watchErr(base).value)))
    ensures envWatcherErr.None? && envMkdirErr.None? && disk.watchErr(dataDir + "/environments").None? && envReadDir.Failure? ==>
              err == Some("failed to create environment manager: "
                          + ("failed to load environments: " + ("failed to read base directory: " + envReadDir.error)))
    ensures var envOk := envWatcherErr.None? && envMkdirErr.None? && disk.watchErr(dataDir + "/environments").None?
                         && envReadDir.Success?;
            envOk && invMkdirErr.Some? ==>
              err == Some("failed to create inventory manager: " + ("failed to create data directory: " + invMkdirErr.value))
    ensures var envOk := envWatcherErr.None? && envMkdirErr.None? && disk.watchErr(dataDir + "/environments").None?
                         && envReadDir.Success?;
            envOk && invMkdirErr.None? && (invLoad.ReadFailed? || invLoad.DecodeFailed?) ==>
              err == Some("failed to create inventory manager: " + ("failed to load inventory: " + invLoad.msg))
  {
    var em, emErr := Environment.EnvironmentManager.New(dataDir + "/environments", envWatcherErr, envMkdirErr, envReadDir, disk);
    if emErr.Some? {
      return null, Some("failed to create environment manager: " + emErr.value);
    }
    var im, imErr := Inventory.InventoryManager.New(dataDir, invMkdirErr, invLoad);
    if imErr.Some? {
      return null, Some("failed to create inventory manager: " + imErr.value);
    }
    s := new Server(em, im, addr);
    err := None;
  }

  /**
   * What the agent's sendResult posts is client.go's own TaskResult, whose
   * fields carry no json tags, so its JSON has no "hostname" key: decoded as a
   * report, the hostname is empty.
   */
  function ReportOfTaskResult(t: TaskResult): ResultReport {
    ResultReport("", "", "", t.output, t.error)
  }

  /** So every result an agent reports is recorded in the inventory under the empty hostname, not the agent's. */
  lemma AgentReportsRecordEmptyHost(t: TaskResult, body: string, codec: Codec, m: map<string, Inventory.Entry>,
                                    ip: string, now: Inventory.Time)
    requires codec.decodeReport(body) == Success(ReportOfTaskResult(t))
    ensures ResultsReply("POST", body, codec).status == 200
    ensures var r := Inventory.Upsert(m, codec.decodeReport(body).value.hostname, ip, now);
            "" in r && r[""].ip == ip
  {
  }

  /** The report the agent evidently means to post: its result under its own hostname. */
  function ReportOfAgent(hostname: string, t: TaskResult): ResultReport {
    ResultReport(hostname, "", t.name, t.output, t.error)
  }

  /** Posted that way, a result is accepted and refreshes the agent's own entry, and no other host's. */
  lemma AgentReportsRecordHostname(hostname: string, t: TaskResult, body: string, codec: Codec,
                                   m: map<string, Inventory.Entry>, ip: string, now: Inventory.Time)
    requires codec.decodeReport(body) == Success(ReportOfAgent(hostname, t))
    ensures ResultsReply("POST", body, codec).status == 200
    ensures var r := Inventory.Upsert(m, codec.decodeReport(body).value.hostname, ip, now);
            hostname in r && r[hostname].ip == ip && r[hostname].lastSeen == now
            && forall h | h in m && h != hostname :: h in r && r[h] == m[h]
  {
  }
}
