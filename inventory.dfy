/**
 * internal/api/inventory.go: the server's record of which agents have been
 * seen, keyed by hostname. The clock, net.SplitHostPort and the inventory
 * file are parameters: `now` is the time of the call, `splitHost` the host
 * part of an address when it parses as host:port, and the outcomes of reading,
 * decoding and writing the file are given as values.
 */
module Inventory {
  import opened Wrappers

  /** A time.Time, as far as the inventory compares and stores it. */
  type Time = int

  /** One agent as the inventory records it. */
  datatype Entry = Entry(hostname: string, ip: string, lastSeen: Time, firstSeen: Time, environment: string)

  /** What reading and decoding inventory.json produced. */
  datatype LoadOutcome =
    | NotExist                                  // the file is missing: os.IsNotExist holds
    | ReadFailed(msg: string)                   // any other read error
    | Decoded(entries: map<string, Entry>)      // the file decoded into a hostname -> entry map
    | DecodeFailed(msg: string)                 // the JSON did not decode

  /** What saving the map produced. */
  datatype SaveOutcome = Saved | MarshalFailed(msg: string) | WriteFailed(msg: string)

  /** The error `save` returns. */
  function SaveError(s: SaveOutcome): Option<string> {
    match s
    case Saved => None
    case MarshalFailed(msg) => Some("failed to marshal inventory: " + msg)
    case WriteFailed(msg) => Some(msg)
  }

  /** The address recorded for a connection: the host part of host:port, or the raw address when it does not split. */
  function IpOf(remoteAddr: string, splitHost: string -> Option<string>): (ip: string)
    ensures splitHost(remoteAddr).Some? ==> ip == splitHost(remoteAddr).value
    ensures splitHost(remoteAddr).None? ==> ip == remoteAddr
  {
    match splitHost(remoteAddr)
    case Some(host) => host
    case None => remoteAddr
  }

  /**
   * The map after recording a sighting of `hostname` from `ip` at `now`: only
   * that key is written; a first sighting creates a fresh entry seen first and
   * last at `now`; a later one refreshes the address and last-seen time and
   * keeps everything else the entry had.
   */
  function Upsert(m: map<string, Entry>, hostname: string, ip: string, now: Time): (r: map<string, Entry>)
    ensures r.Keys == m.Keys + {hostname}
    ensures forall k | k in m && k != hostname :: r[k] == m[k]
    ensures r[hostname].ip == ip && r[hostname].lastSeen == now
    ensures hostname !in m ==> r[hostname] == Entry(hostname, ip, now, now, "")
    ensures hostname in m ==>
              r[hostname].firstSeen == m[hostname].firstSeen
              && r[hostname].hostname == m[hostname].hostname
              && r[hostname].environment == m[hostname].environment
  {
    var entry :=
      if hostname !in m then Entry(hostname, ip, now, now, "")
      else m[hostname].(ip := ip, lastSeen := now);
    m[hostname := entry]
  }

  /** The in-memory side of `UpdateClient`, held under the manager's lock. */
  class InventoryManager {
    const inventoryFile: string
    var entries: map<string, Entry>

    /** An empty manager writing to `dataDir`/inventory.json. */
    constructor (dataDir: string)
      ensures inventoryFile == dataDir + "/inventory.json" && entries == map[]
    {
      inventoryFile := dataDir + "/inventory.json";
      entries := map[];
    }

    /**
     * NewInventoryManager: a failure to create the data directory or to load an
     * existing file aborts; a missing file is not an error and leaves the
     * inventory empty.
     */
    static method New(dataDir: string, mkdirErr: Option<string>, load: LoadOutcome)
      returns (im: InventoryManager?, err: Option<string>)
      ensures err.None? <==> mkdirErr.None? && (load.NotExist? || load.Decoded?)
      ensures err.None? ==> im != null && fresh(im) && im.inventoryFile == dataDir + "/inventory.json"
      ensures err.None? && load.NotExist? ==> im.entries == map[]
      ensures err.None? && load.Decoded? ==> im.entries == load.entries
      ensures err.Some? ==> im == null
      ensures mkdirErr.Some? ==> err == Some("failed to create data directory: " + mkdirErr.value)
      ensures mkdirErr.None? && load.ReadFailed? ==> err == Some("failed to load inventory: " + load.msg)
      ensures mkdirErr.None? && load.DecodeFailed? ==> err == Some("failed to load inventory: " + load.msg)
    {
      var m := new InventoryManager(dataDir);
      if mkdirErr.Some? {
        return null, Some("failed to create data directory: " + mkdirErr.value);
      }
      var loadErr := m.Load(load);
      if loadErr.Some? && !load.NotExist? {
        return null, Some("failed to load inventory: " + loadErr.value);
      }
      return m, None;
    }

    /** `load`: decoding into the (empty) map fills it; every failure leaves it as it was. */
    method Load(load: LoadOutcome) returns (err: Option<string>)
      modifies this
      ensures load.Decoded? ==> err.None? && entries == old(entries) + load.entries
      ensures !load.Decoded? ==> err.Some? && entries == old(entries)
      ensures load.ReadFailed? ==> err == Some(load.msg)
      ensures load.DecodeFailed? ==> err == Some(load.msg)
    {
      match load
      case NotExist => err := Some("no such file or directory");
      case ReadFailed(msg) => err := Some(msg);
      case DecodeFailed(msg) => err := Some(msg);
      case Decoded(decoded) =>
        entries := entries + decoded;
        err := None;
    }

    /**
     * UpdateClient: the sighting is recorded in memory first, then saved; a
     * save error is returned with the new entry already in place.
     */
    method UpdateClient(hostname: string, remoteAddr: string, now: Time,
                        splitHost: string -> Option<string>, save: SaveOutcome)
      returns (err: Option<string>)
      modifies this
      ensures entries == Upsert(old(entries), hostname, IpOf(remoteAddr, splitHost), now)
      ensures err == SaveError(save)
    {
      var ip := IpOf(remoteAddr, splitHost);
      var entry: Entry;
      if hostname !in entries {
        entry := Entry(hostname, ip, now, now, "");
      } else {
        entry := entries[hostname];
        entry := entry.(ip := ip);
      }
      entry := entry.(lastSeen := now);
      entries := entries[hostname := entry];
      err := SaveError(save);
    }

    /**
     * GetInventory: one entry per key, in the map's (unspecified) iteration
     * order, which `order` records.
     */
    method GetInventory() returns (list: seq<Entry>, ghost order: seq<string>)
      ensures |list| == |entries| == |order|
      ensures forall i | 0 <= i < |order| :: order[i] in entries && list[i] == entries[order[i]]
      ensures forall i, j | 0 <= i < j < |order| :: order[i] != order[j]
      ensures forall k | k in entries :: k in order
    {
      list := [];
      order := [];
      var todo := entries.Keys;
      while todo != {}
        invariant todo <= entries.Keys
        invariant |list| == |order| && |order| + |todo| == |entries.Keys|
        invariant forall i | 0 <= i < |order| :: order[i] in entries && order[i] !in todo && list[i] == entries[order[i]]
        invariant forall i, j | 0 <= i < j < |order| :: order[i] != order[j]
        invariant forall k | k in entries :: k in todo || k in order
        decreases |todo|
      {
        var k :| k in todo;
        list := list + [entries[k]];
        order := order + [k];
        todo := todo - {k};
      }
    }
  }

  // ---------------------------------------------------------------------------
  // Properties of the upsert
  // ---------------------------------------------------------------------------

  /** A second sighting keeps the time of the first and moves only the last-seen time and address. */
  lemma SecondSightingKeepsFirstSeen(m: map<string, Entry>, h: string, ip1: string, t1: Time, ip2: string, t2: Time)
    requires h !in m
    ensures var r := Upsert(Upsert(m, h, ip1, t1), h, ip2, t2);
            r[h] == Entry(h, ip2, t2, t1, "")
  {
    var r1 := Upsert(m, h, ip1, t1);
    assert r1[h] == Entry(h, ip1, t1, t1, "");
  }

  /** The inventory grows by one exactly on a first sighting, and never shrinks. */
  lemma {:induction false} UpsertSize(m: map<string, Entry>, h: string, ip: string, now: Time)
    ensures h in m ==> |Upsert(m, h, ip, now)| == |m|
    ensures h !in m ==> |Upsert(m, h, ip, now)| == |m| + 1
  {
    var r := Upsert(m, h, ip, now);
    assert |r| == |r.Keys| && |m| == |m.Keys|;
    if h in m {
      assert r.Keys == m.Keys;
    } else {
      assert r.Keys == m.Keys + {h};
      assert |m.Keys + {h}| == |m.Keys| + 1;
    }
  }

  /** Reporting the same sighting twice records it once. */
  lemma UpsertIdempotent(m: map<string, Entry>, h: string, ip: string, now: Time)
    ensures Upsert(Upsert(m, h, ip, now), h, ip, now) == Upsert(m, h, ip, now)
  {
    var r := Upsert(m, h, ip, now);
    assert Upsert(r, h, ip, now) == r[h := r[h]];
    assert r[h := r[h]] == r;
  }

  /** Sightings of two different hosts do not interfere: their order does not matter. */
  lemma UpsertCommutes(m: map<string, Entry>, a: string, ipa: string, ta: Time, b: string, ipb: string, tb: Time)
    requires a != b
    ensures Upsert(Upsert(m, a, ipa, ta), b, ipb, tb) == Upsert(Upsert(m, b, ipb, tb), a, ipa, ta)
  {
    var l := Upsert(Upsert(m, a, ipa, ta), b, ipb, tb);
    var r := Upsert(Upsert(m, b, ipb, tb), a, ipa, ta);
    assert l.Keys == r.Keys;
    forall k | k in l
      ensures l[k] == r[k]
    {
    }
  }
}
