/** src/BackendRegistry.cpp: the backends a process knows, stamped and expired. */
module Registry {
  import opened Protocol
  import opened Backends

  datatype Entry = Entry(backend: Snapshot, lastRefreshed: int)

  type Entries = map<string, Entry>

  /** Same name, two different non-empty dispatch queues. */
  predicate Conflicts(known: Snapshot, offered: Snapshot) {
    known.queueName != "" && offered.queueName != "" && known.queueName != offered.queueName
  }

  predicate Rejects(entries: Entries, b: Snapshot) {
    b.name in entries && Conflicts(entries[b.name].backend, b)
  }

  function InsertEntry(entries: Entries, b: Snapshot, now: int): Entries {
    if Rejects(entries, b) then entries else entries[b.name := Entry(b, now)]
  }

  function ExpireEntries(entries: Entries, ttl: int, now: int): Entries {
    map n | n in entries && now - entries[n].lastRefreshed <= ttl :: entries[n]
  }

  ghost predicate KeyedByName(entries: Entries) {
    forall n :: n in entries ==> entries[n].backend.name == n
  }

  /** One call on a registry, with the time it was given. */
  datatype Call = Inserted(backend: Snapshot, at: int) | Swept(at: int)

  /** The registry contents after the first `k` calls. */
  ghost function Replay(log: seq<Call>, ttl: int, k: nat): Entries
    requires k <= |log|
  {
    if k == 0 then map[]
    else match log[k - 1]
      case Inserted(b, at) => InsertEntry(Replay(log, ttl, k - 1), b, at)
      case Swept(at) => ExpireEntries(Replay(log, ttl, k - 1), ttl, at)
  }

  /** What the log alone says about `name` after `k` calls, without any map: (s, t) is an
      accepted insert, no later insert of that name was accepted, and no later sweep
      found it older than the time-to-live. */
  ghost predicate Live(log: seq<Call>, ttl: int, k: nat, name: string, s: Snapshot, t: int)
    requires k <= |log|
    decreases k, 2
  {
    exists i :: 0 <= i < k && LiveFrom(log, ttl, k, i, name, s, t)
  }

  ghost predicate LiveFrom(log: seq<Call>, ttl: int, k: nat, i: nat, name: string, s: Snapshot, t: int)
    requires i < k <= |log|
    decreases k, 1
  {
    && log[i] == Inserted(s, t) && s.name == name && Accepted(log, ttl, i)
    && forall j :: i < j < k ==> Undisturbed(log, ttl, j, name, t)
  }

  /** Call `j` neither replaces nor outdates an entry of `name` stamped `t`. */
  ghost predicate Undisturbed(log: seq<Call>, ttl: int, j: nat, name: string, t: int)
    requires j < |log|
    decreases j, 4
  {
    match log[j]
    case Swept(at) => at - t <= ttl
    case Inserted(b, _) => b.name == name ==> !Accepted(log, ttl, j)
  }

  ghost predicate Accepted(log: seq<Call>, ttl: int, i: nat)
    requires i < |log| && log[i].Inserted?
    decreases i, 3
  {
    forall s, t :: Live(log, ttl, i, log[i].backend.name, s, t) ==> !Conflicts(s, log[i].backend)
  }

  ghost predicate Holds(entries: Entries, name: string, s: Snapshot, t: int) {
    name in entries && entries[name] == Entry(s, t)
  }

  /** The registry refines its event log. */
  lemma {:induction false} RegistryRefinesLog(log: seq<Call>, ttl: int, k: nat)
    requires k <= |log|
    ensures KeyedByName(Replay(log, ttl, k))
    ensures forall name, s, t :: Holds(Replay(log, ttl, k), name, s, t) <==> Live(log, ttl, k, name, s, t)
  {
    if k > 0 {
      RegistryRefinesLog(log, ttl, k - 1);
      forall name, s, t
        ensures Holds(Replay(log, ttl, k), name, s, t) <==> Live(log, ttl, k, name, s, t)
      {
        LiveStep(log, ttl, k - 1, name, s, t);
        if log[k - 1].Inserted? && log[k - 1].backend.name == name {
          AcceptedIsNotRejected(log, ttl, k - 1);
        }
      }
    }
  }

  /** Appending one call to the log: how `Live` moves. */
  lemma LiveStep(log: seq<Call>, ttl: int, k: nat, name: string, s: Snapshot, t: int)
    requires k < |log|
    ensures Live(log, ttl, k + 1, name, s, t) <==>
            || (Live(log, ttl, k, name, s, t) && Undisturbed(log, ttl, k, name, t))
            || (log[k] == Inserted(s, t) && s.name == name && Accepted(log, ttl, k))
  {
    if Live(log, ttl, k + 1, name, s, t) {
      var i :| 0 <= i < k + 1 && LiveFrom(log, ttl, k + 1, i, name, s, t);
      if i < k {
        assert LiveFrom(log, ttl, k, i, name, s, t);
      }
    }
    if i :| 0 <= i < k && LiveFrom(log, ttl, k, i, name, s, t) && Undisturbed(log, ttl, k, name, t) {
      assert LiveFrom(log, ttl, k + 1, i, name, s, t);
    }
    if log[k] == Inserted(s, t) && s.name == name && Accepted(log, ttl, k) {
      assert LiveFrom(log, ttl, k + 1, k, name, s, t);
    }
  }

  lemma AcceptedIsNotRejected(log: seq<Call>, ttl: int, k: nat)
    requires k < |log| && log[k].Inserted?
    requires forall name, s, t :: Holds(Replay(log, ttl, k), name, s, t) <==> Live(log, ttl, k, name, s, t)
    ensures Accepted(log, ttl, k) <==> !Rejects(Replay(log, ttl, k), log[k].backend)
  {
    var r, b := Replay(log, ttl, k), log[k].backend;
    if b.name in r {
      assert Holds(r, b.name, r[b.name].backend, r[b.name].lastRefreshed);
    }
  }

  // ---- When an entry keeps its dispatch queue ---------------------------------------

  /** One refresh keeps a non-empty queue exactly if it names one itself. */
  lemma RefreshKeepsQueue(entries: Entries, b: Snapshot, now: int)
    requires b.name in entries
    ensures b.name in InsertEntry(entries, b, now)
    ensures var known := entries[b.name].backend.queueName;
            InsertEntry(entries, b, now)[b.name].backend.queueName == known <==> (b.queueName == "" <==> known == "")
  {
  }

  /** Calls i..k-1 span one lifetime of `name`: absent before, inserted by call `i`, and
      registered ever since. */
  ghost predicate Lifetime(log: seq<Call>, ttl: int, name: string, i: nat, k: nat) {
    && i < k <= |log|
    && log[i].Inserted? && log[i].backend.name == name && name !in Replay(log, ttl, i)
    && forall m :: i < m <= k ==> name in Replay(log, ttl, m)
  }

  ghost predicate HasQueue(log: seq<Call>, ttl: int, name: string, m: nat, queue: string)
    requires m <= |log|
  {
    name in Replay(log, ttl, m) && Replay(log, ttl, m)[name].backend.queueName == queue
  }

  /** An insert of `name` that is as empty, or as non-empty, as `queue`. */
  predicate Agrees(call: Call, name: string, queue: string) {
    call.Inserted? && call.backend.name == name ==> (call.backend.queueName == "" <==> queue == "")
  }

  /** A backend keeps, all through a lifetime, the queue it was first accepted with if and
      only if no insert in that lifetime switches between an empty and a non-empty queue.
      For a backend accepted with a queue: if and only if no empty-queue insert occurs. */
  lemma {:induction false} QueueSticksExactlyWithoutSwitch(log: seq<Call>, ttl: int, name: string, i: nat, k: nat)
    requires Lifetime(log, ttl, name, i, k)
    ensures (forall m :: i < m <= k ==> HasQueue(log, ttl, name, m, log[i].backend.queueName))
       <==> (forall j :: i < j < k ==> Agrees(log[j], name, log[i].backend.queueName))
  {
    var queue := log[i].backend.queueName;
    if k > i + 1 {
      QueueSticksExactlyWithoutSwitch(log, ttl, name, i, k - 1);
      if HasQueue(log, ttl, name, k - 1, queue) {
        SwitchStep(log, ttl, name, k - 1, queue);
      }
    }
  }

  /** Call `m` on an entry with that queue leaves it exactly if it agrees. */
  lemma SwitchStep(log: seq<Call>, ttl: int, name: string, m: nat, queue: string)
    requires m < |log| && HasQueue(log, ttl, name, m, queue) && name in Replay(log, ttl, m + 1)
    ensures HasQueue(log, ttl, name, m + 1, queue) <==> Agrees(log[m], name, queue)
  {
    if log[m].Inserted? && log[m].backend.name == name {
      hide InsertEntry;
      RefreshKeepsQueue(Replay(log, ttl, m), log[m].backend, log[m].at);
    }
  }

  /** BackendRegistry. `log` is the history of calls the entries are proved against. */
  class BackendRegistry {
    var entries: Entries
    const ttl: int
    ghost var log: seq<Call>

    ghost predicate Valid()
      reads this
    {
      entries == Replay(log, ttl, |log|) && KeyedByName(entries)
    }

    constructor (timeToLive: int)
      ensures Valid() && entries == map[] && ttl == timeToLive && log == []
    {
      entries, ttl, log := map[], timeToLive, [];
    }

    method InsertOrRefresh(backend: Snapshot, now: int) returns (accepted: bool)
      requires Valid()
      modifies this
      ensures Valid() && log == old(log) + [Inserted(backend, now)]
      ensures accepted <==> !Rejects(old(entries), backend)
      ensures entries == InsertEntry(old(entries), backend, now)
    {
      ghost var before := log;
      accepted := !(backend.name in entries &&
                    entries[backend.name].backend.queueName != "" && backend.queueName != "" &&
                    entries[backend.name].backend.queueName != backend.queueName);
      if accepted {
        entries := entries[backend.name := Entry(backend, now)];
      }
      log := log + [Inserted(backend, now)];
      ReplayPrefix(before, log, ttl, |before|);
    }

    /** Drops exactly the entries older than the time-to-live and counts them. */
    method Expire(now: int) returns (dropped: nat)
      requires Valid()
      modifies this
      ensures Valid() && log == old(log) + [Swept(now)]
      ensures entries == ExpireEntries(old(entries), ttl, now)
      ensures dropped == |set n | n in old(entries) && now - old(entries)[n].lastRefreshed > ttl|
      ensures dropped + |entries| == |old(entries)|
    {
      ghost var before := log;
      var stale := set n | n in entries && now - entries[n].lastRefreshed > ttl;
      var kept := entries - stale;
      assert kept.Keys + stale == entries.Keys && kept.Keys !! stale;
      dropped := |stale|;
      assert kept == ExpireEntries(entries, ttl, now);
      entries := kept;
      log := log + [Swept(now)];
      ReplayPrefix(before, log, ttl, |before|);
    }

    function Find(name: string): (r: Option<Snapshot>)
      reads this
      ensures r.Some? <==> Contains(name)
    {
      if name in entries then Some(entries[name].backend) else None
    }

    predicate Contains(name: string)
      reads this
    {
      name in entries
    }
  }

  /** A lookup finds exactly what the log says is live under that name. */
  lemma FindAnswersFromTheLog(registry: BackendRegistry, name: string, s: Snapshot)
    requires registry.Valid()
    ensures registry.Find(name) == Some(s) <==> exists t :: Live(registry.log, registry.ttl, |registry.log|, name, s, t)
  {
    RegistryRefinesLog(registry.log, registry.ttl, |registry.log|);
    if name in registry.entries {
      var e := registry.entries[name];
      assert Holds(registry.entries, name, e.backend, e.lastRefreshed);
      assert Live(registry.log, registry.ttl, |registry.log|, name, e.backend, e.lastRefreshed);
    }
    if t :| Live(registry.log, registry.ttl, |registry.log|, name, s, t) {
      assert Holds(registry.entries, name, s, t);
      assert registry.Find(name) == Some(s);
    }
  }

  lemma ReplayPrefix(a: seq<Call>, b: seq<Call>, ttl: int, k: nat)
    requires k <= |a| && a <= b
    ensures Replay(a, ttl, k) == Replay(b, ttl, k)
  {
    if k > 0 {
      ReplayPrefix(a, b, ttl, k - 1);
    }
  }
}
