/** The coordinator's replicated state machine: membership, cluster bindings and domain
    assignments, driven by a command log that is compacted into snapshots. */
module Coordinator {
  /** A registration time of zero says the entry carries none. */
  datatype ShardEntry = ShardEntry(id: string, address: string, registeredAt: int, lastHeartbeat: int)

  datatype DomainKey = DomainKey(key: string, value: string)

  datatype Command =
    | AddShard(entry: ShardEntry)
    | RemoveShard(id: string)
    | BindCluster(cluster: string, shard: string)
    | AssignDomain(domain: DomainKey, shard: string)
    | UnassignDomain(domain: DomainKey)
    | Undecodable

  datatype Reply = Done | IdRequired | ShardExists | ShardNotFound | AlreadyBound | AlreadyAssigned | BadCommand

  /** What is replicated. */
  datatype Image = Image(shards: map<string, ShardEntry>, clusters: map<string, string>,
                         domains: map<DomainKey, string>)

  const EMPTY := Image(map[], map[], map[])

  function ReplyTo(s: Image, cmd: Command): Reply {
    match cmd
    case AddShard(e) => if e.id == "" then IdRequired else if e.id in s.shards then ShardExists else Done
    case RemoveShard(id) => if id in s.shards then Done else ShardNotFound
    case BindCluster(c, sh) =>
      if sh !in s.shards then ShardNotFound
      else if c in s.clusters && s.clusters[c] != sh then AlreadyBound
      else Done
    case AssignDomain(d, sh) =>
      if sh !in s.shards then ShardNotFound
      else if d in s.domains && s.domains[d] != sh then AlreadyAssigned
      else Done
    case UnassignDomain(_) => Done
    case Undecodable => BadCommand
  }

  function Stamped(e: ShardEntry, now: int): ShardEntry {
    if e.registeredAt == 0 then e.(registeredAt := now) else e
  }

  function Without<K>(m: map<K, string>, id: string): map<K, string> {
    map k | k in m && m[k] != id :: m[k]
  }

  /** One command; a refused one changes nothing. Only a missing registration time makes
      the clock matter. */
  function Effect(s: Image, cmd: Command, now: int): Image {
    if ReplyTo(s, cmd) != Done then s
    else
      match cmd
      case AddShard(e) => s.(shards := s.shards[e.id := Stamped(e, now)])
      case RemoveShard(id) => Image(s.shards - {id}, Without(s.clusters, id), Without(s.domains, id))
      case BindCluster(c, sh) => s.(clusters := s.clusters[c := sh])
      case AssignDomain(d, sh) => s.(domains := s.domains[d := sh])
      case UnassignDomain(d) => s.(domains := s.domains - {d})
      case Undecodable => s
  }

  /** Everything points at a registered shard, and entries are complete. */
  predicate Consistent(s: Image) {
    && (forall id | id in s.shards :: id != "" && s.shards[id].id == id && s.shards[id].registeredAt != 0)
    && (forall c | c in s.clusters :: s.clusters[c] in s.shards)
    && (forall d | d in s.domains :: s.domains[d] in s.shards)
  }

  // ---- The state and its methods ------------------------------------------

  class State {
    var shards: map<string, ShardEntry>
    var clusterToShard: map<string, string>
    var domainToShard: map<DomainKey, string>

    constructor ()
      ensures Contents() == EMPTY
    {
      shards, clusterToShard, domainToShard := map[], map[], map[];
    }

    function Contents(): Image
      reads this
    {
      Image(shards, clusterToShard, domainToShard)
    }

    method Add(e: ShardEntry, now: int) returns (r: Reply)
      modifies this
      ensures r == ReplyTo(old(Contents()), AddShard(e)) && Contents() == Effect(old(Contents()), AddShard(e), now)
    {
      if e.id == "" {
        return IdRequired;
      }
      if e.id in shards {
        return ShardExists;
      }
      shards := shards[e.id := Stamped(e, now)];
      r := Done;
    }

    method Remove(id: string) returns (r: Reply)
      modifies this
      ensures r == ReplyTo(old(Contents()), RemoveShard(id))
      ensures Contents() == Effect(old(Contents()), RemoveShard(id), 0)
    {
      if id !in shards {
        return ShardNotFound;
      }
      shards := shards - {id};
      clusterToShard := Unpoint(clusterToShard, id);
      domainToShard := Unpoint(domainToShard, id);
      r := Done;
    }

    method Bind(c: string, sh: string) returns (r: Reply)
      modifies this
      ensures r == ReplyTo(old(Contents()), BindCluster(c, sh))
      ensures Contents() == Effect(old(Contents()), BindCluster(c, sh), 0)
    {
      if sh !in shards {
        return ShardNotFound;
      }
      if c in clusterToShard {
        if clusterToShard[c] == sh {
          assert clusterToShard[c := sh] == clusterToShard;
          return Done;
        }
        return AlreadyBound;
      }
      clusterToShard := clusterToShard[c := sh];
      r := Done;
    }

    method Assign(d: DomainKey, sh: string) returns (r: Reply)
      modifies this
      ensures r == ReplyTo(old(Contents()), AssignDomain(d, sh))
      ensures Contents() == Effect(old(Contents()), AssignDomain(d, sh), 0)
    {
      if sh !in shards {
        return ShardNotFound;
      }
      if d in domainToShard && domainToShard[d] != sh {
        return AlreadyAssigned;
      }
      domainToShard := domainToShard[d := sh];
      r := Done;
    }

    method Unassign(d: DomainKey)
      modifies this
      ensures Contents() == Effect(old(Contents()), UnassignDomain(d), 0)
    {
      domainToShard := domainToShard - {d};
    }
  }

  /** Deletes the entries that point at a shard, one by one. */
  method Unpoint<K(==)>(m: map<K, string>, id: string) returns (r: map<K, string>)
    ensures r == Without(m, id)
  {
    r := m;
    var todo := m.Keys;
    while todo != {}
      invariant todo <= m.Keys
      invariant r == map k | k in m && (k in todo || m[k] != id) :: m[k]
      decreases todo
    {
      var k :| k in todo;
      todo := todo - {k};
      if m[k] == id {
        r := r - {k};
      }
    }
  }

  // ---- Snapshots ----------------------------------------------------------

  datatype Snap = Snap(shards: seq<ShardEntry>, clusters: map<string, string>, domains: seq<(DomainKey, string)>)

  /** The snapshot lists the image, in whatever order. */
  ghost predicate Depicts(snap: Snap, s: Image) {
    && (forall e :: e in snap.shards <==> e.id in s.shards && s.shards[e.id] == e)
    && (forall i, j | 0 <= i < j < |snap.shards| :: snap.shards[i].id != snap.shards[j].id)
    && snap.clusters == s.clusters
    && (forall p :: p in snap.domains <==> p.0 in s.domains && s.domains[p.0] == p.1)
  }

  class FSM {
    var state: State

    constructor ()
      ensures fresh(state) && state.Contents() == EMPTY
    {
      state := new State();
    }

    method ApplyCommand(cmd: Command, now: int) returns (r: Reply)
      modifies state
      ensures r == ReplyTo(old(state.Contents()), cmd) && state.Contents() == Effect(old(state.Contents()), cmd, now)
    {
      match cmd
      case AddShard(e) => r := state.Add(e, now);
      case RemoveShard(id) => r := state.Remove(id);
      case BindCluster(c, sh) => r := state.Bind(c, sh);
      case AssignDomain(d, sh) => r := state.Assign(d, sh);
      case UnassignDomain(d) =>
        state.Unassign(d);
        r := Done;
      case Undecodable => r := BadCommand;
    }

    method TakeSnapshot() returns (snap: Snap)
      requires Consistent(state.Contents())
      ensures Depicts(snap, state.Contents())
    {
      var entries := ListShards(state.shards);
      var pairs := ListDomains(state.domainToShard);
      snap := Snap(entries, state.clusterToShard, pairs);
    }

    /** Rebuilds the state by replaying the snapshot's entries: shards first, then the
        bindings and the assignments, each in whatever order they come. */
    method Restore(snap: Snap, now: int, ghost s: Image)
      requires Consistent(s) && Depicts(snap, s)
      modifies this
      ensures fresh(state) && state.Contents() == s
    {
      var rebuilt := new State();
      RestoreShards(rebuilt, snap.shards, now, s.shards);
      RestoreClusters(rebuilt, snap.clusters);
      RestoreDomains(rebuilt, snap.domains, s.domains);
      state := rebuilt;
    }
  }

  method ListShards(shards: map<string, ShardEntry>) returns (out: seq<ShardEntry>)
    requires forall id | id in shards :: shards[id].id == id
    ensures forall e :: e in out <==> e.id in shards && shards[e.id] == e
    ensures forall i, j | 0 <= i < j < |out| :: out[i].id != out[j].id
  {
    out := [];
    var todo := shards.Keys;
    while todo != {}
      invariant todo <= shards.Keys
      invariant forall e :: e in out <==> e.id in shards && e.id !in todo && shards[e.id] == e
      invariant forall i, j | 0 <= i < j < |out| :: out[i].id != out[j].id
      decreases todo
    {
      var id :| id in todo;
      assert forall e | e in out :: e.id != id;
      out := out + [shards[id]];
      todo := todo - {id};
    }
  }

  method ListDomains(domains: map<DomainKey, string>) returns (out: seq<(DomainKey, string)>)
    ensures forall p :: p in out <==> p.0 in domains && domains[p.0] == p.1
  {
    out := [];
    var todo := domains.Keys;
    while todo != {}
      invariant todo <= domains.Keys
      invariant forall p :: p in out <==> p.0 in domains && p.0 !in todo && domains[p.0] == p.1
      decreases todo
    {
      var d :| d in todo;
      out := out + [(d, domains[d])];
      todo := todo - {d};
    }
  }

  method RestoreShards(st: State, entries: seq<ShardEntry>, now: int, ghost shards: map<string, ShardEntry>)
    requires st.Contents() == EMPTY
    requires forall e :: e in entries <==> e.id in shards && shards[e.id] == e
    requires forall i, j | 0 <= i < j < |entries| :: entries[i].id != entries[j].id
    requires forall id | id in shards :: id != "" && shards[id].id == id && shards[id].registeredAt != 0
    modifies st
    ensures st.Contents() == Image(shards, map[], map[])
  {
    for i := 0 to |entries|
      invariant st.clusterToShard == map[] && st.domainToShard == map[]
      invariant forall id :: id in st.shards <==> exists j :: 0 <= j < i && entries[j].id == id
      invariant forall id | id in st.shards :: id in shards && st.shards[id] == shards[id]
    {
      assert entries[i] in entries;
      var r := st.Add(entries[i], now);
    }
    forall id | id in shards
      ensures id in st.shards
    {
      assert shards[id] in entries;
    }
    assert st.shards.Keys == shards.Keys;
  }

  method RestoreClusters(st: State, clusters: map<string, string>)
    requires st.clusterToShard == map[] && forall c | c in clusters :: clusters[c] in st.shards
    modifies st
    ensures st.Contents() == old(st.Contents()).(clusters := clusters)
  {
    var todo := clusters.Keys;
    while todo != {}
      invariant todo <= clusters.Keys && st.shards == old(st.shards) && st.domainToShard == old(st.domainToShard)
      invariant st.clusterToShard == clusters - todo
      decreases todo
    {
      var c :| c in todo;
      var r := st.Bind(c, clusters[c]);
      todo := todo - {c};
    }
  }

  method RestoreDomains(st: State, pairs: seq<(DomainKey, string)>, ghost domains: map<DomainKey, string>)
    requires st.domainToShard == map[] && forall d | d in domains :: domains[d] in st.shards
    requires forall p :: p in pairs <==> p.0 in domains && domains[p.0] == p.1
    modifies st
    ensures st.Contents() == old(st.Contents()).(domains := domains)
  {
    for i := 0 to |pairs|
      invariant st.shards == old(st.shards) && st.clusterToShard == old(st.clusterToShard)
      invariant forall d | d in st.domainToShard :: d in domains && st.domainToShard[d] == domains[d]
      invariant forall j | 0 <= j < i :: pairs[j].0 in st.domainToShard
    {
      assert pairs[i] in pairs;
      var r := st.Assign(pairs[i].0, pairs[i].1);
    }
    forall d | d in domains
      ensures d in st.domainToShard
    {
      assert (d, domains[d]) in pairs;
    }
    assert st.domainToShard == domains;
  }

  // ---- Logs ---------------------------------------------------------------

  /** Every registration in the log carries its time. */
  predicate Timed(log: seq<Command>) {
    forall cmd | cmd in log :: cmd.AddShard? ==> cmd.entry.registeredAt != 0
  }

  /** Replays a log; `clock` gives the time at which each command happens to be applied. */
  function Replay(s: Image, log: seq<Command>, clock: nat -> int): Image {
    if log == [] then s
    else Effect(Replay(s, log[..|log| - 1], clock), log[|log| - 1], clock(|log| - 1))
  }

  lemma EffectConsistent(s: Image, cmd: Command, now: int)
    requires Consistent(s) && (cmd.AddShard? ==> cmd.entry.registeredAt != 0)
    ensures Consistent(Effect(s, cmd, now))
  {
  }

  /** Every binding of a replayed log targets a registered shard. */
  lemma {:induction false} ReplayConsistent(s: Image, log: seq<Command>, clock: nat -> int)
    requires Consistent(s) && Timed(log)
    ensures Consistent(Replay(s, log, clock))
    decreases |log|
  {
    if log != [] {
      ReplayConsistent(s, log[..|log| - 1], clock);
      EffectConsistent(Replay(s, log[..|log| - 1], clock), log[|log| - 1], clock(|log| - 1));
    }
  }

  /** The clock matters to a command exactly when it registers a shard without a time. */
  lemma ClockMatters(s: Image, cmd: Command)
    ensures (forall a, b :: Effect(s, cmd, a) == Effect(s, cmd, b)) <==>
            !(cmd.AddShard? && ReplyTo(s, cmd) == Done && cmd.entry.registeredAt == 0)
  {
    if cmd.AddShard? && ReplyTo(s, cmd) == Done && cmd.entry.registeredAt == 0 {
      assert Effect(s, cmd, 1).shards[cmd.entry.id].registeredAt == 1;
      assert Effect(s, cmd, 2).shards[cmd.entry.id].registeredAt == 2;
    }
  }

  lemma {:induction false} ReplayTimeless(s: Image, log: seq<Command>, c: nat -> int, d: nat -> int)
    requires Timed(log)
    ensures Replay(s, log, c) == Replay(s, log, d)
    decreases |log|
  {
    if log != [] {
      ReplayTimeless(s, log[..|log| - 1], c, d);
      assert log[|log| - 1] in log;
    }
  }

  lemma {:induction false} ReplaySplit(s: Image, a: seq<Command>, b: seq<Command>, c: nat -> int)
    requires Timed(a + b)
    ensures Replay(Replay(s, a, c), b, c) == Replay(s, a + b, c)
    decreases |b|
  {
    if b == [] {
      assert a + b == a;
    } else {
      var pre, last := b[..|b| - 1], b[|b| - 1];
      assert (a + b)[..|a + b| - 1] == a + pre;
      assert last in a + b;
      ReplaySplit(s, a, pre, c);
    }
  }

  /** Log compaction. Take a snapshot after any prefix of a log, restore it into a new
      machine and apply the rest: the outcome is that of replaying the whole log, and it
      does not depend on when, or in what order, anything was restored. */
  method CompactAndResume(log: seq<Command>, k: nat, clock: nat -> int, restored: int) returns (fsm: FSM)
    requires k <= |log| && Timed(log)
    ensures fsm.state.Contents() == Replay(EMPTY, log, clock)
  {
    assert log == log[..k] + log[k..];
    var first := new FSM();
    RunLog(first, log[..k], clock);
    ReplayConsistent(EMPTY, log[..k], clock);
    var snap := first.TakeSnapshot();
    fsm := new FSM();
    fsm.Restore(snap, restored, Replay(EMPTY, log[..k], clock));
    RunLog(fsm, log[k..], clock);
    ReplaySplit(EMPTY, log[..k], log[k..], clock);
  }

  method RunLog(fsm: FSM, log: seq<Command>, clock: nat -> int)
    modifies fsm.state
    ensures fsm.state == old(fsm.state) && fsm.state.Contents() == Replay(old(fsm.state.Contents()), log, clock)
  {
    ghost var s := fsm.state.Contents();
    for i := 0 to |log|
      invariant fsm.state == old(fsm.state) && fsm.state.Contents() == Replay(s, log[..i], clock)
    {
      assert log[..i + 1][..i] == log[..i];
      var r := fsm.ApplyCommand(log[i], clock(i));
    }
    assert log[..|log|] == log;
  }

  // ---- Bindings are permanent ---------------------------------------------

  /** A bound cluster keeps its shard until that shard is removed. */
  lemma {:induction false} BoundUntilRemoved(s: Image, log: seq<Command>, clock: nat -> int, c: string)
    requires c in s.clusters && RemoveShard(s.clusters[c]) !in log
    ensures c in Replay(s, log, clock).clusters && Replay(s, log, clock).clusters[c] == s.clusters[c]
    decreases |log|
  {
    if log != [] {
      BoundUntilRemoved(s, log[..|log| - 1], clock, c);
      assert log[|log| - 1] in log;
    }
  }

  /** Removing a shard frees exactly what pointed at it. */
  lemma RemovalFrees(s: Image, id: string, now: int)
    requires Consistent(s) && id in s.shards
    ensures var t := Effect(s, RemoveShard(id), now);
            && Consistent(t) && id !in t.shards
            && (forall c :: c in t.clusters <==> c in s.clusters && s.clusters[c] != id)
            && (forall d :: d in t.domains <==> d in s.domains && s.domains[d] != id)
  {
  }

  // ---- What each command comes to -----------------------------------------

  /** A shard's entry never changes while it stays registered: no log without its removal
      touches it. */
  lemma {:induction false} RegisteredOnce(s: Image, log: seq<Command>, clock: nat -> int, id: string)
    requires id in s.shards && RemoveShard(id) !in log
    ensures id in Replay(s, log, clock).shards && Replay(s, log, clock).shards[id] == s.shards[id]
    decreases |log|
  {
    if log != [] {
      RegisteredOnce(s, log[..|log| - 1], clock, id);
      assert log[|log| - 1] in log;
    }
  }

  /** A domain keeps its shard until the shard is removed or the domain is unassigned. */
  lemma {:induction false} AssignedUntil(s: Image, log: seq<Command>, clock: nat -> int, d: DomainKey)
    requires d in s.domains && RemoveShard(s.domains[d]) !in log && UnassignDomain(d) !in log
    ensures d in Replay(s, log, clock).domains && Replay(s, log, clock).domains[d] == s.domains[d]
    decreases |log|
  {
    if log != [] {
      AssignedUntil(s, log[..|log| - 1], clock, d);
      assert log[|log| - 1] in log;
    }
  }

  /** Registering: a new id with a name is entered, stamped with the clock only if it brings no
      time; nothing else changes. */
  lemma AddMeans(s: Image, e: ShardEntry, now: int)
    ensures ReplyTo(s, AddShard(e)) == Done <==> e.id != "" && e.id !in s.shards
    ensures var t := Effect(s, AddShard(e), now);
            && t.clusters == s.clusters && t.domains == s.domains
            && (e.id == "" || e.id in s.shards ==> t == s)
            && (e.id != "" && e.id !in s.shards ==>
                  t.shards.Keys == s.shards.Keys + {e.id} &&
                  (forall id | id in s.shards :: t.shards[id] == s.shards[id]) &&
                  t.shards[e.id] == ShardEntry(e.id, e.address, if e.registeredAt == 0 then now else e.registeredAt,
                                               e.lastHeartbeat))
  {
  }

  /** The maps differ at most at `k`. */
  predicate ElsewhereSame<K, V(==)>(m: map<K, V>, n: map<K, V>, k: K) {
    (forall x | x in m && x != k :: x in n && n[x] == m[x]) && (forall x | x in n && x != k :: x in m)
  }

  /** Binding: afterwards the cluster points at the shard exactly if the shard is registered and
      the cluster was free or bound to it already; otherwise nothing changes. */
  lemma BindMeans(s: Image, c: string, sh: string, now: int)
    ensures var t := Effect(s, BindCluster(c, sh), now);
            && t.shards == s.shards && t.domains == s.domains
            && ElsewhereSame(s.clusters, t.clusters, c)
            && (sh in s.shards && (c !in s.clusters || s.clusters[c] == sh) ==>
                  c in t.clusters && t.clusters[c] == sh && ReplyTo(s, BindCluster(c, sh)) == Done)
            && (!(sh in s.shards && (c !in s.clusters || s.clusters[c] == sh)) ==>
                  t == s && ReplyTo(s, BindCluster(c, sh)) == if sh in s.shards then AlreadyBound else ShardNotFound)
  {
  }

  /** Assigning a domain: likewise. */
  lemma AssignMeans(s: Image, d: DomainKey, sh: string, now: int)
    ensures var t := Effect(s, AssignDomain(d, sh), now);
            && t.shards == s.shards && t.clusters == s.clusters
            && ElsewhereSame(s.domains, t.domains, d)
            && (sh in s.shards && (d !in s.domains || s.domains[d] == sh) ==>
                  d in t.domains && t.domains[d] == sh && ReplyTo(s, AssignDomain(d, sh)) == Done)
            && (!(sh in s.shards && (d !in s.domains || s.domains[d] == sh)) ==>
                  t == s &&
                  ReplyTo(s, AssignDomain(d, sh)) == if sh in s.shards then AlreadyAssigned else ShardNotFound)
  {
  }

  /** Unassigning frees the domain and nothing else, and always succeeds. */
  lemma UnassignMeans(s: Image, d: DomainKey, now: int)
    ensures var t := Effect(s, UnassignDomain(d), now);
            && ReplyTo(s, UnassignDomain(d)) == Done && d !in t.domains
            && t.shards == s.shards && t.clusters == s.clusters
            && ElsewhereSame(s.domains, t.domains, d)
  {
  }
}
