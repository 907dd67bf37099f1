/** The partition topology a test asks the network to take: which services sit in which
    partition, how pairs of partitions are connected, and the connection used for
    pairs that are not listed. A builder records an ordered list of mutators and `Build`
    replays them over an empty topology. */
module Repartitioning {
  import opened Wrappers
  import opened CoreApi

  /** The abstract value of a repartitioner. */
  datatype Topology = Topology(
    partitionServices: map<PartitionId, set<ServiceId>>,
    partitionConnections: map<PartitionId, map<PartitionId, PartitionConnectionInfo>>,
    defaultConnection: PartitionConnectionInfo)

  /** The topology a builder starts from. */
  function EmptyTopology(isDefaultPartitionConnectionBlocked: bool): Topology
  {
    Topology(map[], map[], PartitionConnectionInfo(isDefaultPartitionConnectionBlocked))
  }

  class Repartitioner {
    var partitionServices: map<PartitionId, set<ServiceId>>
    var partitionConnections: map<PartitionId, map<PartitionId, PartitionConnectionInfo>>
    var defaultConnection: PartitionConnectionInfo

    constructor (t: Topology)
      ensures Value() == t
    {
      partitionServices := t.partitionServices;
      partitionConnections := t.partitionConnections;
      defaultConnection := t.defaultConnection;
    }

    function Value(): Topology
      reads this
    {
      Topology(partitionServices, partitionConnections, defaultConnection)
    }
  }

  /** One recorded builder operation. */
  datatype Mutator =
    | AddPartition(partition: PartitionId, services: seq<ServiceId>)
    | AddPartitionConnection(partitionA: PartitionId, partitionB: PartitionId, connection: PartitionConnectionInfo)

  function Elems(ids: seq<ServiceId>): set<ServiceId>
  {
    set id | id in ids
  }

  /** The connection stored for the directed pair a -> b, if any. */
  function ConnectionOf(conns: map<PartitionId, map<PartitionId, PartitionConnectionInfo>>, a: PartitionId, b: PartitionId): Option<PartitionConnectionInfo>
  {
    if a in conns && b in conns[a] then Some(conns[a][b]) else None
  }

  /** The effect of one mutator on a topology. */
  function Apply(t: Topology, m: Mutator): (r: Topology)
    ensures r.defaultConnection == t.defaultConnection
    ensures m.AddPartition? ==>
      && r.partitionServices.Keys == t.partitionServices.Keys + {m.partition}
      && r.partitionServices[m.partition] == Elems(m.services)
      && (forall p | p in t.partitionServices && p != m.partition :: r.partitionServices[p] == t.partitionServices[p])
      && r.partitionConnections == t.partitionConnections
    ensures m.AddPartitionConnection? ==>
      && r.partitionServices == t.partitionServices
      && ConnectionOf(r.partitionConnections, m.partitionA, m.partitionB) == Some(m.connection)
      && (forall a, b | (a, b) != (m.partitionA, m.partitionB) ::
            ConnectionOf(r.partitionConnections, a, b) == ConnectionOf(t.partitionConnections, a, b))
  {
    match m
    case AddPartition(p, ids) =>
      t.(partitionServices := t.partitionServices[p := Elems(ids)])
    case AddPartitionConnection(a, b, c) =>
      var inner := if a in t.partitionConnections then t.partitionConnections[a] else map[];
      t.(partitionConnections := t.partitionConnections[a := inner[b := c]])
  }

  /** The mutators applied in index order. */
  function Replay(t: Topology, ms: seq<Mutator>): Topology
    decreases |ms|
  {
    if ms == [] then t else Apply(Replay(t, ms[..|ms| - 1]), ms[|ms| - 1])
  }

  /** Applies one mutator to a repartitioner in place; neither mutator can fail. */
  method Mutate(m: Mutator, r: Repartitioner) returns (err: Option<string>)
    modifies r
    ensures err == None
    ensures r.Value() == Apply(old(r.Value()), m)
  {
    match m {
      case AddPartition(p, ids) =>
        var newPartitionServices: set<ServiceId> := {};
        var i := 0;
        while i < |ids|
          invariant 0 <= i <= |ids|
          invariant newPartitionServices == Elems(ids[..i])
        {
          assert ids[..i + 1] == ids[..i] + [ids[i]];
          newPartitionServices := newPartitionServices + {ids[i]};
          i := i + 1;
        }
        assert ids[..i] == ids;
        r.partitionServices := r.partitionServices[p := newPartitionServices];
      case AddPartitionConnection(a, b, c) =>
        var partitionAConns: map<PartitionId, PartitionConnectionInfo>;
        if a in r.partitionConnections {
          partitionAConns := r.partitionConnections[a];
        } else {
          partitionAConns := map[];
        }
        partitionAConns := partitionAConns[b := c];
        r.partitionConnections := r.partitionConnections[a := partitionAConns];
    }
    err := None;
  }

  datatype BuildError = MutatorFailed(index: nat)

  /** Records partition operations without ever failing; errors could only arise in Build. */
  class RepartitionerBuilder {
    var isDefaultPartitionConnectionBlocked: bool
    var mutators: seq<Mutator>

    constructor (isDefaultPartitionConnectionBlocked: bool)
      ensures this.isDefaultPartitionConnectionBlocked == isDefaultPartitionConnectionBlocked
      ensures mutators == []
    {
      this.isDefaultPartitionConnectionBlocked := isDefaultPartitionConnectionBlocked;
      mutators := [];
    }

    method WithPartition(partition: PartitionId, services: seq<ServiceId>) returns (b: RepartitionerBuilder)
      modifies this
      ensures b == this
      ensures mutators == old(mutators) + [AddPartition(partition, services)]
      ensures isDefaultPartitionConnectionBlocked == old(isDefaultPartitionConnectionBlocked)
    {
      mutators := mutators + [AddPartition(partition, services)];
      b := this;
    }

    method WithPartitionConnection(partitionA: PartitionId, partitionB: PartitionId, isBlocked: bool) returns (b: RepartitionerBuilder)
      modifies this
      ensures b == this
      ensures mutators == old(mutators) + [AddPartitionConnection(partitionA, partitionB, PartitionConnectionInfo(isBlocked))]
      ensures isDefaultPartitionConnectionBlocked == old(isDefaultPartitionConnectionBlocked)
    {
      mutators := mutators + [AddPartitionConnection(partitionA, partitionB, PartitionConnectionInfo(isBlocked))];
      b := this;
    }

    /** Replays the mutators, in order, over a fresh empty repartitioner. */
    method Build() returns (r: Result<Repartitioner, BuildError>)
      ensures r.Ok? && fresh(r.value)
      ensures r.value.Value() == Replay(EmptyTopology(isDefaultPartitionConnectionBlocked), mutators)
    {
      var start := EmptyTopology(isDefaultPartitionConnectionBlocked);
      var repartitioner := new Repartitioner(start);
      var idx := 0;
      while idx < |mutators|
        invariant 0 <= idx <= |mutators|
        invariant fresh(repartitioner)
        invariant repartitioner.Value() == Replay(start, mutators[..idx])
      {
        assert mutators[..idx + 1][..idx] == mutators[..idx];
        var _ := Mutate(mutators[idx], repartitioner);
        idx := idx + 1;
      }
      assert mutators[..idx] == mutators;
      r := Ok(repartitioner);
    }
  }

  // ------------------------------------------------------------------------------------
  //  What a replay leaves behind
  // ------------------------------------------------------------------------------------

  predicate WritesPartition(m: Mutator, p: PartitionId)
  {
    m.AddPartition? && m.partition == p
  }

  predicate WritesConnection(m: Mutator, a: PartitionId, b: PartitionId)
  {
    m.AddPartitionConnection? && m.partitionA == a && m.partitionB == b
  }

  /** Index i is the last mutator writing partition p. */
  predicate LastPartitionWrite(ms: seq<Mutator>, p: PartitionId, i: nat)
  {
    i < |ms| && WritesPartition(ms[i], p) && forall j | i < j < |ms| :: !WritesPartition(ms[j], p)
  }

  /** Index i is the last mutator writing the connection a -> b. */
  predicate LastConnectionWrite(ms: seq<Mutator>, a: PartitionId, b: PartitionId, i: nat)
  {
    i < |ms| && WritesConnection(ms[i], a, b) && forall j | i < j < |ms| :: !WritesConnection(ms[j], a, b)
  }

  /** A partition no mutator writes keeps its starting entry, or its absence. */
  lemma {:induction false} ReplayUnwrittenPartition(t: Topology, ms: seq<Mutator>, p: PartitionId)
    requires forall j | 0 <= j < |ms| :: !WritesPartition(ms[j], p)
    ensures p in Replay(t, ms).partitionServices <==> p in t.partitionServices
    ensures p in t.partitionServices ==> Replay(t, ms).partitionServices[p] == t.partitionServices[p]
    decreases |ms|
  {
    if ms != [] {
      var init := ms[..|ms| - 1];
      assert forall j | 0 <= j < |init| :: init[j] == ms[j];
      ReplayUnwrittenPartition(t, init, p);
      assert !WritesPartition(ms[|ms| - 1], p);
    }
  }

  /** A partition's services after a replay are those of the last mutator that wrote it:
      for the same partition, the later mutator wins. */
  lemma {:induction false} ReplayLastPartitionWrite(t: Topology, ms: seq<Mutator>, p: PartitionId, i: nat)
    requires LastPartitionWrite(ms, p, i)
    ensures p in Replay(t, ms).partitionServices
    ensures Replay(t, ms).partitionServices[p] == Elems(ms[i].services)
    decreases |ms|
  {
    var init := ms[..|ms| - 1];
    if i < |ms| - 1 {
      assert ms[i] == init[i];
      assert forall j | i < j < |init| :: init[j] == ms[j];
      ReplayLastPartitionWrite(t, init, p, i);
      assert !WritesPartition(ms[|ms| - 1], p);
    }
  }

  /** A directed pair no mutator writes keeps its starting connection, or its absence. */
  lemma {:induction false} ReplayUnwrittenConnection(t: Topology, ms: seq<Mutator>, a: PartitionId, b: PartitionId)
    requires forall j | 0 <= j < |ms| :: !WritesConnection(ms[j], a, b)
    ensures ConnectionOf(Replay(t, ms).partitionConnections, a, b) == ConnectionOf(t.partitionConnections, a, b)
    decreases |ms|
  {
    if ms != [] {
      var init := ms[..|ms| - 1];
      assert forall j | 0 <= j < |init| :: init[j] == ms[j];
      ReplayUnwrittenConnection(t, init, a, b);
      assert !WritesConnection(ms[|ms| - 1], a, b);
    }
  }

  /** A directed connection after a replay is the one of the last mutator that wrote
      that pair: for the same pair, the later mutator wins. */
  lemma {:induction false} ReplayLastConnectionWrite(t: Topology, ms: seq<Mutator>, a: PartitionId, b: PartitionId, i: nat)
    requires LastConnectionWrite(ms, a, b, i)
    ensures ConnectionOf(Replay(t, ms).partitionConnections, a, b) == Some(ms[i].connection)
    decreases |ms|
  {
    var init := ms[..|ms| - 1];
    if i < |ms| - 1 {
      assert ms[i] == init[i];
      assert forall j | i < j < |init| :: init[j] == ms[j];
      ReplayLastConnectionWrite(t, init, a, b, i);
      assert !WritesConnection(ms[|ms| - 1], a, b);
    }
  }

  /** No mutator touches the default connection. */
  lemma {:induction false} ReplayKeepsDefaultConnection(t: Topology, ms: seq<Mutator>)
    ensures Replay(t, ms).defaultConnection == t.defaultConnection
    decreases |ms|
  {
    if ms != [] {
      ReplayKeepsDefaultConnection(t, ms[..|ms| - 1]);
    }
  }

  /** Connections are directed: writing a -> b never writes b -> a. */
  lemma ConnectionIsDirected(t: Topology, a: PartitionId, b: PartitionId, c: PartitionConnectionInfo)
    requires a != b
    ensures ConnectionOf(Apply(t, AddPartitionConnection(a, b, c)).partitionConnections, b, a)
         == ConnectionOf(t.partitionConnections, b, a)
  {
  }

  /** A built topology has no entry for a partition that no WithPartition named. */
  lemma BuiltUnnamedPartitionAbsent(flag: bool, ms: seq<Mutator>, p: PartitionId)
    requires forall j | 0 <= j < |ms| :: !WritesPartition(ms[j], p)
    ensures p !in Replay(EmptyTopology(flag), ms).partitionServices
  {
    ReplayUnwrittenPartition(EmptyTopology(flag), ms, p);
  }

  // ------------------------------------------------------------------------------------
  //  Conversion of a topology into the API's repartition request
  // ------------------------------------------------------------------------------------

  /** A set as a protobuf pseudo-set: every member maps to true. */
  function PseudoSet(ids: set<ServiceId>): map<string, bool>
  {
    map id | id in ids :: true
  }

  /** The partition -> pseudo-set map a repartition request carries. */
  function PartitionServicesArg(ps: map<PartitionId, set<ServiceId>>): map<string, map<string, bool>>
  {
    map p | p in ps :: PseudoSet(ps[p])
  }

  /** The A -> B -> connection map with every connection converted by f. */
  function ConnectionsArg<D>(pc: map<PartitionId, map<PartitionId, PartitionConnectionInfo>>, f: PartitionConnectionInfo -> D): map<string, map<string, D>>
  {
    map a | a in pc :: map b | b in pc[a] :: f(pc[a][b])
  }

  /** Builds the pseudo-set of one partition's services, one id at a time. */
  method ServiceIdPseudoSet(ids: set<ServiceId>) returns (m: map<string, bool>)
    ensures m == PseudoSet(ids)
  {
    m := map[];
    var remaining := ids;
    while remaining != {}
      invariant remaining <= ids
      invariant m == PseudoSet(ids - remaining)
      decreases |remaining|
    {
      var id :| id in remaining;
      m := m[id := true];
      remaining := remaining - {id};
      assert m == PseudoSet(ids - remaining);
    }
  }

  /** Converts every partition's service set, key for key. */
  method PartitionServicesToArg(ps: map<PartitionId, set<ServiceId>>) returns (out: map<string, map<string, bool>>)
    ensures out == PartitionServicesArg(ps)
  {
    out := map[];
    var remaining := ps.Keys;
    while remaining != {}
      invariant remaining <= ps.Keys
      invariant out == map p | p in ps.Keys - remaining :: PseudoSet(ps[p])
      decreases |remaining|
    {
      var p :| p in remaining;
      var idSet := ServiceIdPseudoSet(ps[p]);
      out := out[p := idSet];
      remaining := remaining - {p};
      assert out == map q | q in ps.Keys - remaining :: PseudoSet(ps[q]);
    }
  }

  /** Converts one partition's outgoing connections, key for key. */
  method InnerConnectionsToArg<D>(conns: map<PartitionId, PartitionConnectionInfo>, f: PartitionConnectionInfo -> D) returns (out: map<string, D>)
    ensures out == map b | b in conns :: f(conns[b])
  {
    out := map[];
    var remaining := conns.Keys;
    while remaining != {}
      invariant remaining <= conns.Keys
      invariant out == map b | b in conns.Keys - remaining :: f(conns[b])
      decreases |remaining|
    {
      var b :| b in remaining;
      out := out[b := f(conns[b])];
      remaining := remaining - {b};
      assert out == map q | q in conns.Keys - remaining :: f(conns[q]);
    }
  }

  /** Converts the whole connection map, key for key at both levels. */
  method ConnectionsToArg<D>(pc: map<PartitionId, map<PartitionId, PartitionConnectionInfo>>, f: PartitionConnectionInfo -> D) returns (out: map<string, map<string, D>>)
    ensures out == ConnectionsArg(pc, f)
  {
    out := map[];
    var remaining := pc.Keys;
    while remaining != {}
      invariant remaining <= pc.Keys
      invariant out == map a | a in pc.Keys - remaining :: map b | b in pc[a] :: f(pc[a][b])
      decreases |remaining|
    {
      var a :| a in remaining;
      var inner := InnerConnectionsToArg(pc[a], f);
      out := out[a := inner];
      remaining := remaining - {a};
      assert out == map q | q in pc.Keys - remaining :: map b | b in pc[q] :: f(pc[q][b]);
    }
  }

  /** The request names exactly the partitions of the topology, each with exactly its services. */
  lemma PartitionServicesArgFaithful(ps: map<PartitionId, set<ServiceId>>)
    ensures PartitionServicesArg(ps).Keys == ps.Keys
    ensures forall p | p in ps :: PartitionServicesArg(ps)[p].Keys == ps[p]
    ensures forall p, id | p in ps && id in PartitionServicesArg(ps)[p] :: PartitionServicesArg(ps)[p][id]
  {
  }

  /** Each directed connection of the request is the converted connection of the topology,
      and pairs absent from the topology are absent from the request. */
  lemma ConnectionsArgFaithful<D>(pc: map<PartitionId, map<PartitionId, PartitionConnectionInfo>>, f: PartitionConnectionInfo -> D, a: PartitionId, b: PartitionId)
    ensures ConnectionsArg(pc, f).Keys == pc.Keys
    ensures (a in pc && b in pc[a]) <==> (a in ConnectionsArg(pc, f) && b in ConnectionsArg(pc, f)[a])
    ensures a in pc && b in pc[a] ==> ConnectionsArg(pc, f)[a][b] == f(pc[a][b])
  {
  }

  /** Converting with the identity copies the connection map unchanged. */
  lemma ConnectionsArgIdentity(pc: map<PartitionId, map<PartitionId, PartitionConnectionInfo>>, f: PartitionConnectionInfo -> PartitionConnectionInfo)
    requires forall c :: f(c) == c
    ensures ConnectionsArg(pc, f) == pc
  {
    var out := ConnectionsArg(pc, f);
    forall a | a in pc ensures out[a] == pc[a] {
      assert forall b | b in pc[a] :: out[a][b] == pc[a][b];
    }
  }
}
