/** The example network-partition test: it splits the network into an "api" and a
    "datastore" partition, first with the connection between them blocked, then healed
    after a second API service has joined. */
module NetworkPartitionTest {
  import opened Wrappers
  import opened CoreApi

  const ApiPartitionId: PartitionId := "api"
  const DatastorePartitionId: PartitionId := "datastore"
  const DatastoreServiceId: ServiceId := "datastore"
  const Api1ServiceId: ServiceId := "api1"
  const Api2ServiceId: ServiceId := "api2"

  /** The arguments of the test network's repartition call. */
  datatype TestRepartition = TestRepartition(
    partitionServices: map<PartitionId, map<ServiceId, bool>>,
    partitionConnections: map<PartitionId, map<PartitionId, PartitionConnectionInfo>>,
    defaultConnection: PartitionConnectionInfo)

  /** Each service id is listed in at most one partition. */
  predicate Disjoint(ps: map<PartitionId, map<ServiceId, bool>>)
  {
    forall p, q, s | p in ps && q in ps && p != q && s in ps[p] :: s !in ps[q]
  }

  /** The topology of the test: api1 (and api2 once it has been added) in the api
      partition, the datastore alone in its partition, one directed connection
      api -> datastore, and an unblocked default connection. */
  predicate IsTestTopology(args: TestRepartition, isConnectionBlocked: bool, isApi2ServiceAddedYet: bool)
  {
    && args.partitionServices.Keys == {ApiPartitionId, DatastorePartitionId}
    && args.partitionServices[ApiPartitionId].Keys == {Api1ServiceId} + (if isApi2ServiceAddedYet then {Api2ServiceId} else {})
    && args.partitionServices[DatastorePartitionId].Keys == {DatastoreServiceId}
    && (forall p, s | p in args.partitionServices && s in args.partitionServices[p] :: args.partitionServices[p][s])
    && args.partitionConnections == map[ApiPartitionId := map[DatastorePartitionId := PartitionConnectionInfo(isConnectionBlocked)]]
    && !args.defaultConnection.isBlocked
  }

  /** In the test topology every listed service belongs to exactly one partition, and
      api2 is listed exactly when it has been added. */
  lemma TestTopologyPartitions(args: TestRepartition, isConnectionBlocked: bool, isApi2ServiceAddedYet: bool)
    requires IsTestTopology(args, isConnectionBlocked, isApi2ServiceAddedYet)
    ensures Disjoint(args.partitionServices)
    ensures Api1ServiceId in args.partitionServices[ApiPartitionId]
    ensures Api2ServiceId in args.partitionServices[ApiPartitionId] <==> isApi2ServiceAddedYet
    ensures ConnectionBlocked(args) == isConnectionBlocked
  {
    var ps := args.partitionServices;
    forall p, q, s | p in ps && q in ps && p != q && s in ps[p] ensures s !in ps[q] {
      assert p == ApiPartitionId || p == DatastorePartitionId;
    }
  }

  /** Whether the api -> datastore connection of a test repartition is blocked. */
  function ConnectionBlocked(args: TestRepartition): bool
  {
    if ApiPartitionId in args.partitionConnections && DatastorePartitionId in args.partitionConnections[ApiPartitionId]
    then args.partitionConnections[ApiPartitionId][DatastorePartitionId].isBlocked
    else false
  }

  /** The topology the test sends for a given connection state and API membership. */
  method RepartitionArgsFor(isConnectionBlocked: bool, isApi2ServiceAddedYet: bool) returns (args: TestRepartition)
    ensures IsTestTopology(args, isConnectionBlocked, isApi2ServiceAddedYet)
  {
    var apiPartitionServiceIds := map[Api1ServiceId := true];
    if isApi2ServiceAddedYet {
      apiPartitionServiceIds := apiPartitionServiceIds[Api2ServiceId := true];
    }
    var partitionServices := map[
      ApiPartitionId := apiPartitionServiceIds,
      DatastorePartitionId := map[DatastoreServiceId := true]];
    var partitionConnections := map[
      ApiPartitionId := map[DatastorePartitionId := PartitionConnectionInfo(isConnectionBlocked)]];
    args := TestRepartition(partitionServices, partitionConnections, PartitionConnectionInfo(false));
  }

  datatype TestError = RepartitionFailed(isConnectionBlocked: bool) | PartitionedPhaseFailed | HealedPhaseFailed

  /** The network the test drives, reduced to its repartition calls. The other steps of
      the test (service lookups and HTTP calls through the API services) are summarised
      by whether they succeed. */
  class PartitionTestNetwork {
    const accepts: TestRepartition -> bool
    /** Every repartition the test sent, in order. */
    var repartitions: seq<TestRepartition>

    constructor (accepts: TestRepartition -> bool)
      ensures this.accepts == accepts && repartitions == []
    {
      this.accepts := accepts;
      repartitions := [];
    }

    method RepartitionNetwork(args: TestRepartition) returns (ok: bool)
      modifies this
      ensures repartitions == old(repartitions) + [args]
      ensures ok == accepts(args)
    {
      repartitions := repartitions + [args];
      ok := accepts(args);
    }
  }

  /** Builds the test topology and sends it. */
  method RepartitionTestNetwork(network: PartitionTestNetwork, isConnectionBlocked: bool, isApi2ServiceAddedYet: bool)
    returns (r: Result<(), TestError>)
    modifies network
    ensures |network.repartitions| == |old(network.repartitions)| + 1
    ensures network.repartitions[..|old(network.repartitions)|] == old(network.repartitions)
    ensures var sent := network.repartitions[|old(network.repartitions)|];
      && IsTestTopology(sent, isConnectionBlocked, isApi2ServiceAddedYet)
      && (r.Ok? <==> network.accepts(sent))
    ensures r.Err? ==> r.error == RepartitionFailed(isConnectionBlocked)
  {
    var args := RepartitionArgsFor(isConnectionBlocked, isApi2ServiceAddedYet);
    var ok := network.RepartitionNetwork(args);
    if !ok {
      return Err(RepartitionFailed(isConnectionBlocked));
    }
    r := Ok(());
  }

  /** The test's Run: partition with the connection blocked and api2 absent, exercise the
      partitioned network, then heal with api2 present. */
  method Run(network: PartitionTestNetwork, partitionedPhaseOk: bool, healedPhaseOk: bool) returns (r: Result<(), TestError>)
    modifies network
    ensures |network.repartitions| - |old(network.repartitions)| in {1, 2}
    ensures network.repartitions[..|old(network.repartitions)|] == old(network.repartitions)
    ensures var first := network.repartitions[|old(network.repartitions)|];
      IsTestTopology(first, true, false)
    ensures |network.repartitions| == |old(network.repartitions)| + 2 <==>
      network.accepts(network.repartitions[|old(network.repartitions)|]) && partitionedPhaseOk
    ensures |network.repartitions| == |old(network.repartitions)| + 2 ==>
      var second := network.repartitions[|old(network.repartitions)| + 1];
      IsTestTopology(second, false, true)
    ensures r.Ok? <==>
      && |network.repartitions| == |old(network.repartitions)| + 2
      && network.accepts(network.repartitions[|old(network.repartitions)| + 1])
      && healedPhaseOk
  {
    var partitioned := RepartitionTestNetwork(network, true, false);
    if partitioned.Err? {
      return partitioned;
    }
    if !partitionedPhaseOk {
      return Err(PartitionedPhaseFailed);
    }
    var healed := RepartitionTestNetwork(network, false, true);
    if healed.Err? {
      return healed;
    }
    if !healedPhaseOk {
      return Err(HealedPhaseFailed);
    }
    r := Ok(());
  }
}
