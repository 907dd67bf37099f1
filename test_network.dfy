/** The example test networks: a datastore service and API services on top of a
    network context. The context's add-service call and the startup wait are an oracle
    (`ServiceHost`); each network logs the ids it asked the context to add. */
module TestNetworks {
  import opened Wrappers
  import opened Strings
  import opened CoreApi

  const DatastoreServiceId: ServiceId := "datastore"
  const ApiServiceIdPrefix: string := "api-"
  const WaitForStartupMaxNumPolls: nat := 15
  const WaitForStartupDelayMillis: nat := 1000

  /** Whether adding a service succeeds (and the service it gives), and whether the
      service then becomes healthy within the startup wait. */
  datatype ServiceHost = ServiceHost(add: ServiceId -> Option<Service>, healthy: ServiceId -> bool)

  datatype NetError =
    | DatastoreExists
    | ApisExist
    | NoDatastore
    | AddFailed(serviceId: ServiceId)
    | NotHealthy(serviceId: ServiceId)
    | NoPersonModifyingClient
    | NoPersonRetrievingClient
    | UnknownApiService(serviceId: ServiceId)

  /** The id of the n-th API service. */
  function ApiServiceId(n: nat): ServiceId
  {
    ApiServiceIdPrefix + NatToString(n)
  }

  /** API service ids are distinct from each other and from the datastore's id. */
  lemma ApiServiceIdsDistinct(a: nat, b: nat)
    ensures ApiServiceId(a) == ApiServiceId(b) <==> a == b
    ensures ApiServiceId(a) != DatastoreServiceId
  {
    if ApiServiceId(a) == ApiServiceId(b) {
      PrefixedNatInjective(ApiServiceIdPrefix, a, b);
    }
    assert ApiServiceId(a)[0] == 'a' && ApiServiceId(a)[1] == 'p';
    assert DatastoreServiceId[1] == 'a';
  }

  /** Adding one service, then waiting for it to start. */
  function AddAndWait(host: ServiceHost, serviceId: ServiceId): Result<Service, NetError>
  {
    match host.add(serviceId)
    case None => Err(AddFailed(serviceId))
    case Some(service) => if host.healthy(serviceId) then Ok(service) else Err(NotHealthy(serviceId))
  }

  // ---------------------------------------------------------------------------------
  // Go TestNetwork

  datatype GoNet = GoNet(
    datastoreClient: Option<Service>,
    personModifyingApiClient: Option<Service>,
    personRetrievingApiClient: Option<Service>,
    nextApiServiceId: nat,
    addAttempts: seq<ServiceId>)

  const NewGoNet := GoNet(None, None, None, 0, [])

  /** `addApiService`: needs the datastore; takes the next id and increments the counter
      before adding, so a failed add still uses the id up. */
  function GoAddApi(s: GoNet, host: ServiceHost): (Result<Service, NetError>, GoNet)
  {
    if s.datastoreClient.None? then (Err(NoDatastore), s)
    else
      var id := ApiServiceId(s.nextApiServiceId);
      (AddAndWait(host, id), s.(nextApiServiceId := s.nextApiServiceId + 1, addAttempts := s.addAttempts + [id]))
  }

  /** `SetupDatastoreAndTwoApis`. */
  function GoSetup(s: GoNet, host: ServiceHost): (Result<(), NetError>, GoNet)
  {
    if s.datastoreClient.Some? then (Err(DatastoreExists), s)
    else if s.personModifyingApiClient.Some? || s.personRetrievingApiClient.Some? then (Err(ApisExist), s)
    else
      var s1 := s.(addAttempts := s.addAttempts + [DatastoreServiceId]);
      match AddAndWait(host, DatastoreServiceId)
      case Err(e) => (Err(e), s1)
      case Ok(datastore) =>
        var (m, s2) := GoAddApi(s1.(datastoreClient := Some(datastore)), host);
        if m.Err? then (Err(m.error), s2)
        else
          var (q, s3) := GoAddApi(s2.(personModifyingApiClient := Some(m.value)), host);
          if q.Err? then (Err(q.error), s3)
          else (Ok(()), s3.(personRetrievingApiClient := Some(q.value)))
  }

  /** Without a datastore no API service is added and the counter is unchanged; with
      one, the next id is used and the counter moves on whatever the add's outcome. */
  lemma GoAddApiUsesUpId(s: GoNet, host: ServiceHost)
    ensures var (r, t) := GoAddApi(s, host);
      && (s.datastoreClient.None? ==> r == Err(NoDatastore) && t == s)
      && (s.datastoreClient.Some? ==>
            && t.nextApiServiceId == s.nextApiServiceId + 1
            && t.addAttempts == s.addAttempts + [ApiServiceId(s.nextApiServiceId)]
            && r == AddAndWait(host, ApiServiceId(s.nextApiServiceId))
            && t.datastoreClient == s.datastoreClient
            && t.personModifyingApiClient == s.personModifyingApiClient
            && t.personRetrievingApiClient == s.personRetrievingApiClient)
  {
  }

  /** Setup refuses, adding nothing, when a datastore or an API client already exists.
      Otherwise it adds the datastore, then the person-modifying API, then the
      person-retrieving API under two distinct consecutive ids, stops at the first
      failure, and on success has set all three clients. */
  lemma GoSetupOrder(s: GoNet, host: ServiceHost)
    ensures var (r, t) := GoSetup(s, host);
      var n := s.nextApiServiceId;
      var planned := [DatastoreServiceId, ApiServiceId(n), ApiServiceId(n + 1)];
      && (s.datastoreClient.Some? ==> r == Err(DatastoreExists) && t == s)
      && (s.datastoreClient.None? && (s.personModifyingApiClient.Some? || s.personRetrievingApiClient.Some?) ==>
            r == Err(ApisExist) && t == s)
      && (exists k :: 0 <= k <= 3 && t.addAttempts == s.addAttempts + planned[..k])
      && (r.Ok? ==>
            && t.addAttempts == s.addAttempts + planned
            && t.nextApiServiceId == n + 2
            && t.datastoreClient == Some(host.add(DatastoreServiceId).value)
            && t.personModifyingApiClient == Some(host.add(ApiServiceId(n)).value)
            && t.personRetrievingApiClient == Some(host.add(ApiServiceId(n + 1)).value)
            && ApiServiceId(n) != ApiServiceId(n + 1))
      && (r.Ok? <==>
            && s.datastoreClient.None? && s.personModifyingApiClient.None? && s.personRetrievingApiClient.None?
            && AddAndWait(host, DatastoreServiceId).Ok?
            && AddAndWait(host, ApiServiceId(n)).Ok? && AddAndWait(host, ApiServiceId(n + 1)).Ok?)
  {
    var (r, t) := GoSetup(s, host);
    var n := s.nextApiServiceId;
    var planned := [DatastoreServiceId, ApiServiceId(n), ApiServiceId(n + 1)];
    ApiServiceIdsDistinct(n, n + 1);
    if s.datastoreClient.Some? || s.personModifyingApiClient.Some? || s.personRetrievingApiClient.Some? {
      assert t.addAttempts == s.addAttempts + planned[..0];
    } else if AddAndWait(host, DatastoreServiceId).Err? {
      assert t.addAttempts == s.addAttempts + planned[..1];
    } else if AddAndWait(host, ApiServiceId(n)).Err? {
      assert t.addAttempts == s.addAttempts + planned[..2];
    } else {
      assert t.addAttempts == s.addAttempts + planned[..3];
    }
  }

  class GoTestNetwork {
    const datastoreServiceImage: string
    const apiServiceImage: string
    var datastoreClient: Option<Service>
    var personModifyingApiClient: Option<Service>
    var personRetrievingApiClient: Option<Service>
    var nextApiServiceId: nat
    /** The ids this network asked its network context to add, in order. */
    var addAttempts: seq<ServiceId>

    function State(): GoNet
      reads this
    {
      GoNet(datastoreClient, personModifyingApiClient, personRetrievingApiClient, nextApiServiceId, addAttempts)
    }

    /** `NewTestNetwork`: no clients and the counter at 0. */
    constructor (datastoreServiceImage: string, apiServiceImage: string)
      ensures State() == NewGoNet
    {
      this.datastoreServiceImage := datastoreServiceImage;
      this.apiServiceImage := apiServiceImage;
      datastoreClient := None;
      personModifyingApiClient := None;
      personRetrievingApiClient := None;
      nextApiServiceId := 0;
      addAttempts := [];
    }

    method AddApiService(host: ServiceHost) returns (r: Result<Service, NetError>)
      modifies this
      ensures (r, State()) == GoAddApi(old(State()), host)
    {
      if datastoreClient.None? {
        return Err(NoDatastore);
      }
      var id := ApiServiceId(nextApiServiceId);
      nextApiServiceId := nextApiServiceId + 1;
      addAttempts := addAttempts + [id];
      var added := host.add(id);
      if added.None? {
        return Err(AddFailed(id));
      }
      if !host.healthy(id) {
        return Err(NotHealthy(id));
      }
      r := Ok(added.value);
    }

    method SetupDatastoreAndTwoApis(host: ServiceHost) returns (r: Result<(), NetError>)
      modifies this
      ensures (r, State()) == GoSetup(old(State()), host)
    {
      if datastoreClient.Some? {
        return Err(DatastoreExists);
      }
      if personModifyingApiClient.Some? || personRetrievingApiClient.Some? {
        return Err(ApisExist);
      }
      addAttempts := addAttempts + [DatastoreServiceId];
      var added := host.add(DatastoreServiceId);
      if added.None? {
        return Err(AddFailed(DatastoreServiceId));
      }
      if !host.healthy(DatastoreServiceId) {
        return Err(NotHealthy(DatastoreServiceId));
      }
      datastoreClient := added;
      var modifying := AddApiService(host);
      if modifying.Err? {
        return Err(modifying.error);
      }
      personModifyingApiClient := Some(modifying.value);
      var retrieving := AddApiService(host);
      if retrieving.Err? {
        return Err(retrieving.error);
      }
      personRetrievingApiClient := Some(retrieving.value);
      r := Ok(());
    }

    method GetPersonModifyingApiClient() returns (r: Result<Service, NetError>)
      ensures r.Ok? <==> personModifyingApiClient.Some?
      ensures r.Ok? ==> r.value == personModifyingApiClient.value
      ensures r.Err? ==> r.error == NoPersonModifyingClient
    {
      if personModifyingApiClient.None? {
        return Err(NoPersonModifyingClient);
      }
      r := Ok(personModifyingApiClient.value);
    }

    method GetPersonRetrievingApiClient() returns (r: Result<Service, NetError>)
      ensures r.Ok? <==> personRetrievingApiClient.Some?
      ensures r.Ok? ==> r.value == personRetrievingApiClient.value
      ensures r.Err? ==> r.error == NoPersonRetrievingClient
    {
      if personRetrievingApiClient.None? {
        return Err(NoPersonRetrievingClient);
      }
      r := Ok(personRetrievingApiClient.value);
    }
  }

  // ---------------------------------------------------------------------------------
  // Rust TestNetwork

  datatype RustNet = RustNet(
    datastoreService: Option<Service>,
    apiServices: map<ServiceId, Service>,
    nextApiServiceId: nat,
    addAttempts: seq<ServiceId>)

  const NewRustNet := RustNet(None, map[], 0, [])

  /** Every registered API service was asked for, under an id below the counter. */
  predicate RustNetValid(s: RustNet)
  {
    forall id :: id in s.apiServices ==>
      id in s.addAttempts && exists k: nat :: k < s.nextApiServiceId && id == ApiServiceId(k)
  }

  /** `add_datastore`: refuses when one exists, and sets it only after the add and the
      startup wait both succeed. */
  function RustAddDatastore(s: RustNet, host: ServiceHost): (Result<(), NetError>, RustNet)
  {
    if s.datastoreService.Some? then (Err(DatastoreExists), s)
    else
      var s1 := s.(addAttempts := s.addAttempts + [DatastoreServiceId]);
      match AddAndWait(host, DatastoreServiceId)
      case Err(e) => (Err(e), s1)
      case Ok(datastore) => (Ok(()), s1.(datastoreService := Some(datastore)))
  }

  /** `add_api_service`: needs the datastore; takes the next id, increments the counter
      before adding, and registers the service under that id on success. */
  function RustAddApiService(s: RustNet, host: ServiceHost): (Result<ServiceId, NetError>, RustNet)
  {
    if s.datastoreService.None? then (Err(NoDatastore), s)
    else
      var id := ApiServiceId(s.nextApiServiceId);
      var s1 := s.(nextApiServiceId := s.nextApiServiceId + 1, addAttempts := s.addAttempts + [id]);
      match AddAndWait(host, id)
      case Err(e) => (Err(e), s1)
      case Ok(api) => (Ok(id), s1.(apiServices := s1.apiServices[id := api]))
  }

  function RustGetApiService(s: RustNet, serviceId: ServiceId): Result<Service, NetError>
  {
    if serviceId in s.apiServices then Ok(s.apiServices[serviceId]) else Err(UnknownApiService(serviceId))
  }

  lemma NewRustNetValid()
    ensures RustNetValid(NewRustNet) && NewRustNet.datastoreService.None? && NewRustNet.apiServices == map[]
  {
  }

  /** `add_datastore` refuses a second datastore, touches no API service and keeps the
      network valid. */
  lemma RustAddDatastoreSpec(s: RustNet, host: ServiceHost)
    requires RustNetValid(s)
    ensures var (r, t) := RustAddDatastore(s, host);
      && RustNetValid(t)
      && (s.datastoreService.Some? ==> r == Err(DatastoreExists) && t == s)
      && t.apiServices == s.apiServices && t.nextApiServiceId == s.nextApiServiceId
      && (t.datastoreService.Some? <==> s.datastoreService.Some? || AddAndWait(host, DatastoreServiceId).Ok?)
      && (r.Ok? <==> s.datastoreService.None? && AddAndWait(host, DatastoreServiceId).Ok?)
  {
    var (r, t) := RustAddDatastore(s, host);
    forall id | id in t.apiServices ensures id in t.addAttempts {
      assert id in s.addAttempts;
    }
  }

  /** `add_api_service` errors without a datastore and changes nothing; otherwise it
      uses up the next id whatever the outcome, and on success returns a fresh id under
      which the new service, and only it, is now found. */
  lemma RustAddApiServiceSpec(s: RustNet, host: ServiceHost)
    requires RustNetValid(s)
    ensures var (r, t) := RustAddApiService(s, host);
      && RustNetValid(t)
      && (s.datastoreService.None? ==> r == Err(NoDatastore) && t == s)
      && (s.datastoreService.Some? ==>
            && t.nextApiServiceId == s.nextApiServiceId + 1
            && t.addAttempts == s.addAttempts + [ApiServiceId(s.nextApiServiceId)])
      && (r.Ok? ==>
            && r.value == ApiServiceId(s.nextApiServiceId)
            && r.value !in s.apiServices
            && t.apiServices == s.apiServices[r.value := host.add(r.value).value]
            && RustGetApiService(t, r.value) == Ok(host.add(r.value).value)
            && forall id :: id != r.value ==> RustGetApiService(t, id) == RustGetApiService(s, id))
      && (r.Err? ==> t.apiServices == s.apiServices)
  {
    var (r, t) := RustAddApiService(s, host);
    if s.datastoreService.Some? {
      var n := s.nextApiServiceId;
      var id := ApiServiceId(n);
      forall other | other in s.apiServices ensures other != id {
        var k: nat :| k < n && other == ApiServiceId(k);
        ApiServiceIdsDistinct(k, n);
      }
      forall other | other in t.apiServices
        ensures other in t.addAttempts && exists k: nat :: k < t.nextApiServiceId && other == ApiServiceId(k)
      {
        if other == id {
          assert t.addAttempts[|t.addAttempts| - 1] == id;
        } else {
          var k: nat :| k < n && other == ApiServiceId(k);
          assert k < t.nextApiServiceId;
        }
      }
    }
  }

  /** An id the network never asked for is not found. */
  lemma RustGetNeverAdded(s: RustNet, serviceId: ServiceId)
    requires RustNetValid(s) && serviceId !in s.addAttempts
    ensures RustGetApiService(s, serviceId) == Err(UnknownApiService(serviceId))
  {
  }

  class RustTestNetwork {
    const datastoreServiceImage: string
    const apiServiceImage: string
    var datastoreService: Option<Service>
    var apiServices: map<ServiceId, Service>
    var nextApiServiceId: nat
    /** The ids this network asked its network context to add, in order. */
    var addAttempts: seq<ServiceId>

    function State(): RustNet
      reads this
    {
      RustNet(datastoreService, apiServices, nextApiServiceId, addAttempts)
    }

    /** `TestNetwork::new`: no datastore, no API services, the counter at 0. */
    constructor (datastoreServiceImage: string, apiServiceImage: string)
      ensures State() == NewRustNet
    {
      this.datastoreServiceImage := datastoreServiceImage;
      this.apiServiceImage := apiServiceImage;
      datastoreService := None;
      apiServices := map[];
      nextApiServiceId := 0;
      addAttempts := [];
    }

    method AddDatastore(host: ServiceHost) returns (r: Result<(), NetError>)
      modifies this
      ensures (r, State()) == RustAddDatastore(old(State()), host)
    {
      if datastoreService.Some? {
        return Err(DatastoreExists);
      }
      addAttempts := addAttempts + [DatastoreServiceId];
      var added := host.add(DatastoreServiceId);
      if added.None? {
        return Err(AddFailed(DatastoreServiceId));
      }
      if !host.healthy(DatastoreServiceId) {
        return Err(NotHealthy(DatastoreServiceId));
      }
      datastoreService := added;
      r := Ok(());
    }

    method AddApiService(host: ServiceHost) returns (r: Result<ServiceId, NetError>)
      modifies this
      ensures (r, State()) == RustAddApiService(old(State()), host)
    {
      if datastoreService.None? {
        return Err(NoDatastore);
      }
      var id := ApiServiceId(nextApiServiceId);
      nextApiServiceId := nextApiServiceId + 1;
      addAttempts := addAttempts + [id];
      var added := host.add(id);
      if added.None? {
        return Err(AddFailed(id));
      }
      if !host.healthy(id) {
        return Err(NotHealthy(id));
      }
      apiServices := apiServices[id := added.value];
      r := Ok(id);
    }

    method GetApiService(serviceId: ServiceId) returns (r: Result<Service, NetError>)
      ensures r == RustGetApiService(State(), serviceId)
    {
      if serviceId !in apiServices {
        return Err(UnknownApiService(serviceId));
      }
      r := Ok(apiServices[serviceId]);
    }
  }
}
