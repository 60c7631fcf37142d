/** `ProxyQuantityDataRepository`: the registry of connectors by name, and
    the quantity values it assembles from whatever the dataset's connector
    answers. `assembleDataValue` of the base class is an oracle. */
module ProxyRepository {
  import opened Wrappers
  import opened Entities
  import Sos2Connector

  /** What `toMap` reports when two connectors share a name. */
  const DUPLICATE_NAME: string := "duplicate connector name"

  /** What the `NullPointerException` on an unregistered connector reports. */
  const NO_CONNECTOR: string := "no connector of that name"

  /** A connector as the repository uses it: its name and its answers for a
      dataset's first, last and queried observations. */
  datatype Connector = Connector(
    name: string,
    firstObservation: DatasetRef -> Option<Data>,
    lastObservation: DatasetRef -> Option<Data>,
    observations: (DatasetRef, Query) -> seq<Data>)

  /** A quantity value as the base class assembles it. */
  datatype QuantityValue = QuantityValue(time: Option<int>, value: Option<real>)

  /** The base class's `assembleDataValue`, which also receives `null`. */
  type Assembler = (Option<Data>, DatasetRef, Query) -> QuantityValue

  /** The repository's state: the connectors by name. */
  datatype Repository = Repository(connectors: map<string, Connector>)

  /** No two connectors share a name. */
  predicate DistinctNames(connectors: seq<Connector>) {
    forall i, j :: 0 <= i < j < |connectors| ==> connectors[i].name != connectors[j].name
  }

  /** The names of the connectors. */
  function Names(connectors: seq<Connector>): set<string> {
    set i | 0 <= i < |connectors| :: connectors[i].name
  }

  /** `m` holds exactly the connectors, each under its own name. */
  ghost predicate Registers(m: map<string, Connector>, connectors: seq<Connector>) {
    && m.Keys == Names(connectors)
    && forall i :: 0 <= i < |connectors| ==> m[connectors[i].name] == connectors[i]
  }

  /** `setConnectors`: the map from each connector's name to the connector;
      a repeated name makes `toMap` throw, and the repository keeps its map. */
  method SetConnectors(connectors: seq<Connector>) returns (r: Result<Repository, string>)
    ensures r.Success? <==> DistinctNames(connectors)
    ensures r.Success? ==> Registers(r.value.connectors, connectors)
    ensures r.Failure? ==> r.error == DUPLICATE_NAME
  {
    var m: map<string, Connector> := map[];
    var i := 0;
    while i < |connectors|
      invariant 0 <= i <= |connectors|
      invariant DistinctNames(connectors[..i])
      invariant Registers(m, connectors[..i])
    {
      var c := connectors[i];
      if c.name in m {
        var j :| 0 <= j < i && connectors[j].name == c.name;
        assert !DistinctNames(connectors) by {
          assert connectors[j].name == connectors[i].name;
        }
        return Failure(DUPLICATE_NAME);
      }
      assert connectors[..i + 1] == connectors[..i] + [c];
      m := m[c.name := c];
      i := i + 1;
    }
    assert connectors[..i] == connectors;
    r := Success(Repository(m));
  }

  /** `getConnector`: the connector named by the dataset's service, or `null`. */
  function GetConnector(repo: Repository, ds: DatasetRef): Option<Connector> {
    if ds.service.connector in repo.connectors then Some(repo.connectors[ds.service.connector]) else None
  }

  /** After registration, a dataset finds the connector carrying its service's
      connector name, and nothing when no connector carries it. */
  lemma ConnectorFound(connectors: seq<Connector>, m: map<string, Connector>, ds: DatasetRef)
    requires Registers(m, connectors)
    ensures GetConnector(Repository(m), ds).None? <==>
      forall i :: 0 <= i < |connectors| ==> connectors[i].name != ds.service.connector
    ensures forall i :: 0 <= i < |connectors| && connectors[i].name == ds.service.connector ==>
      GetConnector(Repository(m), ds) == Some(connectors[i])
  {
    if ds.service.connector in m {
      var i :| 0 <= i < |connectors| && connectors[i].name == ds.service.connector;
    }
  }

  /** `getFirstValue`: the first observation of the dataset's connector,
      assembled, an empty answer passed on as `null`; an unregistered
      connector name fails. */
  function GetFirstValue(repo: Repository, assemble: Assembler, ds: DatasetRef, query: Query)
    : Result<QuantityValue, string>
  {
    match GetConnector(repo, ds)
    case None => Failure(NO_CONNECTOR)
    case Some(c) => Success(assemble(c.firstObservation(ds), ds, query))
  }

  /** `getLastValue`, likewise with the last observation. */
  function GetLastValue(repo: Repository, assemble: Assembler, ds: DatasetRef, query: Query)
    : Result<QuantityValue, string>
  {
    match GetConnector(repo, ds)
    case None => Failure(NO_CONNECTOR)
    case Some(c) => Success(assemble(c.lastObservation(ds), ds, query))
  }

  /** `assembleDataValues`: one value per observation of the dataset's
      connector, in order; an unregistered connector name fails. */
  method AssembleDataValues(repo: Repository, assemble: Assembler, ds: DatasetRef, query: Query)
    returns (r: Result<seq<QuantityValue>, string>)
    ensures r.Failure? <==> GetConnector(repo, ds).None?
    ensures r.Failure? ==> r.error == NO_CONNECTOR
    ensures r.Success? ==>
      var observations := GetConnector(repo, ds).value.observations(ds, query);
      && |r.value| == |observations|
      && forall i :: 0 <= i < |observations| ==> r.value[i] == assemble(Some(observations[i]), ds, query)
  {
    var connector := GetConnector(repo, ds);
    if connector.None? {
      return Failure(NO_CONNECTOR);
    }
    var observations := connector.value.observations(ds, query);
    var values: seq<QuantityValue> := [];
    var i := 0;
    while i < |observations|
      invariant 0 <= i <= |observations|
      invariant |values| == i
      invariant forall j :: 0 <= j < i ==> values[j] == assemble(Some(observations[j]), ds, query)
    {
      values := values + [assemble(Some(observations[i]), ds, query)];
      i := i + 1;
    }
    r := Success(values);
  }

  // ----- with the SOS 2.0 connector -------------------------------------------

  /** The SOS 2.0 connector under `name`, answering from `remote`. */
  function Sos2(remote: Sos2Connector.Remote, name: string): Connector {
    Connector(name,
              ds => Sos2Connector.GetFirstObservation(remote, ds),
              ds => Sos2Connector.GetLastObservation(remote, ds),
              (ds, query) => Sos2Connector.DataEntities(remote, ds, Sos2Connector.During(query)))
  }

  /** A dataset of a service harvested by the registered SOS 2.0 connector
      gets the assembled first and last observations of the remote answers,
      and `null` assembled when there is none. */
  lemma Sos2Values(remote: Sos2Connector.Remote, connectors: seq<Connector>, m: map<string, Connector>,
                   k: nat, assemble: Assembler, ds: DatasetRef, query: Query)
    requires Registers(m, connectors)
    requires k < |connectors| && connectors[k] == Sos2(remote, ds.service.connector)
    ensures var first := GetFirstValue(Repository(m), assemble, ds, query);
      && first.Success?
      && (remote.observations(ds, Sos2Connector.FirstTime) == [] ==> first.value == assemble(None, ds, query))
      && (remote.observations(ds, Sos2Connector.FirstTime) != [] ==>
            first.value == assemble(Some(remote.dataEntity(remote.observations(ds, Sos2Connector.FirstTime)[0], ds)),
                                    ds, query))
    ensures var last := GetLastValue(Repository(m), assemble, ds, query);
      && last.Success?
      && (remote.observations(ds, Sos2Connector.LatestTime) == [] ==> last.value == assemble(None, ds, query))
      && (remote.observations(ds, Sos2Connector.LatestTime) != [] ==>
            last.value == assemble(Some(remote.dataEntity(remote.observations(ds, Sos2Connector.LatestTime)[0], ds)),
                                   ds, query))
  {
    ConnectorFound(connectors, m, ds);
  }

  /** A dataset whose service names no registered connector gets failures. */
  lemma UnregisteredFails(repo: Repository, assemble: Assembler, ds: DatasetRef, query: Query)
    requires ds.service.connector !in repo.connectors
    ensures GetFirstValue(repo, assemble, ds, query) == Failure(NO_CONNECTOR)
    ensures GetLastValue(repo, assemble, ds, query) == Failure(NO_CONNECTOR)
  {
  }
}
