/** `SOS2Connector`: whether it handles a service, how it harvests the
    service's datasets offering by offering and procedure by procedure, and
    how it answers data requests. The requests to the remote SOS and the
    registration helpers of its base class are oracles in `Remote`; a
    request that throws is a `Failure`. */
module Sos2Connector {
  import opened Wrappers
  import opened Sos
  import opened Entities

  /** `Sos2Constants.SERVICEVERSION`. */
  const SERVICE_VERSION: string := "2.0.0"

  /** What a `NullPointerException` on a missing phenomenon time reports. */
  const MISSING_TIME: string := "phenomenon time without start or end"

  /** What a `NullPointerException` on a missing feature reference reports. */
  const MISSING_FEATURE: string := "availability without feature of interest"

  /** `DataSourceConfiguration`: a plain record. The allowed offerings are
      carried but no modelled code reads them. */
  datatype Config = Config(
    itemName: string,
    url: string,
    version: string,
    connector: string,
    sourceType: string,
    supportsFirstLast: bool,
    allowedOfferings: seq<string>)

  /** One entry of a GetDataAvailability response: the procedure and observed
      property it is about, the href of its feature of interest (`None` when
      the entry has no feature reference), and the start and end of its
      phenomenon time, either of which may be unset. */
  datatype Availability = Availability(
    procedure: string,
    observedProperty: string,
    featureHref: Option<string>,
    start: Option<int>,
    end: Option<int>)

  /** The arguments of the base class's `getUom` for one availability entry. */
  datatype UomRequest = UomRequest(
    procedure: string,
    offering: string,
    phenomenon: string,
    feature: string,
    supportsFirstLast: bool,
    end: Option<int>,
    url: string)

  /** The time filter of a GetObservation request: the query's, or the one
      selecting a dataset's first or latest observation. */
  datatype Filter = During(query: Query) | FirstTime | LatestTime

  /** The code this connector calls but that is not part of the model:
      `supportsGDA`, the ids `addOffering`, `addPhenomenon` and `addCategory`
      return, the remote GetFeatureOfInterest, GetDataAvailability and
      GetObservation requests (by procedure and service URL, or by dataset
      and filter), the base class's `getUom` and `createDataEntity`. */
  datatype Remote = Remote(
    supportsGda: Capabilities -> bool,
    offeringId: Offering -> string,
    featureOfInterest: (string, string) -> Result<string, string>,
    dataAvailability: (string, string) -> Result<Option<seq<Availability>>, string>,
    phenomenonId: Availability -> string,
    categoryId: Availability -> string,
    uom: UomRequest -> Result<Option<Unit>, string>,
    observations: (DatasetRef, Filter) -> seq<Observation>,
    dataEntity: (Observation, DatasetRef) -> Data)

  /** An entity registered with the service constellation, by its id. */
  datatype Registration =
    | OfferingAdded(offering: string)
    | ProcedureAdded(procedure: string)
    | FeatureAdded(feature: string)
    | PhenomenonAdded(phenomenon: string)
    | CategoryAdded(category: string)

  /** A `QuantityDatasetConstellation`: the identifying ids, the last
      constructor argument (which the connector also fills with the feature
      href), the unit and the sampling time. */
  datatype QuantityDataset = QuantityDataset(
    procedure: string,
    offering: string,
    category: string,
    phenomenon: string,
    feature: string,
    platform: string,
    unit: Option<Unit>,
    samplingStart: int,
    samplingEnd: int)

  /** The `ServiceConstellation` being built: the configuration the service
      was registered from, and every registration and dataset handed to it,
      in order. Deduplication inside the constellation is not modelled. */
  datatype Constellation = Constellation(
    service: Config,
    registrations: seq<Registration>,
    datasets: seq<QuantityDataset>)

  /** What one procedure hands to the constellation, and the failure that
      ended it early, if any. */
  datatype Outcome = Outcome(registrations: seq<Registration>, datasets: seq<QuantityDataset>, failure: Option<string>)

  /** What a run over several procedures or offerings hands to the constellation. */
  datatype Contribution = Contribution(registrations: seq<Registration>, datasets: seq<QuantityDataset>)

  // ----- which services -------------------------------------------------------

  /** `canHandle`: an SOS 2.0.0 with a service provider section that
      supports GetDataAvailability. */
  predicate CanHandle(remote: Remote, caps: Capabilities) {
    && caps.version == SERVICE_VERSION
    && caps.provider.Some?
    && remote.supportsGda(caps)
  }

  /** The provider section is only required to be present: a handled service
      stays handled under any provider name, as long as GetDataAvailability
      is still supported. No provider name is singled out. */
  lemma ProviderNameIgnored(remote: Remote, caps: Capabilities, other: string)
    requires CanHandle(remote, caps)
    requires remote.supportsGda(caps.(provider := Some(caps.provider.value.(providerName := other))))
    ensures CanHandle(remote, caps.(provider := Some(caps.provider.value.(providerName := other))))
  {
  }

  // ----- harvesting -----------------------------------------------------------

  /** One availability entry: the dataset it yields, or the failure that
      ends it, in the order the source meets them: a missing feature
      reference, the unit request, a phenomenon time without start or end. */
  function EntryDataset(remote: Remote, cfg: Config, procedure: string, offering: string, e: Availability)
    : Result<QuantityDataset, string>
  {
    var phenomenon := remote.phenomenonId(e);
    var category := remote.categoryId(e);
    match e.featureHref
    case None => Failure(MISSING_FEATURE)
    case Some(feature) =>
      match remote.uom(UomRequest(procedure, offering, phenomenon, feature, cfg.supportsFirstLast, e.end, cfg.url))
      case Failure(err) => Failure(err)
      case Success(unit) =>
        if e.start.None? || e.end.None? then Failure(MISSING_TIME)
        else Success(QuantityDataset(procedure, offering, category, phenomenon, feature, feature,
                                     unit, e.start.value, e.end.value))
  }

  /** The phenomenon and the category every processed entry registers, before
      its unit is requested. */
  function EntryRegistrations(remote: Remote, e: Availability): seq<Registration> {
    [PhenomenonAdded(remote.phenomenonId(e)), CategoryAdded(remote.categoryId(e))]
  }

  /** The entries of one availability response, in order, up to the first
      failing one: its datasets are the successful prefix, and the failure is
      that of the first entry without a dataset. */
  function RunEntries(remote: Remote, cfg: Config, procedure: string, offering: string, entries: seq<Availability>)
    : (r: Outcome)
    ensures |r.datasets| <= |entries|
    ensures forall i :: 0 <= i < |r.datasets| ==>
      EntryDataset(remote, cfg, procedure, offering, entries[i]) == Success(r.datasets[i])
    ensures r.failure.None? <==> |r.datasets| == |entries|
    ensures r.failure.Some? ==>
      EntryDataset(remote, cfg, procedure, offering, entries[|r.datasets|]) == Failure(r.failure.value)
    decreases |entries|
  {
    if |entries| == 0 then Outcome([], [], None)
    else
      var regs := EntryRegistrations(remote, entries[0]);
      match EntryDataset(remote, cfg, procedure, offering, entries[0])
      case Failure(err) => Outcome(regs, [], Some(err))
      case Success(d) =>
        var rest := RunEntries(remote, cfg, procedure, offering, entries[1..]);
        Outcome(regs + rest.registrations, [d] + rest.datasets, rest.failure)
  }

  /** The body of the per-procedure `try` block: register the procedure, fetch
      and register its feature, fetch its availability and run its entries.
      What was handed over before a failure stays. */
  function RunProcedure(remote: Remote, cfg: Config, offering: string, procedure: string): Outcome {
    var regs := [ProcedureAdded(procedure)];
    match remote.featureOfInterest(procedure, cfg.url)
    case Failure(err) => Outcome(regs, [], Some(err))
    case Success(feature) =>
      var regs := regs + [FeatureAdded(feature)];
      match remote.dataAvailability(procedure, cfg.url)
      case Failure(err) => Outcome(regs, [], Some(err))
      case Success(None) => Outcome(regs, [], None)
      case Success(Some(entries)) =>
        var run := RunEntries(remote, cfg, procedure, offering, entries);
        Outcome(regs + run.registrations, run.datasets, run.failure)
  }

  /** What an outcome hands over; its failure is caught and dropped. */
  function Handed(o: Outcome): Contribution {
    Contribution(o.registrations, o.datasets)
  }

  /** `a`, then `b`. */
  function Join(a: Contribution, b: Contribution): Contribution {
    Contribution(a.registrations + b.registrations, a.datasets + b.datasets)
  }

  /** Every procedure in turn, each failure caught and dropped. */
  function RunProcedures(remote: Remote, cfg: Config, offering: string, procedures: seq<string>): Contribution
    decreases |procedures|
  {
    if |procedures| == 0 then Contribution([], [])
    else Join(RunProcedures(remote, cfg, offering, procedures[..|procedures| - 1]),
              Handed(RunProcedure(remote, cfg, offering, procedures[|procedures| - 1])))
  }

  /** `doForOffering` as a reference: the offering, then its procedures. */
  function RunOffering(remote: Remote, cfg: Config, o: Offering): Contribution {
    var id := remote.offeringId(o);
    Join(Contribution([OfferingAdded(id)], []), RunProcedures(remote, cfg, id, o.procedures))
  }

  /** `addDatasets` as a reference: every offering in turn. */
  function RunOfferings(remote: Remote, cfg: Config, offerings: seq<Offering>): Contribution
    decreases |offerings|
  {
    if |offerings| == 0 then Contribution([], [])
    else Join(RunOfferings(remote, cfg, offerings[..|offerings| - 1]),
              RunOffering(remote, cfg, offerings[|offerings| - 1]))
  }

  /** `c` with `more` handed to it. */
  function Extend(c: Constellation, more: Contribution): Constellation {
    c.(registrations := c.registrations + more.registrations, datasets := c.datasets + more.datasets)
  }

  /** Handing over `a` and then `b` is handing over both at once. */
  lemma ExtendJoin(c: Constellation, a: Contribution, b: Contribution)
    ensures Extend(Extend(c, a), b) == Extend(c, Join(a, b))
  {
    assert c.registrations + a.registrations + b.registrations == c.registrations + (a.registrations + b.registrations);
    assert c.datasets + a.datasets + b.datasets == c.datasets + (a.datasets + b.datasets);
  }

  /** `doForOffering`: registers the offering, then runs every procedure,
      catching each one's failure. */
  method DoForOffering(remote: Remote, cfg: Config, o: Offering, c: Constellation) returns (r: Constellation)
    ensures r == Extend(c, RunOffering(remote, cfg, o))
  {
    var id := remote.offeringId(o);
    var head := Contribution([OfferingAdded(id)], []);
    r := Extend(c, head);
    var i := 0;
    while i < |o.procedures|
      invariant 0 <= i <= |o.procedures|
      invariant r == Extend(Extend(c, head), RunProcedures(remote, cfg, id, o.procedures[..i]))
    {
      var outcome := RunProcedure(remote, cfg, id, o.procedures[i]);
      assert o.procedures[..i + 1][..i] == o.procedures[..i];
      ExtendJoin(Extend(c, head), RunProcedures(remote, cfg, id, o.procedures[..i]), Handed(outcome));
      r := Extend(r, Handed(outcome));
      i := i + 1;
    }
    assert o.procedures[..i] == o.procedures;
    ExtendJoin(c, head, RunProcedures(remote, cfg, id, o.procedures));
  }

  /** `addDatasets`: every offering of the contents; none when the contents
      section is absent. */
  method AddDatasets(remote: Remote, cfg: Config, caps: Capabilities, c: Constellation) returns (r: Constellation)
    ensures r == Extend(c, RunOfferings(remote, cfg, Offerings(caps)))
  {
    var offerings := Offerings(caps);
    r := c;
    assert Extend(c, Contribution([], [])) == c;
    var i := 0;
    while i < |offerings|
      invariant 0 <= i <= |offerings|
      invariant r == Extend(c, RunOfferings(remote, cfg, offerings[..i]))
    {
      assert offerings[..i + 1][..i] == offerings[..i];
      ExtendJoin(c, RunOfferings(remote, cfg, offerings[..i]), RunOffering(remote, cfg, offerings[i]));
      r := DoForOffering(remote, cfg, offerings[i], r);
      i := i + 1;
    }
    assert offerings[..i] == offerings;
  }

  /** `getConstellation`: stamps the configuration with version 2.0.0 and
      this connector's name, registers the service from it, and harvests
      every offering. */
  method GetConstellation(remote: Remote, name: string, config: Config, caps: Capabilities)
    returns (cfg: Config, c: Constellation)
    ensures cfg.version == SERVICE_VERSION && cfg.connector == name
    ensures cfg == config.(version := SERVICE_VERSION, connector := name)
    ensures c.service == cfg
    ensures c.registrations == RunOfferings(remote, cfg, Offerings(caps)).registrations
    ensures c.datasets == RunOfferings(remote, cfg, Offerings(caps)).datasets
  {
    cfg := config.(version := SERVICE_VERSION, connector := name);
    c := AddDatasets(remote, cfg, caps, Constellation(cfg, [], []));
  }

  /** Harvesting a service the connector takes: the registered service
      carries the version the capabilities advertise and this connector's
      name, and every offering is harvested. */
  method HarvestHandled(remote: Remote, name: string, config: Config, caps: Capabilities)
    returns (c: Constellation)
    requires CanHandle(remote, caps)
    ensures c.service.version == caps.version && c.service.connector == name
    ensures c.datasets == RunOfferings(remote, c.service, Offerings(caps)).datasets
  {
    var cfg;
    cfg, c := GetConstellation(remote, name, config, caps);
  }

  // ----- what a harvest yields ------------------------------------------------

  /** An entry with a feature reference, a unit answer and both ends of its
      phenomenon time yields exactly the dataset of its procedure, offering,
      category, phenomenon, feature, unit and sampling times; any other entry
      yields none. An entry without a feature reference fails before its unit
      is requested. */
  lemma EntryYields(remote: Remote, cfg: Config, procedure: string, offering: string, e: Availability)
    ensures e.featureHref.None? ==> EntryDataset(remote, cfg, procedure, offering, e) == Failure(MISSING_FEATURE)
    ensures var phenomenon := remote.phenomenonId(e);
      var request := UomRequest(procedure, offering, phenomenon, e.featureHref.GetOr(""), cfg.supportsFirstLast,
                                e.end, cfg.url);
      && (EntryDataset(remote, cfg, procedure, offering, e).Success? <==>
            e.featureHref.Some? && remote.uom(request).Success? && e.start.Some? && e.end.Some?)
      && (EntryDataset(remote, cfg, procedure, offering, e).Success? ==>
            var d := EntryDataset(remote, cfg, procedure, offering, e).value;
            && d.procedure == procedure && d.offering == offering
            && d.category == remote.categoryId(e) && d.phenomenon == phenomenon
            && d.feature == e.featureHref.value && d.platform == e.featureHref.value
            && d.unit == remote.uom(request).value
            && d.samplingStart == e.start.value && d.samplingEnd == e.end.value)
  {
  }

  /** When every entry succeeds, each yields one dataset, in order. */
  lemma EveryEntryYieldsOne(remote: Remote, cfg: Config, procedure: string, offering: string, entries: seq<Availability>)
    requires forall i :: 0 <= i < |entries| ==> EntryDataset(remote, cfg, procedure, offering, entries[i]).Success?
    ensures var r := RunEntries(remote, cfg, procedure, offering, entries);
      && r.failure.None?
      && |r.datasets| == |entries|
      && forall i :: 0 <= i < |entries| ==>
           Success(r.datasets[i]) == EntryDataset(remote, cfg, procedure, offering, entries[i])
  {
  }

  /** No rollback: when entry `k` is the first to fail, the datasets of the
      entries before it are kept and the procedure's failure is entry `k`'s. */
  lemma FailureKeepsEarlierDatasets(remote: Remote, cfg: Config, procedure: string, offering: string,
                                    entries: seq<Availability>, k: nat)
    requires k < |entries|
    requires forall i :: 0 <= i < k ==> EntryDataset(remote, cfg, procedure, offering, entries[i]).Success?
    requires EntryDataset(remote, cfg, procedure, offering, entries[k]).Failure?
    ensures var r := RunEntries(remote, cfg, procedure, offering, entries);
      && |r.datasets| == k
      && r.failure == Some(EntryDataset(remote, cfg, procedure, offering, entries[k]).error)
      && forall i :: 0 <= i < k ==> Success(r.datasets[i]) == EntryDataset(remote, cfg, procedure, offering, entries[i])
  {
  }

  /** A procedure whose availability response is empty (`null`) yields no
      dataset and no failure; one whose feature request fails yields no
      dataset and that failure. */
  lemma NoAvailabilityNoDatasets(remote: Remote, cfg: Config, offering: string, procedure: string)
    ensures remote.featureOfInterest(procedure, cfg.url).Success?
            && remote.dataAvailability(procedure, cfg.url) == Success(None) ==>
      var r := RunProcedure(remote, cfg, offering, procedure);
      r.datasets == [] && r.failure.None?
        && r.registrations == [ProcedureAdded(procedure), FeatureAdded(remote.featureOfInterest(procedure, cfg.url).value)]
    ensures remote.featureOfInterest(procedure, cfg.url).Failure? ==>
      var r := RunProcedure(remote, cfg, offering, procedure);
      r.datasets == [] && r.failure == Some(remote.featureOfInterest(procedure, cfg.url).error)
        && r.registrations == [ProcedureAdded(procedure)]
  {
  }

  /** A procedure's outcome depends only on the remote answers about that
      procedure: changing the feature and availability answers for other
      procedures, failing or not, changes nothing for it. */
  lemma ProcedureIsolated(remote: Remote, cfg: Config, offering: string, procedure: string,
                          foi: (string, string) -> Result<string, string>,
                          gda: (string, string) -> Result<Option<seq<Availability>>, string>)
    requires foi(procedure, cfg.url) == remote.featureOfInterest(procedure, cfg.url)
    requires gda(procedure, cfg.url) == remote.dataAvailability(procedure, cfg.url)
    ensures RunProcedure(remote.(featureOfInterest := foi, dataAvailability := gda), cfg, offering, procedure)
            == RunProcedure(remote, cfg, offering, procedure)
  {
    var other := remote.(featureOfInterest := foi, dataAvailability := gda);
    if remote.dataAvailability(procedure, cfg.url).Success? && remote.dataAvailability(procedure, cfg.url).value.Some? {
      EntriesIgnoreRequests(remote, other, cfg, procedure, offering, remote.dataAvailability(procedure, cfg.url).value.value);
    }
  }

  /** The entries of an availability response do not consult the feature and
      availability requests. */
  lemma {:induction false} EntriesIgnoreRequests(remote: Remote, other: Remote, cfg: Config, procedure: string,
                                                 offering: string, entries: seq<Availability>)
    requires other == remote.(featureOfInterest := other.featureOfInterest, dataAvailability := other.dataAvailability)
    ensures RunEntries(other, cfg, procedure, offering, entries) == RunEntries(remote, cfg, procedure, offering, entries)
    decreases |entries|
  {
    if |entries| > 0 {
      EntriesIgnoreRequests(remote, other, cfg, procedure, offering, entries[1..]);
    }
  }

  /** Every procedure of an offering contributes its own datasets, whatever
      the others do, and nothing else is contributed. */
  lemma {:induction false} ProceduresCollect(remote: Remote, cfg: Config, offering: string, procedures: seq<string>)
    ensures forall d :: d in RunProcedures(remote, cfg, offering, procedures).datasets <==>
      exists i :: 0 <= i < |procedures| && d in RunProcedure(remote, cfg, offering, procedures[i]).datasets
    decreases |procedures|
  {
    if |procedures| > 0 {
      var init := procedures[..|procedures| - 1];
      ProceduresCollect(remote, cfg, offering, init);
      forall d | d in RunProcedures(remote, cfg, offering, procedures).datasets
        ensures exists i :: 0 <= i < |procedures| && d in RunProcedure(remote, cfg, offering, procedures[i]).datasets
      {
        if d !in RunProcedure(remote, cfg, offering, procedures[|procedures| - 1]).datasets {
          var i :| 0 <= i < |init| && d in RunProcedure(remote, cfg, offering, init[i]).datasets;
          assert init[i] == procedures[i];
        }
      }
      forall d, i | 0 <= i < |procedures| && d in RunProcedure(remote, cfg, offering, procedures[i]).datasets
        ensures d in RunProcedures(remote, cfg, offering, procedures).datasets
      {
        if i < |init| {
          assert init[i] == procedures[i];
        }
      }
    }
  }

  /** Every offering of the contents is registered and contributes all its
      datasets; absent contents contribute nothing. */
  lemma {:induction false} OfferingsCollect(remote: Remote, cfg: Config, offerings: seq<Offering>)
    ensures forall i :: 0 <= i < |offerings| ==>
      && OfferingAdded(remote.offeringId(offerings[i])) in RunOfferings(remote, cfg, offerings).registrations
      && forall d :: d in RunOffering(remote, cfg, offerings[i]).datasets ==>
           d in RunOfferings(remote, cfg, offerings).datasets
    decreases |offerings|
  {
    if |offerings| > 0 {
      var init := offerings[..|offerings| - 1];
      OfferingsCollect(remote, cfg, init);
      var all := RunOfferings(remote, cfg, offerings);
      var last := RunOffering(remote, cfg, offerings[|offerings| - 1]);
      assert OfferingAdded(remote.offeringId(offerings[|offerings| - 1])) == last.registrations[0];
      forall i | 0 <= i < |init|
        ensures OfferingAdded(remote.offeringId(offerings[i])) in all.registrations
      {
        assert init[i] == offerings[i];
      }
    }
  }

  /** Without a contents section nothing is harvested. */
  lemma NoContentsNoDatasets(remote: Remote, cfg: Config, caps: Capabilities)
    requires caps.contents.None?
    ensures RunOfferings(remote, cfg, Offerings(caps)) == Contribution([], [])
  {
  }

  // ----- data requests --------------------------------------------------------

  /** The data entities of a dataset's observations under `filter`, in
      response order. */
  function DataEntities(remote: Remote, ds: DatasetRef, filter: Filter): (r: seq<Data>)
    ensures |r| == |remote.observations(ds, filter)|
  {
    seq(|remote.observations(ds, filter)|, i requires 0 <= i < |remote.observations(ds, filter)| =>
      remote.dataEntity(remote.observations(ds, filter)[i], ds))
  }

  /** `getObservations`: one data entity per observation of the query's
      time filter, in response order. */
  method GetObservations(remote: Remote, ds: DatasetRef, query: Query) returns (r: seq<Data>)
    ensures |r| == |remote.observations(ds, During(query))|
    ensures forall i :: 0 <= i < |r| ==> r[i] == remote.dataEntity(remote.observations(ds, During(query))[i], ds)
  {
    var observations := remote.observations(ds, During(query));
    r := [];
    var i := 0;
    while i < |observations|
      invariant 0 <= i <= |observations|
      invariant |r| == i
      invariant forall j :: 0 <= j < i ==> r[j] == remote.dataEntity(observations[j], ds)
    {
      r := r + [remote.dataEntity(observations[i], ds)];
      i := i + 1;
    }
  }

  /** The first observation of a response, as a data entity. */
  function FirstEntity(remote: Remote, ds: DatasetRef, filter: Filter): Option<Data> {
    var observations := remote.observations(ds, filter);
    if |observations| == 0 then None else Some(remote.dataEntity(observations[0], ds))
  }

  /** `getFirstObservation`. */
  function GetFirstObservation(remote: Remote, ds: DatasetRef): Option<Data> {
    FirstEntity(remote, ds, FirstTime)
  }

  /** `getLastObservation`: the first observation of the latest-time filter. */
  function GetLastObservation(remote: Remote, ds: DatasetRef): Option<Data> {
    FirstEntity(remote, ds, LatestTime)
  }

  /** Taking the first observation and converting it is converting all and
      taking the first: empty exactly when the response is. */
  lemma FirstOfEntities(remote: Remote, ds: DatasetRef)
    ensures GetFirstObservation(remote, ds).None? <==> DataEntities(remote, ds, FirstTime) == []
    ensures GetFirstObservation(remote, ds).Some? ==>
      GetFirstObservation(remote, ds).value == DataEntities(remote, ds, FirstTime)[0]
    ensures GetLastObservation(remote, ds).None? <==> DataEntities(remote, ds, LatestTime) == []
    ensures GetLastObservation(remote, ds).Some? ==>
      GetLastObservation(remote, ds).value == DataEntities(remote, ds, LatestTime)[0]
  {
  }

  /** `getUom`: the unit of the first observation of the first-time filter,
      bound to the dataset's service; `null` when there is no observation or
      the first one carries no unit (`Optional.map` to `null` is empty). */
  function GetUom(remote: Remote, ds: DatasetRef): Option<Unit> {
    var observations := remote.observations(ds, FirstTime);
    if |observations| == 0 then None
    else match observations[0].unit
      case None => None
      case Some(name) => Some(Unit(name, ds.service))
  }

  /** The unit is present exactly when the first observation has one, and it
      then carries that name and the dataset's own service. */
  lemma UomOfFirst(remote: Remote, ds: DatasetRef)
    ensures var observations := remote.observations(ds, FirstTime);
      && (GetUom(remote, ds).Some? <==> |observations| > 0 && observations[0].unit.Some?)
      && (GetUom(remote, ds).Some? ==>
            GetUom(remote, ds).value.name == observations[0].unit.value
            && GetUom(remote, ds).value.service == ds.service)
  {
  }
}
