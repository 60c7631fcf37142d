/** The persistence-side entities the proxy connectors produce and consume,
    reduced to the fields the modelled code reads or writes. */
module Entities {
  import opened Wrappers

  /** The proxy's service entity; `connector` names the connector that
      harvested it and that answers data requests for it. */
  datatype ProxyService = ProxyService(name: string, url: string, connector: string)

  /** A unit of measurement as `EntityBuilder.createUnit(name, null, service)`
      creates it: the name and the service it belongs to. */
  datatype Unit = Unit(name: string, service: ProxyService)

  /** A dataset entity as the connectors see it: its domain id and its service. */
  datatype DatasetRef = DatasetRef(domainId: string, service: ProxyService)

  /** One observation of a GetObservation response: its time, its value and
      the unit of measurement the value carries, when it carries one. */
  datatype Observation = Observation(time: int, value: Option<real>, unit: Option<string>)

  /** A data entity built from an observation for a dataset. */
  datatype Data = Data(time: int, value: Option<real>)

  /** The request parameters of a data query (`DbQuery`), uninterpreted. */
  datatype Query = Query(parameters: map<string, string>)
}
