# helgoland-server proxy and DCAT catalog, modelled in Dafny

This project models two parts of the 52°North helgoland proxy server.

The first is the DCAT-AP catalog transformer. It keeps an RDF graph with one
`dcat:Catalog`. Each time a harvest result arrives it rebuilds that service's
`dcat:Dataset`. The rebuild has three steps:

- it unlinks the dataset from the catalog;
- it sweeps away every statement no longer reachable from the catalog;
- it describes the dataset again from the service's SOS capabilities: titles,
  keywords, spatial and temporal extent, service provider as vCard and FOAF
  resources, two distributions, and `issued`/`modified` stamps.

The second part is the SOS 2.0 proxy connector and its data side:

- `SOS2Connector` decides which services it handles and harvests their
  datasets offering by offering and procedure by procedure. It catches
  failures per procedure.
- `ProxyQuantityDataRepository` finds a dataset's connector by name and
  assembles quantity values from the observations that connector returns.
- `ProfileDatasetConstellation` creates profile datasets with a default
  vertical parameter and a unit that is defaulted once and then kept.

## Modules

| file | module | contents |
|---|---|---|
| wrappers.dfy | `Wrappers` | `Option` (Java `Optional`, nullable references) and `Result` (a call that returns or throws) |
| rdf.dfy | `Rdf` | literals, nodes (IRIs, blank nodes, literals), the predicates used, triples, graphs; `ValuesOf` reads a property |
| closure.dfy | `Closure` | reachability from a root as a least fixpoint; the reachable closure; the sweep |
| sos.dfy | `Sos` | the decoded SOS capabilities the catalog and the connector consume |
| urls.dfy | `Urls` | the GetCapabilities URL, the service URL and decimal rendering of ids |
| extent.dfy | `TemporalExtent` | the time points of the offerings and the extent spanning them |
| describe.dfy | `Describe` | shared parts of a description, `createResourceOrLiteral`, `createAddress`, the service provider |
| dataset.dfy | `DatasetDescription` | the whole description of one dataset (`createDatasets` after the removal) |
| catalog.dfy | `Catalog` | the store, `createCatalog`, `findCatalog`/`init`, `removeDatasets`, the rebuild, `onResult` |
| entities.dfy | `Entities` | the service, unit, dataset, observation and data entities the proxy uses |
| connector.dfy | `Sos2Connector` | `canHandle`, `getConstellation`, `addDatasets`, `doForOffering`, the data requests |
| repository.dfy | `ProxyRepository` | `setConnectors`, `getConnector`, `getFirstValue`/`getLastValue`, `assembleDataValues` |
| profile.dfy | `ProfileConstellation` | `createDatasetEntity`, `setUnit` and the default vertical parameter |

## How the model works

**Blank nodes.** A store carries a counter of the first unused blank-node id.
Every builder takes the next id and returns its triples together with the
next free id. The lemmas about fitting show three things: every blank node a
builder uses is below the id it returns (`Fits`), every one except the node
it describes is at or above the id it started from (`NewFrom`), and no
statement except the final stamps is an `issued` or `modified`.

**Arbitrary choices.** Jena's `getProperty` and `listSubjectsWithProperty`
return an arbitrary matching statement. `PriorIssued` and `FindCatalog` model
this as a ghost choice, so the catalog operations built on them are ghost
functions.

**Oracles.** Code outside the modelled files becomes an oracle parameter:

- in the catalog, the record `Env`: `UriUtil.isAbsoluteURI`,
  `java.net.URI.isAbsolute`, `UriUtil.createMailURI`/`createTelURI` and the
  external URL;
- in the connector, the record `Remote`: the remote SOS requests and the
  registration helpers;
- in the repository, an `Assembler` function.

A call that can throw returns a `Result`. Time stamps are milliseconds: a
typed `xsd:dateTime` literal is `DateTime(ms)`, and the plain formatted
`time:inXSDDateTimeStamp` value is `Stamp(ms)`.

## Model

Source paths are relative to the repository root.

| member | source | states |
|---|---|---|
| Catalog.FindCatalog | dcatap/src/main/java/org/n52/helgoland/adapters/dcat/CatalogTransformer.java:537-543 | no catalog is found exactly when no subject is typed `dcat:Catalog`; a found one is typed `dcat:Catalog` in the graph |
| Catalog.Init | dcatap/src/main/java/org/n52/helgoland/adapters/dcat/CatalogTransformer.java:122-131 | the store is valid and keeps the stored graph. If that graph has a catalog, the graph is unchanged and the catalog is one of its catalogs. Otherwise a new catalog is added, with blank ids above those already stored |
| Catalog.CreateCatalog | dcatap/src/main/java/org/n52/helgoland/adapters/dcat/CatalogTransformer.java:545-571 | the catalog is a new blank node typed `dcat:Catalog`. Every statement is about it, and its `modified` and `issued` are both exactly the creation time |
| Catalog.CreateCatalogSetting | dcatap/src/main/java/org/n52/helgoland/adapters/dcat/CatalogTransformer.java:547-569 | each optional catalog property is stated exactly when its setting qualifies, with exactly the expected value. Title, description and language qualify when non-empty; publisher, homepage and license qualify when they are absolute URIs. Texts carry the configured language |
| Catalog.SettingValues | dcatap/src/main/java/org/n52/helgoland/adapters/dcat/CatalogTransformer.java:547-569 | the same, for the optional statements alone |
| Catalog.PriorIssued | dcatap/src/main/java/org/n52/helgoland/adapters/dcat/CatalogTransformer.java:165-166 | there is no earlier issue date exactly when the dataset has no `issued` date-time; otherwise the value is one of its `issued` values |
| Catalog.RemoveDatasets | dcatap/src/main/java/org/n52/helgoland/adapters/dcat/CatalogTransformer.java:162-180 | the graph becomes the part reachable from the catalog once the catalog–dataset link is removed. That part is within the input plus the dataset's type statement and no longer holds the link. Every other statement about the catalog stays. The issue date is read before the removal |
| Catalog.RemoveDatasetsValid | dcatap/src/main/java/org/n52/helgoland/adapters/dcat/CatalogTransformer.java:162-176 | removal keeps the store valid: blank ids stay below the counter and the catalog stays typed |
| Catalog.RemoveDatasetsForgets | dcatap/src/main/java/org/n52/helgoland/adapters/dcat/CatalogTransformer.java:168-171 | a dataset that is unreachable once unlinked keeps no statement at all |
| Closure.SweepIsClosure | dcatap/src/main/java/org/n52/helgoland/adapters/dcat/CatalogTransformer.java:170-171 | removing the difference from the reachable closure leaves exactly that closure. The closure is a subset of the graph, keeps every statement about the root, and holds exactly the statements whose subject is reachable |
| Closure.ReachableAfterSweep | dcatap/src/main/java/org/n52/helgoland/adapters/dcat/CatalogTransformer.java:170-171 | the sweep does not change what is reachable from the root |
| Closure.SweepIdempotent | dcatap/src/main/java/org/n52/helgoland/adapters/dcat/CatalogTransformer.java:170-171 | a second sweep removes nothing |
| Catalog.CreateDatasets | dcatap/src/main/java/org/n52/helgoland/adapters/dcat/CatalogTransformer.java:195-253 | the rebuild keeps the store valid and the catalog the same |
| Catalog.CreateDatasetsAddsNew | dcatap/src/main/java/org/n52/helgoland/adapters/dcat/CatalogTransformer.java:195-253 | the rebuild keeps every statement the sweep left, never lowers the counter, and every statement it adds mentions no blank node older than the counter except the catalog: the new description reuses no node of the old graph |
| Catalog.ResyncStamps | dcatap/src/main/java/org/n52/helgoland/adapters/dcat/CatalogTransformer.java:197-225 | after a rebuild the dataset has one `modified`, which is now, and one `issued`, which is the earlier issue date or else now |
| Catalog.ResyncKeepsIssued | dcatap/src/main/java/org/n52/helgoland/adapters/dcat/CatalogTransformer.java:165-225 | a dataset issued at `x` is still issued at exactly `x` after the rebuild |
| Catalog.ResyncFirstIssue | dcatap/src/main/java/org/n52/helgoland/adapters/dcat/CatalogTransformer.java:223-225 | a dataset described for the first time has `issued` equal to `modified` |
| Catalog.ResyncTwice | dcatap/src/main/java/org/n52/helgoland/adapters/dcat/CatalogTransformer.java:162-228 | a second rebuild keeps the first rebuild's `issued` and sets `modified` to the second time |
| Catalog.ResyncAgain | dcatap/src/main/java/org/n52/helgoland/adapters/dcat/CatalogTransformer.java:162-228 | a dataset holding one `issued` value keeps exactly it, and gets the new `modified` |
| Catalog.CreateDatasetsFrame | dcatap/src/main/java/org/n52/helgoland/adapters/dcat/CatalogTransformer.java:195-253 | the rebuild changes no `modified` of any subject other than the dataset |
| Catalog.ResyncKeepsCatalogModified | dcatap/src/main/java/org/n52/helgoland/adapters/dcat/CatalogTransformer.java:148-153 | when the dataset IRI is not the catalog node, the rebuild keeps the catalog's `modified` that `onResult` just stamped |
| Catalog.ReplaceCatalogModified | dcatap/src/main/java/org/n52/helgoland/adapters/dcat/CatalogTransformer.java:148-151 | `removeAll` followed by a new `modified` leaves exactly one catalog `modified`, the new time. No other statement changes and the store stays valid |
| Catalog.OnResult | dcatap/src/main/java/org/n52/helgoland/adapters/dcat/CatalogTransformer.java:133-160 | a `null` result or an undecodable document leaves the store unchanged; any result keeps it valid with the same catalog |
| Catalog.OnResultStampsCatalog | dcatap/src/main/java/org/n52/helgoland/adapters/dcat/CatalogTransformer.java:146-153 | after a decoded result the catalog has exactly one `modified`, stamped by `onResult` |
| Catalog.OnResultStampsDataset | dcatap/src/main/java/org/n52/helgoland/adapters/dcat/CatalogTransformer.java:146-153 | after a decoded result the dataset's only `modified` is the rebuild time |
| DatasetDescription.DescribeCore | dcatap/src/main/java/org/n52/helgoland/adapters/dcat/CatalogTransformer.java:199-207 | the catalog lists the dataset, which is typed `dcat:Dataset`. Its landing page is the GetCapabilities URL, and its identifiers are the service identifier, its id as a long and its URL |
| DatasetDescription.DescribeIdentification | dcatap/src/main/java/org/n52/helgoland/adapters/dcat/CatalogTransformer.java:208-221 | every title and abstract reaches the dataset in its language. So does every keyword, tagged with its language or none. Every access constraint reaches it as a resource or literal, and every advertised language appears too |
| DatasetDescription.ContentKeywordsFromOfferings | dcatap/src/main/java/org/n52/helgoland/adapters/dcat/CatalogTransformer.java:404-419 | a node is a content keyword exactly when some offering contributes it |
| DatasetDescription.DescribeKeywords | dcatap/src/main/java/org/n52/helgoland/adapters/dcat/CatalogTransformer.java:404-419 | every keyword an offering contributes is a `dcat:keyword` of the dataset. The contributions are its identifier, names, observable properties, procedures and features |
| DatasetDescription.SpatialFacts | dcatap/src/main/java/org/n52/helgoland/adapters/dcat/CatalogTransformer.java:289-298 | the dataset has a spatial extent exactly when some offering has an observed area, and every blank node of the extent but the dataset has an id from the starting counter up to, not including, the returned one |
| DatasetDescription.TemporalFacts | dcatap/src/main/java/org/n52/helgoland/adapters/dcat/CatalogTransformer.java:314-349 | there is no temporal extent exactly when no offering sets a time point. One distinct point gives an instant stamped with it; several give an interval whose beginning and end instants carry the minimum and the maximum |
| DatasetDescription.InstantFacts | dcatap/src/main/java/org/n52/helgoland/adapters/dcat/CatalogTransformer.java:338-355 | the instant is the dataset's only temporal value, typed `time:Instant`, with the time as its stamp |
| DatasetDescription.IntervalFacts | dcatap/src/main/java/org/n52/helgoland/adapters/dcat/CatalogTransformer.java:343-347 | the interval is the dataset's only temporal value. It is typed `time:Interval`, and its beginning and end instants carry the two times |
| DatasetDescription.DescribeStamps | dcatap/src/main/java/org/n52/helgoland/adapters/dcat/CatalogTransformer.java:223-225 | the description has one `modified`, which is now, and one `issued`, which is the earlier date or now. Both are on the dataset only |
| DatasetDescription.DescribeFits | dcatap/src/main/java/org/n52/helgoland/adapters/dcat/CatalogTransformer.java:195-253 | every blank node of the description is below the returned counter, and every one but the catalog is at or above the starting counter: the description reuses no older node |
| DatasetDescription.DistributionsFits | dcatap/src/main/java/org/n52/helgoland/adapters/dcat/CatalogTransformer.java:227-251 | the two distributions and their two data services take exactly the blank ids from the counter to three above it, every blank node but the dataset is one of them, and they stamp nothing |
| TemporalExtent.PointsOf | dcatap/src/main/java/org/n52/helgoland/adapters/dcat/CatalogTransformer.java:318-334 | an offering contributes one point for a set instant or a half-open period, two for a full period, and none otherwise. Its points are exactly the bounds it sets |
| TemporalExtent.TimePoints | dcatap/src/main/java/org/n52/helgoland/adapters/dcat/CatalogTransformer.java:315-336 | a time is a point exactly when some offering sets it |
| TemporalExtent.ExtentOf | dcatap/src/main/java/org/n52/helgoland/adapters/dcat/CatalogTransformer.java:338-348 | there is no extent exactly when there are no points. Otherwise the extent covers every point and its ends are points, and an interval begins strictly before it ends |
| TemporalExtent.EqualPointsGiveInstant | dcatap/src/main/java/org/n52/helgoland/adapters/dcat/CatalogTransformer.java:340-341 | when all points are the same time, the extent is that instant |
| TemporalExtent.TwoPeriods | dcatap/src/main/java/org/n52/helgoland/adapters/dcat/CatalogTransformer.java:323-345 | two periods give the interval from the earlier start to the later end |
| Urls.GetCapabilitiesUrlShape | dcatap/src/main/java/org/n52/helgoland/adapters/dcat/CatalogTransformer.java:259-268 | the service URL is a prefix of the result. The separator is `&` exactly when the URL already has a `?`, and `?` otherwise. The query `service=SOS&request=GetCapabilities` ends it |
| Urls.GetCapabilitiesUrlHasQuery | dcatap/src/main/java/org/n52/helgoland/adapters/dcat/CatalogTransformer.java:259-268 | the result always holds a query |
| Urls.ServiceUrlShape | dcatap/src/main/java/org/n52/helgoland/adapters/dcat/CatalogTransformer.java:255-257 | the service URL is the external URL, then `services/`, then the decimal id |
| Urls.ServiceUrlInjective | dcatap/src/main/java/org/n52/helgoland/adapters/dcat/CatalogTransformer.java:255-257 | distinct service ids give distinct service URLs |
| Urls.LongRoundTrip | dcatap/src/main/java/org/n52/helgoland/adapters/dcat/CatalogTransformer.java:256 | parsing the decimal rendering of an id gives back the id |
| Describe.ResourceOrLiteral | dcatap/src/main/java/org/n52/helgoland/adapters/dcat/CatalogTransformer.java:502-508 | the node is a resource exactly when the value is an absolute URI, and the value can always be read back from it |
| Describe.ResourceOrLiteralInjective | dcatap/src/main/java/org/n52/helgoland/adapters/dcat/CatalogTransformer.java:502-508 | distinct values give distinct nodes |
| Describe.CreateAddress | dcatap/src/main/java/org/n52/helgoland/adapters/dcat/CatalogTransformer.java:485-493 | there is no address exactly when the administrative area, city, country, postal code and delivery points are all absent |
| Describe.CreateAddressShape | dcatap/src/main/java/org/n52/helgoland/adapters/dcat/CatalogTransformer.java:493-499 | the address is a new `vcard:Address` blank node, and every statement is about it with an address property |
| Describe.CreateAddressField | dcatap/src/main/java/org/n52/helgoland/adapters/dcat/CatalogTransformer.java:494-497 | the address has a region, locality, country name or postal code value exactly when that field is set to the value |
| Describe.CreateAddressStreets | dcatap/src/main/java/org/n52/helgoland/adapters/dcat/CatalogTransformer.java:498 | one `street_address` per delivery point, and no other |
| Describe.ServiceProviderNames | dcatap/src/main/java/org/n52/helgoland/adapters/dcat/CatalogTransformer.java:439-463 | the publisher is named after the provider. The contact organization is named after the organisation name, or else the provider name |
| Describe.ServiceProviderLinks | dcatap/src/main/java/org/n52/helgoland/adapters/dcat/CatalogTransformer.java:454-472 | the organization has a member exactly when an individual name is set. It has an address exactly when the contact info holds an address with some field set |
| Describe.IndividualFacts | dcatap/src/main/java/org/n52/helgoland/adapters/dcat/CatalogTransformer.java:454-459 | the individual exists exactly when its name is set, and every blank node it uses but the organisation has an id from the starting counter up to, not including, the returned one |
| Describe.AddressLinkedIffField | dcatap/src/main/java/org/n52/helgoland/adapters/dcat/CatalogTransformer.java:465-472 | `vcard:hasAddress` is stated exactly when the address has a field |
| Describe.ServiceProviderFits | dcatap/src/main/java/org/n52/helgoland/adapters/dcat/CatalogTransformer.java:439-483 | every blank node of the provider description but the dataset has an id from the starting counter up to, not including, the returned one, and it stamps nothing |
| Sos2Connector.CanHandle | dao/src/main/java/org/n52/proxy/connector/SOS2Connector.java:72-78 | the connector takes a service exactly when its capabilities advertise version `2.0.0`, carry a service provider section and support GetDataAvailability |
| Sos2Connector.HarvestHandled | dao/src/main/java/org/n52/proxy/connector/SOS2Connector.java:72-92 | a service the connector takes is registered with the version its capabilities advertise and this connector's name, and every offering is harvested |
| Sos2Connector.ProviderNameIgnored | dao/src/main/java/org/n52/proxy/connector/SOS2Connector.java:66-78 | a handled service stays handled under any provider name while GetDataAvailability is supported: the code tests only that a provider section is present, not the provider name `52North` its doc comment mentions |
| Sos2Connector.GetConstellation | dao/src/main/java/org/n52/proxy/connector/SOS2Connector.java:80-92 | the configuration gets version `2.0.0` and this connector's name; `addService`, `addBindingUrls` and `addServiceConfig` are taken not to write it, so no other field changes. The service is registered from it, then every offering is harvested |
| Sos2Connector.AddDatasets | dao/src/main/java/org/n52/proxy/connector/SOS2Connector.java:128-136 | every offering of the contents is harvested in order. With no contents section nothing is |
| Sos2Connector.DoForOffering | dao/src/main/java/org/n52/proxy/connector/SOS2Connector.java:138-170 | the offering is registered, then each procedure is run in order; a failing procedure's failure is dropped and the rest still run |
| Sos2Connector.RunEntries | dao/src/main/java/org/n52/proxy/connector/SOS2Connector.java:149-166 | the datasets are those of the successful prefix of entries, in order. There is no failure exactly when every entry succeeded; otherwise the failure is the first failing entry's |
| Sos2Connector.EntryYields | dao/src/main/java/org/n52/proxy/connector/SOS2Connector.java:151-163 | an entry yields a dataset exactly when it has a feature reference, its unit request succeeds and its phenomenon time has both ends; an entry without a feature reference fails before any unit request. The dataset carries the procedure, offering, category and phenomenon ids, the feature href, the unit and the two times |
| Sos2Connector.EveryEntryYieldsOne | dao/src/main/java/org/n52/proxy/connector/SOS2Connector.java:150-164 | when every entry succeeds, each yields exactly one dataset, in order |
| Sos2Connector.FailureKeepsEarlierDatasets | dao/src/main/java/org/n52/proxy/connector/SOS2Connector.java:143-169 | when entry `k` is the first to fail, the `k` datasets before it are kept and the failure is entry `k`'s (no rollback) |
| Sos2Connector.NoAvailabilityNoDatasets | dao/src/main/java/org/n52/proxy/connector/SOS2Connector.java:144-150 | a `null` availability response yields no dataset and no failure. A failing feature request yields no dataset, and only the procedure is registered |
| Sos2Connector.ProcedureIsolated | dao/src/main/java/org/n52/proxy/connector/SOS2Connector.java:143-169 | a procedure's outcome depends only on the remote answers for that procedure, whatever other procedures do |
| Sos2Connector.ProceduresCollect | dao/src/main/java/org/n52/proxy/connector/SOS2Connector.java:143-169 | a dataset belongs to the offering's harvest exactly when one of its procedures yields it |
| Sos2Connector.OfferingsCollect | dao/src/main/java/org/n52/proxy/connector/SOS2Connector.java:134-135 | every offering is registered and contributes all its datasets |
| Sos2Connector.NoContentsNoDatasets | dao/src/main/java/org/n52/proxy/connector/SOS2Connector.java:134-135 | absent contents contribute nothing |
| Sos2Connector.GetObservations | dao/src/main/java/org/n52/proxy/connector/SOS2Connector.java:94-102 | one data entity per observation, in response order |
| Sos2Connector.FirstOfEntities | dao/src/main/java/org/n52/proxy/connector/SOS2Connector.java:104-116 | the first and last observations are empty exactly when the filtered response is, and are otherwise its first entity |
| Sos2Connector.UomOfFirst | dao/src/main/java/org/n52/proxy/connector/SOS2Connector.java:118-126 | there is a unit exactly when the first observation carries one. It has that name and the dataset's service |
| ProxyRepository.SetConnectors | proxy-dao/src/main/java/org/n52/proxy/da/ProxyQuantityDataRepository.java:63-67 | registration fails exactly when two connectors share a name. Otherwise the map holds exactly the connectors, each under its own name |
| ProxyRepository.ConnectorFound | proxy-dao/src/main/java/org/n52/proxy/da/ProxyQuantityDataRepository.java:69-72 | a dataset finds the connector named by its service, and `null` exactly when no connector has that name |
| ProxyRepository.UnregisteredFails | proxy-dao/src/main/java/org/n52/proxy/da/ProxyQuantityDataRepository.java:74-84 | with no connector of the dataset's connector name, both first and last value fail |
| ProxyRepository.Sos2Values | proxy-dao/src/main/java/org/n52/proxy/da/ProxyQuantityDataRepository.java:74-84 | with the SOS 2.0 connector registered, the first and last values are the assembled first observations of the remote answers, and `null` assembled when there is none |
| ProxyRepository.AssembleDataValues | proxy-dao/src/main/java/org/n52/proxy/da/ProxyQuantityDataRepository.java:86-94 | it fails exactly when no connector is found. Otherwise there is one value per observation, in order, each assembled from that observation |
| ProfileConstellation.NewProfile | proxy-dao/src/main/java/org/n52/proxy/connector/constellations/ProfileDatasetConstellation.java:25-32 | a new constellation has vertical parameter `depth` and no unit |
| ProfileConstellation.CreateFields | proxy-dao/src/main/java/org/n52/proxy/connector/constellations/ProfileDatasetConstellation.java:42-56 | the dataset takes the domain id and the vertical parameter name. Its unit is the one set, or else the unnamed unit of the service. The constellation changes only by storing that unit |
| ProfileConstellation.FreshIsDepth | proxy-dao/src/main/java/org/n52/proxy/connector/constellations/ProfileDatasetConstellation.java:25-52 | a dataset from a new constellation has vertical parameter `depth` |
| ProfileConstellation.SetUnitUsed | proxy-dao/src/main/java/org/n52/proxy/connector/constellations/ProfileDatasetConstellation.java:38-51 | a unit set through `setUnit` is the dataset's unit, whatever the service |
| ProfileConstellation.DefaultReused | proxy-dao/src/main/java/org/n52/proxy/connector/constellations/ProfileDatasetConstellation.java:48-51 | the defaulted unit is stored back. A second creation, even for another service, reuses the first service's unit and leaves the constellation unchanged |

## Left out

- The read/write lock and `modelPersistence` are not modelled: locking is concurrency, and the stored graph is an input to `Catalog.Init`.
- XML parsing and decoding in `getCapabilities` become an input `Result`. A decoding failure is the `Failure` case.
- The geometry union in `addSpatialExtent` is not modelled; only whether a spatial extent exists is. The GeoJSON value is a placeholder literal.
- `getEnvelope` and `createTime` are not modelled, because no modelled code calls them.
- Date formatting is not modelled: times are milliseconds, so `issued` values compare exactly.
- Namespace prefixes from `createModel` are not modelled, because they are not statements of the graph.
- The language values are taken as already extracted from the `language` parameter of the operations metadata. The filtering chain in `addLanguages` is not modelled.
- Catalog.PriorIssued: reads only `issued` values that are typed date-times. `Statement.getString` throwing on a non-literal `issued` value is not modelled.
- Catalog.CreateCatalog: `UriUtil.isAbsoluteURI` on an unset setting is taken as false.
- Catalog.OnResult: an offering name without a code space makes the keyword step (CatalogTransformer.java:409) throw a `NullPointerException` halfway through the rebuild. `onResult` catches only decoding failures, so the graph would be left partly rebuilt and not written. The model takes every offering name to carry a code space and always completes the rebuild.
- Catalog.OnResult: the service comes with the harvest result instead of from `serviceRepository.findByNameAndUrlAndType`, and is taken to be present.
- Catalog.ResyncStamps, Catalog.ResyncKeepsIssued, Catalog.ResyncFirstIssue, Catalog.ResyncTwice, Catalog.ResyncAgain and Catalog.OnResultStampsDataset: require that the dataset is unreachable from the catalog once unlinked. Another path from the catalog to the dataset IRI would keep the old stamps alongside the new ones.
- Catalog.OnResultStampsCatalog: requires that the dataset IRI is not the catalog node.
- Catalog.ResyncKeepsCatalogModified: requires that the dataset IRI is not the catalog node. A stored catalog named by the service URL would get the dataset's `modified` as a second value (CatalogTransformer.java:223).
- Sos2Connector: the remote requests are oracles (`Remote`), as are `supportsGDA`, the `add…` registration helpers, and the base class's `getUom` and `createDataEntity`. The base class is not part of this model.
- Sos2Connector.UomOfFirst, Sos2Connector.GetUom, ProfileConstellation.CreateFields and ProfileConstellation.DefaultReused: `EntityBuilder.createUnit` is taken to build a unit that keeps exactly the name and service it is given. EntityBuilder is not part of this model.
- Sos2Connector.DoForOffering: the constellation records registrations and datasets as logs. Its deduplication and upserting are not modelled. `addOffering` is taken never to throw. `addPhenomenon` and `addCategory` are likewise taken never to throw, so within an entry only a missing feature reference, the unit request and a missing phenomenon-time bound fail. A feature reference whose href is null is handed on as a feature id; the model's reference always carries its href.
- Sos2Connector.GetConstellation: `addService`, `addBindingUrls` and `addServiceConfig` receive the mutable configuration; they are taken not to write it, and the request counter is not modelled. The registered service is the updated configuration.
- Sos2Connector.GetObservations, GetFirstObservation, GetLastObservation and GetUom: a failing GetObservation request is not modelled.
- ProxyRepository: the connector map before `setConnectors` runs (`null`) is not modelled. The cast to `QuantityDataEntity` is taken to succeed.
- ProfileConstellation.CreateDatasetEntity: `updateDatasetEntity` is taken to attach the parent entities it is given. The two `new Date()` readings are parameters.
- `DataSourceConfiguration` is a plain record. `allowedOfferings` is carried but unused, because no modelled code filters offerings.
- Logging is not modelled.
