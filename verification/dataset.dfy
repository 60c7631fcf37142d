/** The full `dcat:Dataset` description that `createDatasets` writes for one
    service: identifiers, titles, keywords, extents, provider, languages,
    access rights, the two distributions, and the `modified`/`issued` stamps. */
module DatasetDescription {
  import opened Wrappers
  import opened Rdf
  import opened Sos
  import opened TemporalExtent
  import opened Describe
  import Urls

  /** `getDatasetResource`: the dataset is the service URL as an IRI. */
  function DatasetNode(service: ServiceEntity): (r: Node)
    ensures r.Iri? && r.iri == service.url
  {
    Iri(service.url)
  }

  /** The `rdf:type dcat:Dataset` triple that `getDatasetResource` adds. */
  function DatasetType(service: ServiceEntity): Triple {
    Triple(DatasetNode(service), RdfType, DATASET)
  }

  /** Type, landing page, the three identifiers and the catalog's link. */
  function CoreTriples(catalog: Node, service: ServiceEntity): set<Triple> {
    var ds := DatasetNode(service);
    {DatasetType(service),
     Triple(ds, DcatLandingPage, Iri(Urls.GetCapabilitiesUrl(service.url))),
     Triple(ds, DctIdentifier, Lit(Plain(service.identifier))),
     Triple(ds, DctIdentifier, Lit(Long(service.id))),
     Triple(ds, DctIdentifier, Lit(Plain(service.url))),
     Triple(catalog, DcatDataset, ds)}
  }

  /** `addLocalizedStrings`: one language-tagged literal per localization. */
  function LocalizedTriples(ds: Node, p: Prop, strings: seq<LocalizedString>): set<Triple> {
    set l | l in strings :: Triple(ds, p, LangLiteral(l.text, l.lang))
  }

  /** `addKeywords`: the identification's keywords, tagged with their
      language when they have one. */
  function KeywordTriples(ds: Node, keywords: seq<Keyword>): set<Triple> {
    set k | k in keywords :: Triple(ds, DcatKeyword, LangLiteral(k.value, k.lang.GetOr("")))
  }

  /** The access constraints, each a resource or a literal. */
  function AccessRightsTriples(env: Env, ds: Node, constraints: seq<string>): set<Triple> {
    set c | c in constraints :: Triple(ds, DctAccessRights, ResourceOrLiteral(env, c))
  }

  /** `addLanguages`: the languages the service offers, as plain literals. */
  function LanguageTriples(ds: Node, languages: seq<string>): set<Triple> {
    set l | l in languages :: Triple(ds, DctLanguage, Lit(Plain(l)))
  }

  /** `addTitle`, `addDescription`, `addKeywords`, the access constraints and
      the languages: plain statements about the dataset. */
  function IdentificationTriples(env: Env, ds: Node, caps: Capabilities): set<Triple> {
    var languages := LanguageTriples(ds, caps.languages);
    match caps.identification
    case None => languages
    case Some(id) =>
      LocalizedTriples(ds, DctTitle, id.title) + LocalizedTriples(ds, DctDescription, id.abstracts)
      + KeywordTriples(ds, id.keywords) + AccessRightsTriples(env, ds, id.accessConstraints) + languages
  }

  /** The keywords one offering contributes: its identifier, its names
      (tagged with their code space), observable properties, procedures and
      features of interest. */
  function OfferingKeywords(env: Env, o: Offering): set<Node> {
    {ResourceOrLiteral(env, o.identifier)}
    + (set n | n in o.names :: LangLiteral(n.value, n.codeSpace))
    + (set x | x in o.observableProperties :: ResourceOrLiteral(env, x))
    + (set x | x in o.procedures :: ResourceOrLiteral(env, x))
    + (set x | x in o.featuresOfInterest :: ResourceOrLiteral(env, x))
  }

  /** `addKeywordsFromContents`: the union over all offerings. */
  function ContentKeywords(env: Env, offerings: seq<Offering>): set<Node> {
    if offerings == [] then {}
    else OfferingKeywords(env, offerings[0]) + ContentKeywords(env, offerings[1..])
  }

  /** A node is a content keyword exactly when some offering contributes it. */
  lemma {:induction false} ContentKeywordsFromOfferings(env: Env, offerings: seq<Offering>, k: Node)
    ensures k in ContentKeywords(env, offerings)
      <==> exists i :: 0 <= i < |offerings| && k in OfferingKeywords(env, offerings[i])
    decreases |offerings|
  {
    if offerings != [] {
      ContentKeywordsFromOfferings(env, offerings[1..], k);
      if k in ContentKeywords(env, offerings[1..]) {
        var i :| 0 <= i < |offerings[1..]| && k in OfferingKeywords(env, offerings[1..][i]);
        assert k in OfferingKeywords(env, offerings[i + 1]);
      }
      if exists i :: 0 <= i < |offerings| && k in OfferingKeywords(env, offerings[i]) {
        var i :| 0 <= i < |offerings| && k in OfferingKeywords(env, offerings[i]);
        if i > 0 {
          assert offerings[i] == offerings[1..][i - 1];
        }
      }
    }
  }

  /** The dataset's keywords from the contents, one `dcat:keyword` each. */
  function ContentKeywordTriples(env: Env, ds: Node, caps: Capabilities): set<Triple> {
    set k | k in ContentKeywords(env, Offerings(caps)) :: Triple(ds, DcatKeyword, k)
  }

  /** The statements that need no blank node: the dataset's core,
      its identification and its keywords. */
  function PlainTriples(env: Env, catalog: Node, service: ServiceEntity, caps: Capabilities): set<Triple> {
    var ds := DatasetNode(service);
    CoreTriples(catalog, service) + IdentificationTriples(env, ds, caps) + ContentKeywordTriples(env, ds, caps)
  }

  /** `addSpatialExtent`: a `dct:Location` at `b` exactly when some offering
      has an observed area. The geometry union itself is not modelled. */
  function SpatialTriples(ds: Node, offerings: seq<Offering>, b: nat): (r: Part)
    ensures b <= r.next <= b + 1
  {
    if exists i :: 0 <= i < |offerings| && offerings[i].hasObservedArea then
      var location := Blank(b);
      Part({Triple(location, RdfType, LOCATION), Triple(location, LocnGeometry, Lit(GeoJson)),
            Triple(ds, DctSpatial, location)}, b + 1)
    else Part({}, b)
  }

  /** `createTimeInstant`: a `time:Instant` stamped with the time. */
  function InstantTriples(node: Node, t: int): set<Triple> {
    {Triple(node, RdfType, TIME_INSTANT), Triple(node, TimeInXSDDateTimeStamp, Lit(Stamp(t)))}
  }

  /** A single time point: the dataset's temporal extent is the instant `b`. */
  function InstantExtent(ds: Node, t: int, b: nat): (r: Part)
    ensures r.next == b + 1
  {
    Part(InstantTriples(Blank(b), t) + {Triple(ds, DctTemporal, Blank(b))}, b + 1)
  }

  /** The interval `b`, its two ends and the dataset's link to it. */
  function IntervalLinks(ds: Node, b: nat): set<Triple> {
    {Triple(Blank(b), RdfType, TIME_INTERVAL), Triple(Blank(b), TimeHasBeginning, Blank(b + 1)),
     Triple(Blank(b), TimeHasEnd, Blank(b + 2)), Triple(ds, DctTemporal, Blank(b))}
  }

  /** Several time points: the interval `b` whose ends are the instants
      `b + 1` and `b + 2`. */
  function IntervalExtent(ds: Node, x: int, y: int, b: nat): (r: Part)
    ensures r.next == b + 3
  {
    Part(IntervalLinks(ds, b) + InstantTriples(Blank(b + 1), x) + InstantTriples(Blank(b + 2), y), b + 3)
  }

  /** `addTemporalExtent`: nothing without time points, an instant when the
      extent is one, else an interval between two instants. */
  function TemporalTriples(ds: Node, offerings: seq<Offering>, b: nat): (r: Part)
    ensures b <= r.next <= b + 3
  {
    match ExtentOf(offerings)
    case None => Part({}, b)
    case Some(At(t)) => InstantExtent(ds, t, b)
    case Some(Between(x, y)) => IntervalExtent(ds, x, y, b)
  }

  /** The extents and the provider, allocating blank nodes from `b`. */
  function ExtentsAndProvider(env: Env, ds: Node, caps: Capabilities, b: nat): (r: Part)
    ensures b <= r.next
  {
    var spatial := SpatialTriples(ds, Offerings(caps), b);
    var temporal := TemporalTriples(ds, Offerings(caps), spatial.next);
    var provider := if caps.provider.Some? then ServiceProviderTriples(env, ds, caps.provider.value, temporal.next)
                    else Part({}, temporal.next);
    Part(spatial.triples + temporal.triples + provider.triples, provider.next)
  }

  /** `addProfiles`: every absolute profile URI becomes a `dct:Standard`
      the service conforms to. */
  function ProfileTriples(env: Env, service: Node, caps: Capabilities): set<Triple> {
    var profiles := if caps.identification.Some? then caps.identification.value.profiles else [];
    (set p | p in profiles && env.uriIsAbsolute(p) :: Triple(service, DctConformsTo, Iri(p)))
    + (set p | p in profiles && env.uriIsAbsolute(p) :: Triple(Iri(p), RdfType, STANDARD))
  }

  /** The SOS data service: its endpoint, its description, the dataset it
      serves and the profiles it conforms to. */
  function SosService(env: Env, service: ServiceEntity, caps: Capabilities, sos: Node): set<Triple> {
    {Triple(sos, RdfType, DATA_SERVICE), Triple(sos, DcatEndpointURL, Iri(service.url)),
     Triple(sos, DcatEndpointDescription, Iri(Urls.GetCapabilitiesUrl(service.url))),
     Triple(sos, DcatServesDataset, DatasetNode(service))}
    + ProfileTriples(env, sos, caps)
  }

  /** A `dcat:Distribution` of the dataset with its title, access URL, media
      type and access service. */
  function DistributionTriples(ds: Node, dist: Node, title: string, access: string, media: string, via: Node)
    : set<Triple>
  {
    {Triple(dist, RdfType, DISTRIBUTION), Triple(dist, DctTitle, Lit(Plain(title))),
     Triple(dist, DcatAccessURL, Iri(access)), Triple(dist, DcatMediaType, Lit(Plain(media))),
     Triple(dist, DcatAccessService, via), Triple(ds, DcatDistribution, dist)}
  }

  /** The helgoland API data service, serving the dataset. */
  function ApiService(env: Env, ds: Node, api: Node): set<Triple> {
    {Triple(api, RdfType, DATA_SERVICE), Triple(api, DcatEndpointURL, Iri(env.externalUrl)),
     Triple(api, DcatEndpointDescription, Iri(API_DESCRIPTION)), Triple(api, DcatServesDataset, ds)}
  }

  /** The distribution of the SOS itself, at `b + 1`, accessed through the
      SOS service at `b`. */
  function SosDistribution(env: Env, service: ServiceEntity, caps: Capabilities, b: nat): set<Triple> {
    SosService(env, service, caps, Blank(b))
    + DistributionTriples(DatasetNode(service), Blank(b + 1), "SOS", Urls.GetCapabilitiesUrl(service.url),
                          "application/xml", Blank(b))
  }

  /** The distribution through the helgoland API, at `b + 2`, accessed
      through the API service at `b + 3`. */
  function ApiDistribution(env: Env, service: ServiceEntity, b: nat): set<Triple> {
    DistributionTriples(DatasetNode(service), Blank(b + 2), "Helgoland API",
                        Urls.ServiceUrl(env.externalUrl, service.id), "application/json", Blank(b + 3))
    + ApiService(env, DatasetNode(service), Blank(b + 3))
  }

  /** The two distributions, taking the blank ids `b` to `b + 3`. */
  function Distributions(env: Env, service: ServiceEntity, caps: Capabilities, b: nat): set<Triple> {
    SosDistribution(env, service, caps, b) + ApiDistribution(env, service, b)
  }

  /** The dataset's description without its stamps, allocating blank nodes
      from `b` in the order the description is written. */
  function DescriptionBody(env: Env, catalog: Node, service: ServiceEntity, caps: Capabilities, b: nat): (r: Part)
    ensures b <= r.next
  {
    var built := ExtentsAndProvider(env, DatasetNode(service), caps, b);
    Part(PlainTriples(env, catalog, service, caps) + built.triples + Distributions(env, service, caps, built.next),
         built.next + 4)
  }

  /** `dct:modified` is now; `dct:issued` is the earlier issue date when the
      dataset had one, else now as well. */
  function StampTriples(ds: Node, issued: Option<int>, now: int): set<Triple> {
    {Triple(ds, DctModified, Lit(DateTime(now))), Triple(ds, DctIssued, Lit(DateTime(issued.GetOr(now))))}
  }

  /** `createDatasets` after `removeDatasets`: the body and the stamps. */
  function DescribeDataset(env: Env, catalog: Node, service: ServiceEntity, caps: Capabilities,
                           issued: Option<int>, now: int, b: nat): (r: Part)
    ensures b <= r.next
  {
    var body := DescriptionBody(env, catalog, service, caps, b);
    Part(body.triples + StampTriples(DatasetNode(service), issued, now), body.next)
  }

  // ----- what each part says --------------------------------------------------

  /** Every content keyword is a resource or a literal. */
  lemma ContentKeywordNotBlank(env: Env, offerings: seq<Offering>, k: Node)
    requires k in ContentKeywords(env, offerings)
    ensures !k.Blank?
  {
    ContentKeywordsFromOfferings(env, offerings, k);
  }

  /** The plain statements use no blank node and no stamp. */
  lemma PlainFits(env: Env, catalog: Node, service: ServiceEntity, caps: Capabilities, n: nat)
    requires Below(catalog, n)
    ensures Fits(PlainTriples(env, catalog, service, caps), n)
  {
    var ds := DatasetNode(service);
    var core := CoreTriples(catalog, service);
    var identification := IdentificationTriples(env, ds, caps);
    var keywords := ContentKeywordTriples(env, ds, caps);
    assert Fits(core, n);
    assert Fits(identification, n) by { IdentificationFits(env, ds, caps); FitsMono(identification, 0, n); }
    assert Fits(keywords, n) by {
      forall k | k in ContentKeywords(env, Offerings(caps)) ensures !k.Blank? {
        ContentKeywordNotBlank(env, Offerings(caps), k);
      }
    }
    FitsUnion(core, identification, n);
    FitsUnion(core + identification, keywords, n);
  }

  /** The identification statements are plain statements about the dataset. */
  lemma IdentificationFits(env: Env, ds: Node, caps: Capabilities)
    requires !ds.Blank?
    ensures Fits(IdentificationTriples(env, ds, caps), 0)
  {
    var languages := LanguageTriples(ds, caps.languages);
    assert Fits(languages, 0);
    if caps.identification.Some? {
      var id := caps.identification.value;
      var titles := LocalizedTriples(ds, DctTitle, id.title);
      var abstracts := LocalizedTriples(ds, DctDescription, id.abstracts);
      var keywords := KeywordTriples(ds, id.keywords);
      var rights := AccessRightsTriples(env, ds, id.accessConstraints);
      assert Fits(titles, 0);
      assert Fits(abstracts, 0);
      assert Fits(keywords, 0);
      assert Fits(rights, 0);
      FitsUnion(titles, abstracts, 0);
      FitsUnion(titles + abstracts, keywords, 0);
      FitsUnion(titles + abstracts + keywords, rights, 0);
      FitsUnion(titles + abstracts + keywords + rights, languages, 0);
    }
  }

  /** The spatial extent takes at most the one new node `b` and reuses no
      older one but the dataset, and the dataset has one exactly when some
      offering has an observed area. */
  lemma SpatialFacts(ds: Node, offerings: seq<Offering>, b: nat)
    requires Below(ds, b)
    ensures var r := SpatialTriples(ds, offerings, b);
      && Fits(r.triples, r.next)
      && NewFrom(r.triples, b, ds)
      && (ValuesOf(r.triples, ds, DctSpatial) != {}
          <==> exists i :: 0 <= i < |offerings| && offerings[i].hasObservedArea)
  {
    if exists i :: 0 <= i < |offerings| && offerings[i].hasObservedArea {
      assert Blank(b) in ValuesOf(SpatialTriples(ds, offerings, b).triples, ds, DctSpatial);
    }
  }

  /** One time point: the dataset's temporal extent is the new instant,
      stamped with the time. */
  lemma InstantFacts(ds: Node, t: int, b: nat)
    requires Below(ds, b)
    ensures var r := InstantExtent(ds, t, b);
      && Fits(r.triples, r.next)
      && ValuesOf(r.triples, ds, DctTemporal) == {Blank(b)}
      && Triple(Blank(b), RdfType, TIME_INSTANT) in r.triples
      && Triple(Blank(b), TimeInXSDDateTimeStamp, Lit(Stamp(t))) in r.triples
  {
    var r := InstantExtent(ds, t, b);
    assert ValuesOf(r.triples, ds, DctTemporal) == {Blank(b)};
  }

  /** The interval and its two instants are the new nodes `b` to `b + 2`. */
  lemma IntervalFits(ds: Node, x: int, y: int, b: nat)
    requires Below(ds, b)
    ensures var r := IntervalExtent(ds, x, y, b); Fits(r.triples, r.next)
  {
    var links := IntervalLinks(ds, b);
    var begin := InstantTriples(Blank(b + 1), x);
    var end := InstantTriples(Blank(b + 2), y);
    assert Fits(links, b + 3);
    assert Fits(begin, b + 3);
    assert Fits(end, b + 3);
    FitsUnion(links, begin, b + 3);
    FitsUnion(links + begin, end, b + 3);
  }

  /** Two time points: the dataset's temporal extent is a new interval that
      begins at an instant stamped `x` and ends at one stamped `y`. */
  lemma IntervalFacts(ds: Node, x: int, y: int, b: nat)
    requires Below(ds, b)
    ensures var r := IntervalExtent(ds, x, y, b);
      && ValuesOf(r.triples, ds, DctTemporal) == {Blank(b)}
      && Triple(Blank(b), RdfType, TIME_INTERVAL) in r.triples
      && Triple(Blank(b), TimeHasBeginning, Blank(b + 1)) in r.triples
      && Triple(Blank(b + 1), TimeInXSDDateTimeStamp, Lit(Stamp(x))) in r.triples
      && Triple(Blank(b), TimeHasEnd, Blank(b + 2)) in r.triples
      && Triple(Blank(b + 2), TimeInXSDDateTimeStamp, Lit(Stamp(y))) in r.triples
  {
    var links := IntervalLinks(ds, b);
    var begin := InstantTriples(Blank(b + 1), x);
    var end := InstantTriples(Blank(b + 2), y);
    assert ValuesOf(links, ds, DctTemporal) == {Blank(b)};
    NoTemporal(begin, ds);
    NoTemporal(end, ds);
    ValuesOfUnion(links, begin, ds, DctTemporal);
    ValuesOfUnion(links + begin, end, ds, DctTemporal);
  }

  lemma NoTemporal(ts: set<Triple>, ds: Node)
    requires Avoids(ts, DctTemporal)
    ensures ValuesOf(ts, ds, DctTemporal) == {}
  {
  }

  /** The temporal extent: none without time points, else the new node `b`,
      an instant for one time point and an interval for several. */
  lemma TemporalFacts(ds: Node, offerings: seq<Offering>, b: nat)
    requires Below(ds, b)
    ensures var r := TemporalTriples(ds, offerings, b);
      && Fits(r.triples, r.next)
      && (ExtentOf(offerings).None? <==> ValuesOf(r.triples, ds, DctTemporal) == {})
      && (ExtentOf(offerings).Some? ==> ValuesOf(r.triples, ds, DctTemporal) == {Blank(b)})
      && (ExtentOf(offerings).Some? && ExtentOf(offerings).value.At? ==>
            Triple(Blank(b), RdfType, TIME_INSTANT) in r.triples
            && Triple(Blank(b), TimeInXSDDateTimeStamp, Lit(Stamp(ExtentOf(offerings).value.instant))) in r.triples)
      && (ExtentOf(offerings).Some? && ExtentOf(offerings).value.Between? ==>
            Triple(Blank(b), RdfType, TIME_INTERVAL) in r.triples
            && Triple(Blank(b + 1), TimeInXSDDateTimeStamp, Lit(Stamp(ExtentOf(offerings).value.begin))) in r.triples
            && Triple(Blank(b + 2), TimeInXSDDateTimeStamp, Lit(Stamp(ExtentOf(offerings).value.end))) in r.triples)
  {
    match ExtentOf(offerings)
    case None =>
    case Some(At(t)) => InstantFacts(ds, t, b);
    case Some(Between(x, y)) => IntervalFits(ds, x, y, b); IntervalFacts(ds, x, y, b);
  }

  /** The temporal extent reuses no blank node older than `b` but the dataset. */
  lemma TemporalNew(ds: Node, offerings: seq<Offering>, b: nat)
    ensures NewFrom(TemporalTriples(ds, offerings, b).triples, b, ds)
  {
    match ExtentOf(offerings)
    case None =>
    case Some(At(t)) =>
      assert NewFrom(InstantTriples(Blank(b), t), b, ds);
    case Some(Between(x, y)) => IntervalNew(ds, x, y, b);
  }

  /** The interval and its instants are the nodes `b` to `b + 2`. */
  lemma IntervalNew(ds: Node, x: int, y: int, b: nat)
    ensures NewFrom(IntervalExtent(ds, x, y, b).triples, b, ds)
  {
    var links := IntervalLinks(ds, b);
    var begin := InstantTriples(Blank(b + 1), x);
    var end := InstantTriples(Blank(b + 2), y);
    assert NewFrom(links, b, ds);
    assert NewFrom(begin, b, ds);
    assert NewFrom(end, b, ds);
    NewFromUnion(links, begin, b, ds);
    NewFromUnion(links + begin, end, b, ds);
  }

  /** The extents and the provider reuse no blank node older than `b` but
      the dataset. */
  lemma ExtentsAndProviderNew(env: Env, ds: Node, caps: Capabilities, b: nat)
    requires Below(ds, b)
    ensures NewFrom(ExtentsAndProvider(env, ds, caps, b).triples, b, ds)
  {
    var spatial := SpatialTriples(ds, Offerings(caps), b);
    var temporal := TemporalTriples(ds, Offerings(caps), spatial.next);
    var provider := if caps.provider.Some? then ServiceProviderTriples(env, ds, caps.provider.value, temporal.next)
                    else Part({}, temporal.next);
    SpatialFacts(ds, Offerings(caps), b);
    TemporalNew(ds, Offerings(caps), spatial.next);
    NewFromMono(temporal.triples, b, spatial.next, ds);
    if caps.provider.Some? {
      ServiceProviderFits(env, ds, caps.provider.value, temporal.next);
      NewFromMono(provider.triples, b, temporal.next, ds);
    }
    NewFromUnion(spatial.triples, temporal.triples, b, ds);
    NewFromUnion(spatial.triples + temporal.triples, provider.triples, b, ds);
  }

  /** The extents and the provider use only blank ids below the returned counter. */
  lemma ExtentsAndProviderFits(env: Env, ds: Node, caps: Capabilities, b: nat)
    requires Below(ds, b)
    ensures var r := ExtentsAndProvider(env, ds, caps, b); Fits(r.triples, r.next)
  {
    var spatial := SpatialTriples(ds, Offerings(caps), b);
    var temporal := TemporalTriples(ds, Offerings(caps), spatial.next);
    var provider := if caps.provider.Some? then ServiceProviderTriples(env, ds, caps.provider.value, temporal.next)
                    else Part({}, temporal.next);
    ExtentsFit(ds, Offerings(caps), b, provider.next);
    if caps.provider.Some? {
      ServiceProviderFits(env, ds, caps.provider.value, temporal.next);
    }
    FitsUnion(spatial.triples + temporal.triples, provider.triples, provider.next);
  }

  /** The spatial and temporal extents together fit below any later id. */
  lemma ExtentsFit(ds: Node, offerings: seq<Offering>, b: nat, n: nat)
    requires Below(ds, b)
    requires TemporalTriples(ds, offerings, SpatialTriples(ds, offerings, b).next).next <= n
    ensures Fits(SpatialTriples(ds, offerings, b).triples
                 + TemporalTriples(ds, offerings, SpatialTriples(ds, offerings, b).next).triples, n)
  {
    var spatial := SpatialTriples(ds, offerings, b);
    var temporal := TemporalTriples(ds, offerings, spatial.next);
    SpatialFacts(ds, offerings, b);
    TemporalFacts(ds, offerings, spatial.next);
    FitsMono(spatial.triples, spatial.next, n);
    FitsMono(temporal.triples, temporal.next, n);
    FitsUnion(spatial.triples, temporal.triples, n);
  }

  /** Profiles are IRIs and carry no stamps. */
  lemma ProfileFits(env: Env, sos: Node, caps: Capabilities, n: nat)
    requires Below(sos, n)
    ensures Fits(ProfileTriples(env, sos, caps), n)
  {
  }

  /** The SOS service and distribution use the blank ids `b` and `b + 1`. */
  lemma SosDistributionFits(env: Env, service: ServiceEntity, caps: Capabilities, b: nat)
    ensures Fits(SosDistribution(env, service, caps, b), b + 4)
  {
    var head := {Triple(Blank(b), RdfType, DATA_SERVICE), Triple(Blank(b), DcatEndpointURL, Iri(service.url)),
                 Triple(Blank(b), DcatEndpointDescription, Iri(Urls.GetCapabilitiesUrl(service.url))),
                 Triple(Blank(b), DcatServesDataset, DatasetNode(service))};
    var profiles := ProfileTriples(env, Blank(b), caps);
    var dist := DistributionTriples(DatasetNode(service), Blank(b + 1), "SOS", Urls.GetCapabilitiesUrl(service.url),
                                    "application/xml", Blank(b));
    ProfileFits(env, Blank(b), caps, b + 4);
    assert Fits(head, b + 4);
    assert Fits(dist, b + 4);
    FitsUnion(head, profiles, b + 4);
    FitsUnion(head + profiles, dist, b + 4);
  }

  /** The API distribution and service use the blank ids `b + 2` and `b + 3`. */
  lemma ApiDistributionFits(env: Env, service: ServiceEntity, b: nat)
    ensures Fits(ApiDistribution(env, service, b), b + 4)
  {
    var dist := DistributionTriples(DatasetNode(service), Blank(b + 2), "Helgoland API",
                                    Urls.ServiceUrl(env.externalUrl, service.id), "application/json", Blank(b + 3));
    var api := ApiService(env, DatasetNode(service), Blank(b + 3));
    assert Fits(dist, b + 4);
    assert Fits(api, b + 4);
    FitsUnion(dist, api, b + 4);
  }

  /** The distributions reuse no blank node older than `b`. */
  lemma DistributionsNew(env: Env, service: ServiceEntity, caps: Capabilities, b: nat)
    ensures NewFrom(Distributions(env, service, caps, b), b, DatasetNode(service))
  {
    SosDistributionNew(env, service, caps, b);
    ApiDistributionNew(env, service, b);
    NewFromUnion(SosDistribution(env, service, caps, b), ApiDistribution(env, service, b), b, DatasetNode(service));
  }

  /** The SOS service and distribution are the nodes `b` and `b + 1`. */
  lemma SosDistributionNew(env: Env, service: ServiceEntity, caps: Capabilities, b: nat)
    ensures NewFrom(SosDistribution(env, service, caps, b), b, DatasetNode(service))
  {
    var ds := DatasetNode(service);
    var head := {Triple(Blank(b), RdfType, DATA_SERVICE), Triple(Blank(b), DcatEndpointURL, Iri(service.url)),
                 Triple(Blank(b), DcatEndpointDescription, Iri(Urls.GetCapabilitiesUrl(service.url))),
                 Triple(Blank(b), DcatServesDataset, ds)};
    var profiles := ProfileTriples(env, Blank(b), caps);
    var dist := DistributionTriples(ds, Blank(b + 1), "SOS", Urls.GetCapabilitiesUrl(service.url),
                                    "application/xml", Blank(b));
    assert NewFrom(head, b, ds);
    assert NewFrom(profiles, b, ds);
    assert NewFrom(dist, b, ds);
    NewFromUnion(head, profiles, b, ds);
    NewFromUnion(head + profiles, dist, b, ds);
  }

  /** The API distribution and service are the nodes `b + 2` and `b + 3`. */
  lemma ApiDistributionNew(env: Env, service: ServiceEntity, b: nat)
    ensures NewFrom(ApiDistribution(env, service, b), b, DatasetNode(service))
  {
    var ds := DatasetNode(service);
    var dist := DistributionTriples(ds, Blank(b + 2), "Helgoland API",
                                    Urls.ServiceUrl(env.externalUrl, service.id), "application/json", Blank(b + 3));
    var api := ApiService(env, ds, Blank(b + 3));
    assert NewFrom(dist, b, ds);
    assert NewFrom(api, b, ds);
    NewFromUnion(dist, api, b, ds);
  }

  /** The two distributions and their services take exactly the blank ids
      `b` to `b + 3`: every blank node they mention is one of them. */
  lemma DistributionsFits(env: Env, service: ServiceEntity, caps: Capabilities, b: nat)
    ensures Fits(Distributions(env, service, caps, b), b + 4)
    ensures NewFrom(Distributions(env, service, caps, b), b, DatasetNode(service))
  {
    DistributionsNew(env, service, caps, b);
    SosDistributionFits(env, service, caps, b);
    ApiDistributionFits(env, service, b);
    FitsUnion(SosDistribution(env, service, caps, b), ApiDistribution(env, service, b), b + 4);
  }

  /** Every blank node of the body is below the returned counter, and the
      body stamps nothing. */
  lemma DescriptionBodyFits(env: Env, catalog: Node, service: ServiceEntity, caps: Capabilities, b: nat)
    requires Below(catalog, b)
    ensures var r := DescriptionBody(env, catalog, service, caps, b); Fits(r.triples, r.next)
  {
    var built := ExtentsAndProvider(env, DatasetNode(service), caps, b);
    var n := built.next + 4;
    var plain := PlainTriples(env, catalog, service, caps);
    var dists := Distributions(env, service, caps, built.next);
    PlainFits(env, catalog, service, caps, n);
    ExtentsAndProviderFits(env, DatasetNode(service), caps, b);
    FitsMono(built.triples, built.next, n);
    DistributionsFits(env, service, caps, built.next);
    FitsUnion(plain, built.triples, n);
    FitsUnion(plain + built.triples, dists, n);
  }

  /** The description reuses no blank node older than `b` but the catalog. */
  lemma DescribeNew(env: Env, catalog: Node, service: ServiceEntity, caps: Capabilities,
                    issued: Option<int>, now: int, b: nat)
    ensures NewFrom(DescribeDataset(env, catalog, service, caps, issued, now, b).triples, b, catalog)
  {
    var ds := DatasetNode(service);
    var built := ExtentsAndProvider(env, ds, caps, b);
    var plain := PlainTriples(env, catalog, service, caps);
    var dists := Distributions(env, service, caps, built.next);
    var stamps := StampTriples(ds, issued, now);
    PlainNew(env, catalog, service, caps, b);
    ExtentsAndProviderNew(env, ds, caps, b);
    NewFromRekeep(built.triples, b, ds, catalog);
    DistributionsNew(env, service, caps, built.next);
    NewFromMono(dists, b, built.next, ds);
    NewFromRekeep(dists, b, ds, catalog);
    assert NewFrom(stamps, b, catalog);
    NewFromUnion(plain, built.triples, b, catalog);
    NewFromUnion(plain + built.triples, dists, b, catalog);
    NewFromUnion(plain + built.triples + dists, stamps, b, catalog);
  }

  /** The plain statements mention no blank node but the catalog. */
  lemma PlainNew(env: Env, catalog: Node, service: ServiceEntity, caps: Capabilities, b: nat)
    ensures NewFrom(PlainTriples(env, catalog, service, caps), b, catalog)
  {
    var ds := DatasetNode(service);
    var core := CoreTriples(catalog, service);
    var identification := IdentificationTriples(env, ds, caps);
    var keywords := ContentKeywordTriples(env, ds, caps);
    assert NewFrom(core, b, catalog);
    assert NewFrom(identification, b, catalog) by { IdentificationFits(env, ds, caps); }
    assert NewFrom(keywords, b, catalog) by {
      forall k | k in ContentKeywords(env, Offerings(caps)) ensures !k.Blank? {
        ContentKeywordNotBlank(env, Offerings(caps), k);
      }
    }
    NewFromUnion(core, identification, b, catalog);
    NewFromUnion(core + identification, keywords, b, catalog);
  }

  /** Every blank node of the description but the catalog is new: its id
      lies between `b` and the returned counter. */
  lemma DescribeFits(env: Env, catalog: Node, service: ServiceEntity, caps: Capabilities,
                     issued: Option<int>, now: int, b: nat)
    requires Below(catalog, b)
    ensures var r := DescribeDataset(env, catalog, service, caps, issued, now, b);
      BlanksBelow(r.triples, r.next) && NewFrom(r.triples, b, catalog)
  {
    DescribeNew(env, catalog, service, caps, issued, now, b);
    var body := DescriptionBody(env, catalog, service, caps, b);
    var stamps := StampTriples(DatasetNode(service), issued, now);
    DescriptionBodyFits(env, catalog, service, caps, b);
    StampsBelow(DatasetNode(service), issued, now, body.next);
    BlanksBelowUnion(body.triples, stamps, body.next);
  }

  /** The stamps of an IRI hold no blank node. */
  lemma StampsBelow(ds: Node, issued: Option<int>, now: int, n: nat)
    requires !ds.Blank?
    ensures BlanksBelow(StampTriples(ds, issued, now), n)
  {
  }

  /** The description stamps the dataset once each: `modified` with now and
      `issued` with the earlier issue date, or now on a first description. */
  lemma DescribeStamps(env: Env, catalog: Node, service: ServiceEntity, caps: Capabilities,
                       issued: Option<int>, now: int, b: nat)
    requires Below(catalog, b)
    ensures var r := DescribeDataset(env, catalog, service, caps, issued, now, b).triples;
      && ValuesOf(r, DatasetNode(service), DctModified) == {Lit(DateTime(now))}
      && ValuesOf(r, DatasetNode(service), DctIssued) == {Lit(DateTime(issued.GetOr(now)))}
      && forall t :: t in r && (t.p == DctIssued || t.p == DctModified) ==> t.s == DatasetNode(service)
  {
    var body := DescriptionBody(env, catalog, service, caps, b).triples;
    DescriptionBodyFits(env, catalog, service, caps, b);
    StampsOver(body, DatasetNode(service), issued, now);
  }

  /** Stamping unstamped triples: exactly one `modified` and one `issued`. */
  lemma StampsOver(body: set<Triple>, ds: Node, issued: Option<int>, now: int)
    requires Unstamped(body) && !ds.Blank?
    ensures var r := body + StampTriples(ds, issued, now);
      && ValuesOf(r, ds, DctModified) == {Lit(DateTime(now))}
      && ValuesOf(r, ds, DctIssued) == {Lit(DateTime(issued.GetOr(now)))}
      && forall t :: t in r && (t.p == DctIssued || t.p == DctModified) ==> t.s == ds
  {
    var stamps := StampTriples(ds, issued, now);
    ValuesOfUnion(body, stamps, ds, DctModified);
    ValuesOfUnion(body, stamps, ds, DctIssued);
    assert ValuesOf(body, ds, DctModified) == {};
    assert ValuesOf(body, ds, DctIssued) == {};
    assert ValuesOf(stamps, ds, DctModified) == {Lit(DateTime(now))};
  }

  /** The catalog lists the dataset, whose landing page is the service's
      GetCapabilities URL and whose identifiers are the service's identifier,
      its id and its URL. */
  lemma DescribeCore(env: Env, catalog: Node, service: ServiceEntity, caps: Capabilities,
                     issued: Option<int>, now: int, b: nat)
    requires Below(catalog, b)
    ensures var r := DescribeDataset(env, catalog, service, caps, issued, now, b).triples;
      var ds := DatasetNode(service);
      && Triple(catalog, DcatDataset, ds) in r
      && Triple(ds, RdfType, DATASET) in r
      && Triple(ds, DcatLandingPage, Iri(Urls.GetCapabilitiesUrl(service.url))) in r
      && Triple(ds, DctIdentifier, Lit(Plain(service.identifier))) in r
      && Triple(ds, DctIdentifier, Lit(Long(service.id))) in r
      && Triple(ds, DctIdentifier, Lit(Plain(service.url))) in r
  {
    assert CoreTriples(catalog, service) <= PlainTriples(env, catalog, service, caps);
  }

  /** Every keyword an offering contributes is a keyword of the dataset. */
  lemma DescribeKeywords(env: Env, catalog: Node, service: ServiceEntity, caps: Capabilities,
                         issued: Option<int>, now: int, b: nat, i: nat, k: Node)
    requires Below(catalog, b)
    requires i < |Offerings(caps)| && k in OfferingKeywords(env, Offerings(caps)[i])
    ensures k in ValuesOf(DescribeDataset(env, catalog, service, caps, issued, now, b).triples,
                          DatasetNode(service), DcatKeyword)
  {
    var ds := DatasetNode(service);
    ContentKeywordsFromOfferings(env, Offerings(caps), k);
    assert Triple(ds, DcatKeyword, k) in PlainTriples(env, catalog, service, caps);
  }

  /** The identification section and the languages reach the dataset: each
      title and abstract in its language, each keyword, each access
      constraint as a resource or a literal, and each language. */
  lemma DescribeIdentification(env: Env, catalog: Node, service: ServiceEntity, caps: Capabilities,
                               issued: Option<int>, now: int, b: nat)
    requires Below(catalog, b)
    ensures var r := DescribeDataset(env, catalog, service, caps, issued, now, b).triples;
      var ds := DatasetNode(service);
      && (forall l :: l in caps.languages ==> Triple(ds, DctLanguage, Lit(Plain(l))) in r)
      && (caps.identification.Some? ==>
            var id := caps.identification.value;
            && (forall l :: l in id.title ==> Triple(ds, DctTitle, LangLiteral(l.text, l.lang)) in r)
            && (forall l :: l in id.abstracts ==> Triple(ds, DctDescription, LangLiteral(l.text, l.lang)) in r)
            && (forall k :: k in id.keywords ==> Triple(ds, DcatKeyword, LangLiteral(k.value, k.lang.GetOr(""))) in r)
            && (forall c :: c in id.accessConstraints ==> Triple(ds, DctAccessRights, ResourceOrLiteral(env, c)) in r))
  {
    assert IdentificationTriples(env, DatasetNode(service), caps) <= PlainTriples(env, catalog, service, caps);
  }
}
