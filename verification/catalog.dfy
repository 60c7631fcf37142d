/** The catalog graph store of `CatalogTransformer`: the graph with its one
    catalog resource, its start-up, the mark-and-sweep removal of a
    dataset, its rebuild, and the handling of one harvest result. */
module Catalog {
  import opened Wrappers
  import opened Rdf
  import opened Closure
  import opened Sos
  import opened Describe
  import opened DatasetDescription

  /** The store: the graph, the catalog resource found or created at start-up,
      and the first blank-node id not used by the graph. */
  datatype Store = Store(graph: Graph, catalog: Node, next: nat)

  /** What every operation keeps: blank ids below `next`, and the catalog
      typed as a `dcat:Catalog` in the graph. */
  predicate Valid(st: Store) {
    && BlanksBelow(st.graph, st.next)
    && Below(st.catalog, st.next)
    && Triple(st.catalog, RdfType, CATALOG) in st.graph
  }

  /** Adding triples whose blank nodes are below `n >= next` keeps the store valid. */
  lemma ValidExtend(st: Store, extra: set<Triple>, n: nat)
    requires Valid(st) && BlanksBelow(extra, n) && st.next <= n
    ensures Valid(Store(st.graph + extra, st.catalog, n))
  {
    BlanksBelowMono(st.graph, st.next, n);
    BlanksBelowUnion(st.graph, extra, n);
  }

  // ----- start-up -----------------------------------------------------------

  /** The configured catalog settings; `None` stands for an unset (null) value. */
  datatype CatalogProperties = CatalogProperties(
    title: Option<string>,
    description: Option<string>,
    publisher: Option<string>,
    homepage: Option<string>,
    license: Option<string>,
    language: Option<string>)

  /** Neither null nor empty. */
  predicate NonEmpty(s: Option<string>) {
    s.Some? && s.value != ""
  }

  /** `UriUtil.isAbsoluteURI` on a possibly unset value. */
  predicate AbsoluteUri(env: Env, s: Option<string>) {
    s.Some? && env.isAbsoluteUri(s.value)
  }

  /** The optional statements `createCatalog` makes from the settings. */
  datatype Setting = Title | Description | Publisher | Homepage | License | Language

  const SETTINGS: seq<Setting> := [Title, Description, Publisher, Homepage, License, Language]

  function SettingProp(s: Setting): (p: Prop)
    ensures p != RdfType && p != DctModified && p != DctIssued
  {
    match s
    case Title => DctTitle
    case Description => DctDescription
    case Publisher => DctPublisher
    case Homepage => FoafHomepage
    case License => DctLicense
    case Language => DctLanguage
  }

  /** Title, description and language are stated when non-empty; publisher,
      homepage and licence when they are absolute URIs. */
  predicate SettingPresent(env: Env, props: CatalogProperties, s: Setting) {
    match s
    case Title => NonEmpty(props.title)
    case Description => NonEmpty(props.description)
    case Publisher => AbsoluteUri(env, props.publisher)
    case Homepage => AbsoluteUri(env, props.homepage)
    case License => AbsoluteUri(env, props.license)
    case Language => NonEmpty(props.language)
  }

  /** Texts are tagged with the configured language (none when unset); links
      are resources. */
  function SettingValue(props: CatalogProperties, s: Setting): Node {
    var lang := props.language.GetOr("");
    match s
    case Title => LangLiteral(props.title.GetOr(""), lang)
    case Description => LangLiteral(props.description.GetOr(""), lang)
    case Publisher => Iri(props.publisher.GetOr(""))
    case Homepage => Iri(props.homepage.GetOr(""))
    case License => Iri(props.license.GetOr(""))
    case Language => Lit(Plain(lang))
  }

  lemma SettingPropInjective(s: Setting, u: Setting)
    requires SettingProp(s) == SettingProp(u)
    ensures s == u
  {
  }

  /** The settings' optional statements about catalog `c`. */
  function CatalogSettings(env: Env, props: CatalogProperties, c: Node): (r: set<Triple>)
    ensures forall t :: t in r ==> t.s == c && !t.o.Blank? && t.p != DctModified && t.p != DctIssued
  {
    set s | s in SETTINGS && SettingPresent(env, props, s) :: Triple(c, SettingProp(s), SettingValue(props, s))
  }

  /** `createCatalog`: a fresh `dcat:Catalog` issued and modified now. */
  function CreateCatalog(env: Env, props: CatalogProperties, now: int, b: nat): (r: NodePart)
    ensures r.node == Blank(b) && r.next == b + 1
    ensures BlanksBelow(r.triples, r.next)
    ensures forall t :: t in r.triples ==> t.s == r.node
    ensures Triple(r.node, RdfType, CATALOG) in r.triples
    ensures ValuesOf(r.triples, r.node, DctModified) == {Lit(DateTime(now))}
    ensures ValuesOf(r.triples, r.node, DctIssued) == {Lit(DateTime(now))}
  {
    var c := Blank(b);
    var fixed := {Triple(c, RdfType, CATALOG), Triple(c, DctModified, Lit(DateTime(now))),
                  Triple(c, DctIssued, Lit(DateTime(now)))};
    var settings := CatalogSettings(env, props, c);
    ValuesOfUnion(fixed, settings, c, DctModified);
    ValuesOfUnion(fixed, settings, c, DctIssued);
    assert ValuesOf(settings, c, DctModified) == {} && ValuesOf(settings, c, DctIssued) == {};
    assert ValuesOf(fixed, c, DctModified) == {Lit(DateTime(now))};
    assert ValuesOf(fixed, c, DctIssued) == {Lit(DateTime(now))};
    NodePart(c, fixed + settings, b + 1)
  }

  /** Each optional setting is stated exactly when present, with its value. */
  lemma CreateCatalogSetting(env: Env, props: CatalogProperties, now: int, b: nat, s: Setting)
    ensures var r := CreateCatalog(env, props, now, b);
      ValuesOf(r.triples, r.node, SettingProp(s))
        == if SettingPresent(env, props, s) then {SettingValue(props, s)} else {}
  {
    var c := Blank(b);
    var fixed := {Triple(c, RdfType, CATALOG), Triple(c, DctModified, Lit(DateTime(now))),
                  Triple(c, DctIssued, Lit(DateTime(now)))};
    ValuesOfUnion(fixed, CatalogSettings(env, props, c), c, SettingProp(s));
    assert ValuesOf(fixed, c, SettingProp(s)) == {};
    SettingValues(env, props, c, s);
  }

  lemma SettingValues(env: Env, props: CatalogProperties, c: Node, s: Setting)
    ensures ValuesOf(CatalogSettings(env, props, c), c, SettingProp(s))
      == if SettingPresent(env, props, s) then {SettingValue(props, s)} else {}
  {
    var settings := CatalogSettings(env, props, c);
    forall o | o in ValuesOf(settings, c, SettingProp(s))
      ensures SettingPresent(env, props, s) && o == SettingValue(props, s)
    {
      var t :| t in settings && t.s == c && t.p == SettingProp(s) && t.o == o;
      var u :| u in SETTINGS && SettingPresent(env, props, u)
               && t == Triple(c, SettingProp(u), SettingValue(props, u));
      SettingPropInjective(u, s);
    }
    if SettingPresent(env, props, s) {
      assert s in SETTINGS;
      assert Triple(c, SettingProp(s), SettingValue(props, s)) in settings;
    }
  }

  /** The subjects typed `dcat:Catalog`. */
  function CatalogsOf(g: Graph): set<Node> {
    set t | t in g && t.p == RdfType && t.o == CATALOG :: t.s
  }

  /** `findCatalog`: some subject typed `dcat:Catalog`, when there is one.
      Which one is left open, as the graph's subject iterator leaves it. */
  ghost function FindCatalog(g: Graph): (r: Option<Node>)
    ensures r.None? <==> CatalogsOf(g) == {}
    ensures r.Some? ==> Triple(r.value, RdfType, CATALOG) in g
  {
    if CatalogsOf(g) == {} then None
    else
      var c :| c in CatalogsOf(g);
      Some(c)
  }

  /** One more than the largest blank id of a node, or 0. */
  function IdBound(n: Node): (r: nat)
    ensures n.Blank? ==> n.id < r
  {
    if n.Blank? then n.id + 1 else 0
  }

  /** A bound on the blank ids of a graph read from storage. */
  ghost function BlankBound(g: Graph): (r: nat)
    ensures BlanksBelow(g, r)
    decreases |g|
  {
    if g == {} then 0
    else
      var t :| t in g;
      var rest := BlankBound(g - {t});
      var own := if IdBound(t.s) < IdBound(t.o) then IdBound(t.o) else IdBound(t.s);
      if rest < own then own else rest
  }

  /** `init`: the stored graph (or an empty one), with its catalog found or,
      when it has none, created. */
  ghost function Init(env: Env, props: CatalogProperties, stored: Option<Graph>, now: int): (st: Store)
    ensures Valid(st)
    ensures stored.GetOr({}) <= st.graph
    ensures CatalogsOf(stored.GetOr({})) != {} ==> st.graph == stored.GetOr({}) && st.catalog in CatalogsOf(st.graph)
    ensures CatalogsOf(stored.GetOr({})) == {} ==>
      st.graph == stored.GetOr({}) + CreateCatalog(env, props, now, BlankBound(stored.GetOr({}))).triples
  {
    var g := stored.GetOr({});
    var n := BlankBound(g);
    match FindCatalog(g)
    case Some(c) =>
      assert Below(c, n) by {
        assert Triple(c, RdfType, CATALOG) in g;
      }
      Store(g, c, n)
    case None =>
      var created := CreateCatalog(env, props, now, n);
      BlanksBelowMono(g, n, created.next);
      BlanksBelowUnion(g, created.triples, created.next);
      Store(g + created.triples, created.node, created.next)
  }

  // ----- removal of a dataset -----------------------------------------------

  /** The `dct:issued` times stated for `ds` as `xsd:dateTime` literals. */
  function IssuedTimes(g: Graph, ds: Node): set<int> {
    set t | t in g && t.s == ds && t.p == DctIssued && t.o.Lit? && t.o.literal.DateTime? :: t.o.literal.millis
  }

  /** `dataset.getProperty(DCTerms.issued)`: some issued time of the
      dataset, when it has one. */
  ghost function PriorIssued(g: Graph, ds: Node): (r: Option<int>)
    ensures r.None? <==> IssuedTimes(g, ds) == {}
    ensures r.Some? ==> Lit(DateTime(r.value)) in ValuesOf(g, ds, DctIssued)
  {
    if IssuedTimes(g, ds) == {} then None
    else
      var x :| x in IssuedTimes(g, ds);
      Some(x)
  }

  /** A dataset issued once has that one issue time. */
  lemma SingleIssued(g: Graph, ds: Node, x: int)
    requires ValuesOf(g, ds, DctIssued) == {Lit(DateTime(x))}
    ensures IssuedTimes(g, ds) == {x}
    ensures PriorIssued(g, ds) == Some(x)
  {
    assert Triple(ds, DctIssued, Lit(DateTime(x))) in g;
    assert IssuedTimes(g, ds) == {x} by {
      forall y | y in IssuedTimes(g, ds)
        ensures y == x
      {
        var t :| t in g && t.s == ds && t.p == DctIssued && t.o.Lit? && t.o.literal.DateTime?
                 && t.o.literal.millis == y;
        assert t.o in ValuesOf(g, ds, DctIssued);
      }
    }
  }

  /** The catalog-to-dataset link. */
  function Link(catalog: Node, service: ServiceEntity): Triple {
    Triple(catalog, DcatDataset, DatasetNode(service))
  }

  /** The graph after `getDatasetResource` typed the dataset and the link was removed. */
  function Unlinked(st: Store, service: ServiceEntity): Graph {
    st.graph + {DatasetType(service)} - {Link(st.catalog, service)}
  }

  /** The issue time read by `removeDatasets` and the swept store. */
  datatype Removal = Removal(issued: Option<int>, store: Store)

  /** `removeDatasets`: read the dataset's issue time, unlink it from the
      catalog, and sweep whatever is no longer reachable from the catalog. */
  ghost function RemoveDatasets(st: Store, service: ServiceEntity): (r: Removal)
    ensures r.store.catalog == st.catalog && r.store.next == st.next
    ensures r.store.graph == ReachableClosure(Unlinked(st, service), st.catalog)
    ensures r.store.graph <= st.graph + {DatasetType(service)}
    ensures Link(st.catalog, service) !in r.store.graph
    ensures forall t :: t in st.graph && t.s == st.catalog && t != Link(st.catalog, service) ==> t in r.store.graph
    ensures r.issued.Some? ==> r.issued.value in IssuedTimes(st.graph, DatasetNode(service))
    ensures r.issued.None? <==> IssuedTimes(st.graph, DatasetNode(service)) == {}
  {
    var ds := DatasetNode(service);
    var typed := st.graph + {DatasetType(service)};
    assert IssuedTimes(typed, ds) == IssuedTimes(st.graph, ds);
    var issued := PriorIssued(typed, ds);
    var swept := Sweep(Unlinked(st, service), st.catalog);
    SweepIsClosure(Unlinked(st, service), st.catalog);
    Removal(issued, Store(swept, st.catalog, st.next))
  }

  /** Removal keeps the store valid: the catalog's own type survives the sweep. */
  lemma RemoveDatasetsValid(st: Store, service: ServiceEntity)
    requires Valid(st)
    ensures Valid(RemoveDatasets(st, service).store)
  {
    var r := RemoveDatasets(st, service).store;
    assert Triple(st.catalog, RdfType, CATALOG) in r.graph;
    assert DatasetType(service).s.Iri?;
  }

  /** A dataset no longer reachable once unlinked keeps no statement of its own. */
  lemma RemoveDatasetsForgets(st: Store, service: ServiceEntity, p: Prop)
    requires DatasetNode(service) !in Reachable(Unlinked(st, service), st.catalog)
    ensures ValuesOf(RemoveDatasets(st, service).store.graph, DatasetNode(service), p) == {}
  {
  }

  // ----- rebuild ------------------------------------------------------------

  /** `createDatasets`: remove the old description and write the new one,
      carrying the earlier issue time forward. */
  ghost function CreateDatasets(env: Env, st: Store, service: ServiceEntity, caps: Capabilities, now: int)
    : (r: Store)
    requires Valid(st)
    ensures Valid(r) && r.catalog == st.catalog
  {
    var removal := RemoveDatasets(st, service);
    RemoveDatasetsValid(st, service);
    var d := DescribeDataset(env, st.catalog, service, caps, removal.issued, now, st.next);
    DescribeFits(env, st.catalog, service, caps, removal.issued, now, st.next);
    ValidExtend(removal.store, d.triples, d.next);
    Store(removal.store.graph + d.triples, st.catalog, d.next)
  }

  /** Statements about a subject with no values for `p` add none to a union. */
  lemma NoValuesUnion(a: Graph, b: Graph, s: Node, p: Prop)
    requires ValuesOf(a, s, p) == {}
    ensures ValuesOf(a + b, s, p) == ValuesOf(b, s, p)
  {
    ValuesOfUnion(a, b, s, p);
  }

  /** Re-synchronising a dataset that its unlinking made unreachable leaves
      it with one `modified` time, now, and one `issued` time: the one read
      before the sweep, or now when it had none. */
  lemma ResyncStamps(env: Env, st: Store, service: ServiceEntity, caps: Capabilities, now: int)
    requires Valid(st)
    requires DatasetNode(service) !in Reachable(Unlinked(st, service), st.catalog)
    ensures var r := CreateDatasets(env, st, service, caps, now).graph;
      var issued := RemoveDatasets(st, service).issued;
      && ValuesOf(r, DatasetNode(service), DctModified) == {Lit(DateTime(now))}
      && ValuesOf(r, DatasetNode(service), DctIssued) == {Lit(DateTime(issued.GetOr(now)))}
  {
    var ds := DatasetNode(service);
    var removal := RemoveDatasets(st, service);
    var d := DescribeDataset(env, st.catalog, service, caps, removal.issued, now, st.next);
    assert CreateDatasets(env, st, service, caps, now).graph == removal.store.graph + d.triples;
    RemoveDatasetsForgets(st, service, DctModified);
    RemoveDatasetsForgets(st, service, DctIssued);
    NoValuesUnion(removal.store.graph, d.triples, ds, DctModified);
    NoValuesUnion(removal.store.graph, d.triples, ds, DctIssued);
    DescribeStamps(env, st.catalog, service, caps, removal.issued, now, st.next);
  }

  /** A dataset issued at `x` before the re-synchronisation is still issued at `x`. */
  lemma ResyncKeepsIssued(env: Env, st: Store, service: ServiceEntity, caps: Capabilities, now: int, x: int)
    requires Valid(st)
    requires DatasetNode(service) !in Reachable(Unlinked(st, service), st.catalog)
    requires IssuedTimes(st.graph, DatasetNode(service)) == {x}
    ensures ValuesOf(CreateDatasets(env, st, service, caps, now).graph, DatasetNode(service), DctIssued)
      == {Lit(DateTime(x))}
  {
    var issued := RemoveDatasets(st, service).issued;
    assert issued == Some(x) by {
      assert issued.Some?;
      assert issued.value in IssuedTimes(st.graph, DatasetNode(service));
    }
    ResyncStamps(env, st, service, caps, now);
  }

  /** A dataset never issued before is issued now, at the time of `modified`. */
  lemma ResyncFirstIssue(env: Env, st: Store, service: ServiceEntity, caps: Capabilities, now: int)
    requires Valid(st)
    requires DatasetNode(service) !in Reachable(Unlinked(st, service), st.catalog)
    requires IssuedTimes(st.graph, DatasetNode(service)) == {}
    ensures var r := CreateDatasets(env, st, service, caps, now).graph;
      ValuesOf(r, DatasetNode(service), DctIssued) == ValuesOf(r, DatasetNode(service), DctModified)
  {
    ResyncStamps(env, st, service, caps, now);
  }

  /** Synchronising the same service twice keeps the first pass's `issued`
      while `modified` moves to the second pass's time. */
  lemma ResyncTwice(env: Env, st: Store, service: ServiceEntity, caps1: Capabilities, caps2: Capabilities,
                    now1: int, now2: int)
    requires Valid(st)
    requires DatasetNode(service) !in Reachable(Unlinked(st, service), st.catalog)
    requires var st1 := CreateDatasets(env, st, service, caps1, now1);
      DatasetNode(service) !in Reachable(Unlinked(st1, service), st1.catalog)
    ensures var st1 := CreateDatasets(env, st, service, caps1, now1);
      var st2 := CreateDatasets(env, st1, service, caps2, now2);
      && ValuesOf(st2.graph, DatasetNode(service), DctIssued) == ValuesOf(st1.graph, DatasetNode(service), DctIssued)
      && ValuesOf(st2.graph, DatasetNode(service), DctModified) == {Lit(DateTime(now2))}
  {
    var st1 := CreateDatasets(env, st, service, caps1, now1);
    ResyncStamps(env, st, service, caps1, now1);
    ResyncAgain(env, st1, service, caps2, now2, RemoveDatasets(st, service).issued.GetOr(now1));
  }

  /** A dataset carrying one `issued` time keeps it through a re-synchronisation
      that stamps it modified now. */
  lemma ResyncAgain(env: Env, st: Store, service: ServiceEntity, caps: Capabilities, now: int, x: int)
    requires Valid(st)
    requires DatasetNode(service) !in Reachable(Unlinked(st, service), st.catalog)
    requires ValuesOf(st.graph, DatasetNode(service), DctIssued) == {Lit(DateTime(x))}
    ensures var r := CreateDatasets(env, st, service, caps, now).graph;
      && ValuesOf(r, DatasetNode(service), DctIssued) == {Lit(DateTime(x))}
      && ValuesOf(r, DatasetNode(service), DctModified) == {Lit(DateTime(now))}
  {
    SingleIssued(st.graph, DatasetNode(service), x);
    ResyncKeepsIssued(env, st, service, caps, now, x);
    ResyncStamps(env, st, service, caps, now);
  }

  // ----- one harvest result -------------------------------------------------

  /** A harvest result: the service it describes and its capabilities
      document, decoded or not. */
  datatype Harvest = Harvest(service: ServiceEntity, capabilities: Result<Capabilities, string>)

  /** `catalog.removeAll(DCTerms.modified)` followed by a new `modified`. */
  function ReplaceCatalogModified(st: Store, now: int): (r: Store)
    ensures r.catalog == st.catalog && r.next == st.next
    ensures ValuesOf(r.graph, st.catalog, DctModified) == {Lit(DateTime(now))}
    ensures forall t: Triple :: t.s != st.catalog || t.p != DctModified ==> (t in r.graph <==> t in st.graph)
    ensures Valid(st) ==> Valid(r)
  {
    var kept := set t | t in st.graph && (t.s != st.catalog || t.p != DctModified);
    var stamp := Triple(st.catalog, DctModified, Lit(DateTime(now)));
    ValuesOfUnion(kept, {stamp}, st.catalog, DctModified);
    assert ValuesOf(kept, st.catalog, DctModified) == {};
    assert ValuesOf({stamp}, st.catalog, DctModified) == {Lit(DateTime(now))};
    Store(kept + {stamp}, st.catalog, st.next)
  }

  /** `onResult`: nothing for a missing result or an undecodable document;
      otherwise the catalog's `modified` is replaced and the dataset rebuilt. */
  ghost function OnResult(env: Env, st: Store, result: Option<Harvest>, catalogNow: int, datasetNow: int)
    : (r: Store)
    requires Valid(st)
    ensures Valid(r) && r.catalog == st.catalog
    ensures result.None? ==> r == st
    ensures result.Some? && result.value.capabilities.Failure? ==> r == st
  {
    match result
    case None => st
    case Some(harvest) =>
      match harvest.capabilities
      case Failure(_) => st
      case Success(caps) =>
        CreateDatasets(env, ReplaceCatalogModified(st, catalogNow), harvest.service, caps, datasetNow)
  }

  /** After a decoded result the catalog has one `modified` time, the one
      stamped before the rebuild, provided the dataset is not the catalog. */
  lemma OnResultStampsCatalog(env: Env, st: Store, harvest: Harvest, catalogNow: int, datasetNow: int)
    requires Valid(st) && harvest.capabilities.Success?
    requires DatasetNode(harvest.service) != st.catalog
    ensures ValuesOf(OnResult(env, st, Some(harvest), catalogNow, datasetNow).graph, st.catalog, DctModified)
      == {Lit(DateTime(catalogNow))}
  {
    var st1 := ReplaceCatalogModified(st, catalogNow);
    ResyncKeepsCatalogModified(env, st1, harvest.service, harvest.capabilities.value, datasetNow, catalogNow);
  }

  /** Re-synchronising a dataset leaves the catalog's `modified` time alone. */
  lemma ResyncKeepsCatalogModified(env: Env, st: Store, service: ServiceEntity, caps: Capabilities,
                                   now: int, stamp: int)
    requires Valid(st) && DatasetNode(service) != st.catalog
    requires ValuesOf(st.graph, st.catalog, DctModified) == {Lit(DateTime(stamp))}
    ensures ValuesOf(CreateDatasets(env, st, service, caps, now).graph, st.catalog, DctModified)
      == {Lit(DateTime(stamp))}
  {
    SweptCatalogModified(st, service, stamp);
    CreateDatasetsFrame(env, st, service, caps, now, st.catalog);
  }

  /** The rebuild changes no other subject's `modified` time than the dataset's. */
  lemma CreateDatasetsFrame(env: Env, st: Store, service: ServiceEntity, caps: Capabilities, now: int, s: Node)
    requires Valid(st) && s != DatasetNode(service)
    ensures ValuesOf(CreateDatasets(env, st, service, caps, now).graph, s, DctModified)
      == ValuesOf(RemoveDatasets(st, service).store.graph, s, DctModified)
  {
    var removal := RemoveDatasets(st, service);
    var d := DescribeDataset(env, st.catalog, service, caps, removal.issued, now, st.next);
    CreateDatasetsParts(env, st, service, caps, now);
    DescribeStampsOnlyDataset(env, st.catalog, service, caps, removal.issued, now, st.next, s);
    ValuesOfUnion(removal.store.graph, d.triples, s, DctModified);
  }

  /** Only unfolds the definition of `CreateDatasets`, so that the lemmas
      about the rebuild need not unfold it in their own larger contexts. */
  lemma CreateDatasetsParts(env: Env, st: Store, service: ServiceEntity, caps: Capabilities, now: int)
    requires Valid(st)
    ensures var removal := RemoveDatasets(st, service);
      CreateDatasets(env, st, service, caps, now).graph
        == removal.store.graph + DescribeDataset(env, st.catalog, service, caps, removal.issued, now, st.next).triples
  {
  }

  /** The rebuild keeps every statement the sweep left, and every statement it
      adds mentions no blank node older than the store's counter except the
      catalog: the description reuses no node of the old graph. */
  lemma CreateDatasetsAddsNew(env: Env, st: Store, service: ServiceEntity, caps: Capabilities, now: int)
    requires Valid(st)
    ensures var swept := RemoveDatasets(st, service).store.graph;
      var r := CreateDatasets(env, st, service, caps, now);
      && swept <= r.graph && st.next <= r.next
      && NewFrom(r.graph - swept, st.next, st.catalog)
  {
    var removal := RemoveDatasets(st, service);
    var d := DescribeDataset(env, st.catalog, service, caps, removal.issued, now, st.next);
    CreateDatasetsParts(env, st, service, caps, now);
    DescribeNew(env, st.catalog, service, caps, removal.issued, now, st.next);
    DescribeFits(env, st.catalog, service, caps, removal.issued, now, st.next);
    assert CreateDatasets(env, st, service, caps, now).graph - removal.store.graph <= d.triples;
  }

  /** The description stamps no subject but the dataset. */
  lemma DescribeStampsOnlyDataset(env: Env, catalog: Node, service: ServiceEntity, caps: Capabilities,
                                  issued: Option<int>, now: int, b: nat, other: Node)
    requires Below(catalog, b) && other != DatasetNode(service)
    ensures ValuesOf(DescribeDataset(env, catalog, service, caps, issued, now, b).triples, other, DctModified) == {}
  {
    DescribeStamps(env, catalog, service, caps, issued, now, b);
    OthersUnstamped(DescribeDataset(env, catalog, service, caps, issued, now, b).triples, DatasetNode(service), other);
  }

  /** Triples that stamp only `ds` say nothing of another subject's `modified`. */
  lemma OthersUnstamped(g: Graph, ds: Node, other: Node)
    requires forall t :: t in g && (t.p == DctIssued || t.p == DctModified) ==> t.s == ds
    requires other != ds
    ensures ValuesOf(g, other, DctModified) == {}
  {
  }

  /** The sweep keeps the catalog's own `modified` time and adds none. */
  lemma SweptCatalogModified(st: Store, service: ServiceEntity, now: int)
    requires ValuesOf(st.graph, st.catalog, DctModified) == {Lit(DateTime(now))}
    ensures ValuesOf(RemoveDatasets(st, service).store.graph, st.catalog, DctModified) == {Lit(DateTime(now))}
  {
    var g := RemoveDatasets(st, service).store.graph;
    assert Triple(st.catalog, DctModified, Lit(DateTime(now))) in st.graph;
    assert Lit(DateTime(now)) in ValuesOf(g, st.catalog, DctModified);
    ValuesOfUnion(st.graph, {DatasetType(service)}, st.catalog, DctModified);
    assert ValuesOf(g, st.catalog, DctModified) <= ValuesOf(st.graph + {DatasetType(service)}, st.catalog, DctModified);
  }

  /** After a decoded result, a dataset its unlinking made unreachable is
      stamped as `ResyncStamps` says. */
  lemma OnResultStampsDataset(env: Env, st: Store, harvest: Harvest, catalogNow: int, datasetNow: int)
    requires Valid(st) && harvest.capabilities.Success?
    requires var st1 := ReplaceCatalogModified(st, catalogNow);
      DatasetNode(harvest.service) !in Reachable(Unlinked(st1, harvest.service), st.catalog)
    ensures var r := OnResult(env, st, Some(harvest), catalogNow, datasetNow).graph;
      ValuesOf(r, DatasetNode(harvest.service), DctModified) == {Lit(DateTime(datasetNow))}
  {
    ResyncStamps(env, ReplaceCatalogModified(st, catalogNow), harvest.service, harvest.capabilities.value, datasetNow);
  }
}
