/** The RDF vocabulary the catalog graph is built from: nodes, properties,
    class IRIs and triples. A graph is a finite set of triples, exactly as a
    Jena `Model` is a set of statements. */
module Rdf {

  /** Literal values. Timestamps are milliseconds since the epoch; the textual
      ISO-8601 rendering is not modelled, so a typed `xsd:dateTime` literal is
      `DateTime(ms)` and a plain-string rendering of a time is `Stamp(ms)`. */
  datatype Literal =
    | Plain(text: string)
    | Lang(text: string, lang: string)
    | DateTime(millis: int)
    | Stamp(millis: int)
    | Long(number: int)
    | GeoJson

  datatype Node = Iri(iri: string) | Blank(id: nat) | Lit(literal: Literal)

  /** Jena's `RDFNode instanceof Resource`: IRIs and blank nodes, not literals. */
  predicate IsResource(n: Node) {
    !n.Lit?
  }

  /** The properties the catalog uses, from the rdf, dcat, dct, foaf, vcard,
      time and locn vocabularies. Reachability never follows a predicate, so
      naming them by an enumeration loses nothing. */
  datatype Prop =
    | RdfType
    | DcatDataset | DcatLandingPage | DcatKeyword | DcatContactPoint | DcatDistribution
    | DcatAccessURL | DcatMediaType | DcatAccessService | DcatEndpointURL
    | DcatEndpointDescription | DcatServesDataset
    | DctIdentifier | DctTitle | DctDescription | DctSpatial | DctTemporal | DctPublisher
    | DctLanguage | DctAccessRights | DctModified | DctIssued | DctConformsTo | DctLicense
    | FoafName | FoafHomepage
    | VcardFn | VcardHasMember | VcardRole | VcardEmail | VcardHasAddress | VcardHasTelephone
    | VcardRegion | VcardLocality | VcardCountryName | VcardPostalCode | VcardStreetAddress
    | TimeHasBeginning | TimeHasEnd | TimeInXSDDateTimeStamp
    | LocnGeometry

  datatype Triple = Triple(s: Node, p: Prop, o: Node)

  type Graph = set<Triple>

  // Class IRIs. They appear as objects of rdf:type triples and are therefore
  // resources that the reachable closure walks through.
  const DCAT_NS := "http://www.w3.org/ns/dcat#"
  const CATALOG: Node := Iri(DCAT_NS + "Catalog")
  const DATASET: Node := Iri(DCAT_NS + "Dataset")
  const DATA_SERVICE: Node := Iri(DCAT_NS + "DataService")
  const DISTRIBUTION: Node := Iri(DCAT_NS + "Distribution")
  const LOCATION: Node := Iri("http://purl.org/dc/terms/Location")
  const STANDARD: Node := Iri("http://purl.org/dc/terms/Standard")
  const TIME_INSTANT: Node := Iri("http://www.w3.org/2006/time#Instant")
  const TIME_INTERVAL: Node := Iri("http://www.w3.org/2006/time#Interval")
  const FOAF_ORGANIZATION: Node := Iri("http://xmlns.com/foaf/0.1/Organization")
  const FOAF_DOCUMENT: Node := Iri("http://xmlns.com/foaf/0.1/Document")
  const VCARD_ORGANIZATION: Node := Iri("http://www.w3.org/2006/vcard/ns#Organization")
  const VCARD_INDIVIDUAL: Node := Iri("http://www.w3.org/2006/vcard/ns#Individual")
  const VCARD_ADDRESS: Node := Iri("http://www.w3.org/2006/vcard/ns#Address")
  const VCARD_FAX: Node := Iri("http://www.w3.org/2006/vcard/ns#Fax")
  const VCARD_VOICE: Node := Iri("http://www.w3.org/2006/vcard/ns#Voice")

  /** `addProperty(p, text, lang)`: Jena makes an empty language tag a plain
      string literal. */
  function LangLiteral(text: string, lang: string): Node {
    if lang == "" then Lit(Plain(text)) else Lit(Lang(text, lang))
  }

  /** Every blank node mentioned by the triples has an id below `bound`, so
      ids from `bound` upwards are fresh. */
  predicate BlanksBelow(g: set<Triple>, bound: nat) {
    forall t :: t in g ==> (t.s.Blank? ==> t.s.id < bound) && (t.o.Blank? ==> t.o.id < bound)
  }

  /** The triples of `g` about subject `s` with predicate `p`. */
  function ValuesOf(g: Graph, s: Node, p: Prop): set<Node> {
    set t | t in g && t.s == s && t.p == p :: t.o
  }

  lemma ValuesOfUnion(a: Graph, b: Graph, s: Node, p: Prop)
    ensures ValuesOf(a + b, s, p) == ValuesOf(a, s, p) + ValuesOf(b, s, p)
  {
    forall o | o in ValuesOf(a + b, s, p)
      ensures o in ValuesOf(a, s, p) + ValuesOf(b, s, p)
    {
      var t :| t in a + b && t.s == s && t.p == p && t.o == o;
      assert t in a || t in b;
    }
  }

  lemma BlanksBelowUnion(a: Graph, b: Graph, n: nat)
    requires BlanksBelow(a, n) && BlanksBelow(b, n)
    ensures BlanksBelow(a + b, n)
  {
  }

  lemma BlanksBelowMono(g: Graph, n: nat, m: nat)
    requires BlanksBelow(g, n) && n <= m
    ensures BlanksBelow(g, m)
  {
  }
}
