/** The pieces of a dataset description that the catalog writes for one
    harvested service. Each builder returns the triples it adds; builders
    that create blank nodes take the first free blank id `b` and return the
    next free one. */
module Describe {
  import opened Wrappers
  import opened Rdf
  import opened Sos
  import opened TemporalExtent
  import Urls

  /** Collaborators whose code is not part of this model: `UriUtil`'s URI
      test and mail/telephone URI builders, `java.net.URI.isAbsolute`, and
      the configured external URL of the Helgoland API. */
  datatype Env = Env(
    isAbsoluteUri: string -> bool,
    uriIsAbsolute: string -> bool,
    mailUri: string -> string,
    telUri: string -> string,
    externalUrl: string)

  /** The service row the catalog describes. */
  datatype ServiceEntity = ServiceEntity(id: int, identifier: string, url: string)

  datatype Part = Part(triples: set<Triple>, next: nat)

  datatype NodePart = NodePart(node: Node, triples: set<Triple>, next: nat)

  const API_DESCRIPTION := "http://52north.github.io/sensorweb-server-helgoland/version_3.x/api.html"

  /** Fresh below `next` and free of stamps: what every builder promises. */
  predicate Fits(ts: set<Triple>, next: nat) {
    BlanksBelow(ts, next) && Unstamped(ts)
  }

  lemma FitsUnion(a: set<Triple>, b: set<Triple>, n: nat)
    requires Fits(a, n) && Fits(b, n)
    ensures Fits(a + b, n)
  {
  }

  lemma FitsMono(ts: set<Triple>, n: nat, m: nat)
    requires Fits(ts, n) && n <= m
    ensures Fits(ts, m)
  {
  }

  /** The node is `keep`, no blank node, or a blank node allocated at or
      after `b`. */
  predicate Fresh(n: Node, b: nat, keep: Node) {
    n.Blank? && n != keep ==> b <= n.id
  }

  /** No blank node of `ts` but `keep` was allocated before `b`: a builder
      that starts at `b` reuses no older node except the one it describes.
      With `Fits(ts, next)` every other blank id lies in `[b, next)`. */
  predicate NewFrom(ts: set<Triple>, b: nat, keep: Node) {
    forall t :: t in ts ==> Fresh(t.s, b, keep) && Fresh(t.o, b, keep)
  }

  lemma NewFromUnion(a: set<Triple>, c: set<Triple>, b: nat, keep: Node)
    requires NewFrom(a, b, keep) && NewFrom(c, b, keep)
    ensures NewFrom(a + c, b, keep)
  {
  }

  lemma NewFromMono(ts: set<Triple>, b: nat, m: nat, keep: Node)
    requires NewFrom(ts, m, keep) && b <= m
    ensures NewFrom(ts, b, keep)
  {
  }

  /** A kept node that is itself new from `b` may be dropped for another. */
  lemma NewFromRekeep(ts: set<Triple>, b: nat, keep: Node, other: Node)
    requires NewFrom(ts, b, keep) && Fresh(keep, b, other)
    ensures NewFrom(ts, b, other)
  {
  }

  /** The node was allocated before blank id `b`. */
  predicate Below(n: Node, b: nat) {
    n.Blank? ==> n.id < b
  }

  /** The triples neither stamp `dct:issued` nor `dct:modified`. */
  predicate Unstamped(ts: set<Triple>) {
    forall t :: t in ts ==> t.p !in {DctIssued, DctModified}
  }

  /** No triple uses the predicate `p`. */
  predicate Avoids(ts: set<Triple>, p: Prop) {
    forall t :: t in ts ==> t.p !in {p}
  }

  lemma AvoidsUnion(a: set<Triple>, b: set<Triple>, p: Prop)
    requires Avoids(a, p) && Avoids(b, p)
    ensures Avoids(a + b, p)
  {
  }

  /** The text a node was made from: an IRI's string or a plain literal's text. */
  function TextOf(n: Node): Option<string> {
    match n
    case Iri(s) => Some(s)
    case Lit(Plain(s)) => Some(s)
    case _ => None
  }

  /** `createResourceOrLiteral`: an absolute URI becomes a resource, any other
      string a plain literal; either way the string is recoverable. */
  function ResourceOrLiteral(env: Env, value: string): (r: Node)
    ensures IsResource(r) <==> env.isAbsoluteUri(value)
    ensures TextOf(r) == Some(value)
  {
    if env.isAbsoluteUri(value) then Iri(value) else Lit(Plain(value))
  }

  /** Two strings give the same node only when they are the same string. */
  lemma ResourceOrLiteralInjective(env: Env, x: string, y: string)
    ensures ResourceOrLiteral(env, x) == ResourceOrLiteral(env, y) <==> x == y
  {
    if ResourceOrLiteral(env, x) == ResourceOrLiteral(env, y) {
      assert TextOf(ResourceOrLiteral(env, x)) == Some(x);
    }
  }


  // ----- vcard address ------------------------------------------------------

  /** True when at least one address field is set. */
  predicate HasAddressField(a: Address) {
    a.administrativeArea.Some? || a.city.Some? || a.country.Some? || a.postalCode.Some?
      || |a.deliveryPoints| > 0
  }

  /** The single-valued vcard address fields. */
  datatype AddressField = Region | Locality | CountryName | PostalCode

  function FieldProp(f: AddressField): Prop {
    match f
    case Region => VcardRegion
    case Locality => VcardLocality
    case CountryName => VcardCountryName
    case PostalCode => VcardPostalCode
  }

  function FieldValue(a: Address, f: AddressField): Option<string> {
    match f
    case Region => a.administrativeArea
    case Locality => a.city
    case CountryName => a.country
    case PostalCode => a.postalCode
  }

  /** The predicates an address node is described with. */
  predicate AddressProp(p: Prop) {
    p == RdfType || p == VcardRegion || p == VcardLocality || p == VcardCountryName || p == VcardPostalCode
      || p == VcardStreetAddress
  }

  /** The triple holding one optional address field. */
  function FieldTriples(node: Node, a: Address, f: AddressField): set<Triple> {
    var v := FieldValue(a, f);
    if v.Some? then {Triple(node, FieldProp(f), Lit(Plain(v.value)))} else {}
  }

  /** One `street_address` per delivery point. */
  function StreetTriples(node: Node, points: seq<string>): set<Triple> {
    set x | x in points :: Triple(node, VcardStreetAddress, Lit(Plain(x)))
  }

  /** `createAddress`: nothing when every field is empty; otherwise a fresh
      `vcard:Address` node with the fields that are set. */
  function CreateAddress(a: Address, b: nat): (r: Option<NodePart>)
    ensures r.None? <==> !HasAddressField(a)
    ensures r.Some? ==> r.value.node == Blank(b) && r.value.next == b + 1
  {
    if !HasAddressField(a) then None
    else
      var node := Blank(b);
      Some(NodePart(node,
        {Triple(node, RdfType, VCARD_ADDRESS)}
        + FieldTriples(node, a, Region) + FieldTriples(node, a, Locality)
        + FieldTriples(node, a, CountryName) + FieldTriples(node, a, PostalCode)
        + StreetTriples(node, a.deliveryPoints),
        b + 1))
  }

  /** A field's triples are about the node, with the field's predicate. */
  lemma FieldTriplesShape(node: Node, a: Address, f: AddressField, t: Triple)
    requires t in FieldTriples(node, a, f)
    ensures t.s == node && t.p == FieldProp(f) && t.o == Lit(Plain(FieldValue(a, f).value))
  {
  }

  /** The address node is typed, and nothing but the address fields is said
      about it: no other subject and no blank object. */
  lemma CreateAddressShape(a: Address, b: nat)
    requires HasAddressField(a)
    ensures Triple(Blank(b), RdfType, VCARD_ADDRESS) in CreateAddress(a, b).value.triples
    ensures forall t :: t in CreateAddress(a, b).value.triples ==> t.s == Blank(b) && !t.o.Blank? && AddressProp(t.p)
    ensures Fits(CreateAddress(a, b).value.triples, b + 1)
  {
    var node := Blank(b);
    forall t | t in CreateAddress(a, b).value.triples
      ensures t.s == node && !t.o.Blank? && AddressProp(t.p)
    {
      if t in FieldTriples(node, a, Region) { FieldTriplesShape(node, a, Region, t); }
      else if t in FieldTriples(node, a, Locality) { FieldTriplesShape(node, a, Locality, t); }
      else if t in FieldTriples(node, a, CountryName) { FieldTriplesShape(node, a, CountryName, t); }
      else if t in FieldTriples(node, a, PostalCode) { FieldTriplesShape(node, a, PostalCode, t); }
    }
  }

  /** The address node carries exactly the fields that are present. */
  lemma CreateAddressField(a: Address, b: nat, f: AddressField, x: string)
    requires HasAddressField(a)
    ensures Triple(Blank(b), FieldProp(f), Lit(Plain(x))) in CreateAddress(a, b).value.triples
            <==> FieldValue(a, f) == Some(x)
  {
    var node := Blank(b);
    var t := Triple(node, FieldProp(f), Lit(Plain(x)));
    if t in CreateAddress(a, b).value.triples {
      var g: AddressField :| t in FieldTriples(node, a, g) by {
        if t in FieldTriples(node, a, Region) { }
        else if t in FieldTriples(node, a, Locality) { }
        else if t in FieldTriples(node, a, CountryName) { }
        else if t in FieldTriples(node, a, PostalCode) { }
        else { assert false; }
      }
      FieldTriplesShape(node, a, g, t);
      assert g == f by { FieldPropInjective(f, g); }
    }
  }

  lemma FieldPropInjective(f: AddressField, g: AddressField)
    requires FieldProp(f) == FieldProp(g)
    ensures f == g
  {
  }

  /** The address node carries one `street_address` per delivery point. */
  lemma CreateAddressStreets(a: Address, b: nat, x: string)
    requires HasAddressField(a)
    ensures Triple(Blank(b), VcardStreetAddress, Lit(Plain(x))) in CreateAddress(a, b).value.triples
            <==> x in a.deliveryPoints
  {
    var node := Blank(b);
    var t := Triple(node, VcardStreetAddress, Lit(Plain(x)));
    forall f: AddressField ensures t !in FieldTriples(node, a, f) {
      if t in FieldTriples(node, a, f) { FieldTriplesShape(node, a, f, t); }
    }
  }

  // ----- publisher and contact point ----------------------------------------

  /** The homepage of the provider when its site is an absolute URI. */
  function SiteTriples(env: Env, publisher: Node, site: Option<string>): set<Triple> {
    if site.Some? && env.uriIsAbsolute(site.value) then
      {Triple(Iri(site.value), RdfType, FOAF_DOCUMENT), Triple(publisher, FoafHomepage, Iri(site.value))}
    else {}
  }

  /** The publisher `Blank(b)`, named after the provider, with its homepage. */
  function PublisherTriples(env: Env, ds: Node, sp: ServiceProvider, b: nat): set<Triple> {
    var publisher := Blank(b);
    {Triple(publisher, RdfType, FOAF_ORGANIZATION), Triple(publisher, FoafName, Lit(Plain(sp.providerName))),
     Triple(ds, DctPublisher, publisher)}
    + SiteTriples(env, publisher, sp.providerSite)
  }

  /** The contact organisation `Blank(b)`: its name falls back to the
      provider name. */
  function OrganisationTriples(ds: Node, sp: ServiceProvider, b: nat): set<Triple> {
    var org := Blank(b);
    var party := sp.contact;
    {Triple(org, RdfType, VCARD_ORGANIZATION),
     Triple(org, VcardFn, Lit(Plain(party.organisationName.GetOr(sp.providerName)))),
     Triple(ds, DcatContactPoint, org)}
    + (if party.role.Some? then {Triple(org, VcardRole, Lit(Plain(party.role.value)))} else {})
  }

  /** The individual contact person `Blank(b)`, as a member of the organisation. */
  function IndividualTriples(org: Node, party: ResponsibleParty, b: nat): (r: Part)
    ensures b <= r.next <= b + 1
  {
    match party.individualName
    case None => Part({}, b)
    case Some(name) =>
      var contact := Blank(b);
      var position := if party.positionName.Some? then {Triple(contact, VcardRole, Lit(Plain(party.positionName.value)))} else {};
      Part({Triple(contact, RdfType, VCARD_INDIVIDUAL), Triple(contact, VcardFn, Lit(Plain(name))),
            Triple(org, VcardHasMember, contact)} + position, b + 1)
  }

  /** The organisation's e-mail addresses as mail URIs. */
  function MailTriples(env: Env, org: Node, emails: seq<string>): set<Triple> {
    set m | m in emails :: Triple(org, VcardEmail, Iri(env.mailUri(m)))
  }

  /** E-mail addresses and the postal address of the contact information. */
  function AddressTriples(env: Env, org: Node, address: Option<Address>, b: nat): (r: Part)
    ensures b <= r.next <= b + 1
  {
    match address
    case None => Part({}, b)
    case Some(a) =>
      var mails := MailTriples(env, org, a.emails);
      var created := CreateAddress(a, b);
      if created.None? then Part(mails, b)
      else Part(mails + created.value.triples + {Triple(org, VcardHasAddress, created.value.node)}, b + 1)
  }

  /** Telephone numbers of one kind: each a typed resource linked from the
      organisation. */
  function TelephoneTriples(env: Env, org: Node, numbers: seq<string>, kind: Node): set<Triple> {
    (set n | n in numbers :: Triple(Iri(env.telUri(n)), RdfType, kind))
    + (set n | n in numbers :: Triple(org, VcardHasTelephone, Iri(env.telUri(n))))
  }

  /** Fax and voice numbers, each a telephone resource of its kind. */
  function PhoneTriples(env: Env, org: Node, phone: Option<Phone>): set<Triple> {
    match phone
    case None => {}
    case Some(p) => TelephoneTriples(env, org, p.facsimile, VCARD_FAX) + TelephoneTriples(env, org, p.voice, VCARD_VOICE)
  }

  /** `addServiceProvider`: a `foaf:Organization` publisher at `b` and a
      `vcard:Organization` contact point at `b + 1`; an individual and an
      address take the next blank ids. */
  function ServiceProviderTriples(env: Env, ds: Node, sp: ServiceProvider, b: nat): (r: Part)
    ensures b + 2 <= r.next <= b + 4
  {
    var org := Blank(b + 1);
    var info := sp.contact.contactInfo;
    var individual := IndividualTriples(org, sp.contact, b + 2);
    var address := AddressTriples(env, org, if info.Some? then info.value.address else None, individual.next);
    var phones := PhoneTriples(env, org, if info.Some? then info.value.phone else None);
    Part(PublisherTriples(env, ds, sp, b) + OrganisationTriples(ds, sp, b + 1) + individual.triples
         + address.triples + phones, address.next)
  }

  // ----- freshness of the provider's blank nodes ------------------------------

  /** The publisher's statements use only its own new node. */
  lemma PublisherFits(env: Env, ds: Node, sp: ServiceProvider, b: nat)
    requires Below(ds, b)
    ensures var r := PublisherTriples(env, ds, sp, b);
      Fits(r, b + 1) && NewFrom(r, b, ds) && Avoids(r, VcardHasMember) && Avoids(r, VcardHasAddress)
  {
    var site := SiteTriples(env, Blank(b), sp.providerSite);
    assert Fits(site, b + 1) && Avoids(site, VcardHasMember) && Avoids(site, VcardHasAddress);
  }

  /** The organisation's own statements use only its new node. */
  lemma OrganisationFits(ds: Node, sp: ServiceProvider, b: nat)
    requires Below(ds, b)
    ensures var r := OrganisationTriples(ds, sp, b);
      Fits(r, b + 1) && NewFrom(r, b, ds) && Avoids(r, VcardHasMember) && Avoids(r, VcardHasAddress)
  {
  }

  /** The individual's statements mention only the organisation and the new
      node, state no address, and give the organisation a member exactly
      when the contact names an individual. */
  lemma IndividualFacts(org: Node, party: ResponsibleParty, b: nat)
    requires Below(org, b)
    ensures var r := IndividualTriples(org, party, b);
      && Fits(r.triples, r.next)
      && NewFrom(r.triples, b, org)
      && Avoids(r.triples, VcardHasAddress)
      && (ValuesOf(r.triples, org, VcardHasMember) != {} <==> party.individualName.Some?)
  {
    var r := IndividualTriples(org, party, b);
    if party.individualName.Some? {
      assert Blank(b) in ValuesOf(r.triples, org, VcardHasMember);
    }
  }

  /** The e-mail addresses are resources about the organisation. */
  lemma MailFits(env: Env, org: Node, emails: seq<string>, n: nat)
    requires Below(org, n)
    ensures var r := MailTriples(env, org, emails);
      Fits(r, n) && Avoids(r, VcardHasMember) && Avoids(r, VcardHasAddress)
  {
  }

  /** The e-mail and address statements use no blank id above `b` and never
      link a member. */
  lemma AddressFits(env: Env, org: Node, address: Option<Address>, b: nat)
    requires Below(org, b)
    ensures var r := AddressTriples(env, org, address, b);
      Fits(r.triples, r.next) && Avoids(r.triples, VcardHasMember)
  {
    if address.Some? {
      var a := address.value;
      var mails := MailTriples(env, org, a.emails);
      if HasAddressField(a) {
        var created := CreateAddress(a, b).value.triples;
        var link := {Triple(org, VcardHasAddress, Blank(b))};
        assert AddressTriples(env, org, address, b).triples == mails + created + link;
        MailFits(env, org, a.emails, b + 1);
        CreateAddressShape(a, b);
        assert Avoids(created, VcardHasMember) by {
          assert forall t :: t in created ==> AddressProp(t.p);
        }
        assert Fits(link, b + 1) && Avoids(link, VcardHasMember);
        FitsUnion(mails, created, b + 1);
        FitsUnion(mails + created, link, b + 1);
        AvoidsUnion(mails, created, VcardHasMember);
        AvoidsUnion(mails + created, link, VcardHasMember);
      } else {
        MailFits(env, org, a.emails, b);
      }
    }
  }

  /** The e-mail and address statements reuse no blank node older than `b`
      but the organisation. */
  lemma AddressNew(env: Env, org: Node, address: Option<Address>, b: nat)
    ensures NewFrom(AddressTriples(env, org, address, b).triples, b, org)
  {
    if address.Some? {
      var a := address.value;
      var mails := MailTriples(env, org, a.emails);
      assert NewFrom(mails, b, org);
      if HasAddressField(a) {
        var created := CreateAddress(a, b).value.triples;
        CreateAddressShape(a, b);
        assert NewFrom(created, b, org);
        NewFromUnion(mails, created, b, org);
      }
    }
  }

  /** The organisation is linked to an address exactly when the contact
      information has an address with at least one field. */
  lemma AddressLinkedIffField(env: Env, org: Node, address: Option<Address>, b: nat)
    requires Below(org, b)
    ensures ValuesOf(AddressTriples(env, org, address, b).triples, org, VcardHasAddress) != {}
      <==> address.Some? && HasAddressField(address.value)
  {
    if address.Some? {
      var created := CreateAddress(address.value, b);
      if created.Some? {
        assert Blank(b) in ValuesOf(AddressTriples(env, org, address, b).triples, org, VcardHasAddress);
      } else {
        MailFits(env, org, address.value.emails, b);
        assert ValuesOf(MailTriples(env, org, address.value.emails), org, VcardHasAddress) == {};
      }
    }
  }

  /** The telephone statements use no blank node but the organisation. */
  lemma PhoneFits(env: Env, org: Node, phone: Option<Phone>)
    requires org.Blank?
    ensures var r := PhoneTriples(env, org, phone);
      Fits(r, org.id + 1) && Avoids(r, VcardHasMember) && Avoids(r, VcardHasAddress)
  {
  }

  /** The telephone statements mention no blank node but the organisation. */
  lemma PhoneNew(env: Env, org: Node, phone: Option<Phone>, b: nat)
    ensures NewFrom(PhoneTriples(env, org, phone), b, org)
  {
  }

  /** Every blank node of the provider's statements but the dataset is new:
      its id lies between `b` and the returned counter. None of them is a
      stamp. */
  lemma ServiceProviderFits(env: Env, ds: Node, sp: ServiceProvider, b: nat)
    requires Below(ds, b)
    ensures var r := ServiceProviderTriples(env, ds, sp, b); Fits(r.triples, r.next) && NewFrom(r.triples, b, ds)
  {
    var org := Blank(b + 1);
    var info := sp.contact.contactInfo;
    var individual := IndividualTriples(org, sp.contact, b + 2);
    var addressOpt := if info.Some? then info.value.address else None;
    var address := AddressTriples(env, org, addressOpt, individual.next);
    var phones := PhoneTriples(env, org, if info.Some? then info.value.phone else None);
    var publisher := PublisherTriples(env, ds, sp, b);
    var organisation := OrganisationTriples(ds, sp, b + 1);
    var n := address.next;
    PublisherFits(env, ds, sp, b);
    OrganisationFits(ds, sp, b + 1);
    IndividualFacts(org, sp.contact, b + 2);
    AddressFits(env, org, addressOpt, individual.next);
    PhoneFits(env, org, if info.Some? then info.value.phone else None);
    FitsMono(publisher, b + 1, n);
    FitsMono(organisation, b + 2, n);
    FitsMono(individual.triples, individual.next, n);
    FitsMono(phones, b + 2, n);
    FitsUnion(publisher, organisation, n);
    FitsUnion(publisher + organisation, individual.triples, n);
    FitsUnion(publisher + organisation + individual.triples, address.triples, n);
    FitsUnion(publisher + organisation + individual.triples + address.triples, phones, n);
    AddressNew(env, org, addressOpt, individual.next);
    PhoneNew(env, org, if info.Some? then info.value.phone else None, b + 2);
    NewFromMono(address.triples, b + 2, individual.next, org);
    ProviderNew(ds, b, publisher, organisation, individual.triples, address.triples, phones);
  }

  /** The provider's parts, new from their own starting ids, are together
      new from `b`: the contact organisation `b + 1` is itself new. */
  lemma ProviderNew(ds: Node, b: nat, publisher: set<Triple>, organisation: set<Triple>, individual: set<Triple>,
                    address: set<Triple>, phones: set<Triple>)
    requires NewFrom(publisher, b, ds) && NewFrom(organisation, b + 1, ds)
    requires NewFrom(individual, b + 2, Blank(b + 1)) && NewFrom(address, b + 2, Blank(b + 1))
    requires NewFrom(phones, b + 2, Blank(b + 1))
    ensures NewFrom(publisher + organisation + individual + address + phones, b, ds)
  {
    NewFromMono(organisation, b, b + 1, ds);
    NewFromMono(individual, b, b + 2, Blank(b + 1));
    NewFromRekeep(individual, b, Blank(b + 1), ds);
    NewFromMono(address, b, b + 2, Blank(b + 1));
    NewFromRekeep(address, b, Blank(b + 1), ds);
    NewFromMono(phones, b, b + 2, Blank(b + 1));
    NewFromRekeep(phones, b, Blank(b + 1), ds);
    NewFromUnion(publisher, organisation, b, ds);
    NewFromUnion(publisher + organisation, individual, b, ds);
    NewFromUnion(publisher + organisation + individual, address, b, ds);
    NewFromUnion(publisher + organisation + individual + address, phones, b, ds);
  }

  /** The publisher carries the provider name; the contact point carries
      the contact's organisation name, or else the provider name. */
  lemma ServiceProviderNames(env: Env, ds: Node, sp: ServiceProvider, b: nat)
    ensures var ts := ServiceProviderTriples(env, ds, sp, b).triples;
      && Triple(ds, DctPublisher, Blank(b)) in ts
      && Triple(Blank(b), FoafName, Lit(Plain(sp.providerName))) in ts
      && Triple(ds, DcatContactPoint, Blank(b + 1)) in ts
      && Triple(Blank(b + 1), VcardFn, Lit(Plain(sp.contact.organisationName.GetOr(sp.providerName)))) in ts
  {
    var pub := PublisherTriples(env, ds, sp, b);
    var orgs := OrganisationTriples(ds, sp, b + 1);
    assert pub + orgs <= ServiceProviderTriples(env, ds, sp, b).triples;
  }

  /** The contact point has a member exactly when the contact names an
      individual, and an address exactly when the contact information has an
      address with at least one field. */
  lemma ServiceProviderLinks(env: Env, ds: Node, sp: ServiceProvider, b: nat)
    requires Below(ds, b)
    ensures var ts := ServiceProviderTriples(env, ds, sp, b).triples;
      && (ValuesOf(ts, Blank(b + 1), VcardHasMember) != {} <==> sp.contact.individualName.Some?)
      && (ValuesOf(ts, Blank(b + 1), VcardHasAddress) != {}
          <==> sp.contact.contactInfo.Some? && sp.contact.contactInfo.value.address.Some?
               && HasAddressField(sp.contact.contactInfo.value.address.value))
  {
    var org := Blank(b + 1);
    var info := sp.contact.contactInfo;
    var individual := IndividualTriples(org, sp.contact, b + 2);
    var addressOpt := if info.Some? then info.value.address else None;
    var address := AddressTriples(env, org, addressOpt, individual.next);
    var publisher := PublisherTriples(env, ds, sp, b);
    var organisation := OrganisationTriples(ds, sp, b + 1);
    var phones := PhoneTriples(env, org, if info.Some? then info.value.phone else None);
    PublisherFits(env, ds, sp, b);
    OrganisationFits(ds, sp, b + 1);
    IndividualFacts(org, sp.contact, b + 2);
    AddressFits(env, org, addressOpt, individual.next);
    AddressLinkedIffField(env, org, addressOpt, individual.next);
    PhoneFits(env, org, if info.Some? then info.value.phone else None);
    AvoidsUnion(publisher, organisation, VcardHasMember);
    AvoidsUnion(publisher, organisation, VcardHasAddress);
    MemberOnlyFromIndividual(publisher + organisation, individual.triples, address.triples, phones, org);
  }

  /** Of the provider's parts, only the individual links a member and only
      the address part links an address. */
  lemma MemberOnlyFromIndividual(fixed: set<Triple>, individual: set<Triple>, address: set<Triple>,
                                 phones: set<Triple>, org: Node)
    requires Avoids(fixed, VcardHasMember) && Avoids(fixed, VcardHasAddress)
    requires Avoids(individual, VcardHasAddress) && Avoids(address, VcardHasMember)
    requires Avoids(phones, VcardHasMember) && Avoids(phones, VcardHasAddress)
    ensures ValuesOf(fixed + individual + address + phones, org, VcardHasMember) == ValuesOf(individual, org, VcardHasMember)
    ensures ValuesOf(fixed + individual + address + phones, org, VcardHasAddress) == ValuesOf(address, org, VcardHasAddress)
  {
    ValuesOfUnion(fixed, individual, org, VcardHasMember);
    ValuesOfUnion(fixed + individual, address, org, VcardHasMember);
    ValuesOfUnion(fixed + individual + address, phones, org, VcardHasMember);
    ValuesOfUnion(fixed, individual, org, VcardHasAddress);
    ValuesOfUnion(fixed + individual, address, org, VcardHasAddress);
    ValuesOfUnion(fixed + individual + address, phones, org, VcardHasAddress);
    assert ValuesOf(fixed, org, VcardHasMember) == {};
    assert ValuesOf(address, org, VcardHasMember) == {};
    assert ValuesOf(phones, org, VcardHasMember) == {};
    assert ValuesOf(fixed, org, VcardHasAddress) == {};
    assert ValuesOf(individual, org, VcardHasAddress) == {};
    assert ValuesOf(phones, org, VcardHasAddress) == {};
  }
}
