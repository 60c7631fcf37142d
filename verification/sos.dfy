/** The decoded SOS 2.0 capabilities document as the catalog and the
    connector consume it. XML decoding is outside the model; these are the
    values the decoder hands over. Unordered Java sets are sequences here. */
module Sos {
  import opened Wrappers

  /** A GML time: an instant whose value may be unset, or a period whose
      start and end may each be unset. Times are milliseconds. */
  datatype Time = Instant(value: Option<int>) | Period(start: Option<int>, end: Option<int>)

  /** A code with its code space, used for offering names. */
  datatype CodeName = CodeName(value: string, codeSpace: string)

  datatype Offering = Offering(
    identifier: string,
    names: seq<CodeName>,
    observableProperties: seq<string>,
    procedures: seq<string>,
    featuresOfInterest: seq<string>,
    hasObservedArea: bool,
    /** `None` for a missing phenomenon time or a GML time of another kind. */
    phenomenonTime: Option<Time>)

  datatype LocalizedString = LocalizedString(text: string, lang: string)

  datatype Keyword = Keyword(value: string, lang: Option<string>)

  /** The service identification section; a missing title or abstract is an
      empty list of localizations. */
  datatype Identification = Identification(
    title: seq<LocalizedString>,
    abstracts: seq<LocalizedString>,
    keywords: seq<Keyword>,
    accessConstraints: seq<string>,
    profiles: seq<string>)

  datatype Address = Address(
    administrativeArea: Option<string>,
    city: Option<string>,
    country: Option<string>,
    postalCode: Option<string>,
    deliveryPoints: seq<string>,
    emails: seq<string>)

  datatype Phone = Phone(facsimile: seq<string>, voice: seq<string>)

  datatype ContactInfo = ContactInfo(address: Option<Address>, phone: Option<Phone>)

  datatype ResponsibleParty = ResponsibleParty(
    organisationName: Option<string>,
    individualName: Option<string>,
    positionName: Option<string>,
    role: Option<string>,
    contactInfo: Option<ContactInfo>)

  datatype ServiceProvider = ServiceProvider(
    providerName: string,
    providerSite: Option<string>,
    contact: ResponsibleParty)

  datatype Capabilities = Capabilities(
    version: string,
    identification: Option<Identification>,
    provider: Option<ServiceProvider>,
    /** The allowed values of the operations metadata's `language` parameter. */
    languages: seq<string>,
    contents: Option<seq<Offering>>)

  /** `capabilities.getContents()` with an absent section read as empty. */
  function Offerings(caps: Capabilities): seq<Offering> {
    caps.contents.GetOr([])
  }
}
