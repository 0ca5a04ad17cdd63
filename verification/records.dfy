/** The stock optional-value wrapper. */
module Wrappers {
  datatype Option<+T> = None | Some(value: T)
}

/**
 * Values exchanged between the registrar, the adapter and the host
 * application: domain and holder records as the registrar lists them, the
 * host's WHOIS contact object, and the rows the adapter hands back.
 */
module Records {
  import opened Wrappers

  /**
   * A registrar holder handle. The source's "no handle" sentinels, the
   * integer 0 and `false`, are both represented by the empty string.
   */
  type Handle = string

  const NoHandle: Handle := ""

  /** PHP's `empty()` on a string: the empty string and "0" are empty. */
  predicate IsEmpty(s: string)
  {
    s == "" || s == "0"
  }

  /** A domain as the registrar lists it; `paidUntil` is None when the field is not set. */
  datatype DomainRecord = DomainRecord(
    description: string,
    isExternal: bool,
    paidUntil: Option<string>,
    startDate: string,
    authCode: Option<string>)

  /** A holder (WHOIS contact) as the registrar lists it. */
  datatype Holder = Holder(
    holderId: Handle,
    company: string,
    firstname: string,
    lastname: string,
    street: string,
    zipcode: string,
    city: string,
    countryId: int,
    phoneNumber: string,
    email: string)

  /**
   * The `Y-m-d` rendering of a registrar date. Parsing and formatting are not
   * modelled: a value records which parser was applied to which text.
   */
  datatype YmdDate =
    | Parsed(text: string)      // new DateTime(text), then format('Y-m-d')
    | ParsedAtom(text: string)  // DateTime::createFromFormat(DATE_ATOM, text), then format('Y-m-d')

  /** A domain as the host application receives it from the domain list or a single-domain fetch. */
  datatype DomainInformation = DomainInformation(
    domain: string,
    expirationDate: YmdDate,
    registrationDate: YmdDate)

  /** The text of an optional field; an unset field reads as null, which DateTime treats like "". */
  function TextOf(field: Option<string>): string
  {
    if field.Some? then field.value else ""
  }

  function InformationOf(d: DomainRecord): DomainInformation
  {
    DomainInformation(d.description, Parsed(TextOf(d.paidUntil)), Parsed(d.startDate))
  }

  /** The domains of a list that are not external, in order: the only ones the adapter reports on. */
  function ManagedOnly(ds: seq<DomainRecord>): (r: seq<DomainRecord>)
    ensures forall d :: d in r ==> !d.isExternal
  {
    if ds == [] then []
    else (if ds[0].isExternal then [] else [ds[0]]) + ManagedOnly(ds[1..])
  }

  /** One reconciliation entry of the sync operation: `Status` is 'success' or 'error'. */
  datatype SyncEntry =
    | Synced(expirationDate: YmdDate)
    | SyncError(errorMsg: string)
  {
    function Status(): string
    {
      if Synced? then "success" else "error"
    }
  }

  /** The contact data of one role (owner, admin or tech) in the host's WHOIS object. */
  datatype ContactFields = ContactFields(
    registrarHandles: map<string, Handle>,
    companyName: string,
    initials: string,
    surName: string,
    address: string,
    zipCode: string,
    city: string,
    country: string,
    phoneNumber: string,
    emailAddress: string)

  /** Fields never assigned read as blank. */
  const BlankFields := ContactFields(map[], "", "", "", "", "", "", "", "", "")

  /** The holder data createContact sends for a role: every contact field except the company name. */
  datatype NewHolder = NewHolder(
    firstname: string,
    lastname: string,
    phoneNumber: string,
    street: string,
    zipcode: string,
    city: string,
    countryCode: string,
    email: string)

  /** The holder data getContactHandle searches by: no phone number and no country. */
  datatype HolderQuery = HolderQuery(
    company: string,
    firstname: string,
    lastname: string,
    street: string,
    zipcode: string,
    city: string,
    email: string)

  /** The holder data updateContact sends: every contact field. */
  datatype HolderUpdate = HolderUpdate(
    company: string,
    firstname: string,
    lastname: string,
    phoneNumber: string,
    street: string,
    zipcode: string,
    city: string,
    countryCode: string,
    email: string)

  function NewHolderOf(f: ContactFields): NewHolder
  {
    NewHolder(f.initials, f.surName, f.phoneNumber, f.address, f.zipCode, f.city, f.country, f.emailAddress)
  }

  function HolderQueryOf(f: ContactFields): HolderQuery
  {
    HolderQuery(f.companyName, f.initials, f.surName, f.address, f.zipCode, f.city, f.emailAddress)
  }

  function HolderUpdateOf(f: ContactFields): HolderUpdate
  {
    HolderUpdate(f.companyName, f.initials, f.surName, f.phoneNumber, f.address, f.zipCode,
                 f.city, f.country, f.emailAddress)
  }

  /**
   * What each holder request leaves out: a create does not depend on the
   * company name, a lookup not on the phone number or the country, and no
   * request carries the cached handles. An update depends on every other field.
   */
  lemma HolderRequestsOmit(f: ContactFields, g: ContactFields)
    ensures NewHolderOf(f) == NewHolderOf(g) <==>
              f.(companyName := "", registrarHandles := map[]) == g.(companyName := "", registrarHandles := map[])
    ensures HolderQueryOf(f) == HolderQueryOf(g) <==>
              f.(phoneNumber := "", country := "", registrarHandles := map[])
              == g.(phoneNumber := "", country := "", registrarHandles := map[])
    ensures HolderUpdateOf(f) == HolderUpdateOf(g) <==> f.(registrarHandles := map[]) == g.(registrarHandles := map[])
  {
  }

  /** The host's WHOIS object: one set of contact fields per role. */
  datatype Whois = Whois(owner: ContactFields, admin: ContactFields, tech: ContactFields)

  const BlankWhois := Whois(BlankFields, BlankFields, BlankFields)

  /** The role tag the host passes; any value other than the three roles is `HandleUnknown`. */
  datatype HandleType = HandleOwner | HandleAdmin | HandleTech | HandleUnknown

  /** The role-to-prefix switch: the prefix of the WHOIS property names of a role. */
  function Prefix(t: HandleType): (p: string)
    ensures p == "" <==> t == HandleUnknown
  {
    match t
    case HandleOwner => "owner"
    case HandleAdmin => "admin"
    case HandleTech => "tech"
    case HandleUnknown => ""
  }

  /** The fields a prefix selects; with the empty prefix every property is undefined, hence blank. */
  function RoleFields(w: Whois, t: HandleType): ContactFields
  {
    match t
    case HandleOwner => w.owner
    case HandleAdmin => w.admin
    case HandleTech => w.tech
    case HandleUnknown => BlankFields
  }

  /** Distinct roles select distinct property names. */
  lemma PrefixInjective(s: HandleType, t: HandleType)
    requires Prefix(s) == Prefix(t)
    ensures s == t
  {
  }

  /** One row of the contact list. */
  datatype ContactEntry = ContactEntry(
    handle: Handle,
    companyName: string,
    initials: string,
    surName: string,
    phoneNumber: string,
    address: string,
    zipCode: string,
    city: string,
    country: string,
    emailAddress: string)

  function ContactEntryOf(h: Holder, countryCode: string): ContactEntry
  {
    ContactEntry(h.holderId, h.company, h.firstname, h.lastname, h.phoneNumber,
                 h.street, h.zipcode, h.city, countryCode, h.email)
  }

  /** The owner fields that a single-contact fetch fills in from a holder. */
  function OwnerFieldsOf(h: Holder, countryCode: string): ContactFields
  {
    ContactFields(map[], h.company, h.firstname, h.lastname, h.street, h.zipcode,
                  h.city, countryCode, h.phoneNumber, h.email)
  }
}
