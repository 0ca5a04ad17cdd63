/**
 * The registrar's HTTP client as the adapter sees it. The transport is not
 * modelled: a client is created for one adapter call, the registrar's answers
 * for that call are fixed in `answers`, and the client records every request
 * it receives in `requests`, so that a contract can say which calls were made.
 */
module Registrar {
  import opened Wrappers
  import opened Records

  /** A request the adapter sends to the registrar. */
  datatype Request =
    | IsAvailable(domain: string)
    | Order(domain: string, holderId: Handle, authCode: Option<string>)
    | DeleteDomain(domain: string)
    | ReactivateDomain(domain: string)
    | GetDomain(domain: string)
    | GetDomains
    | UpdateDomainHolders(domain: string, holders: map<string, Handle>)
    | CreateHolder(holder: NewHolder)
    | UpdateHolder(holderId: Handle, update: HolderUpdate)
    | FindHolderId(query: HolderQuery)
    | GetHolders
    | GetCountries
    | DeleteCurrentNameservers(domain: string)
    | AddNameservers(domain: string, nameservers: seq<string>)

  /**
   * What the registrar answers during one adapter call. A list answer is None
   * when the call fails; a handle answer is falsy (see `IsEmpty`) when the
   * registrar gives no holder.
   */
  datatype Answers = Answers(
    available: bool,
    orderPlaced: bool,
    deleted: bool,
    reactivated: bool,
    domain: Option<DomainRecord>,
    domains: Option<seq<DomainRecord>>,
    holdersUpdated: bool,
    createdHolderId: Handle,
    holderUpdated: bool,
    foundHolderId: Handle,
    holders: Option<seq<Holder>>,
    countriesFetched: bool,
    countryCodes: map<int, string>,
    nameserversAdded: bool)

  /** PHP truthiness of a list answer: a failed call and an empty list are both false. */
  predicate Truthy<T>(answer: Option<seq<T>>)
  {
    answer.Some? && answer.value != []
  }

  /** The records of a list answer, none when the call failed. */
  function ListOf<T>(answer: Option<seq<T>>): seq<T>
  {
    if answer.Some? then answer.value else []
  }

  class Client {
    const answers: Answers
    var requests: seq<Request>

    constructor (answers: Answers)
      ensures this.answers == answers && requests == []
    {
      this.answers := answers;
      requests := [];
    }

    /** The country code of a registrar country id, modelled as a lookup that sends no request of its own. */
    function CountryById(countryId: int): (code: Option<string>)
      ensures code.Some? <==> countryId in answers.countryCodes
      ensures code.Some? ==> code.value == answers.countryCodes[countryId]
    {
      if countryId in answers.countryCodes then Some(answers.countryCodes[countryId]) else None
    }

    method IsAvailable(domain: string) returns (available: bool)
      modifies this
      ensures requests == old(requests) + [Request.IsAvailable(domain)]
      ensures available == answers.available
    {
      requests := requests + [Request.IsAvailable(domain)];
      available := answers.available;
    }

    method Order(domain: string, holderId: Handle, authCode: Option<string>) returns (placed: bool)
      modifies this
      ensures requests == old(requests) + [Request.Order(domain, holderId, authCode)]
      ensures placed == answers.orderPlaced
    {
      requests := requests + [Request.Order(domain, holderId, authCode)];
      placed := answers.orderPlaced;
    }

    method DeleteDomain(domain: string) returns (deleted: bool)
      modifies this
      ensures requests == old(requests) + [Request.DeleteDomain(domain)]
      ensures deleted == answers.deleted
    {
      requests := requests + [Request.DeleteDomain(domain)];
      deleted := answers.deleted;
    }

    method ReactivateDomain(domain: string) returns (reactivated: bool)
      modifies this
      ensures requests == old(requests) + [Request.ReactivateDomain(domain)]
      ensures reactivated == answers.reactivated
    {
      requests := requests + [Request.ReactivateDomain(domain)];
      reactivated := answers.reactivated;
    }

    method GetDomain(domain: string) returns (record: Option<DomainRecord>)
      modifies this
      ensures requests == old(requests) + [Request.GetDomain(domain)]
      ensures record == answers.domain
    {
      requests := requests + [Request.GetDomain(domain)];
      record := answers.domain;
    }

    method GetDomains() returns (records: Option<seq<DomainRecord>>)
      modifies this
      ensures requests == old(requests) + [Request.GetDomains]
      ensures records == answers.domains
    {
      requests := requests + [Request.GetDomains];
      records := answers.domains;
    }

    method UpdateDomainHolders(domain: string, holders: map<string, Handle>) returns (updated: bool)
      modifies this
      ensures requests == old(requests) + [Request.UpdateDomainHolders(domain, holders)]
      ensures updated == answers.holdersUpdated
    {
      requests := requests + [Request.UpdateDomainHolders(domain, holders)];
      updated := answers.holdersUpdated;
    }

    method CreateHolder(holder: NewHolder) returns (holderId: Handle)
      modifies this
      ensures requests == old(requests) + [Request.CreateHolder(holder)]
      ensures holderId == answers.createdHolderId
    {
      requests := requests + [Request.CreateHolder(holder)];
      holderId := answers.createdHolderId;
    }

    method UpdateHolder(holderId: Handle, holder: HolderUpdate) returns (updated: bool)
      modifies this
      ensures requests == old(requests) + [Request.UpdateHolder(holderId, holder)]
      ensures updated == answers.holderUpdated
    {
      requests := requests + [Request.UpdateHolder(holderId, holder)];
      updated := answers.holderUpdated;
    }

    method FindHolderId(query: HolderQuery) returns (holderId: Handle)
      modifies this
      ensures requests == old(requests) + [Request.FindHolderId(query)]
      ensures holderId == answers.foundHolderId
    {
      requests := requests + [Request.FindHolderId(query)];
      holderId := answers.foundHolderId;
    }

    method GetHolders() returns (holders: Option<seq<Holder>>)
      modifies this
      ensures requests == old(requests) + [Request.GetHolders]
      ensures holders == answers.holders
    {
      requests := requests + [Request.GetHolders];
      holders := answers.holders;
    }

    method GetCountries() returns (fetched: bool)
      modifies this
      ensures requests == old(requests) + [Request.GetCountries]
      ensures fetched == answers.countriesFetched
    {
      requests := requests + [Request.GetCountries];
      fetched := answers.countriesFetched;
    }

    method DeleteCurrentNameservers(domain: string)
      modifies this
      ensures requests == old(requests) + [Request.DeleteCurrentNameservers(domain)]
    {
      requests := requests + [Request.DeleteCurrentNameservers(domain)];
    }

    method AddNameservers(domain: string, nameservers: seq<string>) returns (added: bool)
      modifies this
      ensures requests == old(requests) + [Request.AddNameservers(domain, nameservers)]
      ensures added == answers.nameserversAdded
    {
      requests := requests + [Request.AddNameservers(domain, nameservers)];
      added := answers.nameserversAdded;
    }
  }
}
