/**
 * The registrar adapter itself. The object keeps the host-visible state the
 * source mutates: the error list, the registration period and the handles
 * for the host to persist. Every operation takes the client of its call;
 * what the registrar answers is fixed in that client, and each contract
 * states the result, the new state and the requests sent.
 */
module Adapter {
  import opened Wrappers
  import opened Records
  import opened Registrar
  import opened Sync
  import opened Listing
  import opened Handles

  function NoOwnerContact(domain: string): string
  {
    "No owner contact given for domain " + domain
  }

  function NotRegistered(domain: string): string
  {
    "The domain " + domain + " could not be registered"
  }

  function NotTransferred(domain: string): string
  {
    "The domain " + domain + " could not be transferred"
  }

  const DomainNotFetched := "Could not fetch domain"
  const DomainsNotRetrieved := "Could not retrieve domains"
  const LockingNotSupported := "Locking and unlocking domains is not supported"
  const AutoRenewNotChanged := "Could not change the auto renew status"
  const TokenNotFetched := "Could not fetch transfer token"
  const HoldersNotUpdated := "Could not update domain holders."
  const WhoisNotSupported := "Fetching domain handles from the registrar is not supported"
  const ContactNotUpdated := "Could not update contact"
  const ContactNotRetrieved := "Contact could not be retrieved"
  const NameserversNotUpdated := "Could not update nameservers"

  class Neostrada {
    /** Error messages, read by the host after each call. */
    var Error: seq<string>
    /** The registration period, also used for transfers. */
    var Period: int
    /** Handles resolved during a call, keyed by role prefix, for the host to store. */
    var registrarHandles: map<string, Handle>
    /** The key under which the host caches this adapter's handles. */
    const className: string := "Neostrada"

    constructor ()
      ensures Error == [] && Period == 1 && registrarHandles == map[]
    {
      Error := [];
      Period := 1;
      registrarHandles := map[];
    }

    /** checkDomain: the registrar's availability answer. */
    method CheckDomain(domain: string, client: Client) returns (available: bool)
      modifies client
      ensures available == client.answers.available
      ensures client.requests == old(client.requests) + [Request.IsAvailable(domain)]
    {
      available := client.IsAvailable(domain);
    }

    /**
     * registerDomain: resolve the owner handle, then order. Without an owner
     * handle no order is sent and two errors are reported; a placed order
     * resets the period to 1 and reports nothing. The nameservers are not used.
     */
    method RegisterDomain(domain: string, nameservers: seq<string>, whois: Whois, client: Client) returns (rc: bool)
      modifies this, client
      ensures var r := Resolve(whois, HandleOwner, className, client.answers.foundHolderId, client.answers.createdHolderId);
              var owner := r.Result();
              && rc == (!IsEmpty(owner) && client.answers.orderPlaced)
              && Error == old(Error) + ResolutionErrors(r)
                          + (if IsEmpty(owner) then [NoOwnerContact(domain)] else [])
                          + (if rc then [] else [NotRegistered(domain)])
              && Period == (if rc then 1 else old(Period))
              && registrarHandles == StoreHandle(old(registrarHandles), r, "owner")
              && client.requests == old(client.requests) + ResolutionRequests(r, whois.owner)
                                    + (if IsEmpty(owner) then [] else [Request.Order(domain, owner, None)])
    {
      rc := false;
      var ownerHandle := GetHandle(whois, HandleOwner, client);
      if !IsEmpty(ownerHandle) {
        rc := client.Order(domain, ownerHandle, None);
      } else {
        Error := Error + [NoOwnerContact(domain)];
      }
      if !rc {
        Error := Error + [NotRegistered(domain)];
      } else {
        Period := 1;
      }
    }

    /** transferDomain: as registerDomain, with the authorization code passed to the order. */
    method TransferDomain(domain: string, nameservers: seq<string>, whois: Whois, authCode: string, client: Client)
      returns (rc: bool)
      modifies this, client
      ensures var r := Resolve(whois, HandleOwner, className, client.answers.foundHolderId, client.answers.createdHolderId);
              var owner := r.Result();
              && rc == (!IsEmpty(owner) && client.answers.orderPlaced)
              && Error == old(Error) + ResolutionErrors(r)
                          + (if IsEmpty(owner) then [NoOwnerContact(domain)] else [])
                          + (if rc then [] else [NotTransferred(domain)])
              && Period == (if rc then 1 else old(Period))
              && registrarHandles == StoreHandle(old(registrarHandles), r, "owner")
              && client.requests == old(client.requests) + ResolutionRequests(r, whois.owner)
                                    + (if IsEmpty(owner) then [] else [Request.Order(domain, owner, Some(authCode))])
    {
      rc := false;
      var ownerHandle := GetHandle(whois, HandleOwner, client);
      if !IsEmpty(ownerHandle) {
        rc := client.Order(domain, ownerHandle, Some(authCode));
      } else {
        Error := Error + [NoOwnerContact(domain)];
      }
      if !rc {
        Error := Error + [NotTransferred(domain)];
      } else {
        Period := 1;
      }
    }

    /** deleteDomain: the registrar's answer; a failure is deliberately not reported. */
    method DeleteDomain(domain: string, client: Client) returns (rc: bool)
      modifies client
      ensures rc == client.answers.deleted
      ensures client.requests == old(client.requests) + [Request.DeleteDomain(domain)]
    {
      rc := false;
      var deleted := client.DeleteDomain(domain);
      if deleted {
        rc := true;
      }
    }

    /** getDomainInformation: the fetched domain's dates, or an error when the fetch fails. */
    method GetDomainInformation(domain: string, client: Client) returns (rc: Option<DomainInformation>)
      modifies this`Error, client
      ensures rc == if client.answers.domain.Some? then Some(InformationOf(client.answers.domain.value)) else None
      ensures Error == old(Error) + (if rc.None? then [DomainNotFetched] else [])
      ensures client.requests == old(client.requests) + [Request.GetDomain(domain)]
    {
      rc := None;
      var d := client.GetDomain(domain);
      if d.Some? {
        var record := d.value;
        rc := Some(InformationOf(record));
      } else {
        Error := Error + [DomainNotFetched];
      }
    }

    /**
     * getDomainList: the domains that are not external, in order. A failed or
     * empty fetch gives the empty list and exactly one error.
     */
    method GetDomainList(client: Client) returns (rc: seq<DomainInformation>)
      modifies this`Error, client
      ensures rc == if Truthy(client.answers.domains) then DomainList(client.answers.domains.value) else []
      ensures Error == old(Error) + (if Truthy(client.answers.domains) then [] else [DomainsNotRetrieved])
      ensures client.requests == old(client.requests) + [Request.GetDomains]
    {
      rc := [];
      var domains := client.GetDomains();
      if domains.Some? && domains.value != [] {
        var ds := domains.value;
        for i := 0 to |ds|
          invariant rc == DomainList(ds[..i])
          invariant Error == old(Error) && client.requests == old(client.requests) + [Request.GetDomains]
        {
          var domain := ds[i];
          if !domain.isExternal {
            rc := rc + [InformationOf(domain)];
          }
          assert ds[..i + 1] == ds[..i] + [domain];
          DomainListAppend(ds[..i], [domain]);
          DomainListCons([domain]);
        }
        assert ds[..|ds|] == ds;
      } else {
        Error := Error + [DomainsNotRetrieved];
      }
    }

    /** lockDomain: not supported; always fails with a fixed error. */
    method LockDomain(domain: string, lock: bool) returns (rc: bool)
      modifies this`Error
      ensures !rc && Error == old(Error) + [LockingNotSupported]
    {
      Error := Error + [LockingNotSupported];
      rc := false;
    }

    /**
     * setDomainAutoRenew: reactivates or deletes the domain and returns the
     * registrar's answer; the error is reported whatever the answer.
     */
    method SetDomainAutoRenew(domain: string, autorenew: bool, client: Client) returns (rc: bool)
      modifies this`Error, client
      ensures rc == if autorenew then client.answers.reactivated else client.answers.deleted
      ensures Error == old(Error) + [AutoRenewNotChanged]
      ensures client.requests == old(client.requests)
                                 + [if autorenew then Request.ReactivateDomain(domain) else Request.DeleteDomain(domain)]
    {
      Error := Error + [AutoRenewNotChanged];
      if autorenew {
        rc := client.ReactivateDomain(domain);
      } else {
        rc := client.DeleteDomain(domain);
      }
    }

    /** getToken: the fetched domain's authorization code, if set; the error is reported whatever the answer. */
    method GetToken(domain: string, client: Client) returns (token: Option<string>)
      modifies this`Error, client
      ensures token == if client.answers.domain.Some? then client.answers.domain.value.authCode else None
      ensures Error == old(Error) + [TokenNotFetched]
      ensures client.requests == old(client.requests) + [Request.GetDomain(domain)]
    {
      Error := Error + [TokenNotFetched];
      var d := client.GetDomain(domain);
      if d.Some? && d.value.authCode.Some? {
        return Some(d.value.authCode.value);
      }
      return None;
    }

    /**
     * getSyncData: one entry for every requested name and no other; the loop
     * removes each matched name from the pending set, and what remains is
     * reported as not found.
     */
    method GetSyncData(domainsToSync: set<string>, client: Client) returns (hostfactDomains: map<string, SyncEntry>)
      modifies client
      ensures hostfactDomains == SyncData(ListOf(client.answers.domains), domainsToSync)
      ensures hostfactDomains.Keys == domainsToSync
      ensures client.requests == old(client.requests) + [Request.GetDomains]
    {
      var domains := client.GetDomains();
      ghost var listed := ListOf(domains);
      hostfactDomains := map[];
      var pending := domainsToSync;
      if domains.Some? && domains.value != [] {
        var ds := domains.value;
        for i := 0 to |ds|
          invariant pending <= domainsToSync
          invariant hostfactDomains.Keys == domainsToSync - pending
          invariant forall name :: name in domainsToSync ==> (name in pending <==> FirstManaged(ds[..i], name).None?)
          invariant forall name :: name in hostfactDomains ==>
                      FirstManaged(ds[..i], name).Some? && hostfactDomains[name] == Classify(FirstManaged(ds[..i], name).value)
        {
          var domain := ds[i];
          if !domain.isExternal {
            var fetchedDomain := domain.description;
            if fetchedDomain in pending {
              if domain.paidUntil.Some? && !IsEmpty(domain.paidUntil.value) {
                hostfactDomains := hostfactDomains[fetchedDomain := Synced(ParsedAtom(domain.paidUntil.value))];
              } else {
                hostfactDomains := hostfactDomains[fetchedDomain := SyncError(NotInvoiced)];
              }
              pending := pending - {fetchedDomain};
            }
          }
          assert ds[..i + 1] == ds[..i] + [domain];
          forall name
            ensures FirstManaged(ds[..i + 1], name) ==
                      if FirstManaged(ds[..i], name).Some? then FirstManaged(ds[..i], name)
                      else if ManagedAs(domain, name) then Some(domain) else None
          {
            FirstManagedAppend(ds[..i], [domain], name);
          }
        }
        assert ds[..|ds|] == ds;
      }
      var rest := pending;
      while rest != {}
        invariant rest <= pending <= domainsToSync
        invariant hostfactDomains.Keys == domainsToSync - rest
        invariant forall name :: name in domainsToSync ==> (name in pending <==> FirstManaged(listed, name).None?)
        invariant forall name :: name in hostfactDomains ==> hostfactDomains[name] == Expected(listed, name)
        decreases rest
      {
        var name :| name in rest;
        hostfactDomains := hostfactDomains[name := SyncError(NotFound)];
        rest := rest - {name};
      }
    }

    /**
     * updateDomainWhois: sends the cached handles of the roles that have one;
     * with none, or when the registrar refuses, an error is reported.
     */
    method UpdateDomainWhois(domain: string, whois: Whois, client: Client) returns (rc: bool)
      modifies this`Error, client
      ensures rc == (DomainHolders(whois) != map[] && client.answers.holdersUpdated)
      ensures Error == old(Error) + (if rc then [] else [HoldersNotUpdated])
      ensures client.requests == old(client.requests)
                                 + (if DomainHolders(whois) == map[] then []
                                    else [Request.UpdateDomainHolders(domain, DomainHolders(whois))])
    {
      var holders: map<string, Handle> := map[];
      if WhoisHandleKey in whois.owner.registrarHandles {
        holders := holders["registrar" := whois.owner.registrarHandles[WhoisHandleKey]];
      }
      if WhoisHandleKey in whois.admin.registrarHandles {
        holders := holders["admin" := whois.admin.registrarHandles[WhoisHandleKey]];
      }
      if WhoisHandleKey in whois.tech.registrarHandles {
        holders := holders["tech" := whois.tech.registrarHandles[WhoisHandleKey]];
      }
      rc := false;
      var updated := false;
      if holders != map[] {
        updated := client.UpdateDomainHolders(domain, holders);
      }
      if updated {
        rc := true;
      } else {
        Error := Error + [HoldersNotUpdated];
      }
    }

    /** getDomainWhois: not supported; always fails with a fixed error. */
    method GetDomainWhois(domain: string) returns (rc: bool)
      modifies this`Error
      ensures !rc && Error == old(Error) + [WhoisNotSupported]
    {
      Error := Error + [WhoisNotSupported];
      rc := false;
    }

    /** createContact: the new holder's id, or false (NoHandle) with an error. */
    method CreateContact(whois: Whois, t: HandleType, client: Client) returns (rc: Handle)
      modifies this`Error, client
      ensures rc == CreatedHandleOf(client.answers.createdHolderId)
      ensures Error == old(Error) + (if rc == NoHandle then [CreateFailed] else [])
      ensures client.requests == old(client.requests) + [Request.CreateHolder(NewHolderOf(RoleFields(whois, t)))]
    {
      var holderId := client.CreateHolder(NewHolderOf(RoleFields(whois, t)));
      rc := NoHandle;
      if !IsEmpty(holderId) {
        rc := holderId;
      } else {
        Error := Error + [CreateFailed];
      }
    }

    /** updateContact: the registrar's answer, with an error when it refuses. */
    method UpdateContact(handle: Handle, whois: Whois, t: HandleType, client: Client) returns (rc: bool)
      modifies this`Error, client
      ensures rc == client.answers.holderUpdated
      ensures Error == old(Error) + (if rc then [] else [ContactNotUpdated])
      ensures client.requests == old(client.requests) + [Request.UpdateHolder(handle, HolderUpdateOf(RoleFields(whois, t)))]
    {
      var updated := client.UpdateHolder(handle, HolderUpdateOf(RoleFields(whois, t)));
      rc := false;
      if updated {
        rc := true;
      } else {
        Error := Error + [ContactNotUpdated];
      }
    }

    /**
     * getContact as written: `$holders` receives the boolean conjunction of
     * the two fetches, the loop over it runs no iteration, and the result is
     * always the blank WHOIS object.
     */
    method GetContactAsWritten(handle: Handle, client: Client) returns (whois: Whois)
      modifies this`Error, client
      ensures whois == BlankWhois
      ensures Error == old(Error)
                       + (if Truthy(client.answers.holders) && client.answers.countriesFetched then []
                          else [ContactNotRetrieved])
      ensures client.requests == old(client.requests) + [Request.GetHolders]
                                 + (if Truthy(client.answers.holders) then [Request.GetCountries] else [])
    {
      whois := BlankWhois;
      var holders := client.GetHolders();
      var fetched := holders.Some? && holders.value != [];
      if fetched {
        fetched := client.GetCountries();
      }
      // `fetched` is what `$holders` holds: iterating over a boolean runs no iteration.
      if !fetched {
        Error := Error + [ContactNotRetrieved];
      }
    }

    /**
     * getContact as evidently intended: the owner fields of the first holder
     * with the handle whose country resolves; blank when there is none.
     */
    method GetContact(handle: Handle, client: Client) returns (whois: Whois)
      modifies this`Error, client
      ensures var fetched := Truthy(client.answers.holders) && client.answers.countriesFetched;
              && whois == (if fetched then ContactFor(client.answers.holders.value, client.answers.countryCodes, handle)
                           else BlankWhois)
              && Error == old(Error) + (if fetched then [] else [ContactNotRetrieved])
      ensures client.requests == old(client.requests) + [Request.GetHolders]
                                 + (if Truthy(client.answers.holders) then [Request.GetCountries] else [])
    {
      whois := BlankWhois;
      var holders := client.GetHolders();
      var fetched := holders.Some? && holders.value != [];
      if fetched {
        fetched := client.GetCountries();
      }
      if fetched {
        var hs := holders.value;
        var i := 0;
        while i < |hs|
          invariant 0 <= i <= |hs|
          invariant ContactFor(hs[i..], client.answers.countryCodes, handle) == ContactFor(hs, client.answers.countryCodes, handle)
        {
          var holder := hs[i];
          assert hs[i..][1..] == hs[i + 1..];
          if holder.holderId == handle {
            var country := client.CountryById(holder.countryId);
            if country.Some? {
              whois := whois.(owner := whois.owner.(
                companyName := holder.company,
                initials := holder.firstname,
                surName := holder.lastname,
                address := holder.street,
                zipCode := holder.zipcode,
                city := holder.city,
                country := country.value,
                phoneNumber := holder.phoneNumber,
                emailAddress := holder.email));
              break;
            }
          }
          i := i + 1;
        }
      } else {
        Error := Error + [ContactNotRetrieved];
      }
    }

    /** getContactHandle: the holder id the registrar's lookup gives, or 0 (NoHandle). */
    method GetContactHandle(whois: Whois, t: HandleType, client: Client) returns (rc: Handle)
      modifies client
      ensures rc == ContactHandleOf(client.answers.foundHolderId)
      ensures client.requests == old(client.requests) + [Request.FindHolderId(HolderQueryOf(RoleFields(whois, t)))]
    {
      var holderId := client.FindHolderId(HolderQueryOf(RoleFields(whois, t)));
      rc := NoHandle;
      if !IsEmpty(holderId) {
        rc := holderId;
      }
    }

    /**
     * getContactList: the holders whose country resolves, mapped and in order;
     * with a non-empty surname only those with that last name. When either
     * fetch fails the list is empty.
     */
    method GetContactList(surname: string, client: Client) returns (rc: seq<ContactEntry>)
      modifies client
      ensures rc == if Truthy(client.answers.holders) && client.answers.countriesFetched
                    then ContactRows(client.answers.holders.value, client.answers.countryCodes, surname)
                    else []
      ensures client.requests == old(client.requests) + [Request.GetHolders]
                                 + (if Truthy(client.answers.holders) then [Request.GetCountries] else [])
    {
      rc := [];
      var holders := client.GetHolders();
      var fetched := holders.Some? && holders.value != [];
      if fetched {
        fetched := client.GetCountries();
      }
      if fetched {
        var hs := holders.value;
        for i := 0 to |hs|
          invariant rc == ContactRows(hs[..i], client.answers.countryCodes, surname)
          invariant client.requests == old(client.requests) + [Request.GetHolders, Request.GetCountries]
        {
          var holder := hs[i];
          var country := client.CountryById(holder.countryId);
          if country.Some? {
            var entry := ContactEntryOf(holder, country.value);
            if !IsEmpty(surname) {
              if entry.surName == surname {
                rc := rc + [entry];
              }
            } else {
              rc := rc + [entry];
            }
          }
          assert hs[..i + 1] == hs[..i] + [holder];
          ContactRowsAppend(hs[..i], [holder], client.answers.countryCodes, surname);
        }
        assert hs[..|hs|] == hs;
      }
    }

    /**
     * updateNameServers: deletes the current nameservers, adds the given ones
     * and returns whether the registrar accepted them, with an error when not.
     */
    method UpdateNameServers(domain: string, nameservers: seq<string>, client: Client) returns (rc: bool)
      modifies this`Error, client
      ensures rc == client.answers.nameserversAdded
      ensures Error == old(Error) + (if rc then [] else [NameserversNotUpdated])
      ensures client.requests == old(client.requests)
                                 + [Request.DeleteCurrentNameservers(domain), Request.AddNameservers(domain, nameservers)]
    {
      rc := false;
      client.DeleteCurrentNameservers(domain);
      var added := client.AddNameservers(domain, nameservers);
      if added {
        rc := true;
      } else {
        Error := Error + [NameserversNotUpdated];
      }
    }

    /**
     * getHandle: the handle of role `t` by the resolution order of `Resolve`;
     * a looked-up or created handle is stored under the role's prefix.
     */
    method GetHandle(whois: Whois, t: HandleType, client: Client) returns (rc: Handle)
      modifies this`Error, this`registrarHandles, client
      ensures var r := Resolve(whois, t, className, client.answers.foundHolderId, client.answers.createdHolderId);
              && rc == r.Result()
              && registrarHandles == StoreHandle(old(registrarHandles), r, Prefix(t))
              && Error == old(Error) + ResolutionErrors(r)
              && client.requests == old(client.requests) + ResolutionRequests(r, RoleFields(whois, t))
    {
      var prefix := Prefix(t);
      rc := NoHandle;
      if prefix != "" {
        var fields := RoleFields(whois, t);
        if className in fields.registrarHandles {
          rc := fields.registrarHandles[className];
        } else if !IsEmpty(fields.emailAddress) {
          var handle := GetContactHandle(whois, t, client);
          if IsEmpty(handle) {
            handle := CreateContact(whois, t, client);
          }
          registrarHandles := registrarHandles[prefix := handle];
          rc := handle;
        }
      }
    }
  }

  /**
   * registerDomain (neostrada/neostrada.php:96-103) with an owner that has no
   * cached handle and no email address: the owner handle stays unresolved, so
   * no order is sent and both errors are reported in order.
   */
  method RegisterWithoutOwnerScenario(answers: Answers)
  {
    var adapter := new Neostrada();
    var client := new Client(answers);
    var ok := adapter.RegisterDomain("example.com", [], BlankWhois, client);
    assert Resolve(BlankWhois, HandleOwner, adapter.className, answers.foundHolderId, answers.createdHolderId) == Unresolved;
    assert !ok;
    assert adapter.Error == [NoOwnerContact("example.com"), NotRegistered("example.com")];
    assert client.requests == [] && adapter.Period == 1;
  }
}
