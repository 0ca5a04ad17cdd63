/**
 * Handle resolution (getHandle) as a function of the host's WHOIS object and
 * the registrar's answers: a handle cached by the host for this adapter wins;
 * otherwise, when the role has an email address, the registrar is asked for
 * a matching holder and a new holder is created when there is none.
 */
module Handles {
  import opened Records
  import opened Registrar

  const CreateFailed := "Could not create contact"

  /** How a handle was arrived at. */
  datatype Resolution =
    | Unresolved              // unknown role, or no cached handle and no email address
    | Cached(handle: Handle)  // taken from the host's cache; the registrar is not asked
    | Found(handle: Handle)   // the lookup by contact data gave a holder
    | Created(handle: Handle) // the lookup gave nothing; what createContact returned (NoHandle on failure)
  {
    /** The value getHandle returns. */
    function Result(): Handle
    {
      if Unresolved? then NoHandle else handle
    }

    /** Whether getHandle stores the handle for the host to persist. */
    predicate Stores()
    {
      Found? || Created?
    }
  }

  /** What getContactHandle returns for the registrar's lookup answer: the holder id, or 0. */
  function ContactHandleOf(found: Handle): (h: Handle)
    ensures IsEmpty(h) <==> IsEmpty(found)
    ensures !IsEmpty(found) ==> h == found
  {
    if found != "" && found != "0" then found else NoHandle
  }

  /** What createContact returns for the registrar's create answer: the holder id, or false. */
  function CreatedHandleOf(created: Handle): (h: Handle)
    ensures h == NoHandle <==> IsEmpty(created)
    ensures !IsEmpty(created) ==> h == created
  {
    if created != "" && created != "0" then created else NoHandle
  }

  /** Handle resolution for role `t`, given what the registrar answers to a lookup and to a create. */
  function Resolve(w: Whois, t: HandleType, className: string, found: Handle, created: Handle): Resolution
  {
    var fields := RoleFields(w, t);
    if Prefix(t) == "" then Unresolved
    else if className in fields.registrarHandles then Cached(fields.registrarHandles[className])
    else if IsEmpty(fields.emailAddress) then Unresolved
    else if !IsEmpty(ContactHandleOf(found)) then Found(ContactHandleOf(found))
    else Created(CreatedHandleOf(created))
  }

  /** The registrar requests a resolution sends. */
  function ResolutionRequests(r: Resolution, fields: ContactFields): seq<Request>
  {
    match r
    case Found(_) => [Request.FindHolderId(HolderQueryOf(fields))]
    case Created(_) => [Request.FindHolderId(HolderQueryOf(fields)), Request.CreateHolder(NewHolderOf(fields))]
    case _ => []
  }

  /** The errors a resolution appends: only a failed create reports one. */
  function ResolutionErrors(r: Resolution): seq<string>
  {
    if r == Created(NoHandle) then [CreateFailed] else []
  }

  /** The host's handle map after a resolution: a looked-up or created handle is stored under the role's prefix. */
  function StoreHandle(handles: map<string, Handle>, r: Resolution, prefix: string): map<string, Handle>
  {
    if r.Stores() then handles[prefix := r.Result()] else handles
  }

  /**
   * A handle cached for this adapter is returned whatever the registrar would
   * answer: no request is sent, nothing is stored, no error is reported.
   */
  lemma CachedHandleWins(w: Whois, t: HandleType, className: string, found: Handle, created: Handle)
    requires t != HandleUnknown && className in RoleFields(w, t).registrarHandles
    ensures var r := Resolve(w, t, className, found, created);
            r.Result() == RoleFields(w, t).registrarHandles[className]
            && ResolutionRequests(r, RoleFields(w, t)) == []
            && !r.Stores() && ResolutionErrors(r) == []
  {
  }

  /**
   * Without a cached handle and with an email address, a holder the lookup
   * finds is used, whatever a create would answer; no create is sent.
   */
  lemma LookupBeforeCreate(w: Whois, t: HandleType, className: string, found: Handle, created: Handle, created': Handle)
    requires t != HandleUnknown && className !in RoleFields(w, t).registrarHandles
    requires !IsEmpty(RoleFields(w, t).emailAddress) && !IsEmpty(found)
    ensures Resolve(w, t, className, found, created) == Resolve(w, t, className, found, created')
    ensures var r := Resolve(w, t, className, found, created);
            r.Result() == found && r.Stores()
            && ResolutionRequests(r, RoleFields(w, t)) == [Request.FindHolderId(HolderQueryOf(RoleFields(w, t)))]
  {
  }

  /**
   * Without a cached handle and with an email address, a lookup that finds
   * nothing is followed by a create, whose answer is the result and is stored
   * even when the create failed.
   */
  lemma CreateWhenLookupFindsNothing(w: Whois, t: HandleType, className: string, found: Handle, created: Handle)
    requires t != HandleUnknown && className !in RoleFields(w, t).registrarHandles
    requires !IsEmpty(RoleFields(w, t).emailAddress) && IsEmpty(found)
    ensures var r := Resolve(w, t, className, found, created);
            r.Result() == CreatedHandleOf(created) && r.Stores()
            && ResolutionRequests(r, RoleFields(w, t)) ==
                 [Request.FindHolderId(HolderQueryOf(RoleFields(w, t))), Request.CreateHolder(NewHolderOf(RoleFields(w, t)))]
            && (ResolutionErrors(r) == [CreateFailed] <==> IsEmpty(created))
  {
  }

  /** An unknown role, or a role with neither a cached handle nor an email address, resolves to 0 without a request. */
  lemma NothingToResolve(w: Whois, t: HandleType, className: string, found: Handle, created: Handle)
    requires t == HandleUnknown
             || (className !in RoleFields(w, t).registrarHandles && IsEmpty(RoleFields(w, t).emailAddress))
    ensures var r := Resolve(w, t, className, found, created);
            r.Result() == NoHandle && !r.Stores()
            && ResolutionRequests(r, RoleFields(w, t)) == [] && ResolutionErrors(r) == []
  {
  }

  /** Only a cached handle or a failed create can leave the caller with an empty handle. */
  lemma EmptyHandleCauses(w: Whois, t: HandleType, className: string, found: Handle, created: Handle)
    ensures var r := Resolve(w, t, className, found, created);
            IsEmpty(r.Result()) ==> r.Unresolved? || r.Cached? || r == Created(NoHandle)
  {
  }

  /** The key under which updateDomainWhois reads a role's cached handle. */
  const WhoisHandleKey := "neostrada"

  /**
   * The holder map updateDomainWhois sends: the owner's, admin's and tech's
   * cached handles, under the registrar's role names, for the roles that have one.
   */
  function DomainHolders(w: Whois): (m: map<string, Handle>)
    ensures m.Keys <= {"registrar", "admin", "tech"}
    ensures "registrar" in m <==> WhoisHandleKey in w.owner.registrarHandles
    ensures "admin" in m <==> WhoisHandleKey in w.admin.registrarHandles
    ensures "tech" in m <==> WhoisHandleKey in w.tech.registrarHandles
    ensures "registrar" in m ==> m["registrar"] == w.owner.registrarHandles[WhoisHandleKey]
    ensures "admin" in m ==> m["admin"] == w.admin.registrarHandles[WhoisHandleKey]
    ensures "tech" in m ==> m["tech"] == w.tech.registrarHandles[WhoisHandleKey]
  {
    var owner := if WhoisHandleKey in w.owner.registrarHandles
                 then map["registrar" := w.owner.registrarHandles[WhoisHandleKey]] else map[];
    var admin := if WhoisHandleKey in w.admin.registrarHandles
                 then owner["admin" := w.admin.registrarHandles[WhoisHandleKey]] else owner;
    if WhoisHandleKey in w.tech.registrarHandles
    then admin["tech" := w.tech.registrarHandles[WhoisHandleKey]] else admin
  }
}
