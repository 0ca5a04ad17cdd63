/**
 * The reconciliation behind getSyncData, stated declaratively: every requested
 * name is answered by the first listed domain that is not external and carries
 * that name, or else reported as not found. The adapter's loop
 * (`Adapter.Neostrada.GetSyncData`) is proved to compute exactly this map.
 */
module Sync {
  import opened Wrappers
  import opened Records

  const NotInvoiced := "Domain not invoiced yet"
  const NotFound := "Domain not found"

  /** A listed domain answers a request for `name` when it is not external and carries that name. */
  predicate ManagedAs(d: DomainRecord, name: string)
  {
    !d.isExternal && d.description == name
  }

  /** A listed domain whose `paid_until` is set and not empty. */
  predicate IsInvoiced(d: DomainRecord)
  {
    d.paidUntil.Some? && !IsEmpty(d.paidUntil.value)
  }

  /** The first listed domain that answers a request for `name`. */
  function FirstManaged(ds: seq<DomainRecord>, name: string): Option<DomainRecord>
  {
    if ds == [] then None
    else if ManagedAs(ds[0], name) then Some(ds[0])
    else FirstManaged(ds[1..], name)
  }

  /** The entry for a requested domain that the registrar lists. */
  function Classify(d: DomainRecord): SyncEntry
  {
    if IsInvoiced(d) then Synced(ParsedAtom(d.paidUntil.value)) else SyncError(NotInvoiced)
  }

  /** The entry reported for a requested name. */
  function Expected(ds: seq<DomainRecord>, name: string): SyncEntry
  {
    match FirstManaged(ds, name)
    case Some(d) => Classify(d)
    case None => SyncError(NotFound)
  }

  /** The reconciliation of the registrar's list `ds` against the requested names. */
  function SyncData(ds: seq<DomainRecord>, requested: set<string>): map<string, SyncEntry>
  {
    map name | name in requested :: Expected(ds, name)
  }

  /** Position `i` holds the first listed domain answering `name`. */
  predicate FirstAnswerAt(ds: seq<DomainRecord>, name: string, i: int)
  {
    0 <= i < |ds| && ManagedAs(ds[i], name) && forall j :: 0 <= j < i ==> !ManagedAs(ds[j], name)
  }

  /** Looking up a name in a concatenation: the first part wins. */
  lemma {:induction false} FirstManagedAppend(a: seq<DomainRecord>, b: seq<DomainRecord>, name: string)
    ensures FirstManaged(a + b, name) ==
              if FirstManaged(a, name).Some? then FirstManaged(a, name) else FirstManaged(b, name)
  {
    if a == [] {
      assert a + b == b;
    } else {
      assert (a + b)[0] == a[0];
      assert (a + b)[1..] == a[1..] + b;
      FirstManagedAppend(a[1..], b, name);
    }
  }

  /** `FirstManaged` finds exactly the first answering position, and nothing when there is none. */
  lemma {:induction false} FirstManagedIsFirstAnswer(ds: seq<DomainRecord>, name: string)
    ensures FirstManaged(ds, name).None? <==> forall i :: 0 <= i < |ds| ==> !ManagedAs(ds[i], name)
    ensures forall i :: FirstAnswerAt(ds, name, i) ==> FirstManaged(ds, name) == Some(ds[i])
  {
    if ds != [] {
      FirstManagedIsFirstAnswer(ds[1..], name);
      if !ManagedAs(ds[0], name) {
        forall i | FirstAnswerAt(ds, name, i)
          ensures FirstManaged(ds, name) == Some(ds[i])
        {
          assert i > 0;
          assert FirstAnswerAt(ds[1..], name, i - 1);
        }
        if FirstManaged(ds, name).None? {
          forall i | 0 <= i < |ds|
            ensures !ManagedAs(ds[i], name)
          {
            if i > 0 { assert ds[i] == ds[1..][i - 1]; }
          }
        } else {
          var k :| 0 <= k < |ds[1..]| && ManagedAs(ds[1..][k], name);
          assert ManagedAs(ds[k + 1], name);
        }
      } else {
        forall i | FirstAnswerAt(ds, name, i)
          ensures FirstManaged(ds, name) == Some(ds[i])
        {
          assert i == 0;
        }
      }
    }
  }

  /** Dropping external domains does not change any lookup. */
  lemma {:induction false} FirstManagedIgnoresExternal(ds: seq<DomainRecord>, name: string)
    ensures FirstManaged(ManagedOnly(ds), name) == FirstManaged(ds, name)
  {
    if ds != [] {
      FirstManagedIgnoresExternal(ds[1..], name);
      var head := if ds[0].isExternal then [] else [ds[0]];
      FirstManagedAppend(head, ManagedOnly(ds[1..]), name);
    }
  }

  /** Totality: the result has exactly the requested names as keys, each with status success or error. */
  lemma SyncDataIsTotal(ds: seq<DomainRecord>, requested: set<string>)
    ensures SyncData(ds, requested).Keys == requested
    ensures forall name :: name in requested ==>
              SyncData(ds, requested)[name].Status() in {"success", "error"}
  {
  }

  /**
   * The three outcomes for a requested name, stated by position in the list:
   * success with the formatted `paid_until` when the first answering domain is
   * invoiced, 'Domain not invoiced yet' when it is not, and 'Domain not found'
   * when no domain answers.
   */
  lemma SyncOutcomes(ds: seq<DomainRecord>, requested: set<string>, name: string)
    requires name in requested
    ensures forall i :: FirstAnswerAt(ds, name, i) && IsInvoiced(ds[i]) ==>
              SyncData(ds, requested)[name] == Synced(ParsedAtom(ds[i].paidUntil.value))
    ensures forall i :: FirstAnswerAt(ds, name, i) && !IsInvoiced(ds[i]) ==>
              SyncData(ds, requested)[name] == SyncError(NotInvoiced)
    ensures SyncData(ds, requested)[name] == SyncError(NotFound) <==>
              forall i :: 0 <= i < |ds| ==> !ManagedAs(ds[i], name)
  {
    FirstManagedIsFirstAnswer(ds, name);
  }

  /** A name gets status 'success' if and only if its first answering domain is invoiced. */
  lemma SyncSuccessIffInvoiced(ds: seq<DomainRecord>, requested: set<string>, name: string)
    requires name in requested
    ensures SyncData(ds, requested)[name].Status() == "success" <==>
              exists i :: FirstAnswerAt(ds, name, i) && IsInvoiced(ds[i])
  {
    FirstManagedIsFirstAnswer(ds, name);
    if FirstManaged(ds, name).Some? {
      var k :| 0 <= k < |ds| && ManagedAs(ds[k], name);
      var i := FirstAnswerIndex(ds, name, k);
      assert FirstAnswerAt(ds, name, i);
    }
  }

  /** The least answering position, given one answering position `k`. */
  ghost function FirstAnswerIndex(ds: seq<DomainRecord>, name: string, k: nat): (i: nat)
    requires k < |ds| && ManagedAs(ds[k], name)
    ensures FirstAnswerAt(ds, name, i)
  {
    if exists j :: 0 <= j < k && ManagedAs(ds[j], name) then
      var j :| 0 <= j < k && ManagedAs(ds[j], name);
      FirstAnswerIndex(ds, name, j)
    else k
  }

  /** External domains never produce or overwrite an entry. */
  lemma SyncIgnoresExternal(ds: seq<DomainRecord>, requested: set<string>)
    ensures SyncData(ManagedOnly(ds), requested) == SyncData(ds, requested)
  {
    forall name | name in requested
      ensures Expected(ManagedOnly(ds), name) == Expected(ds, name)
    {
      FirstManagedIgnoresExternal(ds, name);
    }
  }

  /** A later listing of an already answered name never overwrites its entry. */
  lemma LaterDomainsDoNotOverwrite(a: seq<DomainRecord>, b: seq<DomainRecord>, requested: set<string>, name: string)
    requires name in requested && exists i :: 0 <= i < |a| && ManagedAs(a[i], name)
    ensures SyncData(a + b, requested)[name] == SyncData(a, requested)[name]
  {
    FirstManagedIsFirstAnswer(a, name);
    FirstManagedAppend(a, b, name);
  }

  /** When the domain list cannot be fetched, every requested name is reported as not found. */
  lemma FailedFetchFindsNothing(requested: set<string>)
    ensures SyncData([], requested) == map name | name in requested :: SyncError(NotFound)
  {
  }
}
