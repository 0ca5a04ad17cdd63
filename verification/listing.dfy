/**
 * The two listing filters and the single-contact lookup, stated as functions
 * over the registrar's lists: the domain list keeps the domains that are not
 * external, the contact list keeps the holders whose country resolves (and,
 * with a surname, only those with that last name), and a single contact is the
 * first holder with the handle whose country resolves.
 */
module Listing {
  import opened Wrappers
  import opened Records

  // ---------------------------------------------------------------- domain list

  /** The host's entries for a list of domains, one per domain, in order. */
  function InformationList(ms: seq<DomainRecord>): (r: seq<DomainInformation>)
    ensures |r| == |ms|
  {
    if ms == [] then [] else [InformationOf(ms[0])] + InformationList(ms[1..])
  }

  /** The domain list: one entry per domain that is not external, in order. */
  function DomainList(ds: seq<DomainRecord>): seq<DomainInformation>
  {
    InformationList(ManagedOnly(ds))
  }

  /** The number of external domains in a list. */
  function ExternalCount(ds: seq<DomainRecord>): (n: nat)
    ensures n <= |ds|
  {
    if ds == [] then 0 else (if ds[0].isExternal then 1 else 0) + ExternalCount(ds[1..])
  }

  lemma {:induction false} ManagedOnlyAppend(a: seq<DomainRecord>, b: seq<DomainRecord>)
    ensures ManagedOnly(a + b) == ManagedOnly(a) + ManagedOnly(b)
  {
    if a == [] {
      assert a + b == b;
    } else {
      assert (a + b)[0] == a[0];
      assert (a + b)[1..] == a[1..] + b;
      ManagedOnlyAppend(a[1..], b);
    }
  }

  lemma {:induction false} InformationListAppend(a: seq<DomainRecord>, b: seq<DomainRecord>)
    ensures InformationList(a + b) == InformationList(a) + InformationList(b)
  {
    if a == [] {
      assert a + b == b;
    } else {
      assert (a + b)[0] == a[0];
      assert (a + b)[1..] == a[1..] + b;
      InformationListAppend(a[1..], b);
    }
  }

  /** Order preservation: listing a concatenation lists the parts one after the other. */
  lemma DomainListAppend(a: seq<DomainRecord>, b: seq<DomainRecord>)
    ensures DomainList(a + b) == DomainList(a) + DomainList(b)
  {
    ManagedOnlyAppend(a, b);
    InformationListAppend(ManagedOnly(a), ManagedOnly(b));
  }

  /** The domain list of a non-empty list: the first domain's entry, unless it is external, then the rest. */
  lemma DomainListCons(ds: seq<DomainRecord>)
    requires ds != []
    ensures DomainList(ds) == (if ds[0].isExternal then [] else [InformationOf(ds[0])]) + DomainList(ds[1..])
  {
    var head := if ds[0].isExternal then [] else [ds[0]];
    InformationListAppend(head, ManagedOnly(ds[1..]));
  }

  /** An entry is listed if and only if it comes from a domain that is not external. */
  lemma {:induction false} DomainListMembers(ds: seq<DomainRecord>, e: DomainInformation)
    ensures e in DomainList(ds) <==> exists i :: 0 <= i < |ds| && !ds[i].isExternal && InformationOf(ds[i]) == e
  {
    if ds != [] {
      DomainListCons(ds);
      DomainListMembers(ds[1..], e);
      if e in DomainList(ds[1..]) {
        var i :| 0 <= i < |ds[1..]| && !ds[1..][i].isExternal && InformationOf(ds[1..][i]) == e;
        assert ds[i + 1] == ds[1..][i];
      }
      if exists i :: 0 <= i < |ds| && !ds[i].isExternal && InformationOf(ds[i]) == e {
        var i :| 0 <= i < |ds| && !ds[i].isExternal && InformationOf(ds[i]) == e;
        if i > 0 { assert ds[1..][i - 1] == ds[i]; }
      }
    }
  }

  /** The list has one entry per domain that is not external and no others. */
  lemma {:induction false} DomainListLength(ds: seq<DomainRecord>)
    ensures |DomainList(ds)| == |ds| - ExternalCount(ds)
  {
    if ds != [] {
      DomainListCons(ds);
      DomainListLength(ds[1..]);
    }
  }

  // --------------------------------------------------------------- contact list

  /** A holder is listed when its country resolves and, for a surname filter, its last name matches. */
  predicate Listed(h: Holder, countryCodes: map<int, string>, surname: string)
  {
    h.countryId in countryCodes && (IsEmpty(surname) || h.lastname == surname)
  }

  /** The contact list: one row per listed holder, in order. */
  function ContactRows(hs: seq<Holder>, countryCodes: map<int, string>, surname: string): seq<ContactEntry>
  {
    if hs == [] then []
    else
      (if Listed(hs[0], countryCodes, surname)
       then [ContactEntryOf(hs[0], countryCodes[hs[0].countryId])] else [])
      + ContactRows(hs[1..], countryCodes, surname)
  }

  /** The rows with a given surname, in order. */
  function WithSurname(rows: seq<ContactEntry>, surname: string): (r: seq<ContactEntry>)
    ensures forall e :: e in r ==> e in rows && e.surName == surname
  {
    if rows == [] then []
    else (if rows[0].surName == surname then [rows[0]] else []) + WithSurname(rows[1..], surname)
  }

  /** Order preservation: listing a concatenation lists the parts one after the other. */
  lemma {:induction false} ContactRowsAppend(a: seq<Holder>, b: seq<Holder>, countryCodes: map<int, string>, surname: string)
    ensures ContactRows(a + b, countryCodes, surname) == ContactRows(a, countryCodes, surname) + ContactRows(b, countryCodes, surname)
  {
    if a == [] {
      assert a + b == b;
    } else {
      assert (a + b)[0] == a[0];
      assert (a + b)[1..] == a[1..] + b;
      ContactRowsAppend(a[1..], b, countryCodes, surname);
    }
  }

  /**
   * A row is listed if and only if it maps a holder whose country resolves,
   * with that country's code, and, for a non-empty surname, carries that surname.
   */
  lemma {:induction false} ContactRowsMembers(hs: seq<Holder>, countryCodes: map<int, string>, surname: string, e: ContactEntry)
    ensures e in ContactRows(hs, countryCodes, surname) <==>
              exists i :: 0 <= i < |hs| && hs[i].countryId in countryCodes
                          && e == ContactEntryOf(hs[i], countryCodes[hs[i].countryId])
                          && (IsEmpty(surname) || e.surName == surname)
  {
    if hs != [] {
      ContactRowsMembers(hs[1..], countryCodes, surname, e);
      if e in ContactRows(hs[1..], countryCodes, surname) {
        var i :| 0 <= i < |hs[1..]| && hs[1..][i].countryId in countryCodes
                 && e == ContactEntryOf(hs[1..][i], countryCodes[hs[1..][i].countryId])
                 && (IsEmpty(surname) || e.surName == surname);
        assert hs[i + 1] == hs[1..][i];
      }
      if exists i :: 0 <= i < |hs| && hs[i].countryId in countryCodes
                     && e == ContactEntryOf(hs[i], countryCodes[hs[i].countryId])
                     && (IsEmpty(surname) || e.surName == surname) {
        var i :| 0 <= i < |hs| && hs[i].countryId in countryCodes
                 && e == ContactEntryOf(hs[i], countryCodes[hs[i].countryId])
                 && (IsEmpty(surname) || e.surName == surname);
        if i > 0 { assert hs[1..][i - 1] == hs[i]; }
      }
    }
  }

  /** A holder whose country does not resolve is dropped wherever it stands. */
  lemma UnresolvedCountryIsDropped(hs: seq<Holder>, countryCodes: map<int, string>, surname: string, i: nat)
    requires i < |hs| && hs[i].countryId !in countryCodes
    ensures ContactRows(hs, countryCodes, surname) == ContactRows(hs[..i] + hs[i + 1..], countryCodes, surname)
  {
    assert hs == hs[..i] + ([hs[i]] + hs[i + 1..]);
    ContactRowsAppend(hs[..i], [hs[i]] + hs[i + 1..], countryCodes, surname);
    ContactRowsAppend([hs[i]], hs[i + 1..], countryCodes, surname);
    ContactRowsAppend(hs[..i], hs[i + 1..], countryCodes, surname);
  }

  /** A non-empty surname selects, in order, exactly the rows of the unfiltered list with that surname. */
  lemma {:induction false} SurnameSelectsFromFullList(hs: seq<Holder>, countryCodes: map<int, string>, surname: string)
    requires !IsEmpty(surname)
    ensures ContactRows(hs, countryCodes, surname) == WithSurname(ContactRows(hs, countryCodes, ""), surname)
  {
    if hs != [] {
      SurnameSelectsFromFullList(hs[1..], countryCodes, surname);
      var head := if Listed(hs[0], countryCodes, "") then [ContactEntryOf(hs[0], countryCodes[hs[0].countryId])] else [];
      WithSurnameAppend(head, ContactRows(hs[1..], countryCodes, ""), surname);
    }
  }

  lemma {:induction false} WithSurnameAppend(a: seq<ContactEntry>, b: seq<ContactEntry>, surname: string)
    ensures WithSurname(a + b, surname) == WithSurname(a, surname) + WithSurname(b, surname)
  {
    if a == [] {
      assert a + b == b;
    } else {
      assert (a + b)[0] == a[0];
      assert (a + b)[1..] == a[1..] + b;
      WithSurnameAppend(a[1..], b, surname);
    }
  }

  // ------------------------------------------------------------- single contact

  /** A holder that a single-contact fetch accepts: the handle matches and the country resolves. */
  predicate Matches(h: Holder, countryCodes: map<int, string>, handle: Handle)
  {
    h.holderId == handle && h.countryId in countryCodes
  }

  /** The WHOIS object of a single-contact fetch: the owner fields of the first matching holder, blank when none. */
  function ContactFor(hs: seq<Holder>, countryCodes: map<int, string>, handle: Handle): Whois
  {
    if hs == [] then BlankWhois
    else if Matches(hs[0], countryCodes, handle)
    then BlankWhois.(owner := OwnerFieldsOf(hs[0], countryCodes[hs[0].countryId]))
    else ContactFor(hs[1..], countryCodes, handle)
  }

  /** Looking up a handle in a concatenation: the first part wins. */
  lemma {:induction false} ContactForAppend(a: seq<Holder>, b: seq<Holder>, countryCodes: map<int, string>, handle: Handle)
    ensures ContactFor(a + b, countryCodes, handle) ==
              if exists i :: 0 <= i < |a| && Matches(a[i], countryCodes, handle)
              then ContactFor(a, countryCodes, handle) else ContactFor(b, countryCodes, handle)
  {
    if a == [] {
      assert a + b == b;
    } else {
      assert (a + b)[0] == a[0];
      assert (a + b)[1..] == a[1..] + b;
      ContactForAppend(a[1..], b, countryCodes, handle);
      if exists i :: 0 <= i < |a[1..]| && Matches(a[1..][i], countryCodes, handle) {
        var i :| 0 <= i < |a[1..]| && Matches(a[1..][i], countryCodes, handle);
        assert Matches(a[i + 1], countryCodes, handle);
      }
      if !Matches(a[0], countryCodes, handle) && exists i :: 0 <= i < |a| && Matches(a[i], countryCodes, handle) {
        var i :| 0 <= i < |a| && Matches(a[i], countryCodes, handle);
        assert Matches(a[1..][i - 1], countryCodes, handle);
      }
    }
  }

  /** The row of the unfiltered contact list that carries a handle first. */
  function FirstRowWith(rows: seq<ContactEntry>, handle: Handle): Option<ContactEntry>
  {
    if rows == [] then None
    else if rows[0].handle == handle then Some(rows[0])
    else FirstRowWith(rows[1..], handle)
  }

  /** The owner fields a WHOIS object gets from a contact-list row. */
  function OwnerFieldsOfRow(e: ContactEntry): ContactFields
  {
    ContactFields(map[], e.companyName, e.initials, e.surName, e.address, e.zipCode,
                  e.city, e.country, e.phoneNumber, e.emailAddress)
  }

  /**
   * A single-contact fetch agrees with the unfiltered contact list: it returns
   * the fields of the first row with the handle, and a blank object when no
   * row carries it.
   */
  lemma {:induction false} ContactAgreesWithContactList(hs: seq<Holder>, countryCodes: map<int, string>, handle: Handle)
    ensures ContactFor(hs, countryCodes, handle) ==
              match FirstRowWith(ContactRows(hs, countryCodes, ""), handle)
              case None => BlankWhois
              case Some(e) => BlankWhois.(owner := OwnerFieldsOfRow(e))
  {
    if hs != [] {
      ContactAgreesWithContactList(hs[1..], countryCodes, handle);
      var head := if Listed(hs[0], countryCodes, "") then [ContactEntryOf(hs[0], countryCodes[hs[0].countryId])] else [];
      FirstRowWithAppend(head, ContactRows(hs[1..], countryCodes, ""), handle);
    }
  }

  lemma {:induction false} FirstRowWithAppend(a: seq<ContactEntry>, b: seq<ContactEntry>, handle: Handle)
    ensures FirstRowWith(a + b, handle) ==
              if FirstRowWith(a, handle).Some? then FirstRowWith(a, handle) else FirstRowWith(b, handle)
  {
    if a == [] {
      assert a + b == b;
    } else {
      assert (a + b)[0] == a[0];
      assert (a + b)[1..] == a[1..] + b;
      FirstRowWithAppend(a[1..], b, handle);
    }
  }

  /**
   * The registrar lists holder 42 in the Netherlands. The intended fetch of
   * handle 42 returns its data; `Adapter.Neostrada.GetContactAsWritten`
   * returns `BlankWhois` for the same answers.
   */
  lemma PrecedenceLosesTheHolder()
    ensures var hs := [Holder("42", "", "J.", "Jansen", "Dorpsstraat 1", "1234 AB", "Utrecht", 150, "+31.301234567", "j@example.nl")];
            ContactFor(hs, map[150 := "NL"], "42") != BlankWhois
            && ContactFor(hs, map[150 := "NL"], "42").owner.surName == "Jansen"
  {
  }
}
