# Neostrada registrar adapter — a Dafny model

This project models the HostFact registrar plugin for Neostrada
(`neostrada/neostrada.php`, class `Neostrada`). The plugin turns the host's
registrar-neutral calls into calls on an HTTP `Client` and reshapes the
answers. It reports failures by appending human-readable messages to its
`Error` list. It also keeps two more pieces of host-visible state: the
registration `Period`, and the `registrarHandles` it resolved for the host to
store.

The registrar is not modelled. Each adapter call gets a `Registrar.Client`:
- The client's `answers` fix what the registrar answers during that call.
- The client logs every request it receives in `requests`.

Every contract can therefore state three things: the result, the adapter's
new state, and exactly which requests were sent. That last part covers the
cases where no request goes out at all.

Modules:
- `Records`: domain and holder records, the host's WHOIS object, the role tag
  and its prefix, and the output rows. Handles are strings, and the "no
  handle" value is the empty string `NoHandle` (see "## Left out"). PHP's
  `empty()` on a string is `IsEmpty`.
- `Registrar`: the client, its request log and its answers.
- `Sync`: the reconciliation behind `getSyncData`, as a declarative map with
  its lemmas.
- `Listing`: the domain-list and contact-list filters, and the single-contact
  lookup.
- `Handles`: handle resolution (`getHandle`) and the holder map of
  `updateDomainWhois`.
- `Adapter`: the class `Neostrada`. Its methods do what the PHP methods do,
  loop for loop, except `GetContact`, which models getContact with line 493
  corrected (see "## Findings"); `GetContactAsWritten` omits the `foreach`
  over a boolean, which runs no iteration. The methods with a loop or a handle resolution
  (`GetSyncData`, `GetDomainList`, `GetContactList`, `GetContact`,
  `GetHandle`, `RegisterDomain`, `TransferDomain`, `UpdateDomainWhois`) are
  proved against the functions above; the others have contracts that state
  their result, errors and requests directly.

Behaviour of the code worth noting, which the model follows:
- `getDomainList` returns an empty list, not `false`. It reports an error only
  when the fetch fails or comes back empty; a list that holds only external
  domains gives an empty result and no error.
- `updateNameServers` really deletes and re-adds the nameservers. It is not a
  stub.
- `getContact` reports no error when the handle is not found.
- `createContact` sends no company name, and `getContactHandle` searches
  without the phone number and the country; `updateContact` sends every
  field.
- Both the sync and the listing read the field `paid_until`.

Three behaviours of the code are kept as they are:
- `setDomainAutoRenew` and `getToken` append their error message before the
  call, so the message is there even when the call succeeds.
- `updateDomainWhois` reads cached handles under the key `neostrada`.
- `getHandle` reads them under the class name `Neostrada`.

## Model

| member | source | states |
|---|---|---|
| `Records.Prefix` | neostrada/neostrada.php:652-664 | Only an unknown role has the empty prefix. |
| `Records.PrefixInjective` | neostrada/neostrada.php:652-664 | Different roles have different prefixes, so storing one role's handle under its prefix (line 682) never overwrites another role's entry in `registrarHandles`. |
| `Records.HolderRequestsOmit` | neostrada/neostrada.php:409-418 | Two roles give the same create request exactly when they agree on every field but the company name; the same lookup (546-554) exactly when they agree on every field but the phone number and the country; the same update (458-468) exactly when they agree on every field. No request carries the cached handles. |
| `Sync.FirstManagedAppend` | neostrada/neostrada.php:290-316 | Looking up a name in the concatenation of two lists gives the first list's answer whenever it has one. |
| `Sync.FirstManagedIsFirstAnswer` | neostrada/neostrada.php:290-316 | The lookup gives nothing exactly when no domain that is not external carries the name. Otherwise it gives the domain at the first such position. |
| `Sync.SyncDataIsTotal` | neostrada/neostrada.php:283-331 | The result has exactly the requested names as keys, and each entry has status 'success' or 'error'. |
| `Sync.SyncOutcomes` | neostrada/neostrada.php:292-328 | If the first matching domain is invoiced, the entry is success with its `paid_until` date. If it is not invoiced, the entry is 'Domain not invoiced yet'. The entry is 'Domain not found' exactly when no domain that is not external carries the name. |
| `Sync.SyncSuccessIffInvoiced` | neostrada/neostrada.php:297-311 | The status is 'success' if and only if the first matching domain has `paid_until` set and non-empty. |
| `Sync.SyncIgnoresExternal` | neostrada/neostrada.php:291-293 | Removing every external domain from the registrar's list leaves the result unchanged. |
| `Sync.LaterDomainsDoNotOverwrite` | neostrada/neostrada.php:313-315 | Once a name has been matched, domains listed after the match cannot change its entry. |
| `Sync.FailedFetchFindsNothing` | neostrada/neostrada.php:289-329 | With no list, every requested name is reported as 'Domain not found'. |
| `Listing.DomainListAppend` | neostrada/neostrada.php:200-213 | The list of a concatenation is the concatenation of the lists, so input order is kept. |
| `Listing.DomainListMembers` | neostrada/neostrada.php:203-213 | An entry is listed if and only if it is the mapped form of a domain that is not external. |
| `Listing.DomainListLength` | neostrada/neostrada.php:203-213 | There is one entry per domain that is not external: the length is the input length minus the number of external domains. |
| `Listing.ContactRowsAppend` | neostrada/neostrada.php:577-602 | The contact list of a concatenation is the concatenation of the lists, so input order is kept. |
| `Listing.ContactRowsMembers` | neostrada/neostrada.php:578-602 | A row is listed if and only if it maps a holder whose country resolves, with that country's code, and, when the surname is not empty, has that surname. |
| `Listing.UnresolvedCountryIsDropped` | neostrada/neostrada.php:580 | A holder whose country does not resolve can be deleted from the input without changing the list. |
| `Listing.SurnameSelectsFromFullList` | neostrada/neostrada.php:594-600 | With a non-empty surname, the list is exactly the rows of the unfiltered list that have that surname, in order. |
| `Listing.ContactForAppend` | neostrada/neostrada.php:494-510 | A single-contact lookup in a concatenation gives the first part's answer whenever the first part holds a match. |
| `Listing.ContactAgreesWithContactList` | neostrada/neostrada.php:494-510 | The intended single-contact fetch returns the fields of the first row with the handle in the unfiltered contact list, and the blank object when no row has it. |
| `Listing.PrecedenceLosesTheHolder` | neostrada/neostrada.php:493 | For a registrar that lists holder 42, the intended fetch of handle 42 returns that holder's data, not the blank object. |
| `Handles.CachedHandleWins` | neostrada/neostrada.php:668-671 | When the host has cached a handle, that handle is returned whatever the registrar would answer. No request is sent, nothing is stored and no error is reported. |
| `Handles.LookupBeforeCreate` | neostrada/neostrada.php:672-684 | With no cached handle and an email address, a holder found by the lookup is used and stored, whatever a create would answer. Only the lookup request is sent. |
| `Handles.CreateWhenLookupFindsNothing` | neostrada/neostrada.php:676-684 | When the lookup finds nothing, a create follows. Its answer is returned and stored, even when it is `false`. 'Could not create contact' is reported exactly when the create fails. |
| `Handles.NothingToResolve` | neostrada/neostrada.php:666-688 | An unknown role, or a role with no cached handle and no email address, gives 0 with no request, nothing stored and no error. |
| `Handles.EmptyHandleCauses` | neostrada/neostrada.php:666-688 | A resolved handle is empty only if it was unresolved, cached empty, or the create failed. |
| `Handles.DomainHolders` | neostrada/neostrada.php:344-356 | The holder map has an entry for a role exactly when the host cached a `neostrada` handle for it, under 'registrar', 'admin' or 'tech', with that handle, and it has no other keys. |
| `Adapter.Neostrada.constructor` | neostrada/neostrada.php:32-60 | The adapter starts with no errors, period 1 and no stored handles. |
| `Adapter.Neostrada.CheckDomain` | neostrada/neostrada.php:75-80 | Returns the registrar's availability answer after one availability request. |
| `Adapter.Neostrada.RegisterDomain` | neostrada/neostrada.php:90-109 | Succeeds exactly when an owner handle resolves and the order is placed, and then sets the period to 1. Without an owner handle no order is sent, and 'No owner contact given for domain D' is followed by 'The domain D could not be registered'. A failure leaves the period unchanged. |
| `Adapter.Neostrada.TransferDomain` | neostrada/neostrada.php:120-139 | Same as registration, with the authorization code in the order and 'could not be transferred' as the failure message. |
| `Adapter.Neostrada.DeleteDomain` | neostrada/neostrada.php:148-159 | Returns the registrar's answer. The error list is outside its frame, so a failure is never reported. |
| `Adapter.Neostrada.GetDomainInformation` | neostrada/neostrada.php:169-188 | Returns the fetched domain's name and dates, or nothing with 'Could not fetch domain'. |
| `Adapter.Neostrada.GetDomainList` | neostrada/neostrada.php:197-219 | A truthy fetch gives the list of domains that are not external, in order, with no error. A failed or empty fetch gives the empty list and exactly one 'Could not retrieve domains'. |
| `Adapter.Neostrada.LockDomain` | neostrada/neostrada.php:228-233 | Always fails and appends exactly the fixed 'not supported' message. |
| `Adapter.Neostrada.SetDomainAutoRenew` | neostrada/neostrada.php:242-254 | Reactivates or deletes the domain according to the flag and returns the answer. The error is appended whatever the answer. |
| `Adapter.Neostrada.GetToken` | neostrada/neostrada.php:262-275 | Returns the fetched domain's authorization code when it is set. The error is appended whatever the answer. |
| `Adapter.Neostrada.GetSyncData` | neostrada/neostrada.php:283-332 | The loop that unsets matched names returns exactly `SyncData` of the listed domains: one entry per requested name and no other. It sends one list request. |
| `Adapter.Neostrada.UpdateDomainWhois` | neostrada/neostrada.php:340-367 | Sends the role handle map only when it is non-empty. Succeeds exactly when it was sent and accepted; otherwise 'Could not update domain holders.' is appended. |
| `Adapter.Neostrada.GetDomainWhois` | neostrada/neostrada.php:375-380 | Always fails and appends exactly the fixed 'not supported' message. |
| `Adapter.Neostrada.CreateContact` | neostrada/neostrada.php:389-429 | Returns the new holder id, or `false` with 'Could not create contact'. It sends one create request with the role's fields except the company name. |
| `Adapter.Neostrada.UpdateContact` | neostrada/neostrada.php:439-479 | Returns whether the registrar accepted the update of all the role's fields; a refusal appends 'Could not update contact'. |
| `Adapter.Neostrada.GetContactAsWritten` | neostrada/neostrada.php:487-517 | As coded, returns the blank contact whatever the registrar lists. The error is reported only when a fetch fails. |
| `Adapter.Neostrada.GetContact` | neostrada/neostrada.php:487-517 | As intended, returns the first holder with the handle whose country resolves, or blank. The error is reported only when a fetch fails. |
| `Adapter.Neostrada.GetContactHandle` | neostrada/neostrada.php:526-563 | Returns the holder id found by the lookup, or 0, after one lookup request that leaves out the phone number and the country. |
| `Adapter.Neostrada.GetContactList` | neostrada/neostrada.php:571-606 | Returns `ContactRows` of the holders when both fetches succeed, and the empty list otherwise. The countries are fetched only after a truthy holder list. |
| `Adapter.Neostrada.UpdateNameServers` | neostrada/neostrada.php:615-629 | Deletes, then adds, the nameservers and returns whether the add succeeded; a failure appends 'Could not update nameservers'. |
| `Adapter.Neostrada.GetHandle` | neostrada/neostrada.php:648-689 | Returns the handle given by `Resolve`. It stores a looked-up or created handle under the role's prefix and changes nothing else in `registrarHandles`. It sends only the requests the resolution needs. |

## Left out

- `getVersionInformation`: it only includes a version file.
- The HTTP client and the transport: each call's answers are fixed inputs.
  How the registrar matches a holder in `findHolderId` is not modelled.
- `getCountryById` is modelled as a lookup in the registrar's country table
  that sends no request of its own; what the real client does is not
  modelled.
- Date parsing and formatting: a `YmdDate` records which parser was applied to
  which text. A `paid_until` that `DATE_ATOM` cannot parse makes the source
  call `format` on `false`. That fatal error is not modelled, and neither is
  the `Exception` that `new DateTime` throws on a `paid_until` or
  `start_date` it cannot parse in `getDomainInformation` and `getDomainList`.
- Key order of PHP arrays: the `getSyncData` result and the holder map that
  `updateDomainWhois` sends (inserted in the order registrar, admin, tech)
  are maps, so their order is not modelled.
- The distinct "no handle" values: `getContactHandle` and `getHandle` give
  the integer 0 and a failed `createContact` gives `false`, which `getHandle`
  stores in `registrarHandles[prefix]`. All of them are the empty string
  `NoHandle` here, so the model does not tell 0, `false` and an empty handle
  string apart.
- PHP loose comparison `==`: the surname filter and the holder-id match use
  string equality.
- PHP's normalisation of numeric-string array keys is not modelled.
- The registrar's key names in the arrays passed to `createHolder`,
  `updateHolder` and `findHolderId`: `NewHolder`, `HolderUpdate` and
  `HolderQuery` carry the same fields as named record fields.
- `Adapter.Neostrada.GetSyncData`, `Adapter.Neostrada.GetHandle`,
  `Adapter.Neostrada.UpdateDomainWhois`: PHP's `isset` is false for a key whose
  value is null, and the model has no null values. `$domainsToSync` is modelled
  as its set of keys, and the cached handles as a map to strings, so a null
  value is treated like any present one. In the source, a requested name whose
  value is null always gets 'Domain not found', and a handle cached as null is
  not sent by `updateDomainWhois` and makes `getHandle` look the contact up or
  create it.
- The `Warning`, `Success`, `User` and `Password` fields: no modelled
  operation reads or writes them, and the password only reaches the client.
- The period argument `1` that `transferDomain` passes to `order` is not
  recorded in the request.
- A `null` WHOIS object is modelled as `BlankWhois`.
- `Adapter.Neostrada.GetContactAsWritten`, `Adapter.Neostrada.GetContact`,
  `Adapter.Neostrada.GetContactList`: holder ids and country ids are compared
  by value, without PHP's int/string juggling.

## Findings

| source | as written | input that shows it | evidently intended | confidence | as-written member | corrected member |
|---|---|---|---|---|---|---|
| neostrada/neostrada.php:493 | `$holders = $client->getHolders() && $client->getCountries()` stores the boolean conjunction in `$holders`, because `=` binds looser than `&&`. The `foreach` over a boolean then runs no iteration, so `getContact` always returns a blank contact. | The registrar lists holder 42 (J. Jansen, country 150) and country 150 is NL; fetching handle 42 returns the blank object (`Listing.PrecedenceLosesTheHolder`). | `($holders = $client->getHolders()) && $client->getCountries()`, the form used at line 577. | high; not executed | `Adapter.Neostrada.GetContactAsWritten` | `Adapter.Neostrada.GetContact` |
