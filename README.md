# Prismaflow console: session, notifications, list paging and customer prefill

A Dafny model of the few pieces of the Prismaflow back-office console (a React
CRUD front end) that hold logic of their own:

- **Session guard** (`AuthContext`): the token, user name and role kept in
  React state and mirrored in the `authToken`, `authUsername` and `authRole`
  entries of `localStorage`; the setters; the mount effect that rehydrates the
  session from storage, clears it or arms the automatic logout at expiry; the
  logout; and the three-valued `isAuthenticated()` (`null` while loading). The
  class `AuthSession` holds the state; `jwtDecode` is a function fixed when the
  session is built (`None` stands for a decode that throws, `Some(exp)` for the
  token's `exp` claim in seconds); clock readings are integer milliseconds
  passed to each call; `navigate` is a log of paths; the expiry timer is a
  pending delay that `FireExpiryTimer` fires and `Unmount` cancels.
- **Notification channel** (`NotificationContext`): an ordered list of toasts,
  appended to by `addNotification` and filtered by id by `removeNotification`;
  ids are the creation time in milliseconds and may repeat. The automatic
  removal each add schedules is kept as a queue of pending removals, each with
  its id and due time.
- **Service and client list pages** (`ServicoIndex`, `ClienteIndex`): the page,
  rows-per-page and search state and its handlers; the search filter
  (case-insensitive `includes`, except that the client CNPJ is matched exactly);
  the page window `slice(page * rows, page * rows + rows)`; the pagination
  count. The generic filter and page window live in `Lists` and `Paging`; the
  string operations (`toLowerCase`, `includes`, truthiness) in `Text`.
- **Customer edit prefill** (`EditCustomerModal`): the mapping from a fetched
  customer to the form values given to `reset`, and the submission of the form,
  which the `required` rule on the name blocks when the name is empty.

Three behaviours of the code are modelled as written and proved:

- On the expired-token and undecodable-token paths the mount effect clears the
  session but never sets `isLoading` to false, so after that single run of the
  effect `isAuthenticated()` stays `null` (`AuthContext.Mount`) until something
  runs the effect again. A second run, as React's StrictMode does in
  development, finds no token and ends loading (`AuthContext.StrictMount`).
- Neither page resets `page` when the search text changes, and the client
  page's "Exibir" select changes the page size without resetting `page`
  (only the pagination control's handler does).
- `useLogout` itself does not cancel an armed expiry timer: in the model,
  where the mount effect runs once, the timer firing later clears an already
  clear session again and navigates to `/` once more. In the app, logout's
  `navigate("/")` leaves `/customers`, the only private page
  (src/routes/section.tsx:38-39), which gives `navigate` a new identity;
  the effect then re-runs and its cleanup cancels the timer first.

## Model

| member | source | states |
|---|---|---|
| `AuthContext.Get` | src/context/AuthContext.tsx:86-88 | `localStorage.getItem`: `null` exactly for an absent key, the stored string otherwise |
| `AuthContext.Store` | src/context/AuthContext.tsx:47-63 | the key is present afterwards iff the new value is truthy, holding that value; every other key is untouched |
| `AuthContext.Authenticated` | src/context/AuthContext.tsx:123-135 | `null` iff loading; `true` iff not loading and the token is present, decodes, and `exp * 1000 > now`; `false` iff not loading and the token is absent or empty, does not decode, or `exp * 1000 <= now` |
| `AuthContext.ExpiryIsFinal` | src/context/AuthContext.tsx:130 | once a token is judged expired it stays expired at every later time |
| `AuthContext.AuthSession.constructor` | src/context/AuthContext.tsx:41-44 | the first render: no token, user name or role, loading, storage as the browser kept it, no timer, no navigation |
| `AuthContext.AuthSession.IsAuthenticated` | src/context/AuthContext.tsx:123-135 | for the session's own loading flag and token: `null` iff loading; `true` iff not loading and the token is truthy, decodes and has `exp * 1000 > now`; `false` in every other case |
| `AuthContext.AuthSession.SetUsername` | src/context/AuthContext.tsx:47-54 | the state always takes the new value; the storage key is set iff it is truthy and removed otherwise; nothing else changes |
| `AuthContext.AuthSession.SetRole` | src/context/AuthContext.tsx:56-63 | as `SetUsername`, for the role and `authRole` |
| `AuthContext.AuthSession.SetToken` | src/context/AuthContext.tsx:65-83 | a truthy token is stored and user name and role follow `user` when given and stay as they were when not; a falsy token clears user name, role and all three keys; `setToken(null)` leaves no partial session; loading, timer and navigation untouched |
| `AuthContext.AuthSession.Logout` | src/context/AuthContext.tsx:137-140 | whatever the prior state, no token, user name or role remains in state or storage, `isAuthenticated()` is `false` at every time unless still loading, one navigation to `/` |
| `AuthContext.AuthSession.Rehydrate` | src/context/AuthContext.tsx:85-121 | no truthy saved token: only loading ends; undecodable token: session cleared, loading unchanged, no navigation; expired token (`exp * 1000 <= now`): session cleared, loading unchanged, navigation to `/`; valid token: state restored from storage, loading ends, logout armed after `exp * 1000 - now` ms, which is exactly when `isAuthenticated()` turns false (for delays a browser timer can hold; see Left out); loading can only remain when no truthy token is left in storage |
| `AuthContext.AuthSession.FireExpiryTimer` | src/context/AuthContext.tsx:104-107 | an armed timer clears the session and navigates to `/`; with none armed nothing changes; loading is untouched |
| `AuthContext.AuthSession.Unmount` | src/context/AuthContext.tsx:110 | the cleanup cancels the armed timer and changes nothing else |
| `AuthContext.Mount` | src/context/AuthContext.tsx:85-121 | after a single run of the mount effect: an expired or undecodable saved token leaves `isAuthenticated()` at `null` at every time; no saved token gives `false`; a valid one gives `true` |
| `AuthContext.StrictMount` | src/context/AuthContext.tsx:85-121 | after mount, cleanup and mount again, loading has ended and `isAuthenticated()` is `true` exactly for a valid saved token |
| `NotificationContext.Without` | src/context/NotificationContext.tsx:24-26 | the entries whose id differs from the removed one, no more and no fewer, in their original order; none carries that id; never longer |
| `NotificationContext.WithoutAbsent` | src/context/NotificationContext.tsx:25 | removing an id no entry carries leaves the list unchanged |
| `NotificationContext.WithoutPresent` | src/context/NotificationContext.tsx:25 | removing an id some entry carries makes the list strictly shorter |
| `NotificationContext.WithoutIdempotent` | src/context/NotificationContext.tsx:25 | removing twice equals removing once, so a dismissed toast's timer is a no-op |
| `NotificationContext.SameIdRemovedTogether` | src/context/NotificationContext.tsx:24-30 | two toasts added in the same millisecond share an id and one removal drops both |
| `NotificationContext.WithoutAppend` | src/context/NotificationContext.tsx:24-30 | removing after an append keeps the new entry iff its id differs |
| `NotificationContext.WithoutCommutes` | src/context/NotificationContext.tsx:24-26 | removals in either order give the same list |
| `NotificationContext.WithoutAllDrains` | src/context/NotificationContext.tsx:28-33 | once a removal has run for every id present, the list is empty |
| `NotificationContext.NotificationCenter.constructor` | src/context/NotificationContext.tsx:22 | the list starts empty, with nothing scheduled |
| `NotificationContext.NotificationCenter.AddNotification` | src/context/NotificationContext.tsx:28-33 | the list becomes the old one plus `{now, message, type}` at the end, and exactly one removal of that id is scheduled, due 5000 ms later |
| `NotificationContext.NotificationCenter.RemoveNotification` | src/context/NotificationContext.tsx:24-26 | the list becomes `Without(old, id)`; the scheduled removals stay |
| `NotificationContext.NotificationCenter.FireNextRemoval` | src/context/NotificationContext.tsx:32 | the earliest scheduled removal runs `removeNotification` on its id and leaves the queue |
| `NotificationContext.NotificationCenter.EventuallyEmpty` | src/context/NotificationContext.tsx:28-33 | with every shown toast's removal scheduled (an invariant all three methods keep), running the scheduled removals empties the list |
| `Text.Truthy` | src/context/AuthContext.tsx:90 | a nullable string is truthy iff it is neither `null` nor `""` |
| `Text.Lower` | src/pages/servico/index.tsx:32-33 | `toLowerCase` keeps the length and lowers each character on its own |
| `Text.Includes` | src/pages/servico/index.tsx:32 | the empty needle and any prefix are included; an included needle is no longer than the text |
| `Text.IncludesIff` | src/pages/servico/index.tsx:32 | the `includes` scan is true iff the needle occurs at some start position |
| `Text.MissingCharExcludes` | src/pages/cliente/clienteIndex.tsx:50 | a needle holding a character the text lacks is not included |
| `Text.IncludesIgnoringCaseOf` | src/pages/servico/index.tsx:32-33 | an exact match is also a case-insensitive match |
| `Text.IncludesIgnoringCaseIsCaseBlind` | src/pages/servico/index.tsx:32-33 | lower-casing either side first changes nothing |
| `Lists.Filter` | src/pages/servico/index.tsx:31-34 | the kept elements are exactly those that pass, in order: a subsequence, never longer |
| `Lists.FilterIdempotent` | src/context/NotificationContext.tsx:25 | filtering twice by the same predicate equals filtering once |
| `ServicoIndex.LoadedServices` | src/pages/servico/index.tsx:20 | the list the page works on is the response's content, and empty when there is none |
| `ServicoIndex.Matches` | src/pages/servico/index.tsx:31-34 | the empty search, and a search equal to the name or the description, match the service |
| `ServicoIndex.FilterServices` | src/pages/servico/index.tsx:31-34 | a service is kept iff lower(name) or lower(description) includes lower(search); the result is an order-preserving subsequence |
| `ServicoIndex.EmptySearchKeepsAll` | src/pages/servico/index.tsx:31-34 | an empty search keeps every service, in order |
| `ServicoIndex.SearchIsCaseBlind` | src/pages/servico/index.tsx:31-34 | the filter gives the same list for a search and its lower-cased form |
| `ServicoIndex.ServicePage.constructor` | src/pages/servico/index.tsx:15-17 | page 0, 5 rows per page, empty search |
| `ServicoIndex.ServicePage.HandleChangePage` | src/pages/servico/index.tsx:22-24 | only the page changes |
| `ServicoIndex.ServicePage.HandleChangeRowsPerPage` | src/pages/servico/index.tsx:26-29 | the new page size, and the page back to 0 |
| `ServicoIndex.ServicePage.SetSearch` | src/pages/servico/index.tsx:61 | only the search text changes; the page is kept |
| `ServicoIndex.ServicePage.Rows` | src/pages/servico/index.tsx:82-83 | at most rows-per-page services, each a matching service of the list; none exactly when rows-per-page is 0 or `page * rows` reaches the count given to the pagination control |
| `ServicoIndex.ServicePage.Count` | src/pages/servico/index.tsx:114 | the pagination count is the filtered count: at most the number of services, and all of them for an empty search |
| `Paging.PageWindow` | src/pages/servico/index.tsx:82-83 | the displayed rows are `xs[page * rows ..]` cut at `rows` and at the end: at most `rows`, none once `page * rows >= |xs|`, each the element at its offset |
| `Paging.WindowKeeps` | src/pages/cliente/clienteIndex.tsx:97-98 | every displayed row has any property every listed row has |
| `Paging.PagesFromIsSuffix` | src/pages/servico/index.tsx:82-83 | paging on from a page shows exactly the rest of the list, in order |
| `Paging.PagesPartition` | src/pages/cliente/clienteIndex.tsx:97-98 | the pages, concatenated, are the list itself: every row is shown once, on one page |
| `Paging.RowOnItsPage` | src/pages/cliente/clienteIndex.tsx:97-98 | row `j` is shown on page `j / rows` at position `j % rows` |
| `ClienteIndex.Matches` | src/pages/cliente/clienteIndex.tsx:48-51 | the empty search, and a search equal to the company name or the CNPJ, match the client |
| `ClienteIndex.FilterClientes` | src/pages/cliente/clienteIndex.tsx:48-51 | a client is kept iff lower(razaoSocial) includes lower(search) or the CNPJ includes the search exactly; an order-preserving subsequence of the two-entry list |
| `ClienteIndex.EmptySearchKeepsAll` | src/pages/cliente/clienteIndex.tsx:29-32 | an empty search shows both clients in list order |
| `ClienteIndex.CnpjPrefixSelectsOne` | src/pages/cliente/clienteIndex.tsx:48-51 | searching `52.659` shows only the second client |
| `ClienteIndex.ExcludedByChar` | src/pages/cliente/clienteIndex.tsx:48-51 | a search holding a non-letter that neither field holds excludes the client |
| `ClienteIndex.ShownClientsMatch` | src/pages/cliente/clienteIndex.tsx:97-98 | every client on a page of the filtered list is one of the listed clients and matches the search |
| `ClienteIndex.ClientePage.constructor` | src/pages/cliente/clienteIndex.tsx:35-37 | page 0, 5 rows per page, empty search |
| `ClienteIndex.ClientePage.HandleChangePage` | src/pages/cliente/clienteIndex.tsx:39-41 | only the page changes |
| `ClienteIndex.ClientePage.HandleChangeRowsPerPage` | src/pages/cliente/clienteIndex.tsx:43-46 | the new page size, and the page back to 0 |
| `ClienteIndex.ClientePage.SelectRowsPerPage` | src/pages/cliente/clienteIndex.tsx:67 | the new page size; the page is kept |
| `ClienteIndex.ClientePage.SetSearch` | src/pages/cliente/clienteIndex.tsx:79 | only the search text changes |
| `ClienteIndex.ClientePage.Rows` | src/pages/cliente/clienteIndex.tsx:97-98 | at most rows-per-page clients, each a matching client of the list; none exactly when rows-per-page is 0 or `page * rows` reaches the count given to the pagination control |
| `ClienteIndex.ClientePage.Count` | src/pages/cliente/clienteIndex.tsx:121 | the pagination count is the filtered count: at most 2, and 2 for an empty search |
| `EditCustomerModal.OrEmpty` | src/components/customer/EditCustomerModal.tsx:26 | the string default is the value when present and `""` when absent |
| `EditCustomerModal.OrFalse` | src/components/customer/EditCustomerModal.tsx:31 | the boolean default is the value when present and `false` when absent |
| `EditCustomerModal.DatePart` | src/components/customer/EditCustomerModal.tsx:27 | `split('T')[0]` is a prefix of the input with no `'T'`, followed in the input by a `'T'` or by nothing |
| `EditCustomerModal.DatePartOfTimestamp` | src/components/customer/EditCustomerModal.tsx:27 | an ISO timestamp `date + "T" + time` is cut back to exactly its date |
| `EditCustomerModal.DatePartFixpoint` | src/components/customer/EditCustomerModal.tsx:27 | a string is its own date part iff it holds no `'T'`; cutting twice equals cutting once |
| `EditCustomerModal.BornDateField` | src/components/customer/EditCustomerModal.tsx:27 | the birth date is the cut of the value, `""` when absent or empty; a prefix with no `'T'` |
| `EditCustomerModal.Prefill` | src/components/customer/EditCustomerModal.tsx:25-35 | every text field is the customer's value or `""`, the birth date its date part, `isBlacklisted` the value or `false`, `isActive` the value as it is |
| `EditCustomerModal.OnCustomerResponse` | src/components/customer/EditCustomerModal.tsx:22-37 | the form is reset to the prefill only when the response carries a customer, and untouched otherwise |
| `EditCustomerModal.FormValues` | src/components/customer/EditCustomerModal.tsx:39 | every field of the payload is the form's value for that field, present; `isActive` as it stands |
| `EditCustomerModal.Submit` | src/components/customer/EditCustomerModal.tsx:39-49 | `handleSubmit` with the `required` rule on the name: nothing is sent iff the name is `""`; otherwise `onSubmit` receives the form values as they stand |
| `EditCustomerModal.NamelessCannotBeSaved` | src/components/customer/EditCustomerModal.tsx:25-49 | a customer with no or an empty name cannot be saved from the prefilled form |
| `EditCustomerModal.SaveUneditedRoundTrip` | src/components/customer/EditCustomerModal.tsx:25-49 | saving the prefilled form unedited sends back exactly the stored fields iff every text field and `isBlacklisted` was present, the name non-empty and the birth date held no `'T'` |
| `EditCustomerModal.PrefillOfSubmitted` | src/components/customer/EditCustomerModal.tsx:25-39 | prefilling from the values a form hands over gives the form back iff its birth date holds no `'T'` |
| `EditCustomerModal.PrefillIdempotent` | src/components/customer/EditCustomerModal.tsx:25-39 | a second save and reload changes nothing more: the prefill is a normalisation |

## Left out

- `jwtDecode` is a library call; it is the session's `decode` function, so the
  model says nothing about how a token encodes `exp`.
- A token that decodes but carries no `exp` claim is not expressible with
  `decode: string -> Option<int>`. In the source, `undefined <= now` is false,
  so the mount effect takes the valid branch: it ends loading and arms a `NaN`
  delay that fires at once, while `isAuthenticated()` returns `false`.
- `Date.now() / 1000` is floating-point seconds; the model compares
  `exp * 1000` with integer milliseconds, which agrees exactly for an integer
  `exp` claim.
- Real timers: `setTimeout`/`clearTimeout` become a pending delay (session) and
  a queue of pending removals (notifications); which other events interleave with
  them, and wall-clock time, are not modelled. The queue fires in the order
  the removals were scheduled, which matches the source because every delay is
  the same 5000 ms.
- Rehydrate: the armed delay `exp * 1000 - now` is kept as an unbounded
  integer. Browsers store a `setTimeout` delay as a signed 32-bit integer, so a
  token with more than 2^31-1 ms (about 24.8 days) left fires the logout almost
  at once; the claim that the logout fires exactly at expiry holds only for
  delays up to that bound.
- The error message of the name rule ("O nome é obrigatório") and its display
  under the field: `Submit` only records that nothing is sent.
- `console.error` logging, and `navigate` beyond recording the path.
- React's rendering and batching: state updates are applied in program order,
  which gives the same final state as React's batched updates in these
  handlers. The effect re-running after a change of `navigate`'s identity is
  not modelled; StrictMode's double run is (`StrictMount`).
- `toLowerCase` is modelled on ASCII letters only; other characters are kept
  as they are.
- `+event.target.value` and `Number(...)` conversions: the new page size is
  taken to be a natural number. The service pagination offers 5, 10 and 25, and
  so does the client page's "Exibir" select; the client pagination control
  lists no options of its own, so it offers the component's defaults.
- Service `price` and `cost` (floating point, only formatted with
  `toLocaleString`) and the timestamps are not part of the service record.
- The loading and error screens of the service page, and all rendering.
- `src/types/customerTypes.ts` is not part of this model: customer text fields
  are taken to be optional strings, `isBlacklisted` and `isActive` optional
  booleans; a field of another type (a numeric `number`, say) would change
  the `||` defaults.
- `LoadedServices` assumes a response arrives. As the files stand, the service
  page calls `useGetServices()` without its `params` argument, and the hook
  reads `params.page` to build its query key (src/hooks/useService.ts:20-23),
  which throws a `TypeError` during render before any filtering happens.
- The HTTP service modules, the react-query hooks (cache keys, invalidation,
  `enabled: !!id`, `placeholderData`), the search debounce hooks, the other
  pages, modals, tables, layouts, routing and theme: wiring and I/O with no
  logic of their own here.
