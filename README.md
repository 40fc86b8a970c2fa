# Delivery route dashboards, modelled in Dafny

The system is a small web client for a delivery company. Three pieces of it
are modelled here:

- An **admin dashboard**. The admin picks a driver and a date, assigns
  delivery locations to that driver's day as numbered stops, removes stops,
  reorders them, and leaves memos. The admin also maintains the location
  list, searches it, and reads status cards and visit-history badges.
- A **driver dashboard**. A driver sees the day's stops in order and records
  what happened at each one as a delivery log (DELIVERY, PICKUP, BOTH or
  OTHER, with a memo). Recording a log marks the stop completed.
- The **route gate**. A `ProtectedRoute` component decides, from its
  session, its role and its loading flag, whether to show a loading screen,
  redirect, or render a dashboard. `RoleRedirector` sends a signed-in user to
  their own dashboard.

The hosted database is modelled as in-memory tables (`seq`s of records).
A filtered, ordered query (`.eq(...).order('sequence')`) is `RouteStore.Fetch`:
a stable sort by `sequence` of the matching rows. Each answer the outside
world gives is a parameter: a store error, a `confirm` or `prompt` answer,
whether a refetch failed, the clock, the signed-in user. A failed refetch
leaves an empty list on screen, as the code's `data || []` does. Components
whose state React updates become classes. Each handler is a method whose
`ensures` gives the whole new state in terms of the store functions. The
properties of those functions are proved as lemmas. Examples are dense stop numbers after an assignment or a move, a
half-written swap leaving two stops with one number, a log update touching
exactly one route's first log, and the completed counter never going down.

Modules:

- `Records`: the rows (`Route`, `DeliveryLog`, `Location`), the log-type
  constants, the location form and the `Notice` an alert shows.
- `RouteStore`: the `daily_routes` table and its query, update and delete
  semantics.
- `AdminRoutes`: the admin's route assignment and location form, with the
  class `AdminBoard`.
- `LocationSearch`: form validation and the case-insensitive location search.
- `StatusProjection`: status colours, texts and badges on both dashboards.
- `DriverActions`: the driver's log recording and counter, with the class
  `DriverBoard`.
- `RoleGate`: the page table, `ProtectedRoute` (class and render decision)
  and `RoleRedirector`.

## Model

| member | source | states |
|---|---|---|
| RouteStore.Matching | src/pages/AdminDashboard.jsx:80-84 | the rows a `.eq('date').eq('driver_id')` query selects are exactly the table rows with that date and driver |
| RouteStore.Fetch | src/pages/AdminDashboard.jsx:79-87 | the query answer is sorted by `sequence` and is a permutation of the matching rows |
| RouteStore.FetchHas | src/pages/AdminDashboard.jsx:79-87 | a row is in the answer iff it is in the table with that date and driver |
| RouteStore.SortBySequence | src/pages/AdminDashboard.jsx:85 | ordering by sequence keeps the same rows (multiset equality) |
| RouteStore.Insert | src/pages/AdminDashboard.jsx:85 | one insertion step adds exactly its element |
| RouteStore.InsertSorted | src/pages/AdminDashboard.jsx:85 | inserting into a sorted list keeps it sorted |
| RouteStore.SortSorted | src/pages/AdminDashboard.jsx:85 | the ordered answer is sorted by sequence |
| RouteStore.InsertLast | src/pages/AdminDashboard.jsx:85 | an element whose sequence is at least every other one goes last |
| RouteStore.InsertDistinctIds | src/pages/AdminDashboard.jsx:85 | inserting a row with a fresh id keeps ids distinct |
| RouteStore.SortDistinctIds | src/pages/AdminDashboard.jsx:85 | sorting keeps ids distinct |
| RouteStore.MatchingDistinctIds | src/pages/AdminDashboard.jsx:80-84 | filtering keeps ids distinct |
| RouteStore.FetchDistinctIds | src/pages/AdminDashboard.jsx:79-87 | a query over a table with distinct ids answers rows with distinct ids |
| RouteStore.DenseIncreasing | src/pages/AdminDashboard.jsx:93 | stops numbered 1..n are strictly increasing, hence sorted |
| RouteStore.SortedPermutationUnique | src/pages/AdminDashboard.jsx:85 | if one list is strictly increasing, every sorted permutation of it equals it, so the store's tie order does not matter |
| RouteStore.FetchDetermined | src/pages/AdminDashboard.jsx:79-87 | when the answer is numbered 1..n, any sorted permutation of the matching rows is that answer |
| RouteStore.FetchAppend | src/pages/AdminDashboard.jsx:95-104 | in the tie order `Fetch` fixes, appending a matching row whose sequence is at least every shown one makes the next answer the old answer plus that row |
| RouteStore.Update | src/pages/AdminDashboard.jsx:128-132 | `.update(...).eq('id', ...)` keeps the table's length; what each row becomes is stated by `RouteStore.UpdateFrame` |
| RouteStore.UpdateFrame | src/pages/AdminDashboard.jsx:128-143 | a row with another id stays as it was; a row with that id keeps its id, day, driver and location, takes the written sequence, status or instruction, and keeps the other two |
| RouteStore.Delete | src/pages/AdminDashboard.jsx:109 | `.delete().eq('id', ...)` leaves exactly the rows with another id |
| RouteStore.MatchingUpdate | src/pages/AdminDashboard.jsx:128-132 | updating, then filtering, equals filtering, then updating |
| RouteStore.MatchingDelete | src/pages/AdminDashboard.jsx:109-111 | deleting, then filtering, equals filtering, then deleting |
| RouteStore.DeleteLength | src/pages/AdminDashboard.jsx:109 | deleting a present id from a table with distinct ids removes exactly one row |
| RouteStore.DeleteAbsent | src/pages/AdminDashboard.jsx:109 | deleting an id no row has changes nothing |
| RouteStore.UpdatePermutation | src/pages/AdminDashboard.jsx:128-132 | an update maps permutations to permutations |
| RouteStore.InsertUpdate | src/pages/AdminDashboard.jsx:141 | a patch that leaves `sequence` alone commutes with one insertion step |
| RouteStore.SortUpdate | src/pages/AdminDashboard.jsx:141 | a patch that leaves `sequence` alone commutes with the ordering |
| RouteStore.FetchUpdate | src/pages/AdminDashboard.jsx:141-143 | in the tie order `Fetch` fixes, after such a patch (the memo, the status) the refetched list is the old list patched in place |
| RouteStore.AnswerAfterAppend | src/pages/AdminDashboard.jsx:85-104 | every answer the store may give after an insert holds the old day's rows and the new one; when the old day has no tied numbers and the new row is numbered above them, it is the old day followed by the new row |
| RouteStore.AnswerAfterUpdate | src/pages/AdminDashboard.jsx:141-143 | every answer after a write that leaves `sequence` alone holds the old day's rows with the written one patched; without tied numbers it is the old day patched in place |
| RouteStore.TiedRowsEitherOrder | src/pages/AdminDashboard.jsx:85 | two rows with one number are a legal answer in either order, so `Fetch`'s table order is one choice among the answers the store may give |
| AdminRoutes.IsAssigned | src/pages/AdminDashboard.jsx:320 | nothing counts as assigned on an empty list; what the guard means for the stored day is stated by `AdminRoutes.AssignedIffStored` after a successful refetch and by `AdminRoutes.FailedRefetchDuplicates` after a failed one |
| AdminRoutes.AssignedIffStored | src/pages/AdminDashboard.jsx:320 | after a successful refetch a location counts as assigned iff a stored entry of that driver and day carries it |
| AdminRoutes.Moved | src/pages/AdminDashboard.jsx:114-122 | the shown list after a move has the same length and the same entries |
| AdminRoutes.SwapWrites | src/pages/AdminDashboard.jsx:128-132 | the two writes keep the table's length, and two failed writes change nothing |
| AdminRoutes.SwapWritesTouchOnlySequence | src/pages/AdminDashboard.jsx:128-132 | the writes change only `sequence`: every row keeps its place, id, day, driver, location, status and instruction |
| AdminRoutes.MoveEffect | src/pages/AdminDashboard.jsx:114-122 | the move is a no-op at the ends; otherwise it swaps the stop with its neighbour (index plus or minus one), leaves every other stop alone and is a permutation |
| AdminRoutes.MoveUpThenDown | src/pages/AdminDashboard.jsx:114-122 | moving up, then moving the stop back down, restores the list |
| AdminRoutes.MoveDownThenUp | src/pages/AdminDashboard.jsx:114-122 | moving down, then back up, restores the list |
| AdminRoutes.Resequenced | src/pages/AdminDashboard.jsx:125-132 | the list as the swap means it: numbered 1..n, every entry keeping its place, id, day, driver, location, status and instruction |
| AdminRoutes.AssignKeepsDense | src/pages/AdminDashboard.jsx:89-104 | assigning to a day numbered 1..n appends the new stop as number n+1; the refetched day is the old one plus the new stop, still numbered 1..n+1, and the location now counts as assigned |
| AdminRoutes.MoveKeepsDense | src/pages/AdminDashboard.jsx:114-134 | when both writes succeed, the refetched day is exactly the swapped list renumbered 1..n |
| AdminRoutes.MoveHalfWritten | src/pages/AdminDashboard.jsx:128-132 | when only the first write lands, two different stops of the day share the number index+1 |
| AdminRoutes.RemoveShortens | src/pages/AdminDashboard.jsx:107-111 | removing a shown stop shortens the refetched day by one |
| AdminRoutes.RemoveBreaksDensity | src/pages/AdminDashboard.jsx:107-111 | removing any stop but the last leaves a numbering gap: the day is no longer numbered 1..n |
| AdminRoutes.RemoveThenAssignRepeatsSequence | src/pages/AdminDashboard.jsx:93 | after such a removal, the next assignment takes `length + 1` and so repeats the last stop's number |
| AdminRoutes.AssignBesides | src/pages/AdminDashboard.jsx:95-104 | an assignment keeps every earlier stop of that day and adds the new one |
| AdminRoutes.Refetched | src/pages/AdminDashboard.jsx:79-87 | what `fetchDriverRoutes` leaves on screen: `[]` when the query fails (`data \|\| []`), otherwise the answer sorted by sequence, a permutation of the matching rows |
| AdminRoutes.FailedRefetchDuplicates | src/pages/AdminDashboard.jsx:86-104 | after a failed refetch the list is empty, so a location already on the day counts as unassigned (line 320); the next assignment is numbered 1, the same as the day's first stop, and puts that location on the day a second time |
| AdminRoutes.UpdateLocation | src/pages/AdminDashboard.jsx:155 | `.update(locForm).eq('id', editingLocId)` keeps every id and the table's length; the row with that id takes the form's name, address, region and access info, and every other row stays as it was |
| AdminRoutes.SwapCells | src/pages/AdminDashboard.jsx:118-122 | the copied array has the two cells swapped and every other cell unchanged |
| AdminRoutes.UpdateKeepsIds | src/pages/AdminDashboard.jsx:128-132 | updates keep ids distinct and below the next id |
| AdminRoutes.AppendFresh | src/pages/AdminDashboard.jsx:95-101 | inserting a row with the next id keeps ids distinct |
| AdminRoutes.SwapWritesValid | src/pages/AdminDashboard.jsx:128-132 | any outcome of the two writes keeps ids distinct and below the next id |
| AdminRoutes.DeleteDistinctIds | src/pages/AdminDashboard.jsx:109 | a deletion keeps ids distinct |
| AdminRoutes.AdminBoard.constructor | src/pages/AdminDashboard.jsx:13-40 | the initial state: the given tables and next ids, no driver selected, today selected, an empty stop list, a blank location form, an empty search; the location list is the table, or empty when that query fails (`locs \|\| []`) |
| AdminRoutes.AdminBoard.SelectDriver | src/pages/AdminDashboard.jsx:32-35 | selecting a driver refetches that driver's day, or empties the list when the query fails; clearing the selection refetches nothing |
| AdminRoutes.AdminBoard.SelectDate | src/pages/AdminDashboard.jsx:32-35 | changing the date refetches the selected driver's day for it, or empties the list when the query fails |
| AdminRoutes.AdminBoard.RefetchRoutes | src/pages/AdminDashboard.jsx:79-87 | the list becomes the day's answer, or `[]` when the query fails |
| AdminRoutes.AdminBoard.AssignRoute | src/pages/AdminDashboard.jsx:89-105 | no driver: the alert '기사님을 선택해주세요.' and nothing changes; a store error: its message and nothing changes; otherwise a PENDING row with sequence `length + 1` of the shown list is added under the next id and the day is refetched, leaving `[]` if that query fails |
| AdminRoutes.AdminBoard.AppendEntry | src/pages/AdminDashboard.jsx:95-104 | the insert, then the refetch or, when it fails, an empty list |
| AdminRoutes.AdminBoard.ClickAssign | src/pages/AdminDashboard.jsx:320-329 | an assigned location's button does nothing, judged on the list as shown, which is empty after a failed refetch; otherwise the click is `AssignRoute`, with the same alerts, the same new row under the next id, and the refetch |
| AdminRoutes.AdminBoard.RemoveRoute | src/pages/AdminDashboard.jsx:107-112 | declined: nothing; a store error: its message and nothing changes; otherwise exactly the rows with that id are gone and the day is refetched, leaving `[]` if that query fails |
| AdminRoutes.AdminBoard.DeleteEntry | src/pages/AdminDashboard.jsx:109-111 | the delete by id, then the refetch or, when it fails, an empty list |
| AdminRoutes.AdminBoard.MoveRoute | src/pages/AdminDashboard.jsx:114-135 | at the ends nothing changes; otherwise the screen shows the swapped list, each write that succeeds sets the stop's sequence to its new position, and the day is refetched, leaving `[]` if that query fails |
| AdminRoutes.AdminBoard.WriteSequences | src/pages/AdminDashboard.jsx:127-134 | the table after the two unchecked writes, then the refetch or, when it fails, an empty list |
| AdminRoutes.AdminBoard.UpdateMemo | src/pages/AdminDashboard.jsx:137-144 | the prompt is prefilled with the current memo or ''; cancelling changes nothing; a store error: its message; otherwise the row's memo is set and the day is refetched, leaving `[]` if that query fails |
| AdminRoutes.AdminBoard.PatchRoute | src/pages/AdminDashboard.jsx:141-143 | the patch, then the refetch or, when it fails, an empty list |
| AdminRoutes.AdminBoard.EditForm | src/pages/AdminDashboard.jsx:401-408 | a field edit replaces the form |
| AdminRoutes.AdminBoard.StartEditing | src/pages/AdminDashboard.jsx:175-179 | editing a location loads its four fields into the form and remembers its id |
| AdminRoutes.AdminBoard.CancelEditing | src/pages/AdminDashboard.jsx:416-419 | cancel clears the id and the form |
| AdminRoutes.AdminBoard.SaveLocation | src/pages/AdminDashboard.jsx:147-173 | an incomplete form: the alert '모든 정보를 입력해주세요. (출입정보 포함)' and nothing changes; a store error: its message and nothing changes; while editing (a truthy `editingLocId`, so not the id 0), the row is updated, editing ends and '수정되었습니다.' shows; otherwise a row is added under the next id, `editingLocId` is left as it was and '등록되었습니다.' shows; on success the form is blank again and the list is refetched, or is empty when that query fails (`locs \|\| []`) |
| AdminRoutes.AdminBoard.HandleSearch | src/pages/AdminDashboard.jsx:189-201 | the query is stored and the results are `SearchResults` of the locations |
| LocationSearch.FormOf | src/pages/AdminDashboard.jsx:177 | a location's form passes validation iff its name, address and access info are non-empty |
| LocationSearch.FormComplete | src/pages/AdminDashboard.jsx:149-151 | a form that passes has a non-empty name, address and access info and is never the blank form the dashboard resets to |
| LocationSearch.Lower | src/pages/AdminDashboard.jsx:194-197 | lower-casing keeps the length, leaves no letter 'A'..'Z', turns each such letter into its lower-case letter and keeps every other character |
| LocationSearch.LowerIdempotent | src/pages/AdminDashboard.jsx:194-197 | lower-casing twice equals lower-casing once |
| LocationSearch.Contains | src/pages/AdminDashboard.jsx:196-197 | `includes` holds only for a needle no longer than the haystack, and always for the empty needle |
| LocationSearch.ContainsIffOccurs | src/pages/AdminDashboard.jsx:196-197 | `includes` holds iff the needle occurs at some index of the haystack |
| LocationSearch.Hits | src/pages/AdminDashboard.jsx:195-198 | the filter keeps exactly the locations whose lower-cased name or address contains the query, and no more than there were |
| LocationSearch.SearchResults | src/pages/AdminDashboard.jsx:189-201 | an empty query gives no results; otherwise a location is a result iff its name or address contains the query, ignoring case |
| LocationSearch.SearchPreservesOrder | src/pages/AdminDashboard.jsx:195 | the results are a subsequence of the locations, in their order |
| LocationSearch.SearchIgnoresQueryCase | src/pages/AdminDashboard.jsx:194 | a query and its lower-cased form give the same results |
| LocationSearch.SearchIdempotent | src/pages/AdminDashboard.jsx:195-198 | searching the results again with the same query changes nothing |
| StatusProjection.ToneOf | src/pages/AdminDashboard.jsx:61-68 | the colour family: idle iff there is no log, blue, orange or indigo iff the first log is DELIVERY, PICKUP or BOTH, gray iff it is anything else |
| StatusProjection.ToneReadsFirstType | src/pages/DriverDashboard.jsx:109-116 | only the first log's type decides the colour |
| StatusProjection.AdminStatusColor | src/pages/AdminDashboard.jsx:61-68 | the admin card's class: slate without logs, gray for OTHER or an unknown type |
| StatusProjection.AdminToneClassInjective | src/pages/AdminDashboard.jsx:61-68 | the five admin classes are pairwise different |
| StatusProjection.AdminLabel | src/pages/AdminDashboard.jsx:74 | the label table has an entry exactly for the four known types |
| StatusProjection.AdminLabelInjective | src/pages/AdminDashboard.jsx:74 | the four known types get four different labels |
| StatusProjection.AdminStatusText | src/pages/AdminDashboard.jsx:70-76 | '대기 중' without logs; with one, a text that ends in ')' and so never reads '대기 중' |
| StatusProjection.AdminStatusTextShape | src/pages/AdminDashboard.jsx:70-76 | the text is '대기 중' iff there is no log; otherwise it is the label, or 'undefined' for an unknown type, followed by the time in parentheses |
| StatusProjection.DriverStatusColor | src/pages/DriverDashboard.jsx:109-116 | the driver card's class: white without logs, gray for OTHER or an unknown type |
| StatusProjection.DriverToneClassInjective | src/pages/DriverDashboard.jsx:109-116 | the five driver classes are pairwise different |
| StatusProjection.DriverStatusLabel | src/pages/DriverDashboard.jsx:118-121 | an unknown type is shown as itself |
| StatusProjection.DriverLabelInjective | src/pages/DriverDashboard.jsx:118-121 | the four known types get four different labels, none of them a type name |
| StatusProjection.CardBadgeClass | src/pages/DriverDashboard.jsx:151-154 | every type but DELIVERY and PICKUP gets the indigo badge |
| StatusProjection.HistoryBadgeAsWritten | src/pages/AdminDashboard.jsx:520-527 | the history badge as written: '미완료' iff there is no log |
| StatusProjection.HistoryOtherShownAsBoth | src/pages/AdminDashboard.jsx:524 | an OTHER visit gets exactly the badge of a BOTH visit, captioned '배송+회수' |
| StatusProjection.HistoryBadge | src/pages/AdminDashboard.jsx:520-527 | the corrected history badge: '미완료' iff there is no log |
| StatusProjection.HistoryBadgeTellsOutcomes | src/pages/AdminDashboard.jsx:524 | with the correction, different known types get different captions, and none is '미완료' |
| StatusProjection.HistoryBadgeCorrectsOnlyOther | src/pages/AdminDashboard.jsx:524 | the correction differs from the code exactly on OTHER |
| DriverActions.LogsOf | src/pages/DriverDashboard.jsx:48 | a route's joined logs are exactly the log rows with its id |
| DriverActions.Cards | src/pages/DriverDashboard.jsx:45-53 | each card is one fetched route, in the fetched order, holding exactly the log rows that name that route |
| DriverActions.UpdateLog | src/pages/DriverDashboard.jsx:74-75 | `.update({ type, memo }).eq('id', ...)` sets type and memo of the rows with that id, keeps every row's id, route and creation time, and leaves every other row as it was |
| DriverActions.Upsert | src/pages/DriverDashboard.jsx:69-85 | with a log, the table keeps its size and every row its id, route and time; without one, the old table followed by one row with the next id, the card's route and the current time |
| DriverActions.LogsOfUpdateLog | src/pages/DriverDashboard.jsx:74-75 | rewriting a log, then joining, equals joining, then rewriting |
| DriverActions.LogsOfDistinct | src/pages/DriverDashboard.jsx:48 | a join over distinct log ids has distinct ids |
| DriverActions.RecordOverwritesFirstLog | src/pages/DriverDashboard.jsx:69-76 | with a log already present, recording keeps the table's size, rewrites the route's first log, keeps its other logs, and leaves every other route's logs alone |
| DriverActions.RecordAddsOneLog | src/pages/DriverDashboard.jsx:77-84 | without a log, recording adds one row: the route's logs gain the new log at the end and no other route changes |
| DriverActions.UpsertKeepsIds | src/pages/DriverDashboard.jsx:69-85 | recording keeps log ids distinct and below the next id |
| DriverActions.CompletedNeverReverts | src/pages/DriverDashboard.jsx:91 | no write the client makes turns a completed route back to pending |
| DriverActions.CompleteIdempotent | src/pages/DriverDashboard.jsx:91 | marking completed twice equals once, and the route is then completed |
| DriverActions.CompletedCount | src/pages/DriverDashboard.jsx:130 | the counter is at most the number of cards; it is 0 iff none is completed and equals the total iff all are |
| DriverActions.CountMonotone | src/pages/DriverDashboard.jsx:130 | when no completed card reverts, the count does not drop; when a pending card completes, it rises |
| DriverActions.CompletingRaisesCount | src/pages/DriverDashboard.jsx:91-93 | marking a route completed never lowers the refetched count, whatever the logs are then |
| DriverActions.DriverBoard.constructor | src/pages/DriverDashboard.jsx:6-13 | no cards, no selection and an empty memo |
| DriverActions.DriverBoard.FetchMyRoutes | src/pages/DriverDashboard.jsx:41-54 | no user: nothing; a failed query: no cards (`data \|\| []`); otherwise the cards of the user's day |
| DriverActions.DriverBoard.OpenActionModal | src/pages/DriverDashboard.jsx:56-64 | the route is selected and the memo is prefilled with its first log's memo, or '' without a log |
| DriverActions.DriverBoard.EditMemo | src/pages/DriverDashboard.jsx:248 | typing replaces the memo |
| DriverActions.DriverBoard.HandleAction | src/pages/DriverDashboard.jsx:66-97 | no selection: nothing; a log error: '기록 실패: ' plus the message and nothing changes; otherwise the log is rewritten or added, the status write lands only if it succeeds, the cards are refetched, and the modal is closed with an empty memo |
| RoleGate.HomeOf | src/App.jsx:43 | '/admin' iff the role is 'admin', '/driver' for every other role |
| RoleGate.Decide | src/App.jsx:39-46 | loading: the loader; no session: '/login'; a truthy role outside `allowedRoles`: its home; otherwise the layout |
| RoleGate.NullRolePasses | src/App.jsx:41 | a missing or empty role passes every guard |
| RoleGate.ElementAt | src/App.jsx:53-80 | paths compare ignoring letter case and trailing slashes; '/' navigates to '/login'; exactly the paths that read '/admin', '/driver' or '/dashboard' so compared are guarded |
| RoleGate.MatchIgnoresCaseAndTrailingSlash | src/App.jsx:53-80 | a path picks the same element with a trailing slash and in lower case: '/Admin/' shows what '/admin' shows |
| RoleGate.Render | src/App.jsx:39-80 | only a guarded page, with a session, renders inside the Layout; '/login' and '/signup' (in any case, with or without a trailing slash) render their pages without it; '/' redirects to '/login'; a path with no route renders nothing |
| RoleGate.RootAlwaysLogin | src/App.jsx:80 | the root redirects to '/login', which shows the login page outside the Layout |
| RoleGate.RedirectLandsOnOwnDashboard | src/App.jsx:41-44 | an admin or a driver redirected off a guarded page lands on a page that lets them in |
| RoleGate.UnknownRoleRedirectsToItself | src/App.jsx:41-44 | any other non-empty role is sent to '/driver', and '/driver' answers it with a redirect to '/driver' itself |
| RoleGate.SignedOutGoesToLogin | src/App.jsx:40 | every guarded page sends a signed-out visitor to '/login', which shows the login page |
| RoleGate.RoleRedirect | src/App.jsx:98-100 | '/admin' iff the role is 'admin', '/driver' iff it is 'driver', nothing otherwise |
| RoleGate.DashboardReachesHome | src/App.jsx:71-100 | '/dashboard' renders for any signed-in user, and where the redirector sends a user, that page renders |
| RoleGate.ProtectedRoute.constructor | src/App.jsx:11-13 | no session, no role, loading |
| RoleGate.ProtectedRoute.Current | src/App.jsx:39-46 | the loader while loading, '/login' without a session, and the Layout only once loading is over with a session |
| RoleGate.ProtectedRoute.SessionChanged | src/App.jsx:15-26 | the session is stored; without one loading ends, with one a role check starts; the old role is kept |
| RoleGate.ProtectedRoute.RoleChecked | src/App.jsx:31-37 | the role is set and loading ends |

## Left out

- Asynchrony, races and the network. Every store call is modelled as one atomic step whose outcome is a parameter; for a refetch that outcome is whether the query failed, which leaves an empty list. A refetch that overtakes an earlier one is not modelled.
- The location list's `.order('name')` (src/pages/AdminDashboard.jsx:38). A refetched location list is modelled in table order.
- The store's tie order under `.order('sequence')`. `Fetch` and the dashboards' lists fix one stable order. `RouteStore.TiedRowsEitherOrder` shows it is one choice among several on a day with tied numbers; `RouteStore.AnswerAfterAppend` and `RouteStore.AnswerAfterUpdate` state what holds for every answer, and `RouteStore.SortedPermutationUnique` shows the order is forced whenever the day has no tied numbers.
- The `nullsFirst` option of the driver query. Sequences are never null in the model.
- Time formatting (`toLocaleTimeString`). `createdAt` is an already formatted string.
- The driver's greeting, the profile name, and the map link (`handleOpenMap`). They are random, clock-based or browser navigation.
- JavaScript's `toLowerCase` beyond ASCII. `LocationSearch.LowerChar` lowers only 'A'..'Z'; the same holds for the router's case-insensitive path match.
- RoleGate.ElementAt: the router's percent-decoding of paths and its base name are not modelled; a path is compared as given, after case and trailing slashes.
- Lookups of prototype keys such as `constructor` in the label tables. The model treats those as missing.
- The driver's status write ignores its error (src/pages/DriverDashboard.jsx:91). This is modelled as the `statusOk` parameter.
- `handleDeleteLocation`, `fetchAllRoutesStatus`, the profiles query of `fetchBaseData` and `handleSelectHistory` (the history query). They are plain queries or deletes with no logic beyond the store. The history badge they feed is modelled.
- A null log memo. It is modelled as ''. The joined logs come in table order.
- The tab switch (`activeTab`) in the refetch effect. The route tab is assumed active.
- RoleGate.RoleRedirect: models only the mapping from role to path. The redirector's own role fetch and its state are not modelled.
- RoleGate.ProtectedRoute.SessionChanged: a session switch keeps the earlier user's role until the new check answers, as the code does. The model states this and does not forbid it.
- AdminRoutes.AdminBoard.UpdateMemo: the method states the refetch. That every answer holds the old rows with the memo patched, in the same order when the day has no tied numbers, is stated by `RouteStore.AnswerAfterUpdate`.
- The login and signup pages, the layout, and the seed script. They are not part of this model.

## Findings

| source | as written | input that shows it | evidently intended | confidence | as-written member | corrected member |
|---|---|---|---|---|---|---|
| src/pages/AdminDashboard.jsx:524 | every type other than DELIVERY and PICKUP gets the caption '배송+회수', OTHER included | a visit whose first log has type OTHER (the driver's "기타 / 특이사항만 기록" button, src/pages/DriverDashboard.jsx:240) | OTHER captioned '기타', as the same dashboard's status text labels it (line 74) | medium, not executed | StatusProjection.HistoryOtherShownAsBoth | StatusProjection.HistoryBadgeTellsOutcomes |
