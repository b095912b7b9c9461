# Staff-evaluation dashboard: verified model of the client core

This project models the client-side logic of a staff-evaluation dashboard
in Dafny and proves properties of it. The dashboard loads candidate
interview evaluations from a CSV file, shows one row per candidate with an
overall-performance score and rating, and sits behind a session login. The
model covers four parts:

- **The overall-performance scorer** (`CandidateTable`). It keeps the
  category scores that parsed to a value above 0 and takes their mean. It
  rounds the mean to a tenth as `Math.round(x * 10) / 10` does, then rates
  the rounded value in top-down bands. The module also models the text of
  the "Overall Performance" cell and the choice between the empty-data
  notice and one row per candidate. Rounding, sums, means and minima live
  in `Averages`.
- **The candidate store** (`CandidateContext`). It is a class with two
  cells: the candidate list and a nullable session id. Each setter replaces
  its own cell and leaves the other alone. The `useCandidates` guard fails
  outside a provider.
- **The header** (`AppHeader`). It covers the breadcrumb derived from the
  location, the menu targets, when the user name is shown, and the logout
  button. Logout is a class holding the `isLoggingOut` flag, the number of
  session-query invalidations and the emitted toasts. The press, success
  and failure events are its methods.
- **The authenticated router** (`App`). The session gate chooses Loading,
  Login or the route table. The route table is an ordered first-match
  switch: the root redirects, six pages are listed, and a catch-all falls
  back to NotFound.

Category scores are modelled as `Option<real>`: the number `parseFloat`
reads, or `None` when the text is absent, empty or not a number. Means and
rounding use exact reals. `Session` holds the cached session response that
the router and the header both read. `Wrappers` holds `Option` and `Result`.

The dashboard's written design (its product documentation, which is not
part of this repository) promises some behaviour that the code does not
implement. The model follows the code in each case. (They agree that
absent, unparseable, zero and negative scores are excluded; the filter
`s > 0` at `client/src/components/CandidateTable.tsx:27` does that.)

- A failed logout request does not invalidate the session query. Only a
  successful request does (`client/src/components/AppHeader.tsx:43-56`).
  The written design says the cache is invalidated either way.
- The band is taken from the rounded score, not the raw mean
  (`client/src/components/CandidateTable.tsx:34,44`). A mean of 1.49
  rounds to 1.5 and is rated Below Average; the written design lists 1.49
  as Poor (`CandidateTable.RoundedScoreDecidesBand`).
- A category score above 5 is kept and averaged like any other positive
  value (`client/src/components/CandidateTable.tsx:27`). The written design
  treats out-of-range scores as unrated. A lone 7 gives 7.0, Exceptional
  (`CandidateTable.ScoresAboveFiveKept`).
- Nothing clears the candidate list on logout. The store's only updates are
  its two setters (`client/src/context/CandidateContext.tsx:14-18`), and
  `handleLogout` (`client/src/components/AppHeader.tsx:40-60`) calls
  neither. The written design says the store is reset to empty on logout.

## Model

| member | source | states |
|---|---|---|
| `CandidateTable.Contributing` | client/src/components/CandidateTable.tsx:22-27 | only categories that parsed to a value above 0 are kept, each such value is kept, and nothing is kept exactly when no category is positive |
| `CandidateTable.CategoryScores` | client/src/components/CandidateTable.tsx:22-27 | the four category scores, experience, compassion, professionalism and safety, in that order |
| `CandidateTable.Contributes` | client/src/components/CandidateTable.tsx:22-27 | a category counts only when it parsed to a value strictly above 0; absent, empty and unparseable text never counts |
| `CandidateTable.ContributingCount` | client/src/components/CandidateTable.tsx:22-27 | a value is kept as often as it occurs among the categories if it is positive, and never otherwise |
| `CandidateTable.ContributedFrom` | client/src/components/CandidateTable.tsx:22-27 | every kept score is the value of some category |
| `CandidateTable.ContributingPermutation` | client/src/components/CandidateTable.tsx:22-27 | reordering the categories only reorders the kept scores |
| `CandidateTable.Band` | client/src/components/CandidateTable.tsx:36-48 | the rating is never N/A; Exceptional from 4.5 up, Good in [3.5, 4.5), Average in [2.5, 3.5), Below Average in [1.5, 2.5), Poor below 1.5, so each threshold belongs to the higher band |
| `CandidateTable.BandMonotone` | client/src/components/CandidateTable.tsx:38-48 | a higher rounded score never gets a lower band |
| `CandidateTable.OverallOf` | client/src/components/CandidateTable.tsx:21-51 | N/A with score 0 exactly when no category is positive; otherwise a whole number of tenths within 0.05 of the mean of the positive scores, non-negative, with the band of the rounded score rather than of the raw mean |
| `CandidateTable.CalculateOverallScore` | client/src/components/CandidateTable.tsx:21-31 | the result is `{0, N/A}` exactly when none of the four named categories is positive; the score is never negative |
| `CandidateTable.OverallOrderIndependent` | client/src/components/CandidateTable.tsx:22-34 | any permutation of the category scores gives the same score and rating |
| `CandidateTable.OverallWithinScale` | client/src/components/CandidateTable.tsx:33-34 | with every score at most 5 and one positive, the overall score is at most 5 and at least the rounded smallest kept score |
| `CandidateTable.TinyAverageRoundsToZero` | client/src/components/CandidateTable.tsx:29-47 | a single positive score of 0.04 is still averaged, rounds to 0.0 and is rated Poor, not N/A |
| `CandidateTable.FullMarksAreExceptional` | client/src/components/CandidateTable.tsx:33-39 | four scores of 5 give 5.0, Exceptional |
| `CandidateTable.UnratedCategoriesIgnored` | client/src/components/CandidateTable.tsx:22-43 | scores 3, 0, 3 and absent average over the two rated ones: 3.0, Average |
| `CandidateTable.RoundedScoreDecidesBand` | client/src/components/CandidateTable.tsx:34-45 | a lone 1.49 rounds to 1.5 and is rated Below Average, because the band is taken from the rounded score |
| `CandidateTable.ScoresAboveFiveKept` | client/src/components/CandidateTable.tsx:22-39 | a lone 7 is kept by the filter and gives 7.0, Exceptional; nothing caps a score at 5 |
| `CandidateTable.Label` | client/src/components/CandidateTable.tsx:30-47 | each rating's text as the source writes it; the text is "N/A" exactly for the unrated result |
| `CandidateTable.LabelInjective` | client/src/components/CandidateTable.tsx:30-47 | different ratings have different texts, so the cell's text determines the rating |
| `CandidateTable.NatToDecimal` | client/src/components/CandidateTable.tsx:111 | the whole part is written as a non-empty string of decimal digits that starts with 0 only for the number 0 |
| `CandidateTable.DecimalRoundTrip` | client/src/components/CandidateTable.tsx:111 | reading back the digits written for a whole number gives that number |
| `CandidateTable.ToFixed1` | client/src/components/CandidateTable.tsx:111 | `toFixed(1)` of a value below 10^21 (the range the source prints in fixed notation; see Left out) writes digits, a point and one digit, with no leading zero before a non-zero whole part, and the text reads back as the number rounded to a tenth |
| `CandidateTable.PerformanceCell` | client/src/components/CandidateTable.tsx:108-113 | the cell is "N/A" exactly when the score is not positive; otherwise it is the one-decimal score, written without a leading zero, followed by " / 5.0 - " and the rating |
| `CandidateTable.EmailCell` | client/src/components/CandidateTable.tsx:102 | the email column falls back to "N/A" on a falsy address: a present, non-empty address is shown as is; an absent or empty one shows "N/A" |
| `CandidateTable.RowOf` | client/src/components/CandidateTable.tsx:84-113 | a row carries its index, the name, the result, the phone, the email cell, the interview date and the performance cell |
| `CandidateTable.CellNotApplicable` | client/src/components/CandidateTable.tsx:109-112 | a candidate's cell is "N/A" exactly when no category is positive or the mean is below 0.05 and rounds to 0.0 |
| `CandidateTable.RenderTable` | client/src/components/CandidateTable.tsx:57-113 | an empty list gives the empty-data notice; otherwise one row per candidate in list order, carrying its index, name, result, phone, email cell, interview date and performance cell |
| `Averages.Min` | client/src/components/CandidateTable.tsx:33-34 | helper used to state the lower bound of `CandidateTable.OverallWithinScale` (the source computes no minimum): an element of the list that is at most every element |
| `Averages.Sum` | client/src/components/CandidateTable.tsx:33 | the sum of the kept scores, the reference for the running total |
| `Averages.Reduce` | client/src/components/CandidateTable.tsx:33 | `reduce((a, b) => a + b, 0)` adds from the left and gives the sum |
| `Averages.SumLast` | client/src/components/CandidateTable.tsx:33 | the sum splits off its last term, which connects the left-to-right total to the sum |
| `Averages.Mean` | client/src/components/CandidateTable.tsx:33 | the average times the number of kept scores is their running total |
| `Averages.RoundTenth` | client/src/components/CandidateTable.tsx:34 | `Math.round(x * 10) / 10` is a whole number of tenths within (x - 0.05, x + 0.05] |
| `Averages.RoundTenthUnique` | client/src/components/CandidateTable.tsx:34 | it is the only whole number of tenths in that window, so halves round up |
| `Averages.RoundTenthMonotone` | client/src/components/CandidateTable.tsx:34 | rounding preserves order |
| `Averages.RoundTenthFixes` | client/src/components/CandidateTable.tsx:34 | a whole number of tenths is left unchanged |
| `Averages.SumPermutation` | client/src/components/CandidateTable.tsx:33 | the `reduce` sum does not depend on the order of its terms |
| `Averages.MeanPermutation` | client/src/components/CandidateTable.tsx:33 | neither does the mean |
| `Averages.MeanAtMost` | client/src/components/CandidateTable.tsx:33 | the mean is at most any upper bound of its terms |
| `Averages.MeanAtLeast` | client/src/components/CandidateTable.tsx:33 | the mean is at least any lower bound of its terms |
| `Averages.MeanPositive` | client/src/components/CandidateTable.tsx:33 | a mean of positive scores is positive |
| `CandidateContext.CandidateStore.constructor` | client/src/context/CandidateContext.tsx:14-15 | a provider starts with an empty list and a null session id |
| `CandidateContext.CandidateStore.SetCandidates` | client/src/context/CandidateContext.tsx:14-18 | the stored list becomes exactly the argument; the session id is unchanged |
| `CandidateContext.CandidateStore.SetSessionId` | client/src/context/CandidateContext.tsx:15-18 | the stored id becomes exactly the argument, null included; the list is unchanged |
| `CandidateContext.CandidateStore.GetCandidates` | client/src/context/CandidateContext.tsx:17-19 | readers get the stored list untransformed |
| `CandidateContext.CandidateStore.GetSessionId` | client/src/context/CandidateContext.tsx:17-19 | readers get the stored id untransformed |
| `CandidateContext.UseCandidates` | client/src/context/CandidateContext.tsx:24-30 | outside a provider the result is the "must be used within a CandidateProvider" error and never a store; inside one it is that provider's store |
| `CandidateContext.LastWriteWins` | client/src/context/CandidateContext.tsx:13-19 | after setting a list, an id and another list, readers see the second list and the id |
| `AppHeader.IncludesAt` | client/src/components/AppHeader.tsx:34-35 | `includes` holds exactly when some suffix of the location starts with the pattern |
| `AppHeader.StartsWith` | client/src/components/AppHeader.tsx:32-33 | `startsWith` holds exactly when the pattern is no longer than the location and agrees with it character by character |
| `AppHeader.Includes` | client/src/components/AppHeader.tsx:34-35 | `includes` implies the pattern fits in the location, and holds whenever the location starts with the pattern |
| `AppHeader.MissingCharNotIncluded` | client/src/components/AppHeader.tsx:34-35 | a location lacking one character of the pattern does not include it |
| `AppHeader.CurrentSection` | client/src/components/AppHeader.tsx:33-37 | the section is Outbound exactly when the location starts with "/outbound", Inbound otherwise |
| `AppHeader.CurrentSubSection` | client/src/components/AppHeader.tsx:34-38 | the subsection is Customers exactly when "/customers" occurs somewhere in the location, Staffs otherwise |
| `AppHeader.MenuSection` | client/src/components/AppHeader.tsx:78-113 | a menu target starts with "/outbound" exactly when the item is in the Outbound menu |
| `AppHeader.MenuTarget` | client/src/components/AppHeader.tsx:78-113 | each menu item's fixed path starts with its section ("/inbound/" or "/outbound/") and ends with its subsection ("/customers" or "/staffs") |
| `AppHeader.CustomersInCustomers` | client/src/components/AppHeader.tsx:78-107 | the Customers targets contain "/customers" |
| `AppHeader.NoCustomersInStaffs` | client/src/components/AppHeader.tsx:84-113 | the Staffs targets do not contain "/customers" |
| `AppHeader.MenuBreadcrumb` | client/src/components/AppHeader.tsx:32-113 | each menu item navigates to its fixed path, and there the breadcrumb names that item's section and subsection |
| `AppHeader.AnalyticsBreadcrumb` | client/src/components/AppHeader.tsx:32-38 | "/analytics" shows Inbound / Staffs |
| `AppHeader.ShownUsername` | client/src/components/AppHeader.tsx:126-130 | the user name is shown exactly when the cached session has a user, and it is that user's name |
| `AppHeader.LogoutController.constructor` | client/src/components/AppHeader.tsx:26 | the header starts with no logout in flight, no invalidation and no toast |
| `AppHeader.LogoutController.ButtonLabel` | client/src/components/AppHeader.tsx:136-141 | the button reads "Logging out..." exactly while it is disabled, "Logout" otherwise |
| `AppHeader.LogoutController.ButtonDisabled` | client/src/components/AppHeader.tsx:136 | the button is disabled exactly while a logout is in flight |
| `AppHeader.LogoutController.PressLogout` | client/src/components/AppHeader.tsx:40-41 | a press starts a logout only when none is in flight; afterwards the flag is set and nothing else changed |
| `AppHeader.LogoutController.LogoutSucceeded` | client/src/components/AppHeader.tsx:43-59 | on success the session query is invalidated once, the "Logged out" toast is emitted, and the flag is cleared |
| `AppHeader.LogoutController.LogoutFailed` | client/src/components/AppHeader.tsx:51-59 | on failure only the destructive "Logout failed" toast is emitted, with no invalidation, and the flag is cleared |
| `AppHeader.LogoutOnce` | client/src/components/AppHeader.tsx:40-60 | a second press during a logout starts nothing; the query is invalidated only on success; exactly one toast tells the outcome; the button reads "Logout" again either way |
| `App.FirstMatch` | client/src/App.tsx:43-54 | the switch renders the target of the first matching route, and nothing exactly when no route matches |
| `App.RouteTable` | client/src/App.tsx:43-54 | eight routes in switch order; the first seven have a path and the last is the path-less NotFound fallback |
| `App.Matches` | client/src/App.tsx:43-53 | a route with a path matches exactly that location; the path-less route matches every location |
| `App.RouteTableTotal` | client/src/App.tsx:53 | the fallback route makes every location match |
| `App.ListedPathsRoute` | client/src/App.tsx:44-52 | the root and each of the six listed paths select their own entry, never NotFound |
| `App.UnlistedIsNotFound` | client/src/App.tsx:43-54 | any other location renders NotFound |
| `App.RootRedirectsHome` | client/src/App.tsx:44-47 | "/" redirects to "/inbound/staffs", which renders Home |
| `App.OnlyRootRedirects` | client/src/App.tsx:44-53 | the root is the only location that redirects, so redirects never chain |
| `App.MenuTargetsRouted` | client/src/App.tsx:47-50 | every header menu target renders a page, not NotFound |
| `App.AuthenticatedRouter` | client/src/App.tsx:25-55 | Loading exactly while the session query loads; Login exactly when not loading and the session is missing or not authenticated; otherwise the route table's first match; the three outcomes are exclusive and cover every input |
| `App.IsAuthenticated` | client/src/App.tsx:38 | `session?.authenticated` holds only for a present session whose flag is true |
| `App.NoPageWithoutSession` | client/src/App.tsx:38-40 | without an authenticated session no location reaches a page or redirect |

## Left out

- Parsing: the grammar of `parseFloat` is not modelled. A category score arrives already parsed, as `Option<real>`.
- Numbers: IEEE-754 double rounding is not modelled. Means and rounding use exact reals, so a mean that a double would land just beside a half-tenth may round differently in the browser.
- ToFixed1: models `toFixed(1)` as rounding halves up on exact reals, always writing plain digits, a point and one digit. It does not model how `toFixed` rounds the binary double nearest a half-tenth. The cell only ever formats scores that are already whole tenths. For scores up to about 10^15 the double nearest a whole tenth still prints as that tenth. Above that, neighbouring tenths share one double, and the digit the browser prints can differ from the exact value. For a value of 10^21 or more, `toFixed` falls back to number-to-string conversion and writes exponent form ("1e+21"), which this function does not model: it writes "1000000000000000000000.0".
- PerformanceCell: inherits the ToFixed1 gap. Scores are not capped at 5, so a category score of "1e21" gives the source cell "1e+21 / 5.0 - Exceptional" while the model gives plain digits. An infinite score ("Infinity", or a sum that overflows a double) shows as "Infinity / 5.0 - Exceptional" in the source and cannot be represented in the model at all, because scores are exact reals.
- Rendering: JSX and presentation are not modelled. This covers CSS classes, `data-testid`s, `ScrollArea`, `Card`, the PASS/FAIL badge variant and icons.
- PDF export: the PDF button's `onGeneratePDF` callback is a foreign call and is not modelled.
- HTTP and caching: the `apiRequest` calls and react-query caching are external. The session response and the loading flag are inputs to `App.AuthenticatedRouter`. The outcome of the logout request is the choice between `LogoutSucceeded` and `LogoutFailed`. `invalidateQueries` is counted in `sessionInvalidations`, and a failure of the invalidation itself is not modelled.
- Toasts: delivery is not modelled. A toast is a value appended to `toasts`.
- Concurrency: the async interleaving of `handleLogout` is not modelled. Logout is a sequence of press, then success or failure.
- Routing: wouter's path-pattern matching is not modelled. Routes match exact location strings, and the path-less fallback matches every location.
- The header's `isInbound` and `isStaffs` values are computed but never used, so they are not modelled.
- Navigation: `setLocation` is modelled only by the fixed target path of each menu item.
- CandidateStore.SetCandidates: the stored list is a value, so aliasing is not modelled. The source keeps the caller's array by reference and hands that same array to every reader, with no copy (`client/src/context/CandidateContext.tsx:14,18`), so an in-place mutation by any holder would change what every reader sees. The model also applies a setter at once, while a React state update takes effect only at the next render, not inside the closure that called the setter.
- Provider nesting: `QueryClientProvider`, `TooltipProvider` and `CustomerProvider` in `App` are wiring. `useCandidates` takes the enclosing provider's store as an optional argument.
- Analytics: the aggregation behind the analytics page is not modelled. `client/src/pages/AnalyticsPage.tsx` only passes `candidates` to the `Analytics` component, and the `Analytics` component is not part of this model.
