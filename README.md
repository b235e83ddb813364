# LicitaX pages: a verified model of the page logic

LicitaX is a React front end over a Supabase back end for browsing public
tenders (licitações) and a company directory (empresas). This project models
the parts of four pages that are logic rather than remote calls or markup:

- **Company directory** (`Empresas`, `empresas.dfy`). The page's state is its
  search term, a record of seven filter strings, the date range, the sort
  field and order, the current page and the total count. The model covers
  their handlers, the query that `fetchEmpresas` composes from them step by
  step, the handling of the fetch result, and the pagination arithmetic.
  The handlers are modelled as a pure transition function `Step` over
  `Criteria`. The class `EmpresasPage` holds the state cells; each handler
  method is proved to move them exactly as `Step` says, and `BeginFetch`
  is proved to build exactly `ComposeQuery` of the current state.
- **Tender list** (`Licitacoes`, `licitacoes.dfy`). The client-side
  search/status/modality filter, the distinct option lists in
  first-occurrence order, the status badge and the status label.
- **Password change** (`Settings`, `settings.dfy`). The order of the two
  checks in `handlePasswordChange`, and the state before and after the
  update.
- **Profile** (`Profile`, `profile.dfy`). The avatar initial, the null-to-''
  form mapping, the "no row" (`PGRST116`) rule, the account-type label, and
  the upserted update record.

`Strings` (`strings.dfy`) holds the JavaScript string operations the pages
use: `toLowerCase`/`toUpperCase` as an ASCII character map, `includes`,
`split` on one character, and the "first character upper-cased" idiom.
`Wrappers` (`wrappers.dfy`) holds `Option` and `Result`, and `Sequences`
(`sequences.dfy`) the subsequence relation and two concatenation facts.

Each asynchronous handler is modelled as two methods:

- `Begin…` is the code before the first `await`. It raises the loading flag.
  The company and tender versions also return the query they send. The
  profile versions return nothing, because the profile lookup and the
  upsert are issued only after the user lookup answers.
- `Finish…` takes every remote answer the rest of the handler awaits as
  parameters and applies that rest. `FinishFetchProfile` takes both the
  user and the profile lookup. `FinishUpdateProfile` takes the user lookup,
  the clock reading and the upsert's error, and returns the upserted record.
- `fetchFilterOptions` has no `Begin…`, since it changes nothing before its
  first `await`. `LoadFilterOptions` takes its three answers at once.

Supabase itself, the clock and the toasts are not modelled. A rejected
check or a reported error is returned as a value.

Three facts about the code that a reader might expect otherwise:

- `totalPages` is `Math.ceil(totalCount / 9)`, which is 0 when there are no
  rows. There is no minimum of 1.
- A failed company fetch empties the rows but leaves `totalCount` as it was.
  It does not reset it to 0.
- The order clause is `order(sortField, { ascending })` on the field as given.
  There is no nulls-last option and no join-qualified column.

## Model

| member | source | states |
|---|---|---|
| Strings.Lower | src/pages/LicitacoesPage.tsx:57-59 | lower-casing keeps the length, leaves no upper-case letter, and keeps every character that is not one |
| Strings.LowerIdempotent | src/pages/LicitacoesPage.tsx:57-59 | lower-casing an already lower-cased string changes nothing |
| Strings.ContainsIffOccurs | src/pages/LicitacoesPage.tsx:57-59 | `includes` (`Strings.Contains`) holds exactly when the needle occurs at some index of the haystack |
| Strings.ContainsEmpty | src/pages/LicitacoesPage.tsx:57-59 | every string includes the empty search term |
| Strings.Capitalize | src/pages/LicitacoesPage.tsx:157 | capitalising keeps the length |
| Strings.CapitalizeAt | src/pages/LicitacoesPage.tsx:157 | only the first character changes, and only by the upper-case map |
| Strings.CapitalizeIdempotent | src/pages/ProfilePage.tsx:168 | capitalising a capitalised string changes nothing |
| Strings.Split | src/pages/EmpresasPage.tsx:313 | `split` yields at least one piece, so the destructured field always exists |
| Strings.SplitJoin | src/pages/EmpresasPage.tsx:313 | joining the pieces with the separator gives the string back, and no piece holds the separator |
| Strings.SplitWithoutSeparator | src/pages/EmpresasPage.tsx:313 | a string without the separator splits into itself alone |
| Strings.SplitAtFirstSeparator | src/pages/EmpresasPage.tsx:313 | splitting `a-b`, where `a` has no '-', yields `a`, then the pieces of `b` |
| Empresas.Filters.Set | src/pages/EmpresasPage.tsx:170-171 | the changed key reads the new value and every other key reads its old value |
| Empresas.FilterChangeTouchesOnlyKey | src/pages/EmpresasPage.tsx:170-173 | a filter change sets that key only; search, dates and sort are kept and the page becomes 1 |
| Empresas.Step | src/pages/EmpresasPage.tsx:170-203 | the handlers as one transition: every action other than Previous/Next sets the page to 1, and Previous/Next change the page and nothing else |
| Empresas.ParseSortValue | src/pages/EmpresasPage.tsx:313-315 | the parsed field never holds '-'; a value without '-' selects that whole value as the field, descending |
| Empresas.PreviousPageOf | src/pages/EmpresasPage.tsx:410 | `Math.max(1, p-1)`: at least 1 and at least p-1, and equal to one of them |
| Empresas.NextPageOf | src/pages/EmpresasPage.tsx:421 | `Math.min(totalPages, p+1)`: at most totalPages and at most p+1, and equal to one of them |
| Empresas.PageWindow | src/pages/EmpresasPage.tsx:127-128 | every page's window holds nine rows and starts on a multiple of nine |
| Empresas.ComposeQuery | src/pages/EmpresasPage.tsx:102-129 | the query selects from `empresas` with the sector join and an exact count; it has at most 8 predicates, no equality with an empty value, only date bounds on `data_fundacao`; then the order clause and the page's window |
| Empresas.PaginationShownIff | src/pages/EmpresasPage.tsx:405 | the pager (`ShowPagination`) appears exactly when there are more than nine rows |
| Empresas.SortSameFieldTwice | src/pages/EmpresasPage.tsx:195-203 | sorting by the current field flips the order, and doing it twice restores it |
| Empresas.SortNewField | src/pages/EmpresasPage.tsx:198-202 | sorting by another field selects it in ascending order on page 1 |
| Empresas.ClearIdempotent | src/pages/EmpresasPage.tsx:180-193 | clearing restores every default except the sort; clearing twice equals clearing once |
| Empresas.SortValueRoundTrip | src/pages/EmpresasPage.tsx:311-315 | parsing `${field}-${order}` gives back field and order for every field without '-' |
| Empresas.SortOptionsRoundTrip | src/pages/EmpresasPage.tsx:323-328 | each of the six offered items parses to its own field and order, and choosing it resets the page |
| Empresas.TotalPages | src/pages/EmpresasPage.tsx:205 | the fewest 9-row pages that hold the count; 0 exactly when the count is 0 |
| Empresas.TwentyRowsExample | src/pages/EmpresasPage.tsx:205 | 20 rows make 3 pages; the third window starts at offset 18; Next on page 3 stays there |
| Empresas.NavigationStaysInRange | src/pages/EmpresasPage.tsx:410-421 | from a page in [1, totalPages], Previous and Next stay in that range |
| Empresas.DisabledExactlyWhenNoMove | src/pages/EmpresasPage.tsx:405-422 | with no fetch running, a pager button is disabled (`PreviousDisabled`, `NextDisabled`) exactly when clicking it would not move the page |
| Empresas.SearchPredicateIff | src/pages/EmpresasPage.tsx:107-112 | the OR text search is in the query exactly when the term is non-empty, and it carries the lower-cased term |
| Empresas.ColumnInjective | src/pages/EmpresasPage.tsx:115-119 | distinct filter keys name distinct columns |
| Empresas.EqInEqIfSet | src/pages/EmpresasPage.tsx:115-119 | one filter step adds an equality on its own column exactly when its value is non-empty |
| Empresas.EqInFilterPredicates | src/pages/EmpresasPage.tsx:115-119 | the five filter steps add an equality on a key's column exactly when its value is non-empty, with that value |
| Empresas.InPredicates | src/pages/EmpresasPage.tsx:106-121 | a predicate of the query comes from the search step, the filter steps or the date steps |
| Empresas.EqPredicateIff | src/pages/EmpresasPage.tsx:115-119 | the query has an equality on a queried key's column exactly when that filter is non-empty, with its value |
| Empresas.UnqueriedKeysIgnored | src/pages/EmpresasPage.tsx:114-121 | the two `data_fundacao_*` filter keys never change the query |
| Empresas.DateBoundsIff | src/pages/EmpresasPage.tsx:120-121 | the `gte` bound is present exactly when the range has a start, the `lte` bound exactly when it has an end |
| Empresas.BoundsOnlyFromDates | src/pages/EmpresasPage.tsx:114-121 | a date bound is in the query exactly when the date steps add it; the search and filter steps never add one |
| Empresas.EmptyCriteriaOnlyOrderAndRange | src/pages/EmpresasPage.tsx:102-129 | with no search, filters or dates the query has no predicates, only the order and the window |
| Empresas.WindowsTileRows | src/pages/EmpresasPage.tsx:127-129 | each window holds 9 rows from a non-negative offset; page p+1 starts right after page p |
| Empresas.RowOnExactlyOnePage | src/pages/EmpresasPage.tsx:127-128 | each row offset lies in the window of exactly one page |
| Empresas.PagesInRangeAreNonEmpty | src/pages/EmpresasPage.tsx:205 | a page is at most totalPages exactly when its window starts before the last row |
| Empresas.PresentValues | src/pages/EmpresasPage.tsx:90 | the option list holds exactly the present, non-empty values, each as often as in the data, in the data's order |
| Empresas.OptionsFrom | src/pages/EmpresasPage.tsx:90 | a missing answer gives no options; otherwise a value is offered exactly when it is present and non-empty in the data |
| Empresas.EmpresasPage.constructor | src/pages/EmpresasPage.tsx:46-73 | the page mounts with empty search, filters and dates, sort `created_at` descending, page 1, no rows and count 0 |
| Empresas.EmpresasPage.SetSearchTerm | src/pages/EmpresasPage.tsx:229 | typing in the search box sets the term and returns to page 1 |
| Empresas.EmpresasPage.HandleFilterChange | src/pages/EmpresasPage.tsx:170-173 | the state moves as `Step` of a filter change, and only the filters and the page change |
| Empresas.EmpresasPage.HandleDateRangeChange | src/pages/EmpresasPage.tsx:175-178 | the range is replaced and the page becomes 1 |
| Empresas.EmpresasPage.ClearFilters | src/pages/EmpresasPage.tsx:180-193 | filters, range and term are cleared and the page becomes 1; the sort is not touched |
| Empresas.EmpresasPage.HandleSort | src/pages/EmpresasPage.tsx:195-203 | the state moves as `Step` of a column sort, and only the sort and the page change |
| Empresas.EmpresasPage.HandleSortSelect | src/pages/EmpresasPage.tsx:312-316 | the state moves as `Step` of a selector choice: the parsed field and order, page 1 |
| Empresas.EmpresasPage.PreviousPage | src/pages/EmpresasPage.tsx:410 | the page becomes `max(1, page-1)` and the page stays at least 1 |
| Empresas.EmpresasPage.NextPage | src/pages/EmpresasPage.tsx:421 | the page becomes `min(totalPages, page+1)` and, with the pager shown, stays at least 1 |
| Empresas.EmpresasPage.WithTextSearch | src/pages/EmpresasPage.tsx:107-112 | the search step appends the OR search exactly when the term is non-empty |
| Empresas.EmpresasPage.WithFieldFilters | src/pages/EmpresasPage.tsx:115-119 | the five filter steps append exactly the equalities of the non-empty queried keys, in source order |
| Empresas.EmpresasPage.WithDateBounds | src/pages/EmpresasPage.tsx:120-121 | the date steps append the lower and then the upper bound, each when set |
| Empresas.EmpresasPage.BeginFetch | src/pages/EmpresasPage.tsx:100-129 | the loading flag rises and the query built step by step equals `ComposeQuery` of the current state |
| Empresas.EmpresasPage.FinishFetch | src/pages/EmpresasPage.tsx:131-141 | on success the rows are replaced and the count is taken, or 0 when absent; on error the rows are emptied and the count kept; loading ends false |
| Empresas.EmpresasPage.LoadFilterOptions | src/pages/EmpresasPage.tsx:77-98 | each of the three option lists is replaced on success and kept on error |
| Licitacoes.MatchesSearchIff | src/pages/LicitacoesPage.tsx:56-59 | the search rule (`MatchesSearch`) holds exactly when the lower-cased term occurs at some index of the lower-cased number, agency or object |
| Licitacoes.SearchIgnoresTermCase | src/pages/LicitacoesPage.tsx:56-59 | a term and its lower-cased form match the same tenders |
| Licitacoes.Filtered | src/pages/LicitacoesPage.tsx:55-63 | a tender is kept exactly when it matches the search, status and modality rules (`Matches`); the result keeps each kept tender's multiplicity and is a subsequence of the list |
| Licitacoes.DefaultFiltersKeepAll | src/pages/LicitacoesPage.tsx:55-63 | with an empty term, 'todos' and 'todas', the filtered list is the whole list |
| Licitacoes.Distinct | src/pages/LicitacoesPage.tsx:65-66 | the distinct list holds exactly the values of the list, each once |
| Licitacoes.DistinctFirstOccurrenceOrder | src/pages/LicitacoesPage.tsx:65-66 | the distinct values come in the order of their first occurrence |
| Licitacoes.Statuses | src/pages/LicitacoesPage.tsx:66 | a value is in the mapped list exactly when some tender has that status |
| Licitacoes.Modalidades | src/pages/LicitacoesPage.tsx:65 | a value is in the mapped list exactly when some tender has that modality |
| Licitacoes.StatusOptionsExact | src/pages/LicitacoesPage.tsx:66 | a status is offered exactly when some tender has it, and none is offered twice |
| Licitacoes.ModalidadeOptionsExact | src/pages/LicitacoesPage.tsx:65 | a modality is offered exactly when some tender has it, and none is offered twice |
| Licitacoes.StatusBadge | src/pages/LicitacoesPage.tsx:152-156 | green exactly for 'aberta', red exactly for 'encerrada', otherwise yellow |
| Licitacoes.StatusLabel | src/pages/LicitacoesPage.tsx:157 | the shown status has the stored length, an upper-cased first character and the rest unchanged |
| Licitacoes.LicitacoesPage.constructor | src/pages/LicitacoesPage.tsx:25-29 | the page mounts empty and loading, with an empty term and both selectors on "all" |
| Licitacoes.LicitacoesPage.Visible | src/pages/LicitacoesPage.tsx:55-63 | the shown tenders are exactly the list's tenders that match the three controls, in list order |
| Licitacoes.LicitacoesPage.StatusOptions | src/pages/LicitacoesPage.tsx:66 | the status options are every status of the list, once each |
| Licitacoes.LicitacoesPage.ModalidadeOptions | src/pages/LicitacoesPage.tsx:65 | the modality options are every modality of the list, once each |
| Licitacoes.LicitacoesPage.SetSearchTerm | src/pages/LicitacoesPage.tsx:103 | the search box sets the term |
| Licitacoes.LicitacoesPage.SetFilterStatus | src/pages/LicitacoesPage.tsx:110 | the status selector sets the status filter |
| Licitacoes.LicitacoesPage.SetFilterModalidade | src/pages/LicitacoesPage.tsx:124 | the modality selector sets the modality filter |
| Licitacoes.LicitacoesPage.BeginFetch | src/pages/LicitacoesPage.tsx:36-41 | the loading flag rises and the query asks for all tenders, newest opening date first |
| Licitacoes.LicitacoesPage.FinishFetch | src/pages/LicitacoesPage.tsx:43-52 | the list becomes the rows on success and empty on error; loading ends false |
| Settings.CheckPasswords | src/pages/SettingsPage.tsx:22-29 | a mismatch is reported whatever the length; too-short only when the entries agree; the update only when both checks pass |
| Settings.SettingsPage.constructor | src/pages/SettingsPage.tsx:15-18 | the form mounts with three empty fields and not loading |
| Settings.SettingsPage.SetNewPassword | src/pages/SettingsPage.tsx:107 | the field takes the typed value |
| Settings.SettingsPage.SetConfirmNewPassword | src/pages/SettingsPage.tsx:111 | the field takes the typed value |
| Settings.SettingsPage.SubmitPasswordChange | src/pages/SettingsPage.tsx:20-33 | a rejected submission sends nothing and leaves the loading flag; an accepted one raises it and requests exactly the new password |
| Settings.SettingsPage.FinishPasswordChange | src/pages/SettingsPage.tsx:35-43 | success clears the three fields and an error leaves them; loading ends false |
| Profile.FormOf | src/pages/ProfilePage.tsx:51-56 | each form field is the profile's value, or '' where it is null |
| Profile.UserInitial | src/pages/ProfilePage.tsx:89 | one upper-cased character: from the email, else from the name, else 'U' |
| Profile.TipoLabel | src/pages/ProfilePage.tsx:168 | the account type line is never blank: an empty type reads 'Não informado', otherwise the type with its first character upper-cased and the rest kept |
| Profile.ProfilePage.constructor | src/pages/ProfilePage.tsx:22-30 | the page mounts with no profile, loading, not editing and an empty form |
| Profile.ProfilePage.Initial | src/pages/ProfilePage.tsx:89 | the avatar fallback shown is a single character that upper-casing leaves alone |
| Profile.ProfilePage.BeginFetchProfile | src/pages/ProfilePage.tsx:37-38 | the loading flag rises |
| Profile.ProfilePage.FinishFetchProfile | src/pages/ProfilePage.tsx:39-59 | the email comes from the user; "no row" is not reported (`IsFailure`); other errors are reported and keep the form; a loaded row fills the form with nulls as ''; loading ends false |
| Profile.ProfilePage.StartEditing | src/pages/ProfilePage.tsx:100 | the Edit button enters edit mode |
| Profile.ProfilePage.CancelEditing | src/pages/ProfilePage.tsx:152 | the Cancel button leaves edit mode and always asks for a reload, which throws the edits away |
| Profile.ProfilePage.BeginUpdateProfile | src/pages/ProfilePage.tsx:62-64 | the loading flag rises |
| Profile.ProfilePage.FinishUpdateProfile | src/pages/ProfilePage.tsx:65-86 | with a user, the upserted record carries the user's id, the current form and the given time; success leaves edit mode and asks for a reload, failure keeps edit mode; loading ends false |

## Left out

- Supabase is not modelled: the query builder, `auth.getUser`, `auth.updateUser` and `upsert`. The query is an abstract value (`Empresas.Query`, `Licitacoes.ListQuery`) and every answer is a parameter.
- The text serialisation of the OR search (`nome_fantasia.ilike.%term%,…`) is not modelled. The search is kept as a structured list of conditions, so a term holding ',', '.' or ')' would reshape the real filter string in a way the model cannot show.
- The SQL-creating RPC at src/pages/EmpresasPage.tsx:152-167 is left out, as is the server-side `get_distinct_column_values`. It is a deployment side effect, not page logic.
- Date formatting with `date-fns` is not modelled. A chosen day is the `yyyy-MM-dd` text the query sends (`Empresas.Day`).
- Strings.Lower: only ASCII letters are case-mapped; JavaScript's full Unicode case rules are not modelled. Strings.Capitalize uses the same map.
- String lengths count Dafny characters, not UTF-16 code units. This matters for the six-character password rule when a password holds characters outside the Basic Multilingual Plane.
- Empresas.ParseSortValue: the order piece is cast without a check, so the state can hold a string such as "x". Everything downstream only asks whether it is "asc", so the model keeps `Asc` for "asc" and `Desc` for any other piece. Only the selector's displayed value differs.
- Races between overlapping fetches, `useEffect` re-triggering when a dependency changes, React's batching of state updates, toasts and console logging are not modelled.
- Profile.ProfilePage.FinishUpdateProfile: the real handler starts the reload without awaiting it. Its `setLoading(true)` therefore lands before the `setLoading(false)` of the update. The model returns `refresh` and leaves the reload to the caller.
- Browser form validation does not appear in the model: `required` and `minLength={6}` on the password inputs would block a submission before the handler runs. The model covers the handler's own checks only.
- The profile form's plain input setters are not modelled: name, type, avatar URL and bio (src/pages/ProfilePage.tsx:132-149). Neither are the account-type icon choice (src/pages/ProfilePage.tsx:120) or any other JSX rendering.
- The theme selector and the notification mock of the settings page are not modelled.
- The current-password input is commented out of the settings page (src/pages/SettingsPage.tsx:101-104). No live control sets `currentPassword`, so the model has no setter for it and the field stays ''; `FinishPasswordChange` still clears it, as the code does.
- The routing, the auth subscription, the login and signup wrappers, the dashboard, the tender detail page and the static pages are framework plumbing or display, and are not part of this model.
