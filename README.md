# App_Futebol_DB: a verified model of the football database front end and its backend

The system is a small administration tool for a football database. A React
front end (a sidebar shell with six views, a login form, a user-creation form,
a coach-update form, a match form and list, a team explorer, referee and
competition statistics, and four SQL report tabs) talks to a FastAPI backend
that connects to PostgreSQL with the credentials of the last successful login
and keeps the role of that login in a module global.

The model covers:

- **App** (`app.dfy`): the six navigation items, the menu rendered from the two
  state slots (active view, collapsed sidebar), the active item lookup and the
  shell's handlers, as class `Shell`.
- **SelectUi** (`select.dfy`): the context-based select primitive: the trigger,
  content and items, the open flag and the value callback, as class `Select`.
- **AdvancedReports**, **TeamExplorer**, **MatchManagement**,
  **TechnicalStaffManager**, **UserManager**, **Login**, **DashboardOverview**:
  each page's state slots as a class whose methods are the handlers, the
  effects and the arrival of each response, and each page's rendering as
  functions of that state.
- **RefereeAnalytics** (`referee_analytics.dfy`): the referee statistics, which
  are pure computations over the fetched list.
- **Backend** (`backend.dfy`): `login`, `create_user`, `executar_consulta`,
  `listar_partidas`, `listar_times` and `detalhes_time`. The module globals are
  the fields of class `Server`. Each database call is a parameter giving its
  outcome.
- **Integration** (`integration.dfy`): each backend reply as the page that
  requests it reads it.
- **Json** and **Js** (`json.dfy`, `js.dfy`): JSON values and Python dicts,
  plus the JavaScript built-ins the pages rely on (truthiness, `String`,
  `parseInt`, `split`, `find`, `reduce`).

Network requests are not performed. A request is recorded in a field of the page
(the URLs or bodies sent), and its reply is an event: a method called with a
`Response`, which is either `Failed(message)` (the promise rejects) or
`Received(ok, body)` (the parsed JSON body and `res.ok`). Replies may arrive in
any order; the methods that settle request `i` of a list of requests in flight
show what happens when they do.

Where the written description of the system and the code disagree, the model
follows the code:

- The shell's menu is not filtered by role; all six items are always shown
  (`App.MenuShowsAllItemsInOrder`).
- The active-view setter is not guarded.
- `MatchManagement` is mounted without a `userRole`, so its creation form never
  appears through the shell (`App.MatchesViewHasNoAdminForm`).
- The user-creation page is not reachable from the menu.
- The login page is not mounted by the shell either: `App.tsx` imports only the
  six views (lines 14-19) and renders no login step. The model treats the login
  page on its own.
- No page discards a reply for a request that is no longer current. A late reply
  overwrites a newer one (`TeamExplorer.LastReplyWins`,
  `AdvancedReports.SwitchBeforeReply`).

## Model

| member | source | states |
|---|---|---|
| App.Menu | frontend-futebol/src/app/App.tsx:109-135 | one button per navigation item, in order, keyed by its id |
| App.MenuShowsAllItemsInOrder | frontend-futebol/src/app/App.tsx:31-68 | the rendered menu always lists the six ids in declared order, whatever the state (no role filter) |
| App.ActiveItemIsTheMatchingItem | frontend-futebol/src/app/App.tsx:75 | the active item exists iff the view id is a menu id, carries that id, and an unknown id renders no main content |
| App.IdsDistinct | frontend-futebol/src/app/App.tsx:31-68 | the six menu ids are pairwise distinct |
| App.ExactlyOneActiveButton | frontend-futebol/src/app/App.tsx:116-131 | for a menu id exactly one button is highlighted |
| App.LabelsFollowCollapse | frontend-futebol/src/app/App.tsx:113-128 | labels are visible iff expanded; collapsed, the label is the button title |
| App.MatchesViewHasNoAdminForm | frontend-futebol/src/app/App.tsx:48 | the matches view is mounted without a role, so the admin form is not shown |
| App.Shell.constructor | frontend-futebol/src/app/App.tsx:71-72 | starts on 'dashboard', expanded, in a valid state |
| App.Shell.ClickMenuItem | frontend-futebol/src/app/App.tsx:112 | the view becomes the clicked item's id; the collapse flag is kept; the view stays a menu id |
| App.Shell.ToggleSidebar | frontend-futebol/src/app/App.tsx:140 | flips the collapse flag and keeps the view, which stays a menu id |
| App.ToggleTwice | frontend-futebol/src/app/App.tsx:140 | collapsing twice restores the state |
| App.ValidShellShowsOneView | frontend-futebol/src/app/App.tsx:71-162 | every state the handlers reach mounts a view and highlights exactly one button |
| App.StartAndClick | frontend-futebol/src/app/App.tsx:71-162 | a fresh shell shows the dashboard with only button 0 highlighted; after clicking item k, only button k is highlighted and item k's component is shown |
| SelectUi.SelectedItems | frontend-futebol/src/app/components/ui/select.tsx:71-87 | an item is marked iff its value is the owner's value; with distinct values at most one is; with no value none is |
| SelectUi.ValueTextIgnoresValue | frontend-futebol/src/app/components/ui/select.tsx:45-51 | the value text is always the placeholder, with or without a context |
| SelectUi.Select.constructor | frontend-futebol/src/app/components/ui/select.tsx:13-14 | mounts closed with the owner's value |
| SelectUi.Select.ClickTrigger | frontend-futebol/src/app/components/ui/select.tsx:32 | flips the open flag, nothing else |
| SelectUi.Select.ClickItem | frontend-futebol/src/app/components/ui/select.tsx:75-78 | calls back once with the item's value and closes the list |
| SelectUi.Select.Rerender | frontend-futebol/src/app/components/ui/select.tsx:13-17 | a new value prop keeps the open flag |
| SelectUi.ReselectCurrent | frontend-futebol/src/app/components/ui/select.tsx:71-78 | choosing the current value still calls back once, closes, and the item stays marked |
| SelectUi.ToggleTwice | frontend-futebol/src/app/components/ui/select.tsx:32 | opening and closing returns to closed without a callback |
| AdvancedReports.ReportUrls | frontend-futebol/src/app/components/AdvancedReports.tsx:12-17 | each report's URL is its id under /api/relatorios/ and the ids are distinct |
| AdvancedReports.Tabs | frontend-futebol/src/app/components/AdvancedReports.tsx:40-53 | one tab per report, in order, with its id and caption |
| AdvancedReports.HighlightedTab | frontend-futebol/src/app/components/AdvancedReports.tsx:44-48 | a tab is highlighted iff it is the active one; exactly one for a report id |
| AdvancedReports.ReplaceFirst | frontend-futebol/src/app/components/AdvancedReports.tsx:74 | per character: only the first '_' becomes a space, everything else is kept |
| AdvancedReports.ReplaceFirstKeepsLaterUnderscores | frontend-futebol/src/app/components/AdvancedReports.tsx:74 | a key of the form head + '_' + tail, with no '_' in head, shows as head + ' ' + tail, later underscores kept |
| AdvancedReports.ReplaceFirstWithoutUnderscore | frontend-futebol/src/app/components/AdvancedReports.tsx:74 | a key without '_' is shown unchanged |
| AdvancedReports.ObjectKeys | frontend-futebol/src/app/components/AdvancedReports.tsx:73 | `Object.keys` throws exactly on null and undefined |
| AdvancedReports.ObjectValues | frontend-futebol/src/app/components/AdvancedReports.tsx:81 | `Object.values` throws exactly on null |
| AdvancedReports.RowCells | frontend-futebol/src/app/components/AdvancedReports.tsx:79-85 | the rows render iff no record is null, one row per record holding that record's own values |
| AdvancedReports.Header | frontend-futebol/src/app/components/AdvancedReports.tsx:73-75 | one header cell per key of the first record, with its first '_' replaced |
| AdvancedReports.ViewOfRecords | frontend-futebol/src/app/components/AdvancedReports.tsx:64-89 | loading wins; no records gives the empty message; otherwise the first record's keys head a table of each record's values, in order |
| AdvancedReports.CellsFollowEachRecord | frontend-futebol/src/app/components/AdvancedReports.tsx:73-83 | cells are not aligned to the header: shorter or reordered records give shorter or reordered rows |
| AdvancedReports.ErrorListRendersAsTable | frontend-futebol/src/app/components/AdvancedReports.tsx:66-83 | a backend error list renders as a one-column table headed "erro" |
| AdvancedReports.ReportsPage.constructor | frontend-futebol/src/app/components/AdvancedReports.tsx:7-9 | starts on 'torcedores' with no data, not loading |
| AdvancedReports.ReportsPage.RunEffect | frontend-futebol/src/app/components/AdvancedReports.tsx:19-29 | sets loading and requests the active report's URL |
| AdvancedReports.ReportsPage.ClickTab | frontend-futebol/src/app/components/AdvancedReports.tsx:43 | sets the tab; the effect runs (loading plus one request) only when the tab changes |
| AdvancedReports.ReportsPage.Settle | frontend-futebol/src/app/components/AdvancedReports.tsx:24-27 | any parsed body replaces the data whatever the tab or status; a failure keeps it; loading ends either way |
| AdvancedReports.SwitchBeforeReply | frontend-futebol/src/app/components/AdvancedReports.tsx:19-29 | switching tabs before the first reply: that reply ends loading and is shown under the new tab while the second request is pending |
| TeamExplorer.Outcome | frontend-futebol/src/app/components/TeamExplorer.tsx:35-44 | shows an error iff the request fails, the body is null or `erro` is truthy, with the fixed message or `erro` itself; otherwise the body becomes the details |
| TeamExplorer.HistoryRows | frontend-futebol/src/app/components/TeamExplorer.tsx:125-131 | the history renders iff no entry is null, one row of date, competition and goals per entry |
| TeamExplorer.View | frontend-futebol/src/app/components/TeamExplorer.tsx:72-139 | the banner shows iff the error is truthy; the profile and history cards show iff details and `details.info` are truthy |
| TeamExplorer.ViewOfTeamDetails | frontend-futebol/src/app/components/TeamExplorer.tsx:80-135 | the backend's details body shows its info as the profile and one history row per entry, or the placeholder when empty |
| TeamExplorer.TeamExplorerPage.constructor | frontend-futebol/src/app/components/TeamExplorer.tsx:9-12 | empty list, no selection, null details, empty error |
| TeamExplorer.TeamExplorerPage.Mount | frontend-futebol/src/app/components/TeamExplorer.tsx:15-16 | requests the team list once |
| TeamExplorer.TeamExplorerPage.TeamsArrived | frontend-futebol/src/app/components/TeamExplorer.tsx:17-25 | only an array replaces the list; a failure sets the connection error |
| TeamExplorer.TeamExplorerPage.SelectTeam | frontend-futebol/src/app/components/TeamExplorer.tsx:29-35 | a new non-empty id clears details and error and requests that team's details; the same or empty id requests nothing |
| TeamExplorer.TeamExplorerPage.DetailsArrived | frontend-futebol/src/app/components/TeamExplorer.tsx:36-44 | any details reply commits its outcome, whichever team is selected now |
| TeamExplorer.LastReplyWins | frontend-futebol/src/app/components/TeamExplorer.tsx:29-45 | with team 2 selected, a late reply for team 1 is what the page shows |
| TeamExplorer.ErrorBesideOlderProfile | frontend-futebol/src/app/components/TeamExplorer.tsx:36-44 | a later error reply leaves an earlier team's profile on screen beside the error |
| MatchManagement.ReformatIsoDate | frontend-futebol/src/app/components/MatchManagement.tsx:45-46 | Y-M-D becomes D/M/Y |
| MatchManagement.ReformatWithoutDashes | frontend-futebol/src/app/components/MatchManagement.tsx:45-46 | a date with no '-' gives "undefined/undefined/" followed by the text |
| MatchManagement.Payload | frontend-futebol/src/app/components/MatchManagement.tsx:48-61 | the body has the twelve backend keys in literal order |
| MatchManagement.PayloadCarriesNumbers | frontend-futebol/src/app/components/MatchManagement.tsx:48-61 | the decimal text typed in each numeric field is sent as that number, and the date as D/M/Y |
| MatchManagement.TeamPlaceholderIsFirstMatch | frontend-futebol/src/app/components/MatchManagement.tsx:84 | the select placeholder names the first team whose id text matches |
| MatchManagement.TeamPlaceholderWithoutMatch | frontend-futebol/src/app/components/MatchManagement.tsx:124 | without a matching team the placeholder is "Selecione..." |
| MatchManagement.MatchRowsOf | frontend-futebol/src/app/components/MatchManagement.tsx:180-189 | one row per match, in order, with its date, competition, referee and counts |
| MatchManagement.MatchList | frontend-futebol/src/app/components/MatchManagement.tsx:177-190 | the placeholder row iff there are no matches, else one row per match |
| MatchManagement.SubmitOutcome | frontend-futebol/src/app/components/MatchManagement.tsx:63-77 | success iff the reply is ok; every error carries the '⛔ Erro: ' prefix, with `detail`, "Erro no servidor" or the rejection's message |
| MatchManagement.MatchManagementPage.constructor | frontend-futebol/src/app/components/MatchManagement.tsx:11-19 | the role as given, empty lists, the empty twelve-field form |
| MatchManagement.MatchManagementPage.Mount | frontend-futebol/src/app/components/MatchManagement.tsx:21-27 | requests the matches, then the teams |
| MatchManagement.MatchManagementPage.MatchesArrived | frontend-futebol/src/app/components/MatchManagement.tsx:29-34 | only an array replaces the match list |
| MatchManagement.MatchManagementPage.TeamsArrived | frontend-futebol/src/app/components/MatchManagement.tsx:23-26 | only an array replaces the team list |
| MatchManagement.MatchManagementPage.Change | frontend-futebol/src/app/components/MatchManagement.tsx:80-82 | in the admin's form, one field takes the new text; the others are kept |
| MatchManagement.MatchManagementPage.Submit | frontend-futebol/src/app/components/MatchManagement.tsx:36-61 | in the admin's form: blocked while a required input is empty; else the missing-team error, or loading and one POST of the payload |
| MatchManagement.MatchManagementPage.SubmitSettled | frontend-futebol/src/app/components/MatchManagement.tsx:69-77 | the status follows the reply; only success re-fetches the matches; the form is kept |
| MatchManagement.FilledForm | frontend-futebol/src/app/components/MatchManagement.tsx:114-143 | a form with a date and every count typed fills all ten required inputs and holds the chosen teams |
| MatchManagement.TypeForm | frontend-futebol/src/app/components/MatchManagement.tsx:80-82 | typing each field in turn leaves the form equal to the typed one, with nothing sent |
| MatchManagement.EmptyInputBlocksSubmit | frontend-futebol/src/app/components/MatchManagement.tsx:114-143 | with an empty required input nothing is sent |
| MatchManagement.SameTeamOnBothSides | frontend-futebol/src/app/components/MatchManagement.tsx:40-43 | the same team on both sides is sent, with equal team ids |
| TechnicalStaffManager.Payload | frontend-futebol/src/app/components/TechnicalStaffManager.tsx:47-52 | the PUT body has keys id_time, novo_tecnico, nacionalidade, idade |
| TechnicalStaffManager.PayloadNumbers | frontend-futebol/src/app/components/TechnicalStaffManager.tsx:48-51 | typed decimal ids and ages are sent as those numbers; an empty team choice is sent as null |
| TechnicalStaffManager.FindTeam | frontend-futebol/src/app/components/TechnicalStaffManager.tsx:66-67 | not found iff no entry is null or has that id; a found team is the first with that id and no null precedes it; a throw means a null entry that no match precedes |
| TechnicalStaffManager.NumericIdNeverMatches | frontend-futebol/src/app/components/TechnicalStaffManager.tsx:66 | a text id, such as one kept from an earlier list, never matches a numeric id under strict equality |
| TechnicalStaffManager.View | frontend-futebol/src/app/components/TechnicalStaffManager.tsx:66-156 | the page renders iff the stored list is an array with no null entry, wherever it stands; a throwing lookup breaks it; the current coach shows iff the team is found, and not found shows "Selecione..."; the list shows one card per team with its name, coach, nationality and age |
| TechnicalStaffManager.NullAfterMatchBreaksPage | frontend-futebol/src/app/components/TechnicalStaffManager.tsx:66-154 | a null entry after the selected team lets the lookup succeed but still breaks the page, through the team cards |
| TechnicalStaffManager.StaffPage.constructor | frontend-futebol/src/app/components/TechnicalStaffManager.tsx:18-22 | empty list, empty form, empty status |
| TechnicalStaffManager.StaffPage.Mount | frontend-futebol/src/app/components/TechnicalStaffManager.tsx:25-27 | requests the team list once |
| TechnicalStaffManager.StaffPage.TeamsArrived | frontend-futebol/src/app/components/TechnicalStaffManager.tsx:29-37 | whatever body arrives becomes the list, unchecked; a failure keeps it |
| TechnicalStaffManager.StaffPage.Edit | frontend-futebol/src/app/components/TechnicalStaffManager.tsx:96-128 | the form becomes the edited copy |
| TechnicalStaffManager.StaffPage.Submit | frontend-futebol/src/app/components/TechnicalStaffManager.tsx:39-53 | blocked while a required input is empty; else loading and one PUT |
| TechnicalStaffManager.StaffPage.Settle | frontend-futebol/src/app/components/TechnicalStaffManager.tsx:55-62 | ok: the success message, the form reset and the list fetched again; otherwise the fixed failure, form kept |
| TechnicalStaffManager.ErrorBodyBreaksPage | frontend-futebol/src/app/components/TechnicalStaffManager.tsx:33 | an error object stored as the list makes the next render throw |
| TechnicalStaffManager.FailureIgnoresReply | frontend-futebol/src/app/components/TechnicalStaffManager.tsx:55-61 | every failure shows the same message and keeps the form |
| UserManager.Outcome | frontend-futebol/src/app/components/UserManager.tsx:23-33 | success iff ok, non-null and `erro` not truthy, showing "✅ " and `msg`; errors carry the '⛔ Erro: ' prefix with `detail`, "Erro desconhecido" or `erro` |
| UserManager.UserManagerPage.constructor | frontend-futebol/src/app/components/UserManager.tsx:10-11 | empty names, role 'analista', empty status |
| UserManager.UserManagerPage.EditUsername | frontend-futebol/src/app/components/UserManager.tsx:62 | sets the username only |
| UserManager.UserManagerPage.EditPassword | frontend-futebol/src/app/components/UserManager.tsx:73 | sets the password only |
| UserManager.UserManagerPage.ChooseRole | frontend-futebol/src/app/components/UserManager.tsx:84 | sets the role only |
| UserManager.UserManagerPage.Submit | frontend-futebol/src/app/components/UserManager.tsx:13-22 | blocked while a required field is empty; else loading and one POST of the form |
| UserManager.UserManagerPage.Settle | frontend-futebol/src/app/components/UserManager.tsx:23-33 | the status is the reply's outcome; only success resets the three fields |
| UserManager.CreateAdmin | frontend-futebol/src/app/components/UserManager.tsx:13-34 | creating an admin posts the chosen role, then shows the message and resets the form |
| Login.Outcome | frontend-futebol/src/app/components/Login.tsx:18-30 | logs in iff the reply is ok with a body, handing over `user` and `role`; otherwise the error is `detail`, "Falha no login" or the rejection's message |
| Login.ButtonFor | frontend-futebol/src/app/components/Login.tsx:81-82 | disabled iff loading, captioned "Conectando..." or "Entrar" |
| Login.LoginForm.constructor | frontend-futebol/src/app/components/Login.tsx:9-11 | user 'postgres', empty password and error, not loading |
| Login.LoginForm.EditUser | frontend-futebol/src/app/components/Login.tsx:62 | sets the user only |
| Login.LoginForm.EditPassword | frontend-futebol/src/app/components/Login.tsx:76 | sets the password only |
| Login.LoginForm.Submit | frontend-futebol/src/app/components/Login.tsx:13-23 | loading on, error cleared, the form posted as it is |
| Login.LoginForm.Settle | frontend-futebol/src/app/components/Login.tsx:24-33 | `onLogin` is called once iff logged in, else the error is set; loading ends either way |
| Login.RejectedLogin | frontend-futebol/src/app/components/Login.tsx:13-33 | the button is disabled during a request; a rejected login shows the message and never calls `onLogin` |
| RefereeAnalytics.TotalCardsIsSum | frontend-futebol/src/app/components/RefereeAnalytics.tsx:17 | the reduce equals the sum of cards, null counting 0, and adds over concatenation |
| RefereeAnalytics.Insert | frontend-futebol/src/app/components/RefereeAnalytics.tsx:18 | inserting adds exactly that referee |
| RefereeAnalytics.SortDesc | frontend-futebol/src/app/components/RefereeAnalytics.tsx:18 | the sorted copy has the same referees, as a multiset |
| RefereeAnalytics.InsertKeepsDescending | frontend-futebol/src/app/components/RefereeAnalytics.tsx:18 | inserting into a descending list keeps it descending; a referee with at least the head's cards goes first |
| RefereeAnalytics.SortDescSorts | frontend-futebol/src/app/components/RefereeAnalytics.tsx:18 | the sorted copy is descending in cards and a permutation of the list |
| RefereeAnalytics.MostStrict | frontend-futebol/src/app/components/RefereeAnalytics.tsx:18 | undefined iff the list is empty |
| RefereeAnalytics.MostStrictIsFirstMaximum | frontend-futebol/src/app/components/RefereeAnalytics.tsx:18 | the strictest referee has the most cards and comes first among those tied with it |
| RefereeAnalytics.TieGoesToFirst | frontend-futebol/src/app/components/RefereeAnalytics.tsx:18 | of two tied referees the first is chosen (stable sort) |
| RefereeAnalytics.StrictName | frontend-futebol/src/app/components/RefereeAnalytics.tsx:42 | an empty list shows '-' |
| RefereeAnalytics.Badge | frontend-futebol/src/app/components/RefereeAnalytics.tsx:84 | 'destructive' iff more than 15 cards, else 'secondary' |
| RefereeAnalytics.ViewOfReferees | frontend-futebol/src/app/components/RefereeAnalytics.tsx:17-88 | count and card list follow the list; each card's badge follows its count; the strict card shows the maximum; empty shows '-' |
| DashboardOverview.TotalPartidasIsSum | frontend-futebol/src/app/components/DashboardOverview.tsx:20 | the reduce is the sum of match counts; one more row adds its count |
| DashboardOverview.CornersMeanText | frontend-futebol/src/app/components/DashboardOverview.tsx:21 | an empty list shows "0.00"; a non-empty list's mean is not modelled (None) |
| DashboardOverview.ViewOfStats | frontend-futebol/src/app/components/DashboardOverview.tsx:36-80 | loading shows "..." on every card; loaded, the cards read back as the sum and the row count; one table row per record |
| DashboardOverview.DashboardPage.constructor | frontend-futebol/src/app/components/DashboardOverview.tsx:7-8 | no data, loading |
| DashboardOverview.DashboardPage.Mount | frontend-futebol/src/app/components/DashboardOverview.tsx:10-11 | one request |
| DashboardOverview.DashboardPage.Arrived | frontend-futebol/src/app/components/DashboardOverview.tsx:12-17 | a body replaces the data and ends loading; a rejection changes nothing |
| DashboardOverview.FailureKeepsLoading | frontend-futebol/src/app/components/DashboardOverview.tsx:13-17 | after a failed request every card keeps showing "..." |
| DashboardOverview.EmptyStatistics | frontend-futebol/src/app/components/DashboardOverview.tsx:20-21 | an empty body shows total 0, no competitions and mean "0.00" |
| Backend.Lower | backend.py:88 | lowers exactly the ASCII capitals, length kept |
| Backend.RoleFor | backend.py:88-91 | 'admin' iff the lowered name is 'postgres' or 'amorim', else 'analista' |
| Backend.RoleExamples | backend.py:87-91 | Amorim and POSTGRES are administrators; Verdancio is an analyst |
| Backend.LoginReply | backend.py:68-102 | 200 with message, role and user on connection; 401 for a database error; 500 with the text of any other error |
| Backend.CreateUserReply | backend.py:106-133 | 403 unless the role is admin; a failed connection escapes; a statement error is a 200 `erro` body; else the success message |
| Backend.Server.constructor | backend.py:21-30 | credentials postgres/123 and role admin at import |
| Backend.Server.Login | backend.py:68-102 | the reply is LoginReply; credentials and role change only on a successful connection |
| Backend.RoleFollowsLastLogin | backend.py:83-110 | after an analyst logs in user creation is refused, a failed login changes nothing, and an admin login allows it again |
| Backend.ExecutarConsulta | backend.py:251-259 | one record per row by dict(zip); on error a one-element list holding `erro` |
| Backend.ConsultaRecords | backend.py:256 | with distinct columns each record pairs the columns with the row positionally, up to the shorter side |
| Backend.ListarPartidas | backend.py:137-156 | the positional records under the fixed keys, or [] on error |
| Backend.PartidaRecord | backend.py:151-153 | a seven-column row gives a record with exactly the seven keys, each column under its key |
| Backend.ListarTimes | backend.py:158-167 | one record per row with the five keys and the id as text, or [] on error |
| Backend.TeamRecordFields | backend.py:166 | each team record holds the row's id as text and the row's name, coach, nationality and age under their keys |
| Backend.BuildHistory | backend.py:192-194 | one entry per row, in order |
| Backend.DetalhesTime | backend.py:169-199 | `erro` for a failed query or a missing team; otherwise info and history, one entry per row |
| Backend.InfoRecord | backend.py:181 | a seven-column profile row is keyed nome, pais, sigla, tecnico, vitorias, derrotas, empates |
| Integration.Deliver | backend.py:9-15 | a JSON reply arrives with ok iff 2xx; an uncaught exception's 500 lacks CORS headers and the fetch rejects |
| Integration.LoginRefusedThroughBackend | frontend-futebol/src/app/components/Login.tsx:24-30 | a refused password shows "Usuário ou senha incorretos."; another failure shows its text |
| Integration.LoginAcceptedThroughBackend | frontend-futebol/src/app/components/Login.tsx:28 | a successful login hands the user and the backend's role to `onLogin` |
| Integration.CreateUserDeniedThroughBackend | backend.py:109-110 | a non-administrator sees the 403 detail |
| Integration.CreateUserUnconnectedThroughBackend | backend.py:112 | a failed connection shows the network error |
| Integration.CreateUserStatementFailsThroughBackend | frontend-futebol/src/app/components/UserManager.tsx:27-29 | a statement error is shown as an error, except an empty one, which shows as success |
| Integration.CreateUserDoneThroughBackend | backend.py:128 | a created user shows the backend's success message |
| Integration.UnknownTeamShown | backend.py:177-179 | an unknown team shows "Time não encontrado" as the explorer's error |
| Integration.KnownTeamShown | backend.py:181-197 | an existing team's body becomes the explorer's details, with one history entry per row |
| Integration.ConsultaErrorRendersAsTable | backend.py:259 | a failing report query renders as a one-column "erro" table |
| Integration.MatchRowOfRecord | backend.py:151-153 | a match record shows its date, competition, referee and three counts |
| Integration.MatchesThroughBackend | frontend-futebol/src/app/components/MatchManagement.tsx:177-189 | a failing match query shows no matches; otherwise each row shows its own columns |
| Integration.TeamIdsRoundTrip | backend.py:166 | each team is found by the text of its id, and `parseInt` sends the integer back |
| Js.ErrorText | frontend-futebol/src/app/components/Login.tsx:26 | the fallback when the value is not truthy; a non-empty string as it is |
| Js.Find | frontend-futebol/src/app/App.tsx:75 | undefined iff nothing satisfies the predicate; else the first satisfying element |
| Js.FirstIndex | frontend-futebol/src/app/components/TechnicalStaffManager.tsx:66 | the index of the first element satisfying the predicate, or the length when none does |
| Js.Split | frontend-futebol/src/app/components/MatchManagement.tsx:45 | at least one separator-free piece, joining back to the input |
| Js.SplitJoin | frontend-futebol/src/app/components/MatchManagement.tsx:45 | splitting a join of separator-free pieces gives them back |
| Js.ReduceIsSum | frontend-futebol/src/app/components/RefereeAnalytics.tsx:17 | the left fold equals the start value plus the sum |
| Js.ParseIntDecimal | frontend-futebol/src/app/components/MatchManagement.tsx:49 | `parseInt` reads back every integer's decimal text |
| Js.ParseIntStopsAtNonDigit | frontend-futebol/src/app/components/TechnicalStaffManager.tsx:51 | `parseInt` ignores whatever follows the leading digits |
| Json.Lookup | frontend-futebol/src/app/components/TeamExplorer.tsx:38 | undefined iff no pair has the key; else a pair with that key holds the value |
| Json.DictSet | backend.py:256 | after assigning a key, looking it up gives the assigned value |
| Json.DictSetOtherKeys | backend.py:256 | assigning one key leaves every other key's value as it was |
| Json.DictSetKeys | backend.py:256 | an existing key keeps its place; a new key goes last |
| Json.Zip | backend.py:256 | `zip` pairs keys and values positionally, stopping at the shorter side |
| Json.DictZipDistinct | backend.py:256 | with distinct keys `dict(zip(...))` is exactly the zipped pairs |
| Json.DigitsRoundTrip | backend.py:166 | the digits of a number denote that number |

## Left out

- Network, timing and React scheduling: a request is recorded in a field, and its reply is a method call made in any order. Effects are methods called explicitly.
- The rendering details: icons, CSS classes, Recharts' bar chart, animations and truncation.
- JavaScript floating point: `media_escanteios`, its mean and `toFixed(2)` are not modelled. Numbers are integers.
- DashboardOverview.CornersMeanText: only the empty list's text "0.00" is stated; for a non-empty list the floating-point mean is left unmodelled (None).
- DashboardOverview.DashboardPage.Arrived: the body is taken as a list of typed records. A non-list body, or records missing `total_partidas`, would give NaN or throw in the browser, and these cases are not modelled.
- RefereeAnalytics: the list is taken as records with an integer or null `total_cartoes`. An `erro` record from a failing query gives NaN totals in the browser, and that case is not modelled.
- The `sort` comparator is modelled by its effect, a stable descending sort, which is what the engine's sort produces for a consistent comparator.
- MatchManagement.MatchRowsOf and MatchManagement.MatchList: a null match in the list reads its fields (`m.data` and the others) as undefined; in the browser that render throws.
- MatchManagement.TeamName and MatchManagement.TeamPlaceholder: a null team in the list is read as a team whose id is undefined; in the browser `t.id` throws.
- AdvancedReports.RowCells: an object-valued cell is kept as a value; React refuses an object as a child and the table render throws.
- Where a null read sits inside a `try` or `.catch`, the model gives V8's TypeError message (`Js.NullReadMessage`). The lookups that model the throw (TechnicalStaffManager.FindTeam, TeamExplorer.HistoryRows, AdvancedReports.RowCells on a null record) say so in their contracts.
- `parseInt`: only an optional sign followed by decimal digits. Leading whitespace, the `0x` prefix and fractional input text are not modelled.
- `<input type="number">` sanitising non-numeric text to "" is not modelled.
- JavaScript's ordering of integer-like object keys before other keys is not modelled. Object keys keep insertion order, which is what the backend's string keys get.
- Backend.Lower: only ASCII letters are lowered. Python's full Unicode lowering is not modelled; it cannot turn a non-ASCII character into the letters the role test compares against.
- The SQL text, the cursor and the connection objects are not modelled. Each database call is given by its outcome: rows, or the exception text.
- FastAPI's request validation (422 for a body or path parameter of the wrong type) is not modelled.
- `get_arbitros` and the four report routes are modelled only through `executar_consulta`, which they call.
- `atualizar_tecnico`, `criar_partida` and `get_estatisticas` run their own queries and are not modelled. The pages receive their replies only as `Response` events.
- The team select's item list in TeamExplorer, MatchManagement and TechnicalStaffManager is not modelled: only the value callback and the selected id.
- TechnicalStaffManager.CoachForm: the select hands over `team.id` unconverted, so a numeric id would be stored as a number. The model keeps the id as text, which is what `listar_times` sends (`Integration.TeamIdsRoundTrip`).
- fix_ui.py, mockData.ts, badge.tsx, input.tsx and the vite/tailwind configurations are not part of this model.
- The user-creation page is modelled on its own: the shell does not mount it.
