# Aurum Dashboard Starter — a verified model of its logic

The Aurum Dashboard Starter is a Streamlit demo: a single hard-coded user
(`aurum`/`aurum`) logs in and sees KPI cards, charts and ranked lists built
from synthetic sales data, in one of three visual themes. Almost all of
`app.py` is CSS and widget calls. This project models the logic underneath it.

- **Session** (`session.dfy`): the four `st.session_state` fields
  (`logged_in`, `theme`, `hide_tutorial`, `user`) and the actions that write
  them. The class `Session.SessionState` has one method per user action: login
  form, theme selector, tutorial dismiss/show buttons and logout. Each method
  states exactly which fields change, and is proved to perform the pure
  transition `Session.Step`. The login gate of `main` and what each screen
  shows are `CurrentScreen`. Lemmas over action traces
  (`Run`) prove:
  - the `user` invariant;
  - that the dashboard needs a demo-pair login;
  - which actions may change the theme and the tutorial flag.
- **Theme registry** (`themes.dfy`): the three palettes of `get_theme_colors`.
  Each has five hex colours and exactly five gradients. The registry also
  covers the lookup by stored name and round-tripping between names and keys.
- **Data generation** (`fake_data.dfy`): `generate_fake_data` as methods with
  loops, each proved to return exactly the records of the function
  `FakeDataset`. Random sources and Faker are inputs: streams of draws indexed
  by how many draws were taken. `randint(lo, hi)` maps a draw `d` to
  `lo + d % (hi - lo)`, and `choice` maps it to `xs[d % |xs|]`. The generator
  reseeds numpy and `random` with 42 on entry (app.py:59-60), so their cursors
  start at 0 and every number, region, product and status is the same on each
  rerun, as long as no other session draws from them at the same time. Faker is different: Streamlit re-executes app.py:19 on every rerun,
  and each new `Faker('pt_BR')` draws from Faker's one shared module-level
  generator. Neither a new instance nor `random.seed(42)` reseeds that
  generator, so salesperson names, client names and dates depend on where its
  stream stands when the generator is called; that position is an input. The
  contracts state:
  - the counts: 24 months, 5 products, 10 salespeople, 50 transactions;
  - the half-open ranges and the categorical sets;
  - the sales floor of 500000 and the target `trend * 1.1`;
  - the exact draw each field of each record consumes;
  - what a rerun keeps (every number) and what it may change (names, dates).
- **Presentation rules** (`presentation.dfy`):
  - the KPI delta colour and icon;
  - the per-theme title and card text colours;
  - the performance tier, progress bar and above/below-target caption;
  - the hall-of-fame `nlargest(5, 'vendas')`;
  - client-name truncation, the round-robin card column and the status badge
    maps.
- **Infrastructure** (`infrastructure.dfy`):
  - the static `infraestrutura` table and the `tipo_config` marker table;
  - one map trace per distinct facility type, in order of first appearance;
  - the staff table sorted by employee count, descending.

Dafny's `real` is exact, so `trend * 1.1` is exactly `11/10` of the trend.
Python computes it in binary floating point.

Three behaviours of the source that a reader might not expect:
- Logout (app.py:1000-1002) clears only `logged_in`. The handler leaves the
  theme, the tutorial flag and `user` as they were. `DismissSurvivesLogout`
  proves that a dismissed guide stays hidden after logging out and back in.
  The theme is a different matter after the next login: the theme selector
  widget is not rendered on the login screen, so it comes back on its first
  option and the sidebar writes `'pastel'` into `theme` (see "## Left out").
- `user` is not initialised with the other fields (app.py:22-27). The key is
  absent until the first successful login (the model writes `None`).
- Unknown theme names and unmapped facility types are not validated up
  front. Python raises a `KeyError` at the lookup. The model returns
  `None`/`Err` from the lookup instead.

The model also shows a boundary case. A salesperson whose sales equal the
target exactly gets the green tier and a full progress bar, but the caption
says "Abaixo" (below), because the caption tests `diff > 0`.
`TierAgreesWithTarget` states this.

## Model

| member | source | states |
|---|---|---|
| Themes.ThemeColors | app.py:29-56 | every theme's palette has five hex colours and exactly five hex gradients; the first two gradients are the primary and secondary colours |
| Themes.LookupTheme | app.py:29-56 | looking up a stored theme name succeeds exactly for "pastel", "neon" and "glass", and then yields the palette of the theme that name denotes |
| Themes.ParseKey | app.py:944-953 | a stored name parses to a theme exactly when it is one of the three selector options, and the parsed key names that same string |
| Themes.ParseKeyName | app.py:944-953 | every theme key survives the round trip through its stored name |
| Themes.ThemeColorsInjective | app.py:29-56 | two themes share a palette only when they are the same theme |
| Session.SessionState.constructor | app.py:22-27 | a session starts logged out, on the pastel theme, with the tutorial shown and no user |
| Session.SessionState.Login | app.py:742-751 | login succeeds exactly for the pair aurum/aurum, then sets `logged_in` and `user`; a refused pair changes no field; theme and tutorial flag are untouched either way |
| Session.SessionState.SelectTheme | app.py:944-953 | the selected theme becomes current and no other field changes |
| Session.SessionState.DismissTutorial | app.py:920-921 | the dismiss button sets `hide_tutorial` and changes nothing else |
| Session.SessionState.ShowTutorial | app.py:991-994 | the show button clears `hide_tutorial` and changes nothing else |
| Session.SessionState.Logout | app.py:1000-1002 | logout clears `logged_in` only; theme, tutorial flag and user persist |
| Session.CurrentScreen | app.py:1013-1016 | the login form is shown exactly when logged out; the dashboard shows the guide exactly when the tutorial is not hidden, and offers "show tutorial" exactly when it is |
| Session.LoginExactPair | app.py:742-751 | from the login screen, a submission logs in iff it is the demo pair; otherwise the session is unchanged |
| Session.LogoutKeepsPreferences | app.py:1000-1002 | after logout the state differs from before only in `logged_in`, and the login screen is shown |
| Session.InitialSatisfiesUserInvariant | app.py:22-27 | the initial session satisfies the user invariant and shows the login screen |
| Session.RunKeepsUserInvariant | app.py:742-751 | along any sequence of actions `user` is unset or "aurum", and a logged-in session always has user "aurum" |
| Session.DashboardNeedsLogin | app.py:1013-1016 | a session that starts logged out reaches the dashboard only if the demo pair was submitted |
| Session.ThemeOnlyChangedBySelector | app.py:951-952 | a sequence of actions without a theme selection leaves the theme unchanged |
| Session.TutorialOnlyChangedByButtons | app.py:920-921 | a sequence of actions without either tutorial button leaves the tutorial flag unchanged, across logins and logouts |
| Session.ThemeSwitchBack | app.py:951-952 | switching to another theme and back restores the session and the original palette exactly |
| Session.DismissSurvivesLogout | app.py:1000-1002 | dismiss, logout and login again leaves the guide hidden |
| FakeData.RandInt | app.py:82 | a `randint(lo, hi)` draw lies in the half-open range [lo, hi) |
| FakeData.Choice | app.py:91 | a `random.choice` draw is an element of the list |
| FakeData.DrawsCoverRange | app.py:82-102 | every value of a range and every list element is produced by some draw |
| FakeData.Max | app.py:71 | `max` is at least both arguments and equal to one of them |
| FakeData.MonthsChronological | app.py:64 | the 24 month-end dates are strictly increasing |
| FakeData.TargetsRise | app.py:68-75 | in every generated dataset the monthly targets strictly increase, starting at 1100000 |
| FakeData.GenerateMonthlySales | app.py:63-76 | 24 points, point i being `MonthlySaleAt(i)`: sales `max(trend + seasonal + noise, 500000)` with the i-th Gaussian draw after the cursor; 24 draws consumed |
| FakeData.MonthlySaleAt | app.py:67-76 | month i is dated at the i-th month end from January 2023, its sales are at least 500000 and its target is `(1000000 + 50000 i) * 1.1` |
| FakeData.DrawProductSales | app.py:80-82 | five product amounts in [500000, 2000000), one numpy draw each in product order |
| FakeData.GenerateSalespeople | app.py:84-92 | exactly 10 salespeople, record k being `SalespersonAt(k)`; numpy advances 20 draws, `random` 10 and Faker 10 |
| FakeData.SalespersonAt | app.py:86-91 | salesperson k takes the k-th Faker name, two consecutive numpy draws for sales in [100000, 500000) and target in [120000, 600000), and one `random` draw for a region of the five listed |
| FakeData.GenerateTransactions | app.py:94-103 | exactly 50 transactions, record k being `TransactionAt(k)`; numpy advances 50 draws, `random` 100 and Faker 100 |
| FakeData.TransactionAt | app.py:96-102 | transaction k takes a Faker date within the last 30 days and then a company name, a `random` product of the five and then a status of the three, and one numpy draw for an amount in [10000, 200000) |
| FakeData.FakeDatasetWellFormed | app.py:58-105 | every dataset the generator can return has the listed counts, ranges, categorical sets, floor and targets |
| FakeData.GenerateFakeData | app.py:58-105 | one call returns exactly `FakeDataset` for Faker's position at entry: numpy and `random` restart at 0 after reseeding, and numpy advances 99 draws, `random` 110 and Faker 110; the result is well formed |
| FakeData.RerunKeepsNumbers | app.py:58-105 | two reruns that find Faker at different positions return the same series, product amounts, salesperson sales, targets and regions, and transaction products, amounts and statuses |
| FakeData.RerunChangesNames | app.py:84-92 | some Faker stream gives the first salesperson a different name on the rerun that starts where the previous call left Faker |
| FakeData.GenerateSeededFakeData | app.py:58-60 | with Faker reseeded alongside numpy and `random`, a call returns `FakeDataset` from position 0 on every stream, so every rerun returns the same dataset |
| Presentation.KpiDelta | app.py:780-781 | a delta of zero or more is green with a rising arrow; a negative delta is orange-red with a falling arrow |
| Presentation.KpiTitleStyle | app.py:764-771 | pastel and glass titles are white with a heavy shadow; neon keeps its own text colour and a light shadow |
| Presentation.KpiTitleAlwaysWhite | app.py:764-771 | the title is white in every theme, and the override differs from the theme's text colour exactly for pastel and glass |
| Presentation.CardTextColor | app.py:791-797 | salesperson card text uses the neon palette's text colour under neon and `#ffffff` otherwise, so it is white in every theme |
| Presentation.Performance | app.py:1159 | performance is the percentage p with p * target == sales * 100, so it is at least 100 exactly when sales reach the target and non-negative exactly when sales are |
| Presentation.PerformanceColor | app.py:789 | the tier is green iff performance is at least 100, gold iff in [80, 100), coral iff below 80 |
| Presentation.PerformanceColorMonotone | app.py:789 | a higher performance never gets a lower tier |
| Presentation.Progress | app.py:839 | the progress value is at most 1, equals 1 exactly from performance 100, is performance/100 below that and is non-negative for non-negative performance |
| Presentation.TargetDifference | app.py:834-836 | the shown difference is the absolute gap between sales and target; the caption is "Acima" iff sales exceed target and "Abaixo" otherwise |
| Presentation.TierAgreesWithTarget | app.py:789 | with exact performance, green tier and a full bar both mean target met; "Acima" implies green; exactly on target is green but captioned "Abaixo" |
| Presentation.FirstBest | app.py:1160 | the chosen available row has the largest sales, and every earlier available row has strictly smaller sales (`keep='first'`) |
| Presentation.Select | app.py:1160 | picks min(n, available) available rows, each ranked before every later pick and before every available row not picked: more sales first, ties to the earlier row |
| Presentation.TopNRows | app.py:1160 | `nlargest(n)` picks min(n, rows) row numbers of the roster in ranking order, more sales first and equal sales in row order, and each picked row ranks before every row left out, so a tie at the cut goes to the earlier row |
| Presentation.TopN | app.py:1160 | the hall of fame is the roster records at the rows `TopNRows` picks, in that order: min(n, rows) salespeople, sales descending, ties in roster order, none below a salesperson left out |
| Presentation.DisplayName | app.py:1193 | a client name of at most 25 characters is shown unchanged; a longer one as its first 25 characters followed by "..." |
| Presentation.CardColumn | app.py:1175 | a card's column is one of three and the first three cards take columns 0, 1, 2 |
| Presentation.ColumnsBalanced | app.py:1173-1175 | of n cards placed round-robin, column c receives ceil((n - c) / 3) |
| Presentation.StatusMapsTotal | app.py:1177-1178 | the icon and colour maps are defined on exactly the three statuses the generator draws |
| Presentation.CardsFrom | app.py:1172-1203 | cards are built exactly when every shown status has both badges; card k, counted from the first card number, sits in column (first + k) mod 3 and shows the truncated client name, the status icon and colour, the product, the amount and the date of transaction k |
| Presentation.TransactionCards | app.py:1170-1203 | the latest-transactions grid shows min(6, transactions) cards, card k showing transaction k in column k mod 3; it fails exactly when one of those transactions has a status without a badge |
| Presentation.GeneratedTransactionsRender | app.py:1170-1203 | for every generated dataset the grid renders six cards, card k showing transaction k, two cards per column, with no missing status badge |
| Infrastructure.Types | app.py:1264-1265 | the type column has one entry per site, the site's facility type |
| Infrastructure.FirstIndex | app.py:1289 | the first position of a value in a list: it holds the value and no earlier position does |
| Infrastructure.Unique | app.py:1289 | `unique()` keeps every value exactly once, ordered by first appearance in the column, and starts with the column's first value |
| Infrastructure.SitesOfType | app.py:1290 | the rows of one type are exactly the sites of that type |
| Infrastructure.SitesOfTypeCounts | app.py:1290 | the filter keeps each row of the type as many times as the table holds it and no row of another type |
| Infrastructure.SitesOfTypeAppend | app.py:1290 | the filter keeps table order: filtering a table split in two blocks filters each block in turn |
| Infrastructure.TracesFor | app.py:1289-1291 | a trace list is built exactly when every listed type has a marker style, one trace per type with that style and its sites; otherwise the error names an unmapped type |
| Infrastructure.MarkerTraces | app.py:1279-1291 | the map fails exactly when some site's type is missing from `tipo_config`, naming that type; otherwise one trace per distinct type in first-appearance order |
| Infrastructure.ShippedUniqueTypes | app.py:1262-1267 | the shipped table has seven distinct facility types in the listed order |
| Infrastructure.ShippedTableFullyMapped | app.py:1262-1291 | the lookup succeeds for every type in the shipped table: seven traces, and the configured types are exactly the shipped ones |
| Infrastructure.InsertByEmployees | app.py:1368 | inserting into a descending list keeps it descending and adds exactly that row |
| Infrastructure.SortByEmployeesDesc | app.py:1368 | the staff table is sorted by employee count, descending, and is a permutation of the rows |
| Infrastructure.DescendingOrderUnique | app.py:1368 | two strictly descending arrangements of the same rows are equal |
| Infrastructure.SortIsCanonical | app.py:1368 | with pairwise distinct counts, every descending arrangement equals the computed sort |
| Infrastructure.ShippedTableSortIsUnique | app.py:1262-1270 | the shipped employee counts are distinct, so any descending sort of the table, stable or not, gives the same order |

## Left out

- Concurrent sessions: numpy's and `random`'s generators are shared by every
  session of the process; the model assumes no other session draws between
  the reseed at app.py:59-60 and the end of the call.
- CSS and HTML strings, Streamlit widgets and layout, `st.rerun`,
  `st.balloons`, `time.sleep`, success and error messages, and the
  `option_menu` navigation: presentation with no logic. The active menu tab is
  widget state, not session state, so it is not part of `Session.State`.
- The random algorithms: numpy's Mersenne Twister, Gaussian sampling,
  `randint` and `random.choice` internals. Draws are inputs, and the mapping
  from a draw to a range or a list stands in for the library's. Each
  `np.random.normal` call is taken to use one draw.
- `np.sin`: the value `sin(i * pi / 6)` is the parameter `sine(i)`. Floating
  point is not modelled: reals are exact.
- Faker's names, company names and dates are a parameter indexed by Faker's
  draw position, one draw per call, and the position at entry is an input.
  Faker's own generator and locale data are not modelled. The date is a number
  of days before today, the raw draw `% 31`. The wall-clock date and
  `datetime.now()` are not modelled, so even a seeded Faker would show other
  dates on another day.
- Plotly figure building, including the bar chart's own fresh `randint` draws
  at app.py:854 and the gauge, pie and funnel figures.
- Static KPI literals and the funnel table: constants with no behaviour.
- Session.SessionState.SelectTheme: selector values are modelled as free
  actions. The model does not capture that the `"theme_selector"` widget
  (app.py:945-949) loses its value on every run that does not render it, as
  the login screen does (app.py:1015-1016 return before the sidebar at
  app.py:1019). After a logout and a new login the selector therefore reports
  `'pastel'`, and app.py:951-952 write it into `theme`: a chosen neon or glass
  theme does not survive a re-login, although `Logout` itself leaves it alone.
- Presentation.PerformanceColor: takes performance as a given value. The
  pandas one-decimal rounding (round-half-even) at app.py:1159 is not
  modelled, so near-boundary values such as 99.96, which rounds to 100.0, are
  covered only through that given value.
- Presentation.Performance: requires a positive target. Every generated target
  is at least 120000, and pandas' division by zero is not modelled.
- Infrastructure.SortByEmployeesDesc: an insertion sort. It stands in for
  pandas' default unstable quicksort. `SortIsCanonical` shows that the choice
  of algorithm does not matter when counts are distinct, as they are in the
  shipped table.
- Gradient colour assignment to chart categories is a plotly concern and is
  not modelled.

## Findings

| source | as written | input that shows it | evidently intended | confidence | as-written member | corrected member |
|---|---|---|---|---|---|---|
| app.py:58-60 | `generate_fake_data` reseeds numpy and `random` with 42 but never seeds the Faker created at app.py:19, so every call continues Faker's stream | two consecutive calls: the first finds Faker at position 0, the second at position 110, with a Faker stream whose name at position 0 is "Ana" and at 110 is "Bruno" | the same dataset on every rerun, names, client names and dates included, as the reseeding of the other two generators suggests | medium, not executed | FakeData.RerunChangesNames | FakeData.GenerateSeededFakeData |
