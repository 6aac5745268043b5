# Reservation dashboard: record store, reports and reservation filter

This project models the non-UI core of a small short-term-rental dashboard:

- the in-memory **record store** (`GerenciamentoReservas`). It keeps three independent tables: reservations, partners and owners. A row's identifier is its position. Point updates overwrite a fixed set of fields of one row, appends add a row at the end, and both rewrite the table's whole file;
- the **report engine**: the full balances (`calcular_saldos`), the weekly totals over a 7-day check-in window (`calcular_totais_semanal`) and the partner report (`gerar_relatorio_parceiros`);
- the **reservation filter** of the dashboard sidebar (`exibir_filtros`). It chains a case-insensitive guest-name mask, a unit mask and an inclusive check-in date range over a copy of the reservations table.

How the model represents things:

- Dates are integer day numbers and money amounts are integers (cents).
- "Today" is a parameter.
- A table is `Store.Table`: a set of column headers plus a sequence of typed rows.
- The report guards test whether a column is present in that set.
- Writing a cell of a column the table lacks adds that column, as pandas does on `.at` assignment and on append. The other rows then hold a blank in it.
- A blank amount cell is held as 0, because pandas' column sum skips blanks. `ReservationsWellFormed`, `PartnersWellFormed` and `OwnersWellFormed` state this, and the store class keeps it as part of its invariant.
- Each file is modelled by a ghost write log (`reservationWrites`, `partnerWrites`, `ownerWrites`): the tables this store has written to it, in order.
- `ReservationManager.Valid()` says that the last table written to each file equals the in-memory table.

Modules:

- `Seqs`: mask selection (`Filter`), column sums (`Sum`) and subsequences, with their lemmas.
- `Store`: the row types, the column names, tables, the load policy and the `ReservationManager` class.
- `Reports`: the three reports and lemmas relating them to the store operations.
- `Filters`: the sidebar filter.

The check-in range of the sidebar filter (dashboard.py:97-98) is always applied. So with an empty name and unit 0 the filter returns the rows in the date range (`Filters.NoFiltersKeepAllInRange`), not the whole table.

## Model

| member | source | states |
|---|---|---|
| `Store.Load` | gerenciamento_reservas.py:16-27 | a parsed file gives its table; a missing or unreadable file gives a table with no rows and no columns instead of an error |
| `Store.Append` | gerenciamento_reservas.py:113 | appending gives one more row; the new row sits at the index equal to the old row count; all earlier rows are unchanged; the written columns are added |
| `Store.Overwrite` | gerenciamento_reservas.py:87-95 | overwriting row `id` keeps the row count; row `id` becomes the given row; every other row is unchanged; the written columns are added |
| `Store.ReservationManager.constructor` | gerenciamento_reservas.py:5-14 | the three tables are the loaded ones (empty on failure); nothing has been written; the invariant holds |
| `Store.ReservationManager.UpdateReservation` | gerenciamento_reservas.py:84-98 | for an id in the index: exactly the eight fields of that row take the given values; other rows and the count are unchanged; the new table is written. For any other id: nothing changes and nothing is written. The other tables and files are untouched |
| `Store.ReservationManager.AddReservation` | gerenciamento_reservas.py:100-114 | the reservation is appended last with the given eight fields; earlier rows are unchanged; the new table is written; the other tables and files are untouched |
| `Store.ReservationManager.UpdatePartner` | gerenciamento_reservas.py:116-124 | for an id in the index: only that row's three fields change and the table is written; otherwise nothing changes and nothing is written |
| `Store.ReservationManager.AddPartner` | gerenciamento_reservas.py:126-134 | the partner is appended last; earlier rows are unchanged; the table is written |
| `Store.ReservationManager.UpdateOwner` | gerenciamento_reservas.py:136-145 | for an id in the index: only that row's four fields change, and its 'A pagar' cell is kept; the table is written. Otherwise nothing changes and nothing is written |
| `Store.ReservationManager.AddOwner` | gerenciamento_reservas.py:147-156 | the owner is appended last with a blank 'A pagar' cell; earlier rows are unchanged; the table is written |
| `Seqs.Filter` | gerenciamento_reservas.py:54-57 | mask selection keeps exactly the accepted rows, each with its original multiplicity; every kept row satisfies the mask; the result is never longer than the input |
| `Reports.Week` | gerenciamento_reservas.py:51-57 | the weekly subset is exactly the rows whose check-in lies in [today-7, today], both ends included, with their multiplicities; it is a subsequence of the table, so table order is kept |
| `Reports.UnitsOfBound` | gerenciamento_reservas.py:67 | the number of distinct unit numbers is at most the number of rows, and at least 1 for a non-empty subset |
| `Reports.ComputeBalances` | gerenciamento_reservas.py:37-47 | revenue, partners' receivable and partners' payable are the full-table column sums |
| `Reports.WeeklyTotals` | gerenciamento_reservas.py:49-69 | the weekly subset holds exactly the in-window rows, each as many times as in the table, in table order. The lodging total is the sum over that subset, and 0 when it is empty. Occupied units is the count of distinct units in the subset, so at most its size. The owners' payable and the partners' receivable are each the full, unwindowed column sum when that column exists and 0 otherwise |
| `Reports.PartnerReport` | gerenciamento_reservas.py:71-82 | the partner table is returned unchanged; both column sums when both 'A receber' and 'A pagar' exist; 0 for both when either is missing |
| `Reports.WeeklyLodgingPlusRestIsRevenue` | gerenciamento_reservas.py:39-59 | weekly lodging plus the lodging of the rows outside the window equals the full revenue of `calcular_saldos` |
| `Reports.WeeklyLodgingAtMostRevenue` | gerenciamento_reservas.py:39-59 | with non-negative amounts, 0 <= weekly lodging <= full revenue |
| `Reports.SumNonNegative` | gerenciamento_reservas.py:59 | a lodging total over non-negative amounts is non-negative |
| `Reports.WeeklyPayablesIgnoreDate` | gerenciamento_reservas.py:62-65 | the weekly report's owners and partners totals are the same for every "today": they are not restricted to the week |
| `Reports.WeeklyGuardsAgreeWithSums` | gerenciamento_reservas.py:62-65 | on tables whose blank amounts count as 0, the column-presence guards do not change the figures: they equal the full column sums |
| `Reports.WeekAfterAddReservation` | gerenciamento_reservas.py:51-59 | after appending a reservation, the weekly subset gains exactly that row when its check-in is in the window (at the end), and the lodging total gains its amount; otherwise both stay the same |
| `Reports.WeekLodgingAfterAddToTableWithoutLodging` | gerenciamento_reservas.py:100-114 | when the table had no 'Valor da hospedagem' column, the older rows' blank cells add nothing: after appending a reservation the weekly lodging total is its amount if it is in the window and 0 otherwise |
| `Reports.PartnerReportAfterAdd` | gerenciamento_reservas.py:126-134 | after adding a partner, both report totals are the old column sums plus the new partner's amounts, even if the columns were missing before |
| `Reports.PartnerReportAfterUpdate` | gerenciamento_reservas.py:116-124 | after updating partner `id`, each report total is the old sum minus that row's old amount plus its new amount |
| `Reports.WeekWindowExample` | gerenciamento_reservas.py:51-57 | with today at day 10: a check-in on day 3 is counted (lodging and one occupied unit) and a check-in on day 2 is not, whatever the two units are |
| `Reports.EmptyPartnerReport` | gerenciamento_reservas.py:74-82 | an empty partner table reports 0 and 0 |
| `Filters.Lower` | dashboard.py:94 | the result is never an ASCII upper-case letter, and it is a lower-case letter exactly when the input is a letter of either case |
| `Filters.LowerIdempotent` | dashboard.py:94 | lowercasing a character twice is lowercasing it once |
| `Filters.LowerString` | dashboard.py:94 | lowercasing keeps the length and leaves no ASCII upper-case letter |
| `Filters.LowerStringIdempotent` | dashboard.py:94 | lowercasing a string twice is lowercasing it once |
| `Filters.ExactSubstringMatches` | dashboard.py:94 | for all inputs: a name that contains the pattern exactly also matches it case-insensitively |
| `Filters.MatchIgnoresCase` | dashboard.py:94 | for all inputs: lowercasing the guest name and the pattern beforehand does not change whether the name mask accepts |
| `Filters.FilterReservations` | dashboard.py:92-98 | a row is kept if and only if it passes every active mask, with its multiplicity. The name mask applies only for a non-empty name. The unit mask applies only for a unit above 0. The check-in range always applies, both ends included. The result is a subsequence of the table (order kept). It is empty when the range is inverted |
| `Filters.ChainIsConjunction` | dashboard.py:93-98 | the three successive mask selections equal one selection by the conjunction of the active masks |
| `Filters.NoFiltersKeepAllInRange` | dashboard.py:95-98 | with an empty name and unit 0, every row whose check-in is in range is kept, so a table entirely in range comes back whole |
| `Filters.NameMatchExample` | dashboard.py:94 | "ana" matches "Ana Silva" case-insensitively |
| `Filters.NameMismatchExample` | dashboard.py:94 | "ana" does not match "Bruno" |

## Left out

- Spreadsheet and CSV I/O (`pd.read_excel`, `to_excel`, `to_csv`, `exportar_csv`, the file paths): these are foreign library calls. Reading is the `LoadOutcome` parameter of the constructor. Writing is an entry in a ghost write log. Whether the codec round-trips values is not modelled.
- The export buttons: they write the full table under both names (dashboard.py:105-112). This is I/O only.
- `print` logging: it has no behavioural effect.
- The Streamlit widgets, buttons, success messages, Plotly charts, and the reload and reload-after-add calls in dashboard.py: this is UI and event plumbing.
- `date.today()`: "today" is a parameter.
- pandas details: dtypes, `Timestamp` conversion and float currency are not modelled; amounts are integer cents.
- Blank cells in text, date and unit columns: every such cell holds a value in the model. Only blank amount cells are represented, as 0. So when a reservation is added or updated into a table that lacked 'Data de entrada' or 'Número do apartamento', the older rows' blank cells in that column are not modelled; the model may count those rows in the week or in the occupied units, where the source would not.
- `DataFrame.append`: it is modelled with its pandas 1.x meaning (append with a fresh positional index). Current pandas no longer has it.
- Filters.FilterReservations: `str.contains` is a regular-expression search in the source. The model uses a plain substring test with ASCII-only lowercasing, so patterns with regex metacharacters or non-ASCII letters in different case are not modelled.
- Filters.FilterReservations: a blank guest name makes the source's mask fail. The model always has a name.
- Reports.ComputeBalances: the source raises when 'Valor da hospedagem', 'A receber' or 'A pagar' is missing. The model requires those columns instead of modelling the exception.
- Reports.WeeklyTotals: the source raises when 'Data de entrada', 'Valor da hospedagem' or 'Número do apartamento' is missing from the reservations table. The model requires those columns.
- Store.ReservationManager.constructor: a parsed reservations, partners or owners table is required to hold 0 in the amount cells of the columns it lacks. This is how blank cells are represented, not a demand on callers.
- Concurrent writers and crashes during a write: single-user, whole-file rewrite, as in the source.
