# SharpTracker ledger model

SharpTracker is a one-page sports-wagering ledger. It keeps two sheets: "Bets", one row per wager, and "Cash", one row per deposit, withdrawal or bonus at a bookie. This project models the ledger logic of `app.py` in Dafny and proves properties about it. The page creates that logic inline among its UI calls:

- a wager is logged with an entry P/L and the next id;
- a pending wager is settled in place;
- a cash transaction is logged with a withdrawal stored negative;
- the page derives money at risk, total P/L, the dashboard's filtered rows and equity curve, and each bookie's balance.

Files:

- `tables.dfy` (module `Tables`): the rows of both sheets, with money as `real` and dates as ordinal day numbers.
- `sums.dfy` (module `Sums`): column sums and row masks, which are the pandas `sum()` over a boolean-masked frame. It also holds their algebra: concatenation, masks that commute, order independence and partition by key.
- `rules.dfy` (module `Rules`): the per-row rules for entry P/L, the next id, settlement and the cash sign. It also holds the reference predicate `Consistent`, which ties a row's Status to its P/L and Cashout_Amt.
- `aggregates.dfy` (module `Aggregates`): money at risk, total P/L, per-bookie balance, dashboard filter, date sort and equity curve, with lemmas on how each moves when a row is logged or settled.
- `tracker.dfy` (module `Tracker`): class `Ledger`, which holds both sheets. It has the three writing operations, each one form submission that writes the whole sheet back, and the bankroll summary loop.

## Model

| member | source | states |
|---|---|---|
| Rules.NextId | app.py:102 | a new id is 1 for an empty table, otherwise one past some existing id, and always greater than every existing id |
| Rules.MaxId | app.py:102 | the largest id of a non-empty table is one of its ids and no id exceeds it |
| Rules.FormOdds | app.py:96 | the odds range the entry form accepts, 1.01 to 100 (used by EntryPLBounds) |
| Rules.FormStake | app.py:97 | the stake range the entry form accepts, 0 to 50000 (used by EntryPLBounds) |
| Rules.EntryPL | app.py:101 | P/L booked on entry: a win books stake*odds - stake at the entered odds, a loss books -stake, every other status books 0; for a non-negative stake at odds of at least 1 a win never books a loss and only a loss books one |
| Rules.NewBet | app.py:101-103 | the logged row carries the given id and every entered column (date, sport, league, bookie, type, event, odds, stake, status), the entry P/L at those odds and Cashout_Amt 0; it is one the application can write; it matches the settlement rule for its status exactly unless it is Cashed Out with a non-zero stake (logged with P/L 0 and Cashout_Amt 0) |
| Rules.EntryAgreesWithSettlement | app.py:101-125 | logging directly as Won, Lost or Push gives the same row as logging Pending and then settling; for Cashed Out the two agree only when stake and payout are both 0 |
| Rules.EntryPLBounds | app.py:96-101 | within the form's odds and stake ranges, entry P/L lies between -stake and stake*odds - stake; a win books between 0 and 99*stake, a loss between -50000 and 0 |
| Rules.SettleRow | app.py:120-125 | settling changes only Status, P/L and Cashout_Amt; Status becomes the result; Cashout_Amt becomes the payout only for Cashed Out; for any row, P/L becomes stake*odds - stake for Won, -stake for Lost and payout - stake for Cashed Out, and Push keeps the old P/L; a consistent pending row settles to a consistent row |
| Rules.SettleRecorded | app.py:118-125 | any row the application can write that is still Pending settles to a consistent row |
| Rules.SignedAmount | app.py:137 | the stored amount has the entered magnitude, and for a positive amount it is negative exactly for a withdrawal |
| Aggregates.Risk | app.py:48 | money at risk, the Stake sum over the Pending rows, equals the sum over every row of its stake while Pending and 0 once settled |
| Aggregates.TotalPL | app.py:49 | total P/L, the P/L column summed over all rows (its properties are the lemmas below) |
| Aggregates.TotalPLSettled | app.py:49 | when no Pending row carries a P/L, total P/L equals the P/L of the settled (Won, Lost, Push, Cashed Out) rows alone |
| Aggregates.Balance | app.py:144-146 | a bookie's cash sum plus its bets' P/L sum minus its Pending stake sum equals its cash plus, row by row, each of its wagers' P/L less its stake while Pending |
| Aggregates.RiskAfterLog | app.py:48 | logging a wager raises money at risk by its stake exactly when it is logged Pending |
| Aggregates.TotalPLAfterLog | app.py:49 | logging a wager raises total P/L by exactly its P/L |
| Aggregates.RiskAfterSettle | app.py:48 | settling a pending wager lowers money at risk by exactly its stake |
| Aggregates.TotalPLAfterSettle | app.py:49 | settling changes total P/L by exactly the change in that row's P/L |
| Aggregates.RiskBounds | app.py:48 | with non-negative stakes, money at risk is between 0 and the total stake of the table |
| Aggregates.BalanceAfterLog | app.py:144-147 | logging a wager moves its own bookie's balance by its P/L less its stake if Pending, and leaves every other bookie's balance unchanged |
| Aggregates.BalanceAfterSettle | app.py:144-147 | settling a consistent pending wager raises its bookie's balance by exactly the money returned (stake*odds, 0, stake or payout) and leaves every other balance unchanged |
| Aggregates.BalanceAfterCash | app.py:144-147 | a cash row moves its own bookie's balance by its signed amount and no other balance |
| Aggregates.BalancesAddUp | app.py:142-147 | when every row belongs to one of a list of distinct bookies, their balances add up to all cash plus total P/L minus money at risk |
| Aggregates.Narrow | app.py:66-68 | one multiselect: an empty selection leaves the table as it is; otherwise each row whose value is selected is kept exactly as many times as in the table, no other row is, and the table's order is kept |
| Aggregates.DashboardRows | app.py:65-68 | a row is kept exactly when every non-empty League, Bookie or Sport selection contains its value, as many times as the sheet holds it and in sheet order; with no selection the table is unfiltered |
| Aggregates.SortByDate | app.py:71 | the result is ordered by date and is a permutation of the rows |
| Aggregates.Running | app.py:72 | the cumulative sum has one entry per row, and entry i is the P/L of rows 0..i |
| Aggregates.EquityCurve | app.py:71-72 | the equity curve has one point per row; point i is the P/L sum of the first i+1 rows in date order; the last point equals the total P/L of the filtered rows |
| Aggregates.EquityCurveEndsAtTotal | app.py:71-72 | every date-sorted arrangement of the rows, including any order of same-date rows, gives the same final curve point |
| Tracker.DropNa | app.py:143 | the kept Meta entries are exactly the present ones, and no more than the column holds |
| Tracker.DropNaCount | app.py:143 | each present value is kept exactly as many times as the column holds it |
| Tracker.DropNaOrder | app.py:143 | the kept values appear in column order |
| Tracker.DropNaFirst | app.py:143 | the list is empty exactly when no entry is present, and otherwise starts with the first present entry's value |
| Tracker.SubmittedCashBookie | app.py:138 | as written: the logged cash row takes the first present Meta bookie, and no bookie when the column has none |
| Tracker.CashFormIgnoresChoice | app.py:138 | as written: any chosen bookie other than the first is never the one recorded |
| Tracker.CashFormCounterexample | app.py:138 | as written: with Meta bookies Bet365 and Pinnacle, the row is logged under Bet365 |
| Tracker.LogKeepsWellFormed | app.py:102-104 | appending a logged row with the next id keeps ids positive and strictly increasing and every row application-written |
| Tracker.SettleKeepsWellFormed | app.py:118-126 | settling a pending row keeps the Bets sheet invariant, and the settled row is consistent |
| Tracker.LogBalances | app.py:144-147 | logging a wager moves only its own bookie's balance, by its P/L less its stake while Pending |
| Tracker.SettleBalances | app.py:144-147 | settling a consistent pending row moves only its own bookie's balance, by exactly the money returned |
| Tracker.Ledger.LogBet | app.py:100-104 | exactly one row is appended, with the next id, the entry P/L and Cashout_Amt 0; earlier rows and the Cash sheet are unchanged; money at risk, total P/L and only the wager's own bookie's balance move accordingly; the ledger invariant (increasing positive ids, application-written rows) is kept |
| Tracker.Ledger.Settle | app.py:118-126 | only the settled row changes, to SettleRow of it; money at risk falls by its stake; total P/L moves by the row's P/L change; in a valid ledger the invariant is kept, the settled row is consistent, and only its bookie's balance moves, by exactly the money returned |
| Tracker.Ledger.LogCash | app.py:136-139 | the intended (corrected) cash form, not the code as written (see Findings): exactly one cash row is appended, for the bookie the user chose, with the signed amount; that bookie's balance moves by it and no other balance moves; the Bets sheet is unchanged |
| Tracker.Ledger.BookieSummary | app.py:142-147 | one summary line per present Meta bookie, in order, each holding that bookie's balance |

## Findings

| source | as written | input that shows it | evidently intended | confidence | as-written member | corrected member |
|---|---|---|---|---|---|---|
| app.py:138 | the Bookie selectbox of the cash form is created inside `if st.form_submit_button(...)`, so the user never sees it before submitting and it returns its default, the first Meta bookie | Meta Bookies `Bet365`, `Pinnacle`; a deposit the user means for Pinnacle | the row records the bookie the user chose, from a selectbox created alongside Type and Amount | medium, not executed | Tracker.SubmittedCashBookie, Tracker.CashFormCounterexample | Tracker.Ledger.LogCash |

## Left out

- The Streamlit UI is not modelled: page config, sidebar, navigation, forms, widgets, `st.rerun` and `st.stop`. Each `Ledger` method stands for one submitted form.
- The password gate (app.py:9-20) is a string comparison against a secret and is not modelled.
- The Google Sheets I/O (`load_sheet`, `save_sheet`, cache clearing) is not modelled. A load is the `Ledger` constructor, and a save replaces the stored sheet with the field's new value.
- The Meta sheet and the Settings page that rewrites it (app.py:153-158) are not modelled. The bankroll summary takes the Bookies column as a parameter.
- Dates are not modelled as calendar dates. The pandas date coercion (app.py:38-40) is left out, and dates are ordinal day numbers of which only the order is used. The cash row's `date.today()` is a parameter.
- Floating point is not modelled. Amounts, odds and P/L are exact `real`s, and the two-decimal display formatting (app.py:50-51) is left out.
- The plots are not modelled: the equity area chart, the per-sport bar chart and the cash-out histogram (app.py:73-81). The curve's values are modelled, but the per-sport groupby and the histogram are rendering only.
- The sidebar shows its two metrics only for a non-empty table (app.py:47). That gate is display-only, and `Risk` and `TotalPL` are 0 for an empty table.
- Aggregates.SortByDate: `sort_values("Date")` does not fix the order of same-date rows. The model keeps them in sheet order. Only the curve's final point is proved to be the same for every order (`EquityCurveEndsAtTotal`).
- Tracker.Ledger.Settle: the row index is the frame's index label. A reloaded sheet has a fresh 0..n-1 index, so the label is the row position.
- Rules.SettleRow: settling as Push keeps the row's previous P/L instead of writing 0 (app.py:120-125). For a row logged Pending the two agree, because its P/L is 0.
- Rules.NextId: the id column is taken as integers. The `int(...)` conversion of a float maximum is not modelled.
- The sheets are taken to have exactly the modelled columns, in the modelled order. The source builds each new row by position against whatever columns the loaded sheet has (`columns=df_bets.columns` at app.py:103, `columns=df_cash.columns` at app.py:138). A sheet with its columns in another order would store values under the wrong headers, and one with a different column count raises an error; neither behaviour is modelled, because the rows are records with named fields.
- The page has no delete operation, no streak, win-rate or ROI figure, no schema repair on load, and no buffer of unsaved changes. None of these is modelled.
