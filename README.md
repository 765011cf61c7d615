# sistema-financeiro, modelled in Dafny

This project models two independent parts of a small Python back office.

**The personal ledger (`src/finance.py`).** Entries are incomes (`entrada`) or expenses (`saida`). An amount is stored as a whole number of cents, rounded half-up. The ledger supports:
- adding an entry;
- listing all entries, newest first;
- listing the entries between two dates, oldest first;
- computing the balance.

**The 99Food business-intelligence service (`src/bi/service.py`).** It covers:
- ingesting the marketplace's order and item spreadsheets (column normalisation, report classification, upsert of orders, append of items, batch import with a per-file manifest);
- the dashboard: key figures, per-day, per-hour and per-weekday series, top-10 rankings and the product catalogue.

The dashboard reads the stored tables through `orders LEFT JOIN items`. The rankings read them through an inner join.

## Modules

Each module is one file.

| module | file | contents |
|---|---|---|
| `Wrappers` | `wrappers.dfy` | `Option` and `Result` |
| `Text` | `text.dfy` | Python's `strip`/`lower` and code-point string order |
| `Numerals` | `numerals.dfy` | zero-padded decimal rendering |
| `Money` | `money.dfy` | exact decimals; the cents codec with `ROUND_HALF_UP` |
| `Calendar` | `calendar.dfy` | Gregorian dates, the `YYYY-MM-DD HH:MM:SS` text, day numbers and weekdays |
| `Ledger` | `ledger.dfy` | `finance.py` |
| `Ingest` | `ingest.dfy` | the import half of `service.py` |
| `Dashboard` | `dashboard.dfy` | `carregar_dashboard_99food` |

### Ledger

The store is the class `Ledger.Ledger`, with two fields:
- `entries: seq<Entry>`;
- `nextId`, the SQLite autoincrement counter.

`Add` is a method that validates its input and appends an entry. The listings and the balance are pure functions over `entries`. The methods `List` and `ListPeriod` return those functions' values. `Balance` returns the balance, or an overflow error when a per-kind sum does not fit a 64-bit integer.

Amounts are exact decimals `Dec(digits, scale)`. They stand for `Decimal(str(valor))`, the exact decimal the source builds from the caller's number.

### Ingest

The two database tables are the fields of the class `Ingest.Store`:
- `orders: map<string, Order>`, keyed by order id (the `UNIQUE` column at `src/database.py:37`);
- `items: seq<Item>`.

The per-row loops of `_salvar_relatorio_pedidos` and `_salvar_relatorio_itens` are the methods `StageOrders` and `StageItems`. `Store.SaveOrders` and `Store.SaveItems` commit their result only when no row failed. This matches the source, whose commit sits after the loop.

The loop of `importar_arquivos_99food` is `Store.Import`. Each loop is proved against a pure specification function:
- `OrderRows` together with `UpsertAll`;
- `ItemRows`;
- `ImportRun`.

The properties are proved about those functions.

### Dashboard

The dashboard is a family of pure (ghost) functions over the two tables:
- `LeftJoin`, `Where`, `KpisOf`;
- `RevenueByDay`, `OrdersByHour`, `RevenueByWeekday`;
- `Ranking`, `Catalogue`;
- `Load`, which assembles the whole panel.

## Model

| member | source | states |
|---|---|---|
| `Money.RoundHalfUp` | src/finance.py:16 | the quotient rounded to the nearest integer, with a tie rounded away from zero: twice the remainder lies in `[-q, q)` for non-negative input and in `(-q, q]` for negative input |
| `Money.ToCents` | src/finance.py:14-17 | the cents are the amount times 100, rounded half-up, within half a cent of the exact value; a non-negative amount never gives negative cents |
| `Money.FromCents` | src/finance.py:20-22 | the value is exactly `cents / 100` |
| `Money.CentsRoundTrip` | src/finance.py:14-22 | converting cents to an amount and back gives the same cents, for every integer |
| `Money.ExactAmount` | src/finance.py:14-17 | an amount with at most two decimals converts exactly: cents equal 100 times the value, and converting back gives the same value |
| `Money.Examples` | src/finance.py:14-17 | 12.34 gives 1234; 0.005 gives 1; 0.004 gives 0; 2.675 gives 268; -0.005 gives -1; 7 gives 700 |
| `Money.NegativeMeansBelowZero` | src/finance.py:37 | the `valor < 0` test on the decimal holds exactly when its value is below zero |
| `Text.Strip` | src/finance.py:48 | the result neither starts nor ends with whitespace |
| `Text.StripInfix` | src/finance.py:48 | the result is an infix of the input, and every character cut away before or after it is whitespace |
| `Text.StripIdempotent` | src/finance.py:48 | stripping twice equals stripping once |
| `Text.Lower` | src/finance.py:33 | the result has the same length and lower-cases each character, keeping whitespace as whitespace |
| `Text.NormalizeIdempotent` | src/bi/service.py:30 | strip-then-lower applied twice equals applying it once |
| `Text.LeTotal` | src/finance.py:61 | the text order compares any two strings |
| `Text.LeAntisymmetric` | src/finance.py:61 | two strings that are each at or before the other are equal |
| `Text.LeTransitive` | src/finance.py:61 | the text order is transitive |
| `Text.LeConcat` | src/finance.py:61 | comparing two concatenations whose first parts have the same length decides on the first parts, and on the second parts when the first parts are equal |
| `Numerals.Digits` | src/bi/service.py:206 | a zero-padded rendering of exactly `w` decimal digits |
| `Numerals.DigitsOrder` | src/bi/service.py:211 | for numbers that fit the width, text order of their padded renderings is numeric order |
| `Numerals.DigitsInjective` | src/bi/service.py:210 | different numbers that fit the width render differently |
| `Calendar.StampText` | src/bi/service.py:47 | the `isoformat(sep=" ", timespec="seconds")` text has 19 characters; its first ten are the date text and characters 11-12 are the padded hour |
| `Calendar.DateTextOrder` | src/finance.py:102 | text order on `YYYY-MM-DD` texts is the year/month/day lexicographic order |
| `Calendar.DateOrderIsChronological` | src/bi/service.py:163-166 | one valid date text sorts at or before another exactly when its day number is no larger |
| `Calendar.Weekday` | src/bi/service.py:219 | the `%w` weekday is in `0..6` |
| `Calendar.NextDayAdvances` | src/bi/service.py:219 | the next calendar day has the next day number and the next weekday (mod 7) |
| `Calendar.WeekdayAnchor` | src/bi/service.py:219 | 2024-01-01 has weekday 1 (Monday, counting Sunday as 0) |
| `Ledger.ParseKind` | src/finance.py:33-35 | a kind is recognised exactly when the stripped, lower-cased text is `entrada` or `saida`, and the recognised kind's name is that text |
| `Ledger.Validate` | src/finance.py:14-40 | the call fails with an invalid type exactly when the kind is not recognised; with a negative amount exactly when the kind is recognised and the amount is negative; with a quantize error exactly when, past those checks, the amount rounds to 10^28 cents or more (a coefficient longer than the 28 digits of the decimal context); otherwise it gives the kind and the rounded cents, which are non-negative and below 10^28 |
| `Ledger.Sort` | src/finance.py:61 | the result is a permutation of the input, sorted by (date, id) in the requested direction |
| `Ledger.Listing` | src/finance.py:54-71 | every entry appears exactly once (same multiset); a later row never has a larger (date, id) key; each row's amount is cents / 100 |
| `Ledger.Between` | src/finance.py:102 | each entry occurs as often as in the input when its date lies between the bounds (both included, in text order), and not at all otherwise |
| `Ledger.PeriodListing` | src/finance.py:92-114 | the rows are exactly the entries whose date lies between the stripped bounds, counted with multiplicity, in ascending (date, id) order, each with amount cents / 100 |
| `Ledger.TotalAppend` | src/finance.py:80-81 | the per-kind cent sum of a concatenation is the sum of the parts |
| `Ledger.TotalNonNegative` | src/finance.py:80-81 | with non-negative cents, each per-kind sum is non-negative |
| `Ledger.TotalPermutation` | src/finance.py:80-81 | the per-kind sums do not depend on the order of the entries |
| `Ledger.BalanceAppend` | src/finance.py:86-88 | appending an entry raises the balance by its cents if it is an income and lowers it by its cents if it is an expense |
| `Ledger.BalanceSign` | src/finance.py:74-89 | an empty ledger has balance 0; a ledger of expenses only has the negated expense total as its balance, which is at most 0 |
| `Ledger.NoIncome` | src/finance.py:80 | without incomes the income total is 0 |
| `Ledger.BalanceOfListing` | src/finance.py:54-89 | the balance computed over the full listing equals the balance of the store |
| `Ledger.Ledger.constructor` | src/finance.py:42-51 | a new ledger is empty and its next id is 1 |
| `Ledger.Ledger.Add` | src/finance.py:25-51 | on a validation error nothing changes and the error is returned. Cents above 2^63-1 fail the insert with an overflow error, and nothing changes. Otherwise exactly one entry is appended, with the normalised kind, the trimmed description, date and category, and the rounded cents. Its id is returned, is larger than every existing id, and the counter moves past it. Every stored amount stays a non-negative 64-bit integer |
| `Ledger.Ledger.List` | src/finance.py:54-71 | returns the full listing of the stored entries |
| `Ledger.Ledger.ListPeriod` | src/finance.py:92-114 | returns the period listing of the stored entries for the given bounds |
| `Ledger.Ledger.Balance` | src/finance.py:74-89 | an integer-overflow error exactly when the income `SUM` or the expense `SUM`, added row by row, passes 2^63-1 at some row, as SQLite's integer `SUM` raises; since stored amounts are non-negative, that is exactly when either total exceeds 2^63-1; otherwise incomes minus expenses, in cents, as an amount divided by 100 |
| `Ledger.SumOverflowsIffTotal` | src/finance.py:76-84 | with non-negative amounts, the running per-kind sum passes 2^63-1 at some row exactly when the full total does, whatever the row order |
| `Ledger.PrefixTotalBounded` | src/finance.py:76-84 | with non-negative amounts, the running sum after any number of rows is at most the full total |
| `Ledger.ScenarioIncome` | src/finance.py:33-40 | the upper-case type `ENTRADA` with 100.00 is accepted, once lower-cased, as an income of 10000 cents |
| `Ledger.ScenarioExpense` | src/finance.py:33-40 | the type `saida` with 30.00 is accepted as an expense of 3000 cents |
| `Ledger.ScenarioUnknown` | src/finance.py:34-35 | the type `invalid` is refused with an invalid-type error |
| `Ledger.ScenarioBalance` | src/finance.py:74-89 | an income of 10000 cents followed by an expense of 3000 cents give totals of 10000 and 3000 and a balance of 7000 cents |
| `Ledger.ScenarioSumOverflow` | src/finance.py:76-84 | two incomes of 5 * 10^18 cents each fit a 64-bit column, but their total does not, so the balance query fails |
| `Ledger.BalanceScenario` | src/finance.py:25-89 | starting from an empty ledger, after an income of 100.00, an expense of 30.00 and a refused entry, the balance is 70.00 and the refused call reports an invalid type, whatever the descriptions, dates and categories |
| `Ledger.ScenarioQuantizeOverflow` | src/finance.py:14-17 | an amount of 10^26 is refused with a quantize error |
| `Ledger.ScenarioBeyondStorage` | src/finance.py:40-49 | an amount of 10^17 passes validation, and its 10^19 cents exceed the largest 64-bit integer |
| `Ledger.OverflowScenario` | src/finance.py:25-89 | adding those two amounts to an empty ledger gives a quantize error and an overflow error, and the balance stays 0 |
| `Ingest.NormalizeColumns` | src/bi/service.py:29-31 | same number and order of columns, each one stripped and lower-cased |
| `Ingest.NormalizeColumnsIdempotent` | src/bi/service.py:29-31 | normalising the columns twice equals normalising once |
| `Ingest.Classify` | src/bi/service.py:34-40 | `pedidos` exactly when id and status are present; `itens` exactly when status is absent and id, item name and quantity are present; otherwise an unrecognised-report error |
| `Ingest.ClassifyOrdersSuperset` | src/bi/service.py:36-37 | a column set that is a superset of an orders report is still an orders report |
| `Ingest.ClassifyBothMeansOrders` | src/bi/service.py:36-39 | a sheet carrying both the orders and the items columns is classified as orders, because that test runs first |
| `Ingest.ReadSheet` | src/bi/service.py:54-59 | accepted exactly when `id do pedido` is among the normalised columns; the sheet keeps its rows and gets the normalised columns; otherwise a missing-column error |
| `Ingest.IndexOfFirst` | src/bi/service.py:66 | the header lookup is absent exactly when the name is not a column; otherwise it is the first position holding that name |
| `Ingest.ParseStamp` | src/bi/service.py:43-51 | an absent or empty cell gives an empty-timestamp error; a non-empty cell of blanks, or a text the parser refuses, gives an invalid-timestamp error carrying that text; any other text gives the parsed timestamp; so a success always comes from a non-blank text |
| `Ingest.ParseNumber` | src/bi/service.py:91-92 | an empty or absent cell counts as 0; any other text gives the number the parser reads from it, or an invalid-number error naming the column and the text |
| `Ingest.ConvertOrder` | src/bi/service.py:87-94 | a row converts exactly when its timestamp and both durations parse; otherwise the error is that of the first failing field, in the order timestamp, preparation, delivery; a converted row carries the parsed timestamp, the stripped status, both durations and the file name |
| `Ingest.ConvertItem` | src/bi/service.py:105-111 | a row converts exactly when its quantity, revenue and average price all parse; otherwise the error is that of the first failing field, in that order; a converted row carries the stripped id and name, the three parsed numbers and the file name |
| `Ingest.KeptOrderRowsMembers` | src/bi/service.py:66-68 | a row is kept exactly when its stripped id is non-empty |
| `Ingest.KeptItemRowsMembers` | src/bi/service.py:105-108 | a row is kept exactly when both its stripped id and its stripped item name are non-empty |
| `Ingest.KeptOrderRowsAppend` | src/bi/service.py:65-68 | skipping distributes over concatenation of row blocks |
| `Ingest.KeptItemRowsAppend` | src/bi/service.py:104-108 | skipping distributes over concatenation of row blocks |
| `Ingest.ConvertOrders` | src/bi/service.py:65-95 | a successful conversion has one record per kept row |
| `Ingest.ConvertItems` | src/bi/service.py:104-124 | a successful conversion has one item per kept row |
| `Ingest.ConvertOrdersPointwise` | src/bi/service.py:66-94 | the i-th converted record carries the i-th row's stripped id and that row's conversion |
| `Ingest.ConvertItemsPointwise` | src/bi/service.py:109-123 | the i-th converted item is the conversion of the i-th row |
| `Ingest.ConvertOrdersFirstError` | src/bi/service.py:89 | when row i is the first row that fails, the whole conversion fails with row i's error |
| `Ingest.ConvertOrdersAllOk` | src/bi/service.py:65-95 | when every row converts, the conversion succeeds |
| `Ingest.ConvertOrdersAnyError` | src/bi/service.py:65-95 | any row that does not convert fails the whole conversion, wherever it stands |
| `Ingest.BlankStampFailsFile` | src/bi/service.py:43-50 | a kept orders row whose timestamp cell is missing, empty or blank fails the whole file, whatever the parser |
| `Ingest.ConvertOrdersErrorSticks` | src/bi/service.py:89 | once a prefix fails, later rows do not change the outcome |
| `Ingest.ConvertItemsErrorSticks` | src/bi/service.py:109-111 | once a prefix fails, later rows do not change the outcome |
| `Ingest.OrderRowsErrorSticks` | src/bi/service.py:89-97 | an error in the first n rows of a sheet is the error of the whole sheet |
| `Ingest.ItemRowsErrorSticks` | src/bi/service.py:109-126 | an error in the first n rows of a sheet is the error of the whole sheet |
| `Ingest.Upsert` | src/bi/service.py:79-85 | the key set gains the id; the id maps to the new record, updated now, created as before if it existed or now otherwise; every other key is untouched |
| `Ingest.UpsertAllKeys` | src/bi/service.py:69-95 | the stored key set after the loop is the old keys plus the ids of the kept rows |
| `Ingest.UpsertAllUntouched` | src/bi/service.py:69-95 | an id not in the file keeps its stored order unchanged |
| `Ingest.UpsertAllClock` | src/database.py:43-44 | the creation stamp of a stored order survives the upsert, a new order is created now, and every id from the file is updated now |
| `Ingest.UpsertAllLastWins` | src/bi/service.py:79-84 | each id in the file ends up with the record of its last row |
| `Ingest.LastOccurrence` | src/bi/service.py:65-95 | every id of the file has a last row carrying it |
| `Ingest.ReimportOrders` | src/bi/service.py:79-85 | importing the same orders again keeps the key set, every record and every creation stamp |
| `Ingest.ImportFile` | src/bi/service.py:144-152 | the report is named after the file; an orders report leaves the items table alone; an items report leaves the orders table alone and extends the items table by exactly the reported number of rows, leaving the old items as a prefix |
| `Ingest.ImportFileOutcome` | src/bi/service.py:144-152 | every outcome of one file: a sheet without the order id column fails with the missing-column error that reading the sheet raises; an unrecognised report fails with its error; a row that does not convert fails the file with that row's error; a success was read and classified, and its manifest kind is the classification; an orders report upserts its kept rows into the orders table, leaves the items alone and reports their count; an items report appends its rows to the items table, leaves the orders alone and reports their count |
| `Ingest.ItemsImportedTwice` | src/bi/service.py:112-125 | importing the same items file again succeeds with the same report and appends the same rows a second time |
| `Ingest.ImportAll` | src/bi/service.py:138-154 | on success the manifest has one entry per file, and the orders and items totals equal the sums of the manifest's rows of each kind |
| `Ingest.ImportRun` | src/bi/service.py:130-154 | an empty upload list fails with no-files and leaves the tables as they were; otherwise the result is the file-by-file import |
| `Ingest.ManifestInOrder` | src/bi/service.py:152 | the i-th manifest entry names the i-th uploaded file |
| `Ingest.ImportStops` | src/bi/service.py:140-152 | when the first n files already fail, the later files do not change the tables or the error |
| `Ingest.StageOrderRow` | src/bi/service.py:65-96 | given the staged state of the first i rows, handling row i gives the specified state of the first i+1 rows: the error of the first failing row, or the table upserted with every kept row and their number; ids stay non-empty |
| `Ingest.StageItemRow` | src/bi/service.py:104-125 | given the staged state of the first i rows, handling row i gives the specified state of the first i+1 rows: the error of the first failing row, or the table extended with every kept item and their number; ids and names stay non-empty |
| `Ingest.StageOrders` | src/bi/service.py:62-98 | the loop gives the sheet's error, or the table upserted with the kept rows in file order together with the number of kept rows; ids stay non-empty |
| `Ingest.StageItems` | src/bi/service.py:101-127 | the loop gives the sheet's error, or the table with the kept items appended in file order together with their number; ids and names stay non-empty |
| `Ingest.Store.constructor` | src/database.py:35-60 | a new store has no orders and no items |
| `Ingest.Store.SaveOrders` | src/bi/service.py:62-98 | on error the orders table is unchanged (no commit); otherwise it becomes the upsert of the kept rows and their number is returned; items are untouched |
| `Ingest.Store.SaveItems` | src/bi/service.py:101-127 | on error the items table is unchanged; otherwise the kept items are appended and their number is returned; orders are untouched |
| `Ingest.Store.ImportOne` | src/bi/service.py:144-149 | one file: on error the tables are unchanged and the error is returned; otherwise the tables and the report are those of the one-file specification |
| `Ingest.Store.Import` | src/bi/service.py:130-154 | the tables and the result are those of the batch import specification, starting from the old tables |
| `Dashboard.SortedKeys` | src/bi/service.py:198-199 | the grouping keys of a set, each once, in strictly ascending text order |
| `Dashboard.ItemsOf` | src/bi/service.py:186 | an item is listed exactly when it is stored and carries the order id |
| `Dashboard.ItemsOfCount` | src/bi/service.py:186 | an item of the order is listed as many times as it is stored, and any other item not at all |
| `Dashboard.WithItems` | src/bi/service.py:186 | the i-th row pairs the order with the i-th of its items, one row per item |
| `Dashboard.WithItemsCount` | src/bi/service.py:186 | a row occurs as many times as its item occurs among the order's items, and only for that order |
| `Dashboard.RowsOfOrder` | src/bi/service.py:186 | a row belongs to the order's rows exactly when it pairs the order with one of its items, or with no item when the order has none |
| `Dashboard.RowsOfOrderCount` | src/bi/service.py:184-186 | each stored copy of one of the order's items gives one row; an order without items gives exactly one item-less row; no other row occurs |
| `Dashboard.JoinKeysCount` | src/bi/service.py:184-186 | when every order is listed once, a row occurs in the join as many times as in its own order's rows |
| `Dashboard.LeftJoinRows` | src/bi/service.py:184-186 | a row is in the left join exactly when its order is stored and either carries one of that order's items or is item-less because the order has none |
| `Dashboard.LeftJoinCount` | src/bi/service.py:184-186 | the left join holds one row per stored copy of each item whose order is stored, one item-less row per stored order without items, and nothing else |
| `Dashboard.Where` | src/bi/service.py:159-172 | exactly the rows meeting every given filter: inclusive date bounds on the date part, and the item name when a product is given |
| `Dashboard.WhereCount` | src/bi/service.py:159-172 | every copy of a selected row is kept, and every copy of an unselected row is dropped |
| `Dashboard.CountedOrders` | src/bi/service.py:162-187 | an order is counted exactly when it is stored, its date lies within the given bounds, and, when a product is given, it has an item with that name |
| `Dashboard.Having` | src/bi/service.py:198 | exactly the rows whose grouping key matches |
| `Dashboard.HavingCount` | src/bi/service.py:198 | every copy of a row with the group's key is kept, and no other row |
| `Dashboard.SumConcat` | src/bi/service.py:178 | the sum over a concatenation is the sum of the sums |
| `Dashboard.GroupSeries` | src/bi/service.py:192-202 | one entry per key, in key order, holding the sum of that key's rows |
| `Dashboard.ShareOnce` | src/bi/service.py:198 | with distinct keys, a row contributes to exactly one group, or to none when its key is missing |
| `Dashboard.SeriesCoversTotal` | src/bi/service.py:192-202 | when every row's key is listed once, the groups add up to the overall sum |
| `Dashboard.Ticket` | src/bi/service.py:181-184 | 0 when there are no orders; otherwise ticket times count equals revenue |
| `Dashboard.UnfilteredRevenue` | src/bi/service.py:175-190 | without filters, the revenue figure is the revenue of every stored item whose order is stored, each stored copy counted |
| `Dashboard.RevenueByDayAscending` | src/bi/service.py:199 | the day series is strictly ascending by day text |
| `Dashboard.RevenueByDayCovers` | src/bi/service.py:194-198 | every row's day has an entry holding the revenue of that day |
| `Dashboard.RevenueByDayTotal` | src/bi/service.py:192-202 | the day series adds up to the revenue figure |
| `Dashboard.RevenueByDayChronological` | src/bi/service.py:199 | the day series is in strictly increasing calendar order |
| `Dashboard.OrdersByHourFacts` | src/bi/service.py:204-214 | every hour in the series counts at least one order and the hours are strictly increasing |
| `Dashboard.PresentWeekdaysOccur` | src/bi/service.py:232-233 | every listed weekday is in `0..6` and occurs among the rows |
| `Dashboard.PresentWeekdaysComplete` | src/bi/service.py:232-233 | every weekday that occurs among the rows is listed |
| `Dashboard.PresentWeekdaysAscending` | src/bi/service.py:232-233 | the listed weekdays are strictly ascending, Sunday first |
| `Dashboard.Labelled` | src/bi/service.py:219-227 | each weekday number gets its Portuguese name (0 Domingo, ..., 5 Sexta, anything else Sábado) and the total is kept |
| `Dashboard.RevenueByWeekdayTotal` | src/bi/service.py:216-236 | the weekday series adds up to the revenue figure |
| `Dashboard.InnerJoin` | src/bi/service.py:242 | exactly the joined rows that carry an item |
| `Dashboard.InnerJoinCount` | src/bi/service.py:242 | every copy of a row with an item is kept, and no item-less row |
| `Dashboard.InsertDesc` | src/bi/service.py:245 | inserting into a non-increasing series keeps it non-increasing and adds exactly that entry |
| `Dashboard.SortDesc` | src/bi/service.py:245 | a non-increasing permutation of the input |
| `Dashboard.CutKeepsLargest` | src/bi/service.py:245-246 | cutting a non-increasing series leaves out no value larger than a kept one |
| `Dashboard.Top10` | src/bi/service.py:245-246 | at most ten entries, non-increasing, a sub-multiset of the input (the whole input when it has at most ten entries), and no entry left out is larger than one kept |
| `Dashboard.RankingEntries` | src/bi/service.py:238-262 | each ranked name is the item name of some inner-join row, and its value is the sum over that name's rows |
| `Dashboard.Catalogue` | src/bi/service.py:264-270 | each name that occurs among the items, once, ascending, ignoring the filters |
| `Dashboard.LoadSeriesTotals` | src/bi/service.py:175-236 | both the day and the weekday series add up to the panel's revenue figure |
| `Dashboard.LoadWithoutOrders` | src/bi/service.py:175-270 | without stored orders, every figure is 0 and every series and ranking is empty; the catalogue still lists the items |

## Left out

- Floating point. Amounts reach the codec as the exact decimal that `str(valor)` prints. `_centavos_para_valor` returns an exact decimal rather than a `float`. The BI quantities, revenues and durations are `real`, and their `REAL` sums are exact.
- pandas quirks: `str(NaN)` is `"nan"` and therefore not skipped; `float(NaN or 0)` stays NaN; a numeric id is rendered by `str`. Cells are modelled as text, and an absent cell counts as missing.
- `pd.read_excel` and the disk writes of `importar_arquivos_99food` (`mkdir`, `write_bytes`). A sheet arrives as normalised columns plus rows of cell text.
- `pd.to_datetime` and the number parsing. They are the function values of `Ingest.Parsers`. The timestamp parser returns a valid date-time or nothing. `pd.isna` is not a parser: `Ingest.ParseStamp` reads an absent or empty cell as missing, and refuses a cell of blanks itself.
- Duplicate column names after normalisation. The model reads the first such column, where pandas would return several.
- Lower-casing covers ASCII and Latin-1 letters only. Python's full Unicode case mapping is not modelled.
- SQLite's `date(?)` on the dashboard's bound parameters. A bound is compared as the given text, and no normalisation of it is modelled. SQLite cuts a date-time such as `2024-01-31 10:00` to its date, converts a Julian day number or `now`, and turns a malformed bound into NULL.
- Timezones and sub-second precision of the parsed timestamps.
- The clock. `CURRENT_TIMESTAMP` is a `now` number passed to each save or import call, and one value is shared by the whole call.
- The items table's `criado_em` column, which the modelled code never reads.
- The ledger rows' `criado_em`. Both listings select it and return it in every row, but it is clock data, so `Ledger.Row` and `Ledger.Entry` leave it out.
- The order of ties: equal (date, id) keys cannot occur, but equal ranking values and the row order of the joins are left unspecified, as SQLite leaves them.
- Dashboard.OrdersByHour: each order falls in exactly one hour, but no lemma proves that the hour counts add up to the distinct-order figure. Only the ascending order of the hours and the positivity of the counts are stated.
- Ledger.Ledger.Add: the source computes `valor < 0` on a float, while the model tests the sign of the exact decimal.
- Database schema: `src/database.py` declares `valor REAL` for the ledger, but `finance.py` writes `valor_centavos`. The model follows `finance.py`. Connections, indexes and transactions are not modelled beyond "no commit after an error".
- `importar_nfe_xml` (src/finance.py:117-132) is a stub that returns a constant message.
- `PROVEDORES_FUTUROS` and the `provedores_futuros` field of the dashboard payload are constant data.
- The terminal loop (`src/main.py`), the Flask routes (`src/webapp.py`) and the re-exports of `src/bi/__init__.py` are UI and plumbing.
