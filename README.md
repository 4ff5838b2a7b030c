# c-meter: a verified model of the calorie bot's core

c-meter is a Telegram bot that keeps a per-user food ledger in PostgreSQL.
A user creates products (name, kcal and macros per unit) and logs records of
them with `/record`. `/get [days]` or `/today` prints a report of the last days.
`/set_noon` and `/set_lang` store preferences. An inline keyboard browses a
per-user tree of "common items" whose paths are `ltree` values (`a.b.c`).

This project models three parts of the bot and proves properties about them:

- **The store** (`backend/internal/database/operations.go`). The four tables
  (products, records, user preferences and common items) are fields of the
  class `Database.Store`: three sequences and a map. Its `Insert*`/`Upsert*`
  methods change those in place. The uuid lookups (`GetProductByUUID`,
  `GetRecordByUUID`) are `QueryRow` scans for the first matching row
  (`Relational.First`), and `GetUserPreferences` is a map lookup. Each listing
  query is a `WHERE` filter (`Relational.Where`) and an `ORDER BY` sort
  (`Relational.OrderBy`), scanned into the result by the `for rows.Next()`
  loop (`Database.ScanAll`).
  The ltree semantics the level listing relies on are in `Ltree`: labels,
  `nlevel`, the pattern `P.*{1}` and path order.
- **The command handlers** (`backend/internal/bot/handlers.go`). This part covers
  the login fallback, the day-count check, the `/get` report loop (newest-first
  records walked backwards, failed lookups skipped, a running total,
  centre-padded names, the total line only for one day) and the argument checks
  of `/record`, `/set_noon` and `/set_lang`.
- **The navigation menu** (`backend/internal/bot/handlers/main_menu.go`). This
  covers decoding callback data and building one level's keyboard.

Conventions:

- A Go string is `seq<char>`. Text that comes from users (names, arguments,
  callback data) is read one character per byte, so the byte checks in the
  source (`len(name) > 15`, `data[0] < 32`) read characters the same way. The
  program's own literals (the table's box-drawing characters, the emoji in the
  replies and buttons) are written one character per code point; they are
  never sliced or measured.
- Times are integers of nanoseconds.
- The clock reading (`time.Now()`, and the server's `now()` for `created_at`) is
  a parameter `now`.
- Three library functions are handler parameters:
  - `formatTime` for `Format("02-01 15:04")`;
  - `formatUuid` for printing a uuid;
  - `parseClock` for `time.Parse("15:04:05", …)`.
- The server's `gen_random_uuid()` is a counter `nextUuid` that `Valid()` keeps
  above every stored identifier.
- `Store.online == false` stands for a server that cannot be reached. Every
  query then fails and changes nothing.
- Integer parsing (`strconv.Atoi` / `ParseInt(…, 10, 64)`) accepts an optional
  sign, decimal digits and the int64 range (`Decimal.ParseInt`).

The model keeps two window starts for `/get`: the one the code computes with
an int64 duration, which wraps for very large day counts, and the intended one,
`days` whole days before now. The handlers use the intended one (see Findings
and Left out).

## Model

| member | source | states |
|---|---|---|
| Decimal.Wrap64 | backend/internal/bot/handlers.go:75 | the result is in the int64 range, congruent to the input modulo 2^64, and equal to it when it already fits (Go's wrap-around int64 arithmetic) |
| Decimal.ParseIntRoundTrip | backend/internal/bot/handlers.go:63 | parsing the decimal text of any int64 gives it back |
| Decimal.ParseInt | backend/internal/bot/handlers.go:141 | an accepted text is an int64 that starts with a digit or a sign; which texts are accepted and as what value is `ParseIntMeaning` |
| Decimal.ParseIntMeaning | backend/internal/bot/handlers.go:63-64 | a text is accepted exactly when it is an optional sign and one or more digits whose value fits in int64, and it is read as that value |
| Decimal.ParseIntOfDigits | backend/internal/bot/handlers.go:141 | unsigned digits are read as their value, and refused when it exceeds int64 |
| Decimal.ParseIntLeadingZeros | backend/internal/bot/handlers.go:141 | leading zeros are accepted and do not change the value |
| Decimal.ParseIntPlusSign | backend/internal/bot/handlers.go:141 | a leading `+` is accepted |
| Decimal.ParseIntRejectsNonDigit | backend/internal/bot/handlers.go:63-64 | a non-digit outside the sign position is a syntax error |
| Decimal.ParseIntRejectsNoDigits | backend/internal/bot/handlers.go:63-64 | the empty text and a lone sign are syntax errors |
| Decimal.ParseIntRejectsTooLarge | backend/internal/bot/handlers.go:141 | a number above the int64 range is refused |
| Decimal.ParseIntRejectsTooSmall | backend/internal/bot/handlers.go:141 | a number below the int64 range is refused |
| Decimal.IntToString | backend/internal/bot/handlers.go:84 | `strconv.Itoa`: a minus sign for negative values, then the digits of the magnitude (its meaning is `IntToStringCanonical` and `CanonicalTextIsIntToString`) |
| Decimal.IntToStringCanonical | backend/internal/bot/handlers.go:84 | Itoa's text is decimal syntax denoting the value, with no plus sign, a minus sign exactly for negative values, and no leading zero |
| Decimal.CanonicalDigitsUnique | backend/internal/bot/handlers.go:84 | a digit string without a leading zero is the printed form of the number it denotes |
| Decimal.DigitsValueBound | backend/internal/bot/handlers.go:84 | a digit string of two or more digits without a leading zero denotes at least 10 |
| Decimal.CanonicalTextIsIntToString | backend/internal/bot/handlers.go:71 | canonical decimal text is Itoa's text of its value, so the canonical properties fix the text |
| Strings.SplitCount | backend/internal/bot/handlers/main_menu.go:108 | `strings.Split` yields one more piece than there are separators |
| Strings.SplitPiecesHaveNoSeparator | backend/internal/bot/handlers/main_menu.go:108 | no piece of a split contains the separator |
| Strings.JoinSplit | backend/internal/bot/handlers/main_menu.go:108-111 | joining the pieces of a split with the same separator restores the string |
| Strings.SplitConcat | backend/internal/bot/handlers/main_menu.go:108 | splitting `a.b` is splitting `a` followed by splitting `b` |
| Strings.Split | backend/internal/bot/handlers/main_menu.go:108 | `strings.Split` on one separator character: never an empty list of pieces |
| Strings.Join | backend/internal/bot/handlers/main_menu.go:111 | `strings.Join`: pieces with the separator between each two (its meaning is `JoinSplit`) |
| Strings.Count | backend/internal/database/operations.go:323 | `strings.Count` of one character (its meaning is `SplitCount`) |
| Strings.TrimPrefix | backend/internal/bot/handlers/main_menu.go:73 | with the prefix present the text is the prefix followed by the result; otherwise the text is unchanged |
| Strings.HasPrefix | backend/internal/bot/handlers/main_menu.go:44 | `strings.HasPrefix`: the text begins with the prefix (a definition; used by `Dispatch` and `NavigationPath`) |
| Strings.Spaces | backend/internal/bot/handlers.go:115 | what `%*s` prints for an empty argument: exactly `n` blanks |
| Strings.PadRight | backend/internal/bot/handlers.go:120 | what `%-4d` does to the printed number: the text, then blanks up to the width, and never cut |
| Relational.Where | backend/internal/database/operations.go:118 | a filtered table is no longer than the table |
| Relational.WhereMembers | backend/internal/database/operations.go:118 | a row is in the filtered table exactly when it is in the table and passes the filter |
| Relational.WhereCount | backend/internal/database/operations.go:118 | a filtered table holds each passing row as often as the table and no failing row |
| Relational.WhereEmpty | backend/internal/database/operations.go:118 | the filter selects nothing exactly when no row passes |
| Relational.First | backend/internal/database/operations.go:42-55 | a single-row lookup finds a row that passes the filter, and finds none exactly when no row passes |
| Relational.FirstOfAppended | backend/internal/database/operations.go:14-62 | a row appended to a table where no row passes the filter is what the single-row lookup finds |
| Relational.OrderBy | backend/internal/database/operations.go:119 | sorting keeps exactly the same multiset of rows |
| Relational.OrderBySorted | backend/internal/database/operations.go:119 | under a total preorder the sorted table is ordered |
| Relational.InsertBySorted | backend/internal/database/operations.go:119 | inserting a row into a sorted table at its place keeps the table sorted |
| Relational.Select | backend/internal/database/operations.go:115-120 | `WHERE … ORDER BY …`: each passing row occurs as often as in the table, each failing row not at all, and the result is ordered |
| Relational.SelectAgrees | backend/internal/database/operations.go:115-120 | a SQL condition that agrees with an intended one on the table's rows selects exactly the rows the intended one describes |
| Relational.WhereSameRows | backend/internal/database/operations.go:268 | two conditions that agree on every row of the table filter it to the same sequence |
| Relational.SelectSameRows | backend/internal/database/operations.go:264-270 | two conditions that agree on every row of the table give the same query result, rows and order |
| Relational.LexLeTotal | backend/internal/database/operations.go:231 | lexicographic order on sequences is total |
| Relational.LexLeTransitive | backend/internal/database/operations.go:231 | lexicographic order is transitive |
| Relational.LexLeAntisymmetric | backend/internal/database/operations.go:231 | two sequences each lexicographically below the other are equal |
| Ltree.ChildLevelIsOneDeeper | backend/internal/database/operations.go:323 | for a path P, `count('.', P) + 2` is one more than `nlevel(P)` |
| Ltree.IsPath | backend/internal/database/operations.go:201-224 | text the `::ltree` cast accepts: every dot-separated label non-empty and made of label characters (the empty text is the empty path) |
| Ltree.NLevel | backend/internal/database/operations.go:311 | `nlevel(path)`: the number of labels |
| Ltree.MatchesChildPattern | backend/internal/database/operations.go:319-322 | `path ~ 'P.*{1}'`: P's labels followed by exactly one more |
| Ltree.ChildLevel | backend/internal/database/operations.go:323 | the level the query passes, `strings.Count(P, ".") + 2` (its meaning is `ChildLevelIsOneDeeper`) |
| Ltree.TopLevelIsLabel | backend/internal/database/operations.go:311 | a path has `nlevel` 1 exactly when it is a single label |
| Ltree.ChildPatternIsChildPath | backend/internal/database/operations.go:319-323 | a path matches `P.*{1}` at level `count('.', P) + 2` exactly when it is P, a dot and one more label |
| Ltree.ChildPatternFixesLevel | backend/internal/database/operations.go:322-323 | every match of `P.*{1}` has `nlevel` equal to `count('.', P) + 2` |
| Ltree.ChildRowIsChildPath | backend/internal/database/operations.go:319-323 | a path passes both tests of the child listing, `P.*{1}` and the level, exactly when it is P, a dot and one label |
| Ltree.BackPathOfChild | backend/internal/bot/handlers/main_menu.go:108-112 | dropping the last segment of a child of P gives P |
| Ltree.BackPathOfTopLevel | backend/internal/bot/handlers/main_menu.go:109-112 | dropping the last segment of a one-segment path gives the root `""` |
| Ltree.BackPathIsParent | backend/internal/bot/handlers/main_menu.go:108-112 | below the top level, dropping the last segment gives a non-empty path whose child the original is, with the same leading labels |
| Ltree.BackPath | backend/internal/bot/handlers/main_menu.go:107-112 | the back target: the parent's pieces without the last one, or the root for one piece (its meaning is `BackPathOfChild`, `BackPathOfTopLevel` and `BackPathIsParent`) |
| Ltree.PathLe | backend/internal/database/operations.go:231 | `ORDER BY path`: label-wise lexicographic order, labels compared byte-wise (its meaning is `PathOrderIsTotalPreorder`) |
| Ltree.PathOrderIsTotalPreorder | backend/internal/database/operations.go:231 | ltree order (label by label, byte-wise) is a total preorder, so `ORDER BY path` is well defined |
| Database.NewestFirstIsTotalPreorder | backend/internal/database/operations.go:119 | `ORDER BY created_at DESC` is a total preorder |
| Database.InTimeRange | backend/internal/database/operations.go:118 | `login = $1 AND created_at >= $2 AND created_at <= $3`, both ends inclusive (a definition; used by `RecordsInRange`) |
| Database.NewerOrSame | backend/internal/database/operations.go:119 | `ORDER BY created_at DESC` as a comparator (a definition; its meaning is `NewestFirstIsTotalPreorder`) |
| Database.PathOrder | backend/internal/database/operations.go:231 | `ORDER BY path` on items: ltree order of their paths (a definition; its meaning is `PathOrderIsTotalPreorder`) |
| Database.PathOrderIsTotalPreorder | backend/internal/database/operations.go:231 | ordering items by their paths is a total preorder, lifted from ltree order on paths |
| Database.ChildPattern | backend/internal/database/operations.go:322 | the pattern `P.*{1}` sent for a non-empty parent (a definition; its meaning is `MatcherAgrees` and `Ltree.ChildPatternIsChildPath`) |
| Database.MatchingRow | backend/internal/database/operations.go:268 | `login = $1 AND path ~ $2` with the matcher the pattern parsed to (a definition; used by `ItemsMatching`) |
| Database.ChildRow | backend/internal/database/operations.go:319-323 | `login = $1 AND path ~ 'P.*{1}' AND nlevel(path) = $3` (a definition; its meaning is `Ltree.ChildRowIsChildPath`) |
| Database.MatcherAgrees | backend/internal/database/operations.go:319-322 | the server reads `P.*{1}`, for a plain non-empty path P, as P's labels and exactly one more (a definition; required of every store) |
| Database.ErrorText | backend/internal/bot/handlers.go:80 | `err.Error()`: the fixed text of `sql.ErrNoRows` and stand-ins for the server's own texts (a definition) |
| Database.FindProduct | backend/internal/database/operations.go:39-62 | the lookup returns a stored product with that uuid, or "no rows" exactly when none has it |
| Database.FindRecord | backend/internal/database/operations.go:90-112 | the same for records |
| Database.FindAppendedProduct | backend/internal/database/operations.go:14-62 | a product inserted under a uuid new to the table is what the uuid lookup returns |
| Database.FindAppendedRecord | backend/internal/database/operations.go:66-112 | a record inserted under a uuid new to the table is what the uuid lookup returns |
| Database.SetNoon | backend/internal/database/operations.go:175-185 | the upsert adds the login if absent, sets its noon, keeps its lang, and leaves every other login's row unchanged |
| Database.SetLang | backend/internal/database/operations.go:187-197 | the upsert adds the login if absent, sets its lang, keeps its noon, and leaves every other login's row unchanged |
| Database.ScanAll | backend/internal/database/operations.go:128-142 | the scan loop appends every row of the cursor, in cursor order |
| Database.Store.RecordsInRange | backend/internal/database/operations.go:114-120 | the login's records with `start <= created_at <= end` (both ends inclusive), each as often as stored, and no others, newest first |
| Database.Store.ItemsByLogin | backend/internal/database/operations.go:226-232 | all of the login's items and only those, each as often as stored, ordered by path |
| Database.Store.ItemsMatching | backend/internal/database/operations.go:264-270 | the login's items whose paths the lquery pattern matches, each as often as stored and no other row, ordered by path; an unparsable pattern is an error |
| Database.Store.TopLevelItems | backend/internal/database/operations.go:307-314 | at the root: exactly the login's items whose path is one label, ordered by path |
| Database.Store.ChildItems | backend/internal/database/operations.go:316-324 | below a path P: exactly the login's items whose path is P plus one label, at level `count('.', P) + 2`, ordered by path |
| Database.Store.AtLevelRow | backend/internal/database/operations.go:319 | `login = $1 AND path ~ $2 AND nlevel(path) = $3` with the server's matcher, for a parent that is not a plain path (a definition; used by `MatchedLevelItems`) |
| Database.Store.MatchedLevelItems | backend/internal/database/operations.go:316-324 | below a parent that is not a plain path: the login's items that the server's matcher accepts at level `count('.', P) + 2`, each as often as stored and no other row, ordered by path |
| Database.Store.ChildPatternMatchingAgrees | backend/internal/database/operations.go:264-270 | on `P.*{1}` for a plain path P, the pattern query succeeds and returns exactly the child listing, the same sequence |
| Database.Store.ItemsAtLevel | backend/internal/database/operations.go:302-325 | the level listing is the root listing for `""`, the child listing for a plain path, and for any other parent the matched listing of the server's matcher; it fails exactly when that parent's pattern does not parse; every listing is sorted by path and holds only the login's items at the computed depth |
| Database.Store.InsertProduct | backend/internal/database/operations.go:14-37 | the returned product carries the arguments and a uuid new to the table; the table grows by exactly that row; the other tables do not change |
| Database.Store.GetProductByUUID | backend/internal/database/operations.go:39-62 | the result is the uuid lookup over the products (error when unreachable) |
| Database.Store.InsertRecord | backend/internal/database/operations.go:66-88 | the returned record carries the arguments, a fresh uuid and `created_at = now`; the table grows by exactly that row |
| Database.Store.GetRecordByUUID | backend/internal/database/operations.go:90-112 | the result is the uuid lookup over the records |
| Database.Store.GetRecordsByLoginAndTimeRange | backend/internal/database/operations.go:114-149 | the result is the time-window listing |
| Database.Store.GetUserPreferences | backend/internal/database/operations.go:153-173 | the stored row for the login, "no rows" when the login has none |
| Database.Store.UpsertUserNoon | backend/internal/database/operations.go:175-185 | the preferences become SetNoon of the old ones; nothing else changes |
| Database.Store.UpsertUserLang | backend/internal/database/operations.go:187-197 | the preferences become SetLang of the old ones; nothing else changes |
| Database.Store.InsertUserCommonItem | backend/internal/database/operations.go:201-224 | a non-ltree path is refused; otherwise the returned item carries the arguments, the table grows by exactly it, and it is in the login's listing |
| Database.Store.GetUserCommonItemsByLogin | backend/internal/database/operations.go:226-262 | the result is the login's listing |
| Database.Store.GetUserCommonItemsByLoginAndPath | backend/internal/database/operations.go:264-300 | the result is the lquery listing (each matching row as often as stored, ordered by path), or the connection error |
| Database.Store.GetUserCommonItemsAtLevel | backend/internal/database/operations.go:302-354 | the result is the level listing |
| Bot.Login | backend/internal/bot/handlers.go:69-72 | the login is never empty: the username when there is one, else `user_` followed by the id's decimal text |
| Bot.FallbackLoginHoldsId | backend/internal/bot/handlers.go:71 | the text after `user_` is the canonical decimal text of the sender id (no plus sign, a minus sign only for a negative id, no leading zero) and parses back to it |
| Bot.ParseDays | backend/internal/bot/handlers.go:58-67 | no argument means 1 day; otherwise the first argument is accepted exactly when `Atoi` accepts it and the value is positive, and the count is that value |
| Bot.ParseDaysAccepts | backend/internal/bot/handlers.go:61-66 | every positive day count, written in decimal, is accepted as itself |
| Bot.ParseDaysRejectsNonPositive | backend/internal/bot/handlers.go:64 | zero and negative counts are refused |
| Bot.ParseDaysRejectsMalformed | backend/internal/bot/handlers.go:63-64 | text that is not a decimal integer is refused |
| Bot.ParseDaysRejectsTooLarge | backend/internal/bot/handlers.go:63-64 | a count beyond int64 is refused |
| Bot.WindowStart | backend/internal/bot/handlers.go:74-75 | the window starts exactly `days` times 24 hours before now |
| Bot.WindowStartAsWritten | backend/internal/bot/handlers.go:75 | the source's start: now plus the int64-wrapped product `-days * 24 * hour`, an offset within int64 |
| Bot.WindowStartAgrees | backend/internal/bot/handlers.go:75 | up to 106751 days the int64 computation equals the intended start |
| Bot.WindowStartWrapsAt106752 | backend/internal/bot/handlers.go:75 | at 106752 days the int64 computation puts the start about 292 years after now |
| Bot.WrappedWindowIsEmpty | backend/internal/bot/handlers.go:75-85 | with that start, the time-range query returns nothing |
| Bot.NoRecordsText | backend/internal/bot/handlers.go:83-85 | the reply for an empty window, with the day count in decimal |
| Bot.Truncated | backend/internal/bot/handlers.go:110-112 | the name is cut to its first 15 bytes, or kept when shorter |
| Bot.CenteredName | backend/internal/bot/handlers.go:114-115 | the name column is exactly 15 wide |
| Bot.CenteredNameLayout | backend/internal/bot/handlers.go:109-115 | the truncated name sits after `(15-len)/2` blanks and before `15-len-left` blanks |
| Bot.RowOf | backend/internal/bot/handlers.go:107-117 | a record's row: its time, the truncated and centred product name, and `ccal * amount` |
| Bot.RowFor | backend/internal/bot/handlers.go:102-106 | a record yields at most one row, with the record's own time |
| Bot.HasProduct | backend/internal/bot/handlers.go:102-106 | the records whose product lookup succeeds (a definition; used by `RowsAtMostRecords`) |
| Bot.Rows | backend/internal/bot/handlers.go:99-119 | the rows the reverse loop writes, oldest first, skipping records whose product lookup fails (a definition; its meaning is `RowsAtMostRecords`, `RowsOldestFirst`, `RowsReverse` and `TotalIsEnergy`) |
| Bot.TotalKcal | backend/internal/bot/handlers.go:98 | the running total of the rows' kcal (a definition; its meaning is `TotalIsEnergy`) |
| Bot.Energy | backend/internal/bot/handlers.go:117-118 | the independent reference sum of `ccal * amount` over the records whose product exists (a definition; compared with TotalKcal in `TotalIsEnergy`) |
| Bot.SkipStep | backend/internal/bot/handlers.go:102-106 | a record whose product lookup fails adds no row (`continue`) |
| Bot.KeepStep | backend/internal/bot/handlers.go:102-117 | a successful product lookup means the server was reachable, and that record's row comes after the rows of the older records |
| Bot.RowsAtMostRecords | backend/internal/bot/handlers.go:99-119 | there are exactly as many rows as records whose product lookup succeeds, so never more rows than records |
| Bot.TotalIsEnergy | backend/internal/bot/handlers.go:102-118 | the total is the sum of `ccal * amount` over the records whose product exists; skipped records add nothing |
| Bot.RowsOldestFirst | backend/internal/bot/handlers.go:99-100 | newest-first records give rows that are oldest first |
| Bot.AllResolvedMeans | backend/internal/bot/handlers.go:102-106 | the recursive test that every record's product exists holds exactly when each record's lookup succeeds |
| Bot.RowsResolvedLength | backend/internal/bot/handlers.go:99-117 | when every product exists, the report has one row per record |
| Bot.RowsReverse | backend/internal/bot/handlers.go:99-117 | when every product exists, `RowFromEnd` holds: there is one row per record, and row k is the record k places from the end with kcal `ccal * amount` |
| Bot.HeaderNamesToday | backend/internal/bot/handlers.go:88-92 | the header is "Today's records" exactly for a one-day window |
| Bot.TotalOnlyForOneDay | backend/internal/bot/handlers.go:124-128 | a one-day report ends with the total line; any other report ends with the table |
| Bot.Header | backend/internal/bot/handlers.go:88-92 | the header: "Today's records" for one day, else the day count |
| Bot.Line | backend/internal/bot/handlers.go:120 | one table line: time, name and `%-4d` energy separated by `│` |
| Bot.Lines | backend/internal/bot/handlers.go:99-119 | the table lines of the rows, in row order (its meaning is `LinesSnoc`) |
| Bot.TotalLine | backend/internal/bot/handlers.go:124-126 | the total line |
| Bot.ReportText | backend/internal/bot/handlers.go:87-127 | the whole report: header, table head and rule, the lines, and the total only for one day |
| Bot.WriteReport | backend/internal/bot/handlers.go:87-128 | the reverse loop produces the report of the rows of the records and their running total |
| Bot.HandleGet | backend/internal/bot/handlers.go:57-131 | an invalid day count is refused before any query; a failed query gives the error text; no records gives "No records found for the last N days"; otherwise the report of the window |
| Bot.Macro | backend/internal/bot/handlers.go:146-167 | an absent macro is 0; a present one is accepted exactly when it parses to a non-negative int64, and is then that number; a refusal carries the macro's own message |
| Bot.ValidCcal | backend/internal/bot/handlers.go:141-142 | an energy argument /record accepts: it parses as an int64 and is positive (a definition; used by `ParseRecordArgs`) |
| Bot.ParseRecordArgs | backend/internal/bot/handlers.go:134-167 | fewer than two arguments give the usage text; otherwise the arguments are accepted exactly when the kcal parses and is positive and every present macro parses and is non-negative; the product is the name and the parsed numbers; a refusal gives the message of the first argument that fails, in the order kcal, proteins, fats, carbs |
| Bot.RecordArgsRoundTrip | backend/internal/bot/handlers.go:139-167 | five printed valid values are read back as the same product |
| Bot.RecordArgsAccepted | backend/internal/bot/handlers.go:134-167 | five arguments whose numbers parse within bounds give the product they denote |
| Bot.RecordArgsDefaultMacros | backend/internal/bot/handlers.go:146-167 | without macro arguments the macros are 0 |
| Bot.RecordArgsRejectNonPositiveCcal | backend/internal/bot/handlers.go:141-144 | a kcal of zero or less is refused with the calories message |
| Bot.RecordArgsRejectNegativeProteins | backend/internal/bot/handlers.go:148-153 | a negative protein amount is refused with the proteins message |
| Bot.RecordArgsRejectMalformedCcal | backend/internal/bot/handlers.go:141-144 | a kcal that is not a decimal integer is refused with the calories message |
| Bot.RecordArgsRejectBadFats | backend/internal/bot/handlers.go:155-160 | a malformed or negative fats amount after valid earlier arguments is refused with the fats message |
| Bot.RecordArgsRejectBadCarbs | backend/internal/bot/handlers.go:162-167 | a malformed or negative carbs amount after valid earlier arguments is refused with the carbs message |
| Bot.HandleRecord | backend/internal/bot/handlers.go:133-188 | on valid arguments, with the server reachable (which the handler does not change), it appends one product with the given values and one record of it with amount 1, the sender's login and time now; on invalid arguments, or with the server unreachable from the start, it changes nothing |
| Bot.ParseLang | backend/internal/bot/handlers.go:217-225 | a language is accepted exactly when it is "ru" or "en" |
| Bot.HandleSetLang | backend/internal/bot/handlers.go:216-239 | with the server reachable (which the handler does not change), an accepted language is upserted for the sender; a refused one, or an unreachable server, changes nothing |
| Bot.HandleSetNoon | backend/internal/bot/handlers.go:190-214 | with the server reachable (which the handler does not change), a clock time that parses is upserted for the sender; otherwise nothing changes |
| Menu.StripControl | backend/internal/bot/handlers/main_menu.go:38-40 | one leading byte below 32 is dropped, and only one |
| Menu.CallbackData | backend/internal/bot/handlers/main_menu.go:38-40 | the data Telegram sends for a button token: a form feed, then the token (a definition; used by `NavigationRoundTrip`) |
| Menu.Dispatch | backend/internal/bot/handlers/main_menu.go:44-55 | cleaned data starting with `nav:` navigates, with `add:` is the add action, and anything else is unknown |
| Menu.NavigationPath | backend/internal/bot/handlers/main_menu.go:63-73 | a path exists exactly when the cleaned data starts with `nav:`; the cleaned data is then `nav:` plus that path |
| Menu.NavigationRoundTrip | backend/internal/bot/handlers/main_menu.go:73 | decoding the token `nav:` + p, with or without Telegram's form feed, navigates to exactly p |
| Menu.AddRoundTrip | backend/internal/bot/handlers/main_menu.go:49-51 | an `add:` token is the add action |
| Menu.SecondControlByteIsKept | backend/internal/bot/handlers/main_menu.go:38-40 | after two control bytes, data is neither navigation nor add |
| Menu.NavigateHasPath | backend/internal/bot/handlers/main_menu.go:44-46 | data that the dispatcher sends to navigation always has a path, so "Invalid action" is unreachable from the dispatcher |
| Menu.Icon | backend/internal/bot/handlers/main_menu.go:94-97 | the item icon: a plate for an item tied to a product, else a folder |
| Menu.ItemButton | backend/internal/bot/handlers/main_menu.go:99-101 | an item's button: icon and name, navigating to `nav:` + its path |
| Menu.AddButton | backend/internal/bot/handlers/main_menu.go:104-105 | the add button, carrying `add:` + the parent path |
| Menu.BackButton | backend/internal/bot/handlers/main_menu.go:107-114 | the back button, navigating to `nav:` + the back path |
| Menu.Title | backend/internal/bot/handlers/main_menu.go:119-126 | the title: "Locations" at the root, else the path, with the empty hint when there are no items |
| Menu.IsLevelScreen | backend/internal/bot/handlers/main_menu.go:90-126 | a level screen: the title, one item button per item in order, the add button, then the back button below the root |
| Menu.Listing | backend/internal/bot/handlers/main_menu.go:84-88 | the level query as the handler sees it: the level listing, or the connection error when the server is unreachable (a definition; used by `ShowLocationsLevel`) |
| Menu.LevelKeyboard | backend/internal/bot/handlers/main_menu.go:90-126 | the keyboard has one item button per listed item in listing order, then the add button, then the back button below the root; the title depends on root and emptiness |
| Menu.ShowLocationsLevel | backend/internal/bot/handlers/main_menu.go:78-134 | a failed listing gives "Error loading items"; otherwise the keyboard of the sender's items at that level |
| Menu.HandleLocationsCallback | backend/internal/bot/handlers/main_menu.go:58-60 | the Locations button shows the root level |
| Menu.HandleNavigationCallback | backend/internal/bot/handlers/main_menu.go:62-76 | data without `nav:` gives "Invalid action"; otherwise the level of the decoded path |
| Menu.HandleCallback | backend/internal/bot/handlers/main_menu.go:35-56 | `add:` answers "coming soon"; unknown data answers "Unknown action"; `nav:` shows the decoded level |
| Menu.ItemButtonsLeadToChildren | backend/internal/bot/handlers/main_menu.go:93-101 | each item button of a listed level navigates to that item's own path, which is one label at the root and a child of the parent below it |
| Menu.BackLeadsToParent | backend/internal/bot/handlers/main_menu.go:107-114 | below the top level, the back button navigates to the non-empty parent path |
| Menu.BackFromTopLevelLeadsToRoot | backend/internal/bot/handlers/main_menu.go:109-113 | from a top-level path, the back button navigates to the root |
| Menu.OnlyAddButtonAdds | backend/internal/bot/handlers/main_menu.go:93-115 | on a level screen, exactly the button after the items carries the add action |

## Left out

- HandleStart and HandleHelp are not modelled: they only send fixed texts. HandleMenu's fixed screen is the constant `Menu.MAIN_MENU`, with no contract.
- HandlePing is not modelled. It depends on `GetLatestSchemaVersion`, which is not part of this model.
- Telegram transport is not modelled: `Send`/`Edit`/`Respond`, the Edit→Send fallback, HTML parse mode, reply-markup objects and logging. A screen is a title with (caption, token) rows, or a toast text.
- Library time handling is a parameter: `time.Now`, `Format("02-01 15:04")` and `time.Parse`. The uuid text format is a parameter too.
- Bot.WriteReport: kcal and the total are unbounded integers. The int64 overflow of `Ccal*Amount` and of the running total is not modelled.
- Database.ErrorText: only "sql: no rows in result set" is the driver's real text. The texts for connection and syntax errors are stand-ins.
- Bot.HandleRecord: a failure between its two writes is not modelled. In the source, `InsertRecord` can fail after `InsertProduct` has succeeded; the product then stays in the table without a record, and the reply is "❌ Error creating record: " and the error text. Reachability is fixed for the whole handler here, so that branch cannot be taken and no contract describes it.
- Driver, scan and `rows.Err()` failures are one abstract failure, `Store.online == false`. A failure in the middle of a scan is not modelled separately.
- Uniqueness conflicts on item paths and concurrent requests are outside the model.
- Database.Store.ItemsMatching: general lquery matching is an uninterpreted matcher (`Store.lquery`). Only `P.*{1}` under a plain path P is modelled concretely; a store is built only with a matcher that agrees with it there (`Database.MatcherAgrees`, required by the constructor). The matcher also decides the level listing under a parent that is not a valid ltree.
- Relational.OrderBy: `ORDER BY` is a stable insertion sort. The server may order tied rows (equal `created_at` or equal paths) differently; the contracts state only sortedness and multiplicity.
- Ltree.IsLabel: labels are ASCII letters, digits, `_` and `-`. PostgreSQL's limits on label length and count, and non-ASCII letters, are not modelled.
- GetUserPreferences' NULL columns are Option values; the SQL NULL / zero-value distinction in Go scanning is not modelled.
- Bot.HandleGet uses the intended window start (`Bot.WindowStart`). The as-written start, for day counts of 106752 and more, is modelled only by `Bot.WindowStartAsWritten` and its lemmas.

## Findings

| source | as written | input that shows it | evidently intended | confidence | as-written member | corrected member |
|---|---|---|---|---|---|---|
| backend/internal/bot/handlers.go:75 | `endTime.Add(-time.Duration(days) * 24 * time.Hour)` multiplies in int64 nanoseconds, which overflows for days ≥ 106752 | `/get 106752`: the duration wraps to about +292 years, so the window starts after now and the reply is "No records found for the last 106752 days" | the window starts `days` × 24 h before now (or very large day counts are refused) | not executed | Bot.WindowStartAsWritten, Bot.WindowStartWrapsAt106752 | Bot.WindowStart |
