# InvoiceHelper core in Dafny

InvoiceHelper reads a supplier's license invoice and splits its cost across
the organisation. This project models the business logic of the
`InvoiceHelper` class (`src/main.py`) once the invoice text, the Power BI
user roster and the project-settings table are in memory:

- **Project settings** (`settings.dfy`, module `ProjectSettings`):
  - `get_project_settings` strips a `P.` prefix from the project id.
  - It looks the id up in the settings table, whose ProjektID column was normalised the same way when it was loaded.
  - Without a table row it falls back to the three built-in project defaults, or to a generic record.
- **License extraction** (`numbers.dfy`, `licenses.dfy`; modules `Numbers`, `Licenses`):
  - `parse_license_info` searches the text once per license type, in the order of its pattern table.
  - It reads quantity, unit price and total from the first matching invoice line.
  - It turns each Swedish-format number ("1 234,50") into a value.
  - It fails on an unparsable number or when no type matched.
- **Roster** (`roster.dfy`, module `Roster`):
  - The users who are not automation accounts.
  - Their RG groups in pandas `groupby` key order.
  - The (RG, Namn) sort of the users.
- **Allocation** (`allocation.dfy`, module `Allocation`): `generate_accounting_rows` builds, in order:
  - one Power BI row per RG;
  - the automation project row;
  - the Microsoft 365 project row;
  - the Teams Rooms project row, when that license is on the invoice.
- **Validation** (`validation.dfy`, module `Validation`):
  - `validate_accounting_rows` looks up the three project rows with `next(...)`.
  - It checks the grand total and the three project amounts against the license map, within ±0.02.
- **Invoice comment** (`comment.dfy`, module `InvoiceComment`): `generate_invoice_comment` writes two sections:
  - the non-automation users sorted by RG and name;
  - one line per receiver, listing that receiver's licenses, in the insertion order of a dict.

`strings.dfy` holds Python's `str.startswith`, `str.replace`, `str.join` and
string ordering; `wrappers.dfy` holds `Option` and `Result`.

Imperative source functions are methods with loops proved equal to a
specification function:
- `Licenses.ParseLicenseInfo`;
- `Allocation.GenerateAccountingRows`;
- `InvoiceComment.GenerateInvoiceComment` and its helpers.

What the source promises is proved as lemmas about those functions.
Amounts are exact `real`s.

Four facts about the code that the model keeps:
- Extraction keeps only the first line of each type (`re.search`). Several lines of one type are not merged.
- The validator's total check compares the rows' sum with the sum of the license totals. There is no separate invoice grand total.
- The RG sum is only logged; no check uses it.
- The automation and Microsoft 365 rows are always emitted, even with Netto 0.

## Model

| member | source | states |
|---|---|---|
| ProjectSettings.Resolve | src/main.py:65-107 | Kon/Proj is always `"P."` followed by the id with its `P.` removed, so it starts with `P.` |
| ProjectSettings.ResolveFromTable | src/main.py:102-107 | when the first table row with the normalised id is row k, Aktivitet, ProjKat and Mottagare are row k's |
| ProjectSettings.ResolveWithoutRow | src/main.py:72-100 | without a table row: the fixed defaults for 20257601 (Aktivitet 050), 20257407 and 20257403; otherwise Aktivitet 738, ProjKat 5420, Mottagare "Okänd mottagare" |
| ProjectSettings.ResolvedIsNeverRgMarker | src/main.py:65-107 | a resolved Kon/Proj is never the RG marker "5420" |
| ProjectSettings.BucketKonProj | src/main.py:65-107 | the three project ids resolve to Kon/Proj P.20257601, P.20257407 and P.20257403 whatever the table holds |
| ProjectSettings.NormaliseId | src/main.py:68 | an id without the `P.` prefix is left as it is; a prefixed id loses at least the two prefix characters |
| ProjectSettings.NormaliseTable | src/main.py:50-52 | loading keeps every row and its order, normalises the ProjektID of each row and leaves its other fields unchanged |
| ProjectSettings.FindIndex | src/main.py:70 | the lookup returns the first row whose ProjektID equals the id, and returns none only when no row has that id |
| ProjectSettings.RawIdentifierIsFound | src/main.py:50-52 | after the table is normalised on loading, every row is found by the normalised form of its own raw ProjektID |
| ProjectSettings.PrefixIsOptional | src/main.py:68 | an id with no `P.` in it is found the same way with or without the prefix |
| ProjectSettings.InnerPrefixRemoved | src/main.py:68 | `replace` removes every `P.`, not only the leading one: "P.12P.3" becomes "123" |
| Numbers.NormaliseIsCleaned | src/main.py:151-153 | the two `replace` calls drop every space and turn every comma into a dot, leaving all other characters in order |
| Numbers.CleanedHasNoSpaceOrComma | src/main.py:151-153 | a normalised number contains no space and no comma |
| Numbers.ParseNumber | src/main.py:151-153 | `float(tok.replace(' ', '').replace(',', '.'))` succeeds exactly when the normalised token is a well-formed decimal, and never yields a negative value |
| Numbers.ParseDecimal | src/main.py:151-153 | `float()` succeeds exactly on digits with at most one dot and at least one digit, and yields a non-negative value |
| Numbers.ParseSwedishNumber | src/main.py:151-153 | digits, spaces as thousands separator, more digits, comma, decimals reads as the digits before the comma followed by the decimals |
| Numbers.ParseExample | src/main.py:151-153 | "1 234,50" parses to 1234.50 |
| Numbers.ThousandsCommaRejected | src/main.py:151-153 | a comma used as thousands separator makes `float()` fail |
| Licenses.CapturedQuantityParses | src/main.py:134-142 | on every line the recogniser `LineAt` accepts, the captured quantity converts, so only the unit price or the total can fail |
| Licenses.ExtractLicenses | src/main.py:145-166 | a successful result is never empty, and each of its values is what the search made of that type's line |
| Licenses.ParseLicenseInfo | src/main.py:145-166 | the loop over the pattern table returns exactly the extraction function's result: the map, the malformed-number error or the no-data error |
| Licenses.ReadType | src/main.py:147-159 | one iteration: no match, a match whose numbers do not all parse, or the parsed line item |
| Licenses.SearchLeftmost | src/main.py:147 | the search returns the leftmost line of the type, and returns nothing only when the text holds no such line |
| Licenses.ExtractedTypesAreMatchedTypes | src/main.py:145-162 | on success, a type is a key of the result if and only if its line shape occurs in the text |
| Licenses.ExtractReadsLeftmostLine | src/main.py:147-159 | each value holds the parsed quantity, unit price and total of the leftmost line of its type |
| Licenses.LaterTextIgnored | src/main.py:147 | text appended after a type's first line changes neither its match nor its value |
| Licenses.NoLicenseDataIffNothingMatched | src/main.py:165-166 | the "no license information" error is raised if and only if no type's line occurs |
| Licenses.MalformedNumberNamesFirstBadType | src/main.py:146-153 | a parse failure names a type whose leftmost line has an unparsable number, and every type before it in table order parsed |
| Licenses.QuantityParses | src/main.py:134-151 | every token of the quantity shape `\d+,\d+` parses |
| Licenses.AmountWithSpacesParses | src/main.py:134-153 | an amount whose only comma is the decimal comma and whose other separators are spaces parses |
| Roster.NonAutomation | src/main.py:191 | exactly the users whose Specialhantering is not "Automation", a missing tag included, each as often as it occurs in the sheet |
| Roster.NonAutomationKeepsOrder | src/main.py:191 | the filter keeps sheet order: the result is the users at ascending positions, and those are exactly the positions of non-automation users |
| Roster.AutomationCount | src/main.py:215-216 | automation and non-automation users together are all users |
| Roster.GroupKeys | src/main.py:192-194 | strictly ascending keys, and a key occurs if and only if some non-automation user has that RG |
| Roster.GroupsAreNonEmpty | src/main.py:194-196 | every group has at least one user, so the `num_users > 0` guard never skips one |
| Roster.GroupsPartitionUsers | src/main.py:191-195 | the group sizes add up to the number of non-automation users |
| Roster.EveryUserCountedOnce | src/main.py:191-216 | group sizes plus automation users equal the number of users |
| Roster.SortByRgName | src/main.py:444 | the result is ordered by (RG, Namn) and is a permutation of its input |
| Allocation.GenerateAccountingRows | src/main.py:180-290 | the appending loop returns exactly the specified rows: the RG rows, then the automation, Microsoft 365 and optional Teams Rooms rows |
| Allocation.Rows | src/main.py:184-286 | there are the RG rows plus two project rows, plus one more when Teams Rooms is licensed |
| Allocation.RgPartPerGroup | src/main.py:186-207 | without Power BI there are no RG rows; with it, one row per RG key in key order, holding that group's size times the unit price |
| Allocation.RowsOrder | src/main.py:184-286 | the row count is the RG rows plus 2 plus one for Teams Rooms, and a row has Kon/Proj "5420" exactly when it is an RG row |
| Allocation.ProjectRows | src/main.py:210-284 | after the RG rows come P.20257601 with the automation amount and P.20257407 with the Microsoft 365 amount, and, when Teams Rooms is present, a last row P.20257403 with its total |
| Allocation.EveryRowApproved | src/main.py:197-282 | every row is approved by John Munthe |
| Allocation.RgPartCharge | src/main.py:187-207 | the RG rows together charge the non-automation users at the Power BI unit price |
| Allocation.PowerBiConserved | src/main.py:187-218 | the RG rows and the automation row's Power BI part together charge every user once |
| Allocation.NettoConserved | src/main.py:184-286 | the rows' Netto sum equals all users at the Power BI unit price plus every other license total on the invoice |
| Allocation.TimesIsProduct | src/main.py:204 | the repeated-addition charge equals the number of users times the unit price |
| Validation.Compare | src/main.py:386 | a check passes if and only if the difference is within ±0.02, inclusive |
| Validation.FirstWithKonProj | src/main.py:342 | `next(...)` returns the first row with that Kon/Proj, and finds none only when no row has it |
| Validation.ExpectedAutomation | src/main.py:395-401 | the automation amount the validator expects is exactly the amount the generator puts on the automation row |
| Validation.Validate | src/main.py:328-431 | the validator raises if and only if one of the three project rows is missing, and names the first one missing in lookup order; otherwise the total check passes exactly when the rows' sum is within 0.02 of the license totals, and each project check passes exactly when the Netto of the row `next(...)` found is within 0.02 of that project's expected amount |
| Validation.LookupsOnGenerated | src/main.py:342-373 | on generated rows the lookups find the automation and Microsoft 365 rows right after the RG rows, and find the Teams Rooms row only when that license is present |
| Validation.ValidateRaisesWithoutTeamsRooms | src/main.py:373 | on generated rows the validator raises if and only if Teams Rooms is absent, and then it names P.20257403 |
| Validation.GeneratedBucketChecksPass | src/main.py:393-425 | on generated rows with Teams Rooms, the automation, Microsoft 365 and Teams Rooms checks all pass |
| Validation.GeneratedTotalCheck | src/main.py:379-389 | on generated rows the total check passes if and only if there is no Power BI line, or all users times its unit price is within 0.02 of its invoiced total |
| Validation.GeneratedRgTotal | src/main.py:334 | the logged RG sum of generated rows charges the non-automation users at the unit price |
| Validation.ValidateCorrected | src/main.py:421 | the corrected validator never raises; its total check passes if and only if the rows' sum is within 0.02 of the license totals, and each project check passes exactly when the first row of that project, or 0 when there is none, is within 0.02 of the expected amount |
| Validation.CorrectedAcceptsGenerated | src/main.py:372-425 | with the correction, the three project checks pass on generated rows, with or without Teams Rooms |
| Validation.CorrectedAgreesWhenRowsPresent | src/main.py:372-425 | when all three project rows are present, the corrected validator reports what the original one reports |
| InvoiceComment.GenerateInvoiceComment | src/main.py:433-512 | the comment is section 1 followed by one line per receiver, joined by newlines |
| InvoiceComment.ListPowerBiUsers | src/main.py:440-449 | builds section 1 |
| InvoiceComment.WriteUserLines | src/main.py:448-449 | the `iterrows` loop writes one `Namn\tRG:Kostnadsställe` line per user, in the given order |
| InvoiceComment.Section1Lists | src/main.py:441-449 | section 1 is empty if and only if every user is an automation user; otherwise it is the header once, then one `Namn\tRG:Kostnadsställe` line per non-automation user in (RG, Namn) order |
| InvoiceComment.AutomationNamesContent | src/main.py:458-468 | "Power BI Pro (Mattias)" is listed if and only if automation users exist, even without a Power BI line, and then comes last; the list is empty exactly when there is nothing to list |
| InvoiceComment.Ms365NamesContent | src/main.py:479-487 | the Microsoft 365 entry is made exactly when Teams EEA, Copilot or MS 365 E3 EEA is on the invoice |
| InvoiceComment.ReceiversAgreeWithSettings | src/main.py:470-501 | the receivers the comment uses are the Mottagare that the project-settings lookup gives for the three projects |
| InvoiceComment.GroupByReceiver | src/main.py:455-506 | builds the receiver dict as specified |
| InvoiceComment.SharedReceiverOverwrites | src/main.py:476-493 | when Microsoft 365 resolves to the automation receiver, its assignment replaces the automation list, and no automation license appears in section 2 |
| InvoiceComment.TeamsRoomsEntry | src/main.py:496-506 | Teams Rooms is appended to its receiver's existing list, or else added as a new last entry; the other entries are unchanged |
| InvoiceComment.ReceiversInFirstInsertionOrder | src/main.py:455-510 | the receiver lines follow the order in which receivers were first inserted, each receiver once |
| InvoiceComment.GroupLicenses | src/main.py:455-506 | the dict's key order lists each receiver once, and a receiver has a license list exactly when it is in that order |
| InvoiceComment.WriteReceiverLines | src/main.py:509-510 | one `\nTill <receiver> licenser för <names>` line per receiver, in dict order |

## Left out

- OCR: `extract_text_from_pdf` wraps pdf2image and pytesseract, which are foreign libraries.
- The invoice text is given as a sequence of whitespace-separated tokens.
- Excel and JSON I/O: `pd.read_excel`, `save_to_excel`, `save_backup` and `_convert_to_serializable`. The two tables are passed in as sequences.
- Logging, `datetime.now()` timestamps, `process_invoice` and `main()`: file dialogs and file-name plumbing.
- Licenses.LineAt: the invoice-line recogniser works on tokens, not as a regular-expression engine over characters.
  - `\s+` is a token boundary, so a line broken inside a word is not matched.
  - `re.IGNORECASE` is modelled as ASCII case folding of the literal words.
  - An amount that holds a space is one token.
  - Digits and whitespace are ASCII only. Python's `\d` and `\s` also match Unicode digits and whitespace such as U+00A0.
  - A single literal space in a pattern, as in "CSP -Power BI Pro", matches any run of whitespace. So "CSP" and "-Power" on separate lines match here but not in the source.
- Floating point: amounts are exact reals.
  - `round(..., 2)` in `generate_accounting_rows` is left out, so the bucket checks pass exactly where the source could differ by rounding.
  - Allocation.Times is the charge "number of users × unit price", written as repeated addition; Allocation.TimesIsProduct proves it equals the product.
- pandas details:
  - A user's RG, Namn and Kostnadsställe are strings: NaN keys, which `groupby` drops, and numeric columns are not modelled.
  - The settings table's ProjektID is taken as text, as `astype(str)` gives it.
  - Missing columns, and the `'Mottagare' in columns` test, are taken as present.
- The relative order of users with equal (RG, Namn) is not stated: Roster.SortByRgName promises only order and permutation.
- Aliasing: line 504 appends in place to a list that may also be bound to `ms365_licenses` or `automation_licenses`. Neither is read afterwards, so the model treats the dict's lists as values.
- Validation.Validate: the log messages are not modelled. The checks' results are returned in a report instead of only being logged.

## Findings

| source | as written | input that shows it | evidently intended | confidence | as-written member | corrected member |
|---|---|---|---|---|---|---|
| src/main.py:373 | `next(...)` without a default looks up the P.20257403 row, which `generate_accounting_rows` emits only when Teams Rooms is licensed, so StopIteration is raised | any invoice without a Teams Rooms line, e.g. one with only Power BI Pro | treat a missing Teams Rooms row as Netto 0, as line 421 does with `.get('teams_rooms', {}).get('total', 0)` | not executed | Validation.ValidateRaisesWithoutTeamsRooms | Validation.CorrectedAcceptsGenerated |
