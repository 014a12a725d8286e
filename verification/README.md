# Marriott Bonvoy batch enrollment — a Dafny model

The system is a small web service. A hotel employee uploads a guest list as a
spreadsheet and picks an enrollment kind (`express` or `junior`). The service
files a task and a background worker drives one Chrome session through the
Marriott Bonvoy enrollment form, once per guest. It writes a result workbook
and keeps the task's state and a short log that the status endpoint reports.

This project models the core of that system. Each module corresponds to a
part of the two server files:

- `Common`: the part of Python's `str` behaviour the code relies on
  (`isspace`, `lower`, `split`, `strip`, `join`, slicing, `str(n)`).
- `Clock`: wall-clock readings and the three `strftime` formats the worker
  writes.
- `Eligibility`: `es_correo_valido`, the email check against the nine
  allowed domains and the task's set of processed addresses.
- `Names`: the split of a full name into the given name and the family
  name.
- `Locators`: `encontrar_elemento_inteligente` (the ordered locator list),
  `llenar_campo_inteligente` (keystrokes, a scripted fallback, then a
  read-back check) and `seleccionar_pais_inteligente` (the exact code,
  then text synonyms).
- `Extraction`: `buscar_codigo_afiliacion_inteligente`. It covers the
  bounded wait, the twelve element queries and the five regular
  expressions. Each expression is written out as a scanner over the page
  text, and calendar-year matches are filtered out.
- `Provisioning`: the candidate order of `_setup_production_chrome`. Six
  named configurations are tried first, then a dynamic search.
- `Processor`: `procesar_afiliacion` as a function of the addresses
  recorded so far (`Attempt`). It is also the method of the
  `MarriottProcessor` class, which updates that set in place.
- `Intake`: the row filter of `leer_archivo_excel`. Columns C, G and I are
  read from the fifth row on. A first pass covers rows 5 to 10, and a
  second pass covers the rest only when the first kept a row.
- `Tasks`: the in-memory task registry as a class over a `map`. It covers
  `actualizar_estado_tarea`, `agregar_log_tarea` (a log capped at twenty
  lines), the upload, status and delete endpoints, and the job an upload
  creates.
- `Batch`: `procesar_afiliaciones_background`. The worker's loop is a
  method on the shared registry and the processor. It is proved equal to
  a fold (`Run`) over the records' outcomes, and lemmas state what the
  fold guarantees.

The browser, the file system, the environment and the clock are oracles:
datatypes of functions the operations take as parameters. The same goes
for the fresh task id. `World.browserReady` stands for the result of
`setup_chrome_driver`. In production, that result is the `Ok` case of
`Provisioning.Provision`.

The model follows the code where its behaviour departs from what one
might expect of a batch enrollment service:

- An address is recorded as processed only after both the email check and
  the two-token name check pass, not as soon as the email is accepted.
- The progress percentage is truncated (`int(...)`), not rounded.
- A checkpoint save that raises counts its record a second time, as an
  error, and writes a second row for it. So at the end of a job, successes
  plus errors equal the records plus the failed saves (`CountsAddUp`),
  not the records.
- The success and error counters are written only when the job completes.
- The managed-driver fallback after the dynamic search is never reached,
  because the function raises before it.
- Once a record's outcome is known, the only exception the worker's loop
  models is a failed checkpoint save, because the processor turns every
  failure of its own into an outcome. Appending a row whose text holds a
  character the workbook refuses can also raise; that case is listed
  under "Left out".
- Closing the browser swallows every failure of its own
  (server/selenium_processor.py:734-741), so the closing line is always
  logged, also when the browser never started.

## Model

| member | source | states |
|---|---|---|
| Common.Lower | server/selenium_processor.py:394 | `lower()` keeps the length and lowers each character on its own (ASCII and Latin-1 capitals), leaving other characters alone; no ASCII capital is left |
| Common.SplitOn | server/selenium_processor.py:394 | `split('@')`: no piece holds the separator, joining the pieces with it gives the text back, and there are two or more pieces exactly when the separator occurs |
| Common.SplitOnAfter | server/selenium_processor.py:394 | splitting at a first separator yields the separator-free prefix followed by the split of the remainder |
| Common.Strip | server/main.py:243-245 | `strip()` removes exactly the leading and the trailing whitespace: what is left is the slice after the leading run, followed only by whitespace, with no whitespace at either end, and whitespace-free text is unchanged |
| Common.Words | server/selenium_processor.py:625 | `split()` yields non-empty, whitespace-free tokens that together hold every non-whitespace character in order, and nothing for blank text |
| Common.WordsCons | server/selenium_processor.py:625 | whitespace, a word and then whitespace or the end: the word is the first token, followed by the tokens of the rest, so each token is a maximal run |
| Common.Take | server/main.py:581 | `s[:100]` is a prefix of the text of length min(length, 100): the whole text when it is shorter, exactly its first hundred characters otherwise |
| Common.LastN | server/main.py:458-459 | `logs[-n:]` has min(length, n) elements and is exactly the suffix left after dropping the oldest |
| Common.NatToString | server/main.py:473 | a counter is written as a non-empty string of decimal digits |
| Common.DecimalOfNatToString | server/main.py:473 | reading a written counter back gives the counter |
| Clock.Two | server/main.py:555 | a two-digit field is two digits that read back as the field's value |
| Clock.Four | server/main.py:555 | a four-digit year is four digits that read back as the year |
| Clock.TimeOfDay | server/main.py:453 | `%H:%M:%S` is eight characters with colons at positions 2 and 5 |
| Clock.RowStamp | server/main.py:555 | `%Y-%m-%d %H:%M:%S` is nineteen characters with its five separators in place |
| Clock.RowStampAsWritten | server/main.py:582 | the critical-row format is eighteen characters long, one short of the regular stamp |
| Clock.FileStamp | server/main.py:487 | `%Y%m%d_%H%M%S` is fifteen characters with the underscore at position 8 |
| Clock.ParseRowStamp | server/main.py:555 | a stamp is read back only when it has nineteen characters and its time separators in place |
| Clock.RowStampRoundTrip | server/main.py:555 | every valid reading written as a processing date reads back as itself |
| Clock.CriticalStampUnreadable | server/main.py:582 | the date on a critical row is never readable as a processing date and always differs from the regular one |
| Clock.CriticalStampDropsColon | server/main.py:582 | the critical-row date is the regular processing date with the colon before the seconds removed |
| Eligibility.DomainOf | server/selenium_processor.py:394 | the domain taken from an address never contains `@` |
| Eligibility.DomainOfParts | server/selenium_processor.py:394 | the domain is the text between the first `@` and the next `@` (or the end), lower-cased |
| Eligibility.CheckEmail | server/selenium_processor.py:388-405 | a bad format exactly when there is no `@`; an unlisted domain exactly when the domain is outside the nine, and it names that domain; a duplicate exactly when the domain is listed and the address already processed; an accepted address is never in the processed set |
| Eligibility.UnlistedDomainRejected | server/selenium_processor.py:396-397 | an address whose domain is not listed is refused with that lower-cased domain, whatever the processed set holds |
| Eligibility.DuplicateOnceSeen | server/selenium_processor.py:399-400 | an address accepted against one set is a duplicate against any set that holds it |
| Eligibility.AcceptedThenDuplicate | server/selenium_processor.py:399-400 | after an accepted address is added to the set, the same address is refused with the duplicate message |
| Eligibility.RejectionIgnoresHistory | server/selenium_processor.py:390-397 | format and domain rejections do not depend on the processed set |
| Names.SplitFullName | server/selenium_processor.py:625-630 | refused exactly when there are fewer than two tokens; the given name is the first token, given name, a space and family name are the tokens joined by single spaces, and the family name splits back into the remaining tokens |
| Names.WordsOfStrip | server/selenium_processor.py:625 | `strip()` before `split()` does not change the tokens |
| Names.WordsOfJoin | server/selenium_processor.py:630 | joining tokens with single spaces and splitting again gives the tokens back |
| Names.SingleTokenRefused | server/selenium_processor.py:626-627 | one token surrounded by any whitespace is refused |
| Locators.Resolve | server/selenium_processor.py:444-455 | nothing is found exactly when every locator times out; a found element (or an escaping exception) comes from the first locator that did not time out |
| Locators.FindElement | server/selenium_processor.py:444-455 | the locator loop returns what `Resolve` specifies |
| Locators.FillField | server/selenium_processor.py:407-442 | a fill succeeds exactly when preparation completed, keystrokes or the scripted assignment completed, and the field reads back the intended value |
| Locators.FallbackOnlyAfterKeys | server/selenium_processor.py:421-428 | when keystrokes complete, the scripted fallback has no influence on the result |
| Locators.FirstMatching | server/selenium_processor.py:485-486 | the index of the first option whose lower-cased text contains the synonym; no earlier option contains it |
| Locators.FirstSelecting | server/selenium_processor.py:482-491 | the index of the first synonym that leads to a completed selection; no earlier synonym does |
| Locators.PickBySynonym | server/selenium_processor.py:482-491 | nothing is selected exactly when no synonym leads to a completed selection; otherwise the value is that of the first matching option of the first synonym that selects |
| Locators.ChooseCountry | server/selenium_processor.py:457-498 | the step crashes exactly when resolving the dropdown raises; a missing dropdown or unreadable options select nothing; `MX` is chosen when selecting it completes, and otherwise the value of the first synonym that selects, or nothing |
| Locators.FindOption | server/selenium_processor.py:485-489 | the options loop returns `FirstMatching` |
| Locators.SelectBySynonym | server/selenium_processor.py:482-494 | the synonym loop returns `PickBySynonym` |
| Locators.SelectCountry | server/selenium_processor.py:457-498 | the country step as implemented returns `ChooseCountry` |
| Extraction.WaitForConfirmation | server/selenium_processor.py:545-558 | the wait takes at most twenty rounds, none of the rounds before it stops show a signal, and it stops early only on a round that shows one |
| Extraction.ScanTexts | server/selenium_processor.py:579-583 | the code taken from a selector's elements is the stripped text of the first element whose stripped text is plausible, every element before it having been read; nothing exactly when there is no such element |
| Extraction.Plausible | server/selenium_processor.py:581 | a candidate text is non-empty, has at least six characters and holds a digit |
| Extraction.ScanTextsShift | server/selenium_processor.py:579-583 | an unplausible first text moves the first plausible text one place on, and keeps the code |
| Extraction.ScanTextsShiftNone | server/selenium_processor.py:579-583 | an unplausible first text followed by no plausible text leaves none at all |
| Extraction.Hit | server/selenium_processor.py:577-585 | a selector whose query raised yields nothing; otherwise the code is the scan of its texts, which is plausible |
| Extraction.ElementTier | server/selenium_processor.py:576-585 | the element tier yields the code of the first selector, in list order, that yields one; nothing exactly when no selector yields a code; any code is plausible |
| Extraction.ElementTierShift | server/selenium_processor.py:576-585 | a first selector with no hit moves the first selector with a hit one place on, and keeps its code |
| Extraction.ElementTierStep | server/selenium_processor.py:576-585 | from any selector on, the tier yields that selector's hit if it has one, and otherwise the tier of the selectors after it |
| Extraction.ScanElementTexts | server/selenium_processor.py:579-583 | the elements loop returns `ScanTexts` |
| Extraction.SearchElements | server/selenium_processor.py:576-585 | the selectors loop returns `ElementTier` |
| Extraction.MatchAt | server/selenium_processor.py:591-597 | the match of a pattern at a position is the only length the pattern can match there (`MB` and 8 to 12 digits, 10 to 12 or 9 or 8 digits between word boundaries, two capitals and 8 to 10 digits); every match ends in eight digits |
| Extraction.MatchAtExact | server/selenium_processor.py:591-597 | a length computed by a pattern's scanner is the only length the pattern matches at that position |
| Extraction.MatchFound | server/selenium_processor.py:591-597 | a match found at a position is a substring of the page that ends in eight digits |
| Extraction.LengthsCodeLike | server/selenium_processor.py:591-600 | every match length computed over the page marks a substring that ends in eight digits |
| Extraction.FindAll | server/selenium_processor.py:600 | every match found is a substring of the page that ends in eight digits |
| Extraction.Collect | server/selenium_processor.py:600 | `findall` collects nothing exactly when no position from the start on begins a match |
| Extraction.CollectSkip | server/selenium_processor.py:600 | positions where no match begins are skipped without changing the result |
| Extraction.CollectLeftmost | server/selenium_processor.py:600 | the leftmost match comes first, and the search resumes right after it |
| Extraction.CollectCodeLike | server/selenium_processor.py:600 | when every computed match ends in eight digits, so does every collected match, each a substring of the page |
| Extraction.FindAllEmpty | server/selenium_processor.py:600 | a pattern finds nothing exactly when it matches at no position of the page |
| Extraction.FindAllLeftmost | server/selenium_processor.py:600 | when the pattern first matches at `q`, the first string found is that match, and the search resumes right after it |
| Extraction.FirstNonYear | server/selenium_processor.py:602-606 | the first match that does not start like a year; nothing exactly when every match starts like one |
| Extraction.YearLike | server/selenium_processor.py:604 | a match is taken for a date when it starts with `19` or `20` followed by two digits |
| Extraction.PatternTierFrom | server/selenium_processor.py:599-606 | the code is the first non-year match of the first pattern, in list order, that has one; nothing exactly when no pattern has one; a code is a year-free substring of the page ending in eight digits |
| Extraction.PatternTierShift | server/selenium_processor.py:599-606 | a first pattern with no non-year match moves the first yielding pattern one place on, and keeps its code |
| Extraction.PatternTier | server/selenium_processor.py:587-606 | the same for the five patterns in their order: the first non-year match of the first pattern that has one, nothing exactly when none has |
| Extraction.FirstNonYearMatch | server/selenium_processor.py:602-606 | the matches loop returns `FirstNonYear` |
| Extraction.SearchPatterns | server/selenium_processor.py:599-606 | the patterns loop over any pattern list returns `PatternTierFrom` of it |
| Extraction.ExtractCode | server/selenium_processor.py:540-612 | the element tier's code when it has one, otherwise the pattern tier's code on the readable page source; nothing exactly when both tiers yield nothing; a code has at least six characters and a digit |
| Extraction.FindConfirmationCode | server/selenium_processor.py:540-612 | the wait, the element tier and the pattern tier as implemented return `ExtractCode` |
| Extraction.FewDigitsNoCode | server/selenium_processor.py:591-597 | a page with fewer than eight digits in all yields no code from the patterns |
| Extraction.FewDigitsNoMatches | server/selenium_processor.py:591-600 | no pattern matches anywhere in a text with fewer than eight digits |
| Extraction.YearOnlyPageGivesNothing | server/selenium_processor.py:591-606 | a digit-free text followed by a four-character year yields no code |
| Extraction.MbCodeFound | server/selenium_processor.py:592 | a page that is `MB` followed by eight to twelve digits yields exactly that text |
| Provisioning.Configs | server/selenium_processor.py:79-116 | six configurations; the third takes its paths from `CHROME_BIN` and `CHROMEDRIVER_PATH` with their defaults |
| Provisioning.FirstUsable | server/selenium_processor.py:118-150 | nothing exactly when no configuration is usable; otherwise the paths of a usable configuration with none usable before it |
| Provisioning.FirstExisting | server/selenium_processor.py:164-182 | the index of the first existing path; none before it exists |
| Provisioning.DynamicSearch | server/selenium_processor.py:152-195 | the search finds a pair exactly when both lists have an existing path and the first existing browser starts with the first existing driver, and then it is that pair; its files exist and it comes from the two search lists |
| Provisioning.Provision | server/selenium_processor.py:74-197 | a usable configuration always wins; with none, the dynamic search's pair is used; set-up fails, with the critical message, exactly when both find nothing; a started session's files exist |
| Provisioning.FindExisting | server/selenium_processor.py:165-168 | the search loop returns `FirstExisting` |
| Provisioning.SetupProductionChrome | server/selenium_processor.py:74-197 | the set-up as implemented returns `Provision` |
| Provisioning.EarliestUsableWins | server/selenium_processor.py:118-146 | the earliest usable configuration is the one started |
| Provisioning.DynamicPairsIndependently | server/selenium_processor.py:156-192 | the dynamic search can start a browser/driver pair that no configuration lists |
| Processor.AffiliationUrl | server/selenium_processor.py:16-19 | a page exists exactly for the kinds `express` and `junior` |
| Processor.FillStep | server/selenium_processor.py:652-680 | a field step is done exactly when its element is found and filled; it throws exactly when resolving raises; otherwise it reports its own message |
| Processor.SubmitStep | server/selenium_processor.py:692-709 | the submit step is refused, with the button message, exactly when no locator finds the button; it is done exactly when the button is found and the scripted click or, failing that, the native click completes |
| Processor.FillFields | server/selenium_processor.py:652-680 | the first of the given name, the family name and the email that cannot be filled stops the form with that field's message; done exactly when all three are filled |
| Processor.FillForm | server/selenium_processor.py:636-709 | the form is submitted exactly when the kind has a page, the page and form wait do not raise, the three fields are filled, the country step does not crash and the button is clicked |
| Processor.OnPage | server/selenium_processor.py:713-732 | success exactly when the form is submitted and a code is found, with that code and the guest's data; an exception gives the "Error procesando" message with the guest's name, a refused step gives that step's message, and a submitted form without a code gives the not-found message |
| Processor.Attempt | server/selenium_processor.py:614-732 | a rejected email or a one-token name fails with its message; success exactly when the address is recorded, the form is submitted and a code is found; a success carries the code (at least six characters) for an address not yet processed |
| Processor.FillFieldAt | server/selenium_processor.py:658-660 | the field step as implemented returns `FillStep` |
| Processor.FillFieldsAt | server/selenium_processor.py:652-680 | the three field steps as implemented return `FillFields` |
| Processor.ClickSubmit | server/selenium_processor.py:699-709 | the submit step as implemented returns `SubmitStep` |
| Processor.RunForm | server/selenium_processor.py:636-709 | the form as implemented returns `FillForm` |
| Processor.MarriottProcessor.constructor | server/selenium_processor.py:29-34 | a processor starts with the lower-cased kind and an empty processed set |
| Processor.MarriottProcessor.EmailVerdict | server/selenium_processor.py:388-405 | an accepted address is not in the processor's set; a duplicate exactly when the domain is listed and the address is in it |
| Processor.MarriottProcessor.Process | server/selenium_processor.py:614-732 | returns `Attempt` against the old set; adds the address when the email and name checks pass and leaves the set unchanged when they do not, however the browser steps end |
| Processor.Enroll | server/selenium_processor.py:636-732 | the browser part of an attempt as implemented returns `OnPage` |
| Processor.AttemptOnPage | server/selenium_processor.py:614-633 | an attempt that records its address goes on to the page |
| Processor.RefusedBeforeBrowser | server/selenium_processor.py:619-630 | an attempt that does not record its address fails whatever the kind and the page |
| Processor.RecordedThenDuplicate | server/selenium_processor.py:632-633 | after an attempt records its address, any attempt with that address is refused as a duplicate |
| Processor.OneTokenNameRefused | server/selenium_processor.py:624-627 | an accepted email with a one-token name fails with the name message |
| Processor.MissingButtonReported | server/selenium_processor.py:699-701 | a button that no locator finds is reported as missing |
| Intake.PlaceholderIsLowerWord | server/main.py:248 | the placeholder test is exactly "the lower-cased text is `nan`, `none` or empty" |
| Intake.KeepFirstPass | server/main.py:248-254 | a row of rows 5 to 10 is kept when its name is neither empty nor a placeholder and its email is neither empty nor a placeholder and holds `@` |
| Intake.KeepLaterPass | server/main.py:285 | a later row is kept when its name is neither empty nor a placeholder and its email is non-empty and holds `@` |
| Intake.RecordAt | server/main.py:236-261 | a record carries its 1-based row number, the stripped reservation (`N/A` when missing), the stripped name and the stripped, lower-cased email (empty when missing) |
| Intake.FiltersAgree | server/main.py:252 | the first-pass and later-pass filters accept the same rows, because an address holding `@` is never a placeholder |
| Intake.Cleaned | server/main.py:243-245 | one cleaned record per row, numbered by row |
| Intake.Kept | server/main.py:231-267 | a pass keeps at most its rows, in row order, each within the pass, passing the filter and equal to the cleaned record of its row |
| Intake.ChainSpan | server/main.py:286 | records of consecutive passes, each in row order within its rows, stay in row order when the second follows the first |
| Intake.Gathered | server/main.py:231-286 | the records of both passes are in row order within the data rows |
| Intake.ReadSheet | server/main.py:155-306 | too few rows or columns give their errors; otherwise the records are the first pass, followed by the second pass only when the first kept a row and there are more than ten rows, and no records is an error |
| Intake.ScanRows | server/main.py:231-267 | a pass as implemented returns `Kept` and counts it |
| Intake.ReadRecords | server/main.py:155-306 | the reader as implemented returns `ReadSheet` |
| Intake.KeptComplete | server/main.py:231-267 | every row of a pass that passes the filter is kept |
| Intake.KeptNone | server/main.py:231-267 | a pass over rows that all fail the filter keeps nothing |
| Intake.KeptExactly | server/main.py:231-267 | a row of a pass is kept exactly when it passes the filter, and every kept record is the cleaned record of a row of the pass |
| Intake.KeptMember | server/main.py:231-267 | a row of a pass is kept exactly when it passes the filter |
| Intake.KeptFromRow | server/main.py:231-267 | every kept record is the cleaned record of a row within the pass |
| Intake.LaterRowsNeedAnEarlyOne | server/main.py:269-300 | with no valid row among rows 5 to 10 the upload is refused, whatever later rows hold |
| Intake.EarlyValidRowRead | server/main.py:231-263 | a valid row among rows 5 to 10 is always read |
| Intake.LaterValidRowRead | server/main.py:269-286 | with a valid row among rows 5 to 10, a valid later row is read too |
| Tasks.StatusName | server/main.py:135 | a status is reported as `pending`, `processing`, `completed` or `error` |
| Tasks.StatusNamesDistinct | server/main.py:135 | distinct statuses have distinct names |
| Tasks.ApplyPatch | server/main.py:443-448 | every named field takes its new value, every other field is kept, and the update time is refreshed |
| Tasks.PatchIdempotent | server/main.py:446-448 | repeating an update changes nothing |
| Tasks.EmptyPatchTouches | server/main.py:448 | an update with no fields only refreshes the update time |
| Tasks.LogLine | server/main.py:453-454 | a log line is the bracketed time of day, a space and the message |
| Tasks.PushLog | server/main.py:455-459 | the new line is last, the log grows by one below twenty lines and stays at twenty otherwise, and it is a suffix of the old log plus the line |
| Tasks.LogIsWindow | server/main.py:455-459 | after any sequence of lines, the log is exactly the last twenty lines ever logged |
| Tasks.PushFew | server/main.py:455-459 | logging one or two lines through the list form equals logging them one at a time |
| Tasks.PushAllCons | server/main.py:455-459 | logging a line and then a list equals logging the line-prefixed list |
| Tasks.PushAllAppend | server/main.py:455-459 | logging two lists one after the other equals logging them joined |
| Tasks.WindowOfWindow | server/main.py:455-459 | trimming to twenty lines before adding more lines and trimming again is the same as trimming once at the end |
| Tasks.Patched | server/main.py:443-448 | only the named task changes, and an unknown id changes nothing |
| Tasks.Logged | server/main.py:450-459 | only the named task's log changes, and an unknown id changes nothing |
| Tasks.PatchedConsistent | server/main.py:443-448 | updates keep every task filed under its own id with a log within the limit |
| Tasks.LoggedConsistent | server/main.py:450-459 | logging keeps every task filed under its own id with a log within the limit |
| Tasks.StatusReport | server/main.py:754-792 | 404 exactly for an unknown id; otherwise a reply copying the id, status, progress, the four counters, current record, message, result link, creation and update times of the task (the reply model of lines 133-145 has no kind and no person enrolling), with only its last ten log lines and the remaining records: 0 for an empty task, otherwise the total minus the records processed, between 0 and the total while processing |
| Tasks.Registry.Status | server/main.py:754-792 | the status endpoint returns `StatusReport` of the registry |
| Tasks.Delete | server/main.py:840-862 | 404 for an unknown id, 400 for a running task, and then nothing changes; otherwise exactly that task is removed, with the confirmation message |
| Tasks.Validate | server/main.py:661-704 | the file name, the kind, the person enrolling and the sheet are checked in that order, all as 400 errors; a blank name of the person enrolling is refused before the sheet is read; an accepted upload is a job with the records read, the lower-cased kind and the stripped name |
| Tasks.NewTask | server/main.py:706-722 | a new task is pending, with no progress and no counts, the record total, "Preparando..." as the current step, the creation message with the record count, one creation log line and no result |
| Tasks.Registry.constructor | server/main.py:148 | the registry starts empty |
| Tasks.Registry.Update | server/main.py:443-448 | the registry becomes `Patched` of the old one and stays consistent |
| Tasks.Registry.Log | server/main.py:450-459 | the registry becomes `Logged` of the old one and stays consistent |
| Tasks.Registry.Remove | server/main.py:840-862 | the reply and the new registry are those of `Delete` |
| Tasks.Registry.Submit | server/main.py:651-752 | a refused upload leaves the registry as it was; an accepted one files a new pending task under the fresh id and replies with its status address |
| Tasks.FreshJobReport | server/main.py:706-722 | a just-filed task reports pending, with every record remaining and its creation line as its only log |
| Tasks.DeleteThenUnknown | server/main.py:845-856 | a task that is not running can be deleted, and then its status is unknown |
| Batch.VerdictName | server/main.py:533-580 | a row's state is `EXITOSO`, `ERROR` or `ERROR CRÍTICO` |
| Batch.Cells | server/main.py:546-583 | a result row has the nine header columns: the row number (read back as the number), the record's identity, the code, the person enrolling, the state name, the notes, and the date in the regular format, or in the critical-row format for an `ERROR CRÍTICO` row |
| Batch.IntendedCells | server/main.py:555-582 | the row with every column as written except the date, which uses the regular format |
| Batch.DatesReadBack | server/main.py:555-582 | a row's date reads back as the processing date exactly when the row is not an `ERROR CRÍTICO` row; with the regular format it always does |
| Batch.PercentBounds | server/main.py:511 | the integer percentage of a record count lies in 0..100 and is 100 only for the last record |
| Batch.Progress | server/main.py:511 | progress lies in 0..100 and reaches 100 exactly on the last record |
| Batch.ProgressMonotone | server/main.py:511 | progress never goes backwards |
| Batch.ResultUrl | server/main.py:487-488 | the download address names an `.xlsx` file |
| Batch.ResultRow | server/main.py:531-556 | a row keeps the record's identity; success exactly for a successful outcome, with its code; a failure shows `N/A` and the error |
| Batch.CriticalRow | server/main.py:573-583 | a critical row keeps the record's identity and the person enrolling, shows `N/A` and the critical state, and its notes are the fixed prefix and exactly the first min(length, 100) characters of the error |
| Batch.Announce | server/main.py:510-522 | announcing a record changes only the worker's task: processed count, progress, the current guest, the update time, and the announcing line at the end of its log |
| Batch.Note | server/selenium_processor.py:632-633 | the processor records an address exactly when its email and name checks pass |
| Batch.OutcomeLines | server/main.py:537-570 | one outcome line, plus a second line after every fifth record: the save line, or the critical line for that record when the save fails |
| Batch.RecordLines | server/main.py:519-562 | a record's lines are the announcing line followed by its outcome lines |
| Batch.Tally | server/main.py:531-584 | the row of a record, its count, and after every fifth record a save; a failed save counts the record again as an error and writes a critical row |
| Batch.LedgerOf | server/main.py:504-584 | the rows, the last saved file and the counters after the first k records |
| Batch.Outcomes | server/main.py:525-529 | the outcome of each record is its attempt against the addresses recorded by the records before it |
| Batch.Aftermath | server/main.py:537-562 | after an outcome, only the worker's own task changes, and only by the outcome line and, after every fifth record, the save line |
| Batch.Journal | server/main.py:508-587 | handling a record changes only the worker's own task: its processed count, progress, current guest, update time and the record's log lines |
| Batch.TasksTo | server/main.py:508-587 | after k records only the worker's own task has changed: status, total, counters and message are kept, k records are processed with the matching progress, and the log has grown by those records' lines |
| Batch.Opening | server/main.py:473-480 | before the browser starts, the worker's task is processing, knows its number of records and has logged the starting and configuring lines; nothing else changes |
| Batch.Closing | server/main.py:589-611 | a failed final save sets only the error status, the cause as message and the update time; otherwise the task completes at 100% with the run's counters, "Proceso completado" as the current step, the download address and the summary message, and the log gains the saved line and the summary line |
| Batch.Closed | server/main.py:613-620 | closing the browser only adds the closing line to the task's log, as its last line |
| Batch.Ready | server/main.py:473-484 | just before the first record the task is processing, knows its number of records and last logged that the browser is configured; nothing else changes |
| Batch.Abandoned | server/main.py:472-620 | without a browser the job fails with the driver's message, keeps its number of records, and its last log line says the browser was closed |
| Batch.Worked | server/main.py:484-620 | with a browser the job keeps its number of records through to the end, and its last log line says the browser was closed |
| Batch.RunWith | server/main.py:461-621 | the whole job, for any outcomes, changes only the worker's own task; without a browser no file is saved; otherwise the saved file is all rows after a final save that goes through, and the last checkpoint when it fails |
| Batch.Run | server/main.py:461-621 | the whole job changes only the worker's own task |
| Batch.AnnounceRecord | server/main.py:510-522 | the progress update and the announcing line, as `Announce`, keeping the registry consistent |
| Batch.RecordOutcome | server/main.py:531-587 | the counts, the rows and the save as `Tally`, and the log lines as `Aftermath` |
| Batch.HandleRecord | server/main.py:508-587 | one pass records the address as `Note` and leaves the ledger and registry of that record's outcome |
| Batch.Finish | server/main.py:589-620 | the final save, the final state and the closing line; the saved file is the full workbook, or the last checkpoint when the final save fails |
| Batch.ProcessAll | server/main.py:507-587 | the loop leaves the ledger and registry that the outcomes of all records give, with the processor's set growing record by record |
| Batch.OneMoreRecord | server/main.py:508-587 | one more record applies `Journal` to the registry and `Tally` to the ledger of the records before it |
| Batch.RunBatch | server/main.py:461-621 | the worker as implemented leaves the registry and the saved file of `Run` |
| Batch.FailedSaves | server/main.py:559-569 | at most one failed save per record |
| Batch.CountsAddUp | server/main.py:536-569 | successes plus errors, and the number of rows, are the records plus the failed saves |
| Batch.Successes | server/main.py:532-536 | there are no more successes than records |
| Batch.SuccessesCounted | server/main.py:532-536 | the success counter counts exactly the successful outcomes |
| Batch.OneRowPerRecord | server/main.py:546-557 | with no failed save, the workbook holds one row per record, in record order, each that record's row |
| Batch.NoteGrows | server/selenium_processor.py:633 | an attempt never removes an address from the processed set |
| Batch.SeenGrows | server/selenium_processor.py:633 | the processed set only grows over a job |
| Batch.RecordedAt | server/selenium_processor.py:632-633 | a record whose checks pass was accepted, and its address is in the set from then on |
| Batch.StaysDuplicate | server/selenium_processor.py:399-400 | an address recorded at one step stays a duplicate after every later step that never forgets |
| Batch.RecordedIsDuplicate | server/selenium_processor.py:399-400 | a later record with an address an earlier record recorded fails the duplicate check |
| Batch.DuplicateInJob | server/main.py:525-529 | within one job, a later record whose address an earlier record took up is refused as a duplicate, however the earlier attempt ended |
| Batch.EndState | server/main.py:589-611 | a job completes exactly when the browser started and the final save went through; otherwise it ends in error, naming the driver or the save failure |
| Batch.CompletedJob | server/main.py:594-606 | a completed job shows 100%, the run's counters (which add up to the records plus the failed saves), the download address and the summary message |
| Batch.RunningJob | server/main.py:508-587 | while records are handled the job is processing with its total, shows k processed, the matching progress and the remaining records in its status, cannot be deleted, and its log has grown by the records' lines |
| Batch.EndLog | server/main.py:461-621 | whatever happens, the job ends knowing its number of records and its last log line says the browser was closed |
| Batch.Checkpoints | server/main.py:559-561 | with no failed save among the first k records, the saved file is nothing before the fifth record and otherwise the rows as they stood after the last multiple of five |
| Batch.TallyFile | server/main.py:559-561 | after a record the saved file is the rows so far when a save happens and goes through, and unchanged otherwise |

## Left out

- Reading the uploaded file is left out: the temporary file, the two spreadsheet engines and their errors (server/main.py:159-196, 686-704). The sheet is given as its rows of cell texts, and the header row, which the code only prints, is not checked.
- Pandas' rendering of cell values (`str()` of numbers and dates) is not modelled; a cell is given as the text it renders to.
- The per-row exception handlers of the reader (server/main.py:265-267, 294-295) have no counterpart, because nothing in the modelled row handling can raise.
- The `500` reply of the upload endpoint (server/main.py:751-752) has no counterpart: no modelled step raises an unexpected exception. The emptiness re-check after reading (server/main.py:694-695) cannot fail, since the reader never returns an empty list.
- Task ids come from `uuid4`; `Tasks.Registry.Submit` takes the id as a parameter and does not model its freshness.
- Timestamps are `Clock.Moment` values; the ISO 8601 strings of `created_at` and `last_updated` are not rendered.
- The worker reads the clock once per record (`World.clock`), once at the start and once at the end. The source reads it at each log line and update.
- Floating-point fields are left out: the status reply's `success_rate` and `estimated_remaining_minutes` (server/main.py:765-772, 788-790) and the upload reply's `estimated_time_minutes` (server/main.py:741).
- Tasks.StatusReport: its report carries `remaining` but not those floating-point fields.
- Tasks.Registry.Submit: the reply does not carry the upload endpoint's fixed message and next-steps texts.
- The `/tasks`, `/download`, `/` and `/health` endpoints, the startup and shutdown hooks, the static mount and CORS are outside the core.
- The second, unreachable copy of the reader body after `leer_archivo_excel`'s return (server/main.py:307-441) is not modelled.
- Local and development Chrome set-up, Chrome options, the connectivity test and the anti-detection script (server/selenium_processor.py:36-73, 261-387) are left out. They affect the session, not the data, and their failures are swallowed. Their combined result is `World.browserReady`.
- The code after the `raise` in `_setup_production_chrome` (server/selenium_processor.py:199-259) is unreachable and not modelled.
- `chmod` of the found binaries (server/selenium_processor.py:131-135) is left out; its failures are swallowed.
- `marcar_checkboxes_inteligente` (server/selenium_processor.py:500-538) is left out: it never raises and its result is ignored.
- Sleeps and pacing delays are left out: they change timing only.
- The page's `partial_enroll_form` wait: a timeout is ignored, and any other exception is `FormPage.formWait`.
- Regular expressions: `\d` and `\w` are taken over ASCII; Python also accepts other Unicode digits and letters.
- Extraction.Plausible: the digit test of the element tier is ASCII-only (`HasDigit`), while `str.isdigit()` also accepts other Unicode digits, so a text whose only digits are non-ASCII is refused here and accepted by the source.
- Batch.Progress: the source computes `int((idx + 1) / len(registros) * 100)` in floating point, which can come out one lower than the exact integer quotient the model uses (29 of 100 gives 28, since 0.29 * 100 is 28.999999999999996); the model's value is the exact one.
- Appending a row to the result workbook (server/main.py:557, 584) raises when a cell holds a control character the workbook refuses; such a failure at line 557 would send the record to the critical-row handler, and one at line 584 would end the whole job in error; the model treats every append as successful.
- `str.lower()` is modelled for ASCII and Latin-1 capitals only.
- The XPath queries of the element tier are oracle results (`ResultPage.elements`); XPath is not evaluated.
- Exceptions inside the processor's outer `try` that the browser oracle does not name are not modelled. The named ones are navigation, form wait, locating, native click and dropdown resolution.
- A checkpoint save that fails leaves the earlier saved file as it was; partial writes are not modelled.
- Concurrency: several tasks running at once and a status read racing a worker are not modelled. The worker's updates are atomic steps on the registry.
- `actualizar_estado_tarea` accepts any key, including `logs`, but the worker never passes `logs`; `Tasks.Patch` only has the fields the worker updates.

## Findings

| source | as written | input that shows it | evidently intended | confidence | as-written member | corrected member |
|---|---|---|---|---|---|---|
| server/main.py:582 | the processing date of an `ERROR CRÍTICO` row uses `%Y-%m-%d %H:%M%S`, with no colon between minutes and seconds | a record whose checkpoint save raises at 03:04:05 on 2024-01-02 gets the date `2024-01-02 03:0405` | `%Y-%m-%d %H:%M:%S`, the format every other row uses (server/main.py:555) | high; not executed | Batch.Cells, Clock.RowStampAsWritten, Clock.CriticalStampUnreadable | Batch.IntendedCells, Batch.DatesReadBack, Clock.RowStampRoundTrip |
