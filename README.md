# DART collector: a verified model

This project models the two core scripts of a collector for the Korean
financial-disclosure API (DART) in Dafny and proves properties of the model.

- **data_collector.py** walks a table of company names with a `DartCollector`
  object. For each company it:
  - looks up the company's registry code in the registry directory
    (corpCode.xml) by substring match on the name;
  - fetches its profile (company.json) and writes it to disk;
  - fetches the filing list (list.json) for each of 2022-2024, and downloads
    the annual, semiannual and quarterly reports (document.xml) that are not
    on disk yet;
  - records the company as completed or failed in a progress ledger, which is
    saved to progress.json after every change so that an interrupted run
    resumes.
- **download_corp_codes.py** downloads the registry directory and normalises
  each record's stock code. It writes the whole directory and its listed
  companies, then matches the rows of companies.csv to directory records by
  exact, zero-filled stock code.

The modules are:

- `Text`: the Python string operations involved, modelled exactly. These are
  `in` on strings, `isspace` with the full Unicode whitespace set, `strip`,
  `lstrip`, `rstrip`, `zfill` with its sign rule, and single-character
  `replace`.
- `DartApi`: the four endpoints as an oracle value `Remote`. Every answer is
  a function of the request parameters, and the faults of a run are part of
  it. The module also holds the rules by which each answer becomes a success
  or a failure, and the directory lookup.
- `Filings`: collect_filings as specification functions. These cover the
  keyword filter, the file name, the nested year, category and filing loops
  (`Visit`, `Visits`, `YearStep`, `Harvested`), and what a pass leaves
  behind.
- `Ledger`: the progress ledger, the transition for one company (`Step`),
  the loop of collect_all (`Pass`, `Run`), and the end-of-run summary.
- `Collector`: the class `DartCollector`. Its fields are the ledger, the
  ledger file, the files on disk and a ghost log of remote calls. Its methods
  follow the Python methods. collect_filings is split into one method per
  loop level (`CollectYear`, `CollectReports`, `CollectCategory`,
  `FetchFiling`). The failure append and the `except` clauses of
  collect_all are the methods `AddFailure` and `OnFault`. load_progress is
  the function `Ledger.LoadProgress`, which the constructor calls. Each
  method is proved against the functions above.
- `CorpCodes`: download_corp_codes.py. It covers record extraction, the
  listed filter, the column choice, zero-filling, the matching loop and which
  output files the script writes.

## Model

| member | source | states |
|---|---|---|
| Text.Contains | data_collector.py:111 | Python's `in` on two strings, by scanning for a start position (specified by ContainsIsSubstring) |
| Text.Strip | download_corp_codes.py:64 | `str.strip()` as `rstrip` after `lstrip` (specified by the Strip lemmas below) |
| Text.ReplaceChar | data_collector.py:269 | `str.replace` of one character by another (specified through SafeTitle) |
| Text.ContainsIsSubstring | data_collector.py:111 | `needle in hay` holds exactly when the needle occurs at some position of the hay |
| Text.StripLeftIsSuffix | download_corp_codes.py:115 | lstrip removes a whitespace prefix and the result starts with a non-whitespace character |
| Text.StripRightIsPrefix | download_corp_codes.py:115 | rstrip removes a whitespace suffix and the result ends with a non-whitespace character |
| Text.StripRemovesWhitespace | download_corp_codes.py:64 | strip returns a slice of the input with only whitespace on either side of it, and the slice neither opens nor closes with whitespace |
| Text.StripKeeps | download_corp_codes.py:125 | a string that is empty or has non-whitespace ends strips to itself |
| Text.StripIdempotent | download_corp_codes.py:125 | stripping twice is stripping once |
| Text.StripEmptyIffAllSpace | download_corp_codes.py:64 | a string strips to nothing exactly when every character is whitespace |
| Text.ZFill | download_corp_codes.py:115 | the result has length max(len, width); a string already that wide is unchanged; zeros are inserted after a leading sign, else in front |
| DartApi.ProfileGate | data_collector.py:135-146 | the profile is returned exactly when the answer is HTTP 200 with status "000"; every other answer gives None |
| DartApi.FilingsGate | data_collector.py:188-196 | a non-empty result comes only from an HTTP 200 answer with status "000" and is its `list`; an accepted answer with a list gives that list |
| DartApi.DocumentGate | data_collector.py:213-221 | a document counts as downloaded exactly on HTTP 200 |
| DartApi.Resolve | data_collector.py:88-122 | get_corp_code: None unless HTTP 200 with a readable directory; otherwise the code at the record where the scan stops (specified by ResolveIsFirstMatch) |
| DartApi.FirstStop | data_collector.py:109-111 | the scan stops at the first record whose name is missing or non-empty and contains the query |
| DartApi.ResolveIsFirstMatch | data_collector.py:94-118 | a code is returned exactly when the answer is HTTP 200 with a readable directory and the first matching record has a `corp_code` text and a `stock_code` element; the code is that record's `corp_code` |
| Filings.BeginDate | data_collector.py:240 | the query range starts on `{year}0101` |
| Filings.EndDate | data_collector.py:241 | the query range ends on `{year}1231` |
| Filings.FileName | data_collector.py:269-270 | `{year}_{rcept_no}_{title}.xml` with the safe title |
| Filings.FilingPath | data_collector.py:267-271 | a document's path: `data/raw/filings/{corp_code}/{year}/` and the file name |
| Filings.ProfilePath | data_collector.py:161 | a profile's path: `data/raw/corp_info/{corp_code}.json` |
| Filings.MatchedFilings | data_collector.py:251-254 | the filter keeps only filings of the list whose title mentions a keyword, and keeps no more of them than the list has |
| Filings.MatchedFilingsAppend | data_collector.py:251-254 | the filter distributes over concatenation, so it keeps list order |
| Filings.MatchedFilingsSingle | data_collector.py:251-254 | a single filing is kept exactly when its title mentions a keyword |
| Filings.MatchedFilingsComplete | data_collector.py:251-254 | every filing that mentions a keyword is kept |
| Filings.MatchedHaveTitles | data_collector.py:253-265 | with non-empty keywords, every kept filing has a `report_nm`, so reading it does not raise |
| Filings.SafeTitle | data_collector.py:269-270 | the title part has length min(len, 30), contains no '/' or '\\', and is the title with those characters turned into '_' |
| Filings.DistinctReceiptsDistinctPaths | data_collector.py:267-271 | two filings of one company and year whose receipt numbers differ (at equal length) get different paths |
| Filings.YearWork | data_collector.py:249-263 | the filings of a year's list in the order the loops visit them: category by category, each category's matched filings in list order |
| Filings.Visit | data_collector.py:263-292 | one filing: a missing `rcept_no` or `report_nm` ends the year; an existing path is skipped; otherwise one document request, and on HTTP 200 the path exists and a result is recorded |
| Filings.Visits | data_collector.py:249-292 | the filings of a year visited in order |
| Filings.YearStep | data_collector.py:232-296 | one year: the list request, then the year's filings unless the list is empty |
| Filings.Harvested | data_collector.py:227-298 | collect_filings: the years in order |
| Filings.VisitsAppend | data_collector.py:263-292 | visiting `a + b` is visiting `a` and then `b` |
| Filings.VisitsSnoc | data_collector.py:263-292 | visiting one more filing applies the per-filing step to the state reached |
| Filings.HarvestedNext | data_collector.py:232-296 | one more year applies the per-year step to the harvest reached |
| Filings.VisitsAborted | data_collector.py:264-265 | once a KeyError has ended the year, no later filing of that year is touched |
| Filings.YearWorkNext | data_collector.py:249-263 | one more category adds exactly its matched filings, in list order, tagged with its name |
| Filings.YearWorkPrefix | data_collector.py:249-263 | the work of the first categories is a prefix of the year's work |
| Filings.ExistingFilesNotRefetched | data_collector.py:273-276 | when every filing's path already exists, the pass makes no request, writes nothing and records nothing |
| Filings.ExtendsTransitive | data_collector.py:263-292 | "only adds" composes across passes |
| Filings.VisitExtends | data_collector.py:267-292 | one filing keeps the old files, calls and results; a new result is an HTTP 200 download of a requested receipt into a path that did not exist; no other file appears |
| Filings.VisitsExtends | data_collector.py:263-292 | the same for the filings of a year |
| Filings.HarvestedExtends | data_collector.py:227-298 | the same for a whole collect_filings call |
| Ledger.Step | data_collector.py:308-365 | one iteration of collect_all: skip if completed; lookup, profile, filings and success record, each failure recorded with its reason and saved; faults handled by the `except` clauses |
| Ledger.Pass | data_collector.py:308-368 | the loop over the companies in row order, stopping at the first step that stops it |
| Ledger.Run | data_collector.py:308-368 | the loop of collect_all: `Pass` with `Step` |
| Ledger.LoadProgress | data_collector.py:72-77 | the saved ledger when the file exists, else an empty ledger |
| Ledger.Summarize | data_collector.py:370-381 | both counts, the first ten failures, and the number of failures not listed |
| Ledger.StepSkipsCompleted | data_collector.py:311-314 | a company already completed is skipped: no request, nothing changes |
| Ledger.StepResolveFailure | data_collector.py:321-329 | a failed lookup appends exactly one failure with the lookup reason, saves, and the loop goes on |
| Ledger.StepProfileFailure | data_collector.py:333-340 | a failed profile fetch appends exactly one failure with the profile reason, saves, and the loop goes on |
| Ledger.StepSuccess | data_collector.py:342-348 | a company that gets through without a fault is appended to `completed`, its profile is on disk, and the ledger is saved |
| Ledger.FirstFault | data_collector.py:320-365 | the fault that reaches the `except` clauses: the one at the first stage the company gets to (lookup; profile after a code; filings and success record after an accepted profile) |
| Ledger.StepFault | data_collector.py:352-365 | whatever the stage of the fault: an exception appends exactly `{corp_name, str(e)}` and the loop goes on; an interrupt saves the ledger unchanged and stops the loop; without a fault the loop goes on; the ledger is saved on every path |
| Ledger.StepHaltsOnlyOnInterrupt | data_collector.py:352-356 | the loop stops only when the fault that reaches the `except` clauses is an interrupt |
| Ledger.StepAppends | data_collector.py:308-365 | one company never removes ledger entries, and adds to `completed` at most itself, and only when it was not there |
| Ledger.StepDurable | data_collector.py:323-364 | every path through one company leaves progress.json equal to the ledger in memory |
| Ledger.StepGrows | data_collector.py:320-348 | disk and request log only grow |
| Ledger.PassKeepsCompletedUnique | data_collector.py:308-365 | a loop of steps that add a name only when it is absent keeps `completed` free of duplicates |
| Ledger.PassAppends | data_collector.py:308-365 | a loop of appending steps keeps every earlier ledger entry |
| Ledger.PassDurable | data_collector.py:308-365 | a loop of durable steps stays durable |
| Ledger.PassHaltIsFinal | data_collector.py:352-356 | after the loop has stopped, later companies change nothing |
| Ledger.RunKeepsCompletedUnique | data_collector.py:312-347 | collect_all never lists a company twice in `completed` |
| Ledger.RunAppends | data_collector.py:308-365 | collect_all never removes a ledger entry |
| Ledger.RunDurable | data_collector.py:320-365 | after every company, a restart resumes from exactly the ledger in memory |
| Ledger.RunHaltIsFinal | data_collector.py:352-356 | after an interrupt no later company is processed |
| Ledger.RunReachesNextCompany | data_collector.py:308-329 | a failure does not stop the batch: unless interrupted, the next company that is not yet completed is looked up |
| Collector.DartCollector.constructor | data_collector.py:49-70 | the ledger is loaded from progress.json, or empty when the file is absent, and it is durable |
| Collector.DartCollector.SaveProgress | data_collector.py:79-82 | progress.json holds the ledger in memory |
| Collector.DartCollector.GetCorpCode | data_collector.py:84-122 | one directory request; the result is the code of the first matching record (see ResolveIsFirstMatch) |
| Collector.DartCollector.GetCorpInfo | data_collector.py:124-150 | one profile request; the result is the gated answer |
| Collector.DartCollector.CollectCorpInfo | data_collector.py:152-172 | success exactly when the profile is accepted, and then corp_info/{corp_code}.json exists |
| Collector.DartCollector.GetFilingsList | data_collector.py:174-200 | one list request; the result is the gated list |
| Collector.DartCollector.DownloadFiling | data_collector.py:202-225 | one document request; success exactly on HTTP 200, and then the path exists |
| Collector.DartCollector.CollectFilings | data_collector.py:227-298 | files, requests and results are those of `Harvested` over the years |
| Collector.DartCollector.CollectYear | data_collector.py:232-296 | one year: the list request, then the year's downloads unless the list is empty |
| Collector.DartCollector.CollectReports | data_collector.py:249-292 | the categories in order until a KeyError ends the year |
| Collector.DartCollector.CollectCategory | data_collector.py:263-292 | the filings of one category in order; `aborted` reports a KeyError |
| Collector.DartCollector.FetchFiling | data_collector.py:267-292 | an existing path is skipped; otherwise one download, recorded on success |
| Collector.DartCollector.AddFailure | data_collector.py:324-328 | one failure record is appended and the ledger saved |
| Collector.DartCollector.OnFault | data_collector.py:352-365 | the two `except` clauses |
| Collector.DartCollector.ProcessCompany | data_collector.py:309-365 | one company's effect on ledger, file, disk and request log is `Step` |
| Collector.DartCollector.CollectAll | data_collector.py:300-383 | the final state is `Run` over all companies; the summary appears exactly when not interrupted; progress.json stays durable, `completed` stays duplicate-free, and nothing is removed from the ledger |
| CorpCodes.NormalizeStock | download_corp_codes.py:64 | the stored stock code is '' exactly when the text is missing or all whitespace, and the unchanged text otherwise |
| CorpCodes.Extracted | download_corp_codes.py:55-66 | a table exists exactly when every record has its four children, and it holds one normalised record per entry in order |
| CorpCodes.ExtractCompanies | download_corp_codes.py:53-66 | the extraction loop builds `Extracted` |
| CorpCodes.Listed | download_corp_codes.py:80 | the listed table holds exactly the records with a stock code |
| CorpCodes.Unlisted | download_corp_codes.py:92 | the unlisted records are exactly those without a stock code |
| CorpCodes.ListedUnlistedCount | download_corp_codes.py:90-92 | listed plus unlisted is the total |
| CorpCodes.ChooseStockColumn | download_corp_codes.py:104-112 | `corp_code` if present, else `stock_code` if present, else none |
| CorpCodes.PaddedCode | download_corp_codes.py:115 | the normalised cell has length max(len(strip(cell)), 6) and a stripped cell of six or more characters is kept |
| CorpCodes.RowCodeIsPadded | download_corp_codes.py:115-125 | the strip in the loop does not change a zero-filled code |
| CorpCodes.PreparedCodesPadded | download_corp_codes.py:115-125 | every code the loop looks up is the zero-filled cell and has at least six characters |
| CorpCodes.FindByStock | download_corp_codes.py:128-131 | the first record whose stock code equals the code |
| CorpCodes.Lookup | download_corp_codes.py:128-131 | a record is found exactly when some record has that stock code, and it is a record with that code |
| CorpCodes.MatchedPart | download_corp_codes.py:120-136 | matched_companies after the given rows: for each row whose code some record has, the name and codes of the first such record |
| CorpCodes.UnmatchedPart | download_corp_codes.py:120-146 | not_matched after the given rows: each row whose code no record has, with that code |
| CorpCodes.PartNext | download_corp_codes.py:123-146 | one more row adds its own contribution to each list |
| CorpCodes.Reconcile | download_corp_codes.py:120-146 | the loop builds `MatchedPart` and `UnmatchedPart` |
| CorpCodes.RowLandsOnce | download_corp_codes.py:128-146 | a row lands in exactly one list: matched with the first record that has its code, or unmatched with its code |
| CorpCodes.MatchedAppend | download_corp_codes.py:120-136 | matched_companies is built in row order |
| CorpCodes.UnmatchedAppend | download_corp_codes.py:141-145 | not_matched is built in row order |
| CorpCodes.ReconcilePartition | download_corp_codes.py:120-149 | matched plus not matched is the number of rows |
| CorpCodes.MatchedAreListed | download_corp_codes.py:128-136 | rows with codes of six or more characters only match listed records |
| CorpCodes.ReconciledAreListed | download_corp_codes.py:80-136 | every company written to companies_fixed.csv is a listed directory record with a code of at least six characters |
| CorpCodes.RunScript | download_corp_codes.py:33-209 | which of the three CSV files are written, with what content, and how the script ends, for every download answer and input file |

Two behaviours of the code worth noting:

- An interrupt returns before the end-of-run summary (data_collector.py:352-356).
  So `CollectAll` yields a summary only for a run that was not interrupted.
- A KeyboardInterrupt is not only checked between companies. It can arrive
  anywhere inside a company's `try` block and is handled by the `except` at
  data_collector.py:352.

## Left out

- HTTP, ZIP, XML, JSON and CSV handling: each endpoint answer is an oracle
  value of `Remote`, a function of its request parameters.
  - The remote does not change during a run.
  - A transport error or a malformed payload appears as a rejected answer, or
    as an unreadable directory.
- The `time.sleep` rate limiting, logging and console output, and the
  module-level API key check and logging setup of both scripts.
- Request timeouts.
- The 100-result page size of list.json: the filing list is whatever the
  oracle returns.
- Faults (KeyboardInterrupt or another exception) are taken at four points of
  one company's pipeline:
  - before the lookup;
  - before the profile;
  - before the filings;
  - before the success record.
  An exception inside a fetch is absorbed by that fetch's own
  `except Exception` clause, which the gates model. A KeyboardInterrupt is
  not an `Exception`, so no fetch absorbs it. Faults outside the per-company
  `try` are not modelled.
- An interrupt part-way through collect_filings: it leaves only some of the
  documents on disk. The model cannot represent that state. A fault before
  the filings means no downloads, and one before the success record means
  all of them.
- Write failures of progress.json, of profile files and of document files:
  every write succeeds.
- JSON values other than strings in `status`, `rcept_no` and `report_nm`.
- The `stock_code` branch of `__init__` (data_collector.py:58-61). It runs
  only when the table has no `corp_code` column, and line 61 then reads that
  missing column. So `__init__` always raises KeyError there, and
  `__main__` reports the error without collecting anything. The model
  assumes the table reaches collect_all.
- The companies table is given as its `corp_name` column: reading
  companies.csv is left out.
- pandas dtype inference of the stock column: a cell is given as the text
  `str()` gives it. The `corp_name` column of companies.csv is assumed
  present.
- The name-based diagnostic search for unmatched rows
  (download_corp_codes.py:151-171): it only prints.
- Collector.DartCollector.CollectFilings: the years and report categories are
  parameters. `ProcessCompany` passes the defaults, 2022-2024 and
  REPORT_TYPES, from the `plan` field.
- CorpCodes.Reconcile: it takes the rows already zero-filled and stripped.
  `RowCodeIsPadded` shows the second strip (download_corp_codes.py:125) does
  not change the code.
- test_collector.py and main.py are not part of this model.
