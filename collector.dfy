/** The collector object of data_collector.py: a ledger held in a field and
    saved to progress.json after every change, the files it writes under
    data/raw, and the loops of collect_all, collect_filings and
    get_corp_code. Each method is proved against the specification in
    modules Ledger, Filings and DartApi. */
module Collector {
  import opened Text
  import opened DartApi
  import opened Filings
  import opened Ledger

  class DartCollector {
    /** The `corp_name` column of the companies table, in row order. */
    const companies: seq<string>
    /** The disclosure API and the faults of this run. */
    const env: Remote
    /** The years and report categories collected for every company. */
    const plan: Plan

    var progress: Progress
    /** progress.json: None while the file does not exist. */
    var stored: Option<Progress>
    /** The paths that exist under data/raw. */
    var files: set<string>
    /** Every remote request made, in order. */
    ghost var trace: seq<Call>

    ghost function State(): World
      reads this
    {
      World(progress, stored, files, trace)
    }

    /** `__init__`: the companies are given, the ledger comes from
        load_progress. */
    constructor (companies: seq<string>, env: Remote, progressFile: Option<Progress>, files: set<string>)
      ensures this.companies == companies && this.env == env && plan == DefaultPlan
      ensures State() == World(LoadProgress(progressFile), progressFile, files, [])
      ensures Durable(State())
    {
      this.companies := companies;
      this.env := env;
      this.plan := DefaultPlan;
      this.progress := LoadProgress(progressFile);
      this.stored := progressFile;
      this.files := files;
      this.trace := [];
    }

    method SaveProgress()
      modifies this`stored
      ensures stored == Some(progress)
    {
      stored := Some(progress);
    }

    /** get_corp_code: fetch the directory and return the `corp_code` of the
        first record whose name contains `corpName`. */
    method GetCorpCode(corpName: string) returns (code: Option<string>)
      modifies this`trace
      ensures trace == old(trace) + [DirectoryCall]
      ensures code == Resolve(env.directory, corpName)
    {
      trace := trace + [DirectoryCall];
      var response := env.directory;
      if response.status != 200 {
        return None;
      }
      if response.records.None? {
        return None;
      }
      var records := response.records.value;
      var i := 0;
      while i < |records|
        invariant 0 <= i <= |records|
        invariant forall j :: 0 <= j < i ==> !Stops(records[j], corpName)
      {
        var corp := records[i];
        if corp.corpName.Absent? {
          return None;
        }
        if corp.corpName.HasText? && corp.corpName.text != "" && Contains(corp.corpName.text, corpName) {
          if corp.corpCode.Absent? || corp.stockCode.Absent? {
            return None;
          }
          return if corp.corpCode.HasText? then Some(corp.corpCode.text) else None;
        }
        i := i + 1;
      }
      return None;
    }

    /** get_corp_info. */
    method GetCorpInfo(corpCode: string) returns (info: Option<JsonBody>)
      modifies this`trace
      ensures trace == old(trace) + [ProfileCall(corpCode)]
      ensures info == ProfileGate(env.profile(corpCode))
    {
      trace := trace + [ProfileCall(corpCode)];
      var response := env.profile(corpCode);
      if response.httpStatus != 200 {
        return None;
      }
      if !response.body.Object? || response.body.status != Some(StatusOk) {
        return None;
      }
      return Some(response.body);
    }

    /** collect_corp_info: fetch the profile and write it to
        corp_info/{corp_code}.json. */
    method CollectCorpInfo(corpCode: string) returns (ok: bool)
      modifies this`trace, this`files
      ensures ok == ProfileGate(env.profile(corpCode)).Some?
      ensures trace == old(trace) + [ProfileCall(corpCode)]
      ensures files == if ok then old(files) + {ProfilePath(corpCode)} else old(files)
    {
      var info := GetCorpInfo(corpCode);
      if info.None? {
        return false;
      }
      files := files + {ProfilePath(corpCode)};
      return true;
    }

    /** get_filings_list. */
    method GetFilingsList(corpCode: string, bgnDe: string, endDe: string) returns (fs: seq<FilingSummary>)
      modifies this`trace
      ensures trace == old(trace) + [FilingListCall(corpCode, bgnDe, endDe)]
      ensures fs == FilingsGate(env.filings(corpCode, bgnDe, endDe))
    {
      trace := trace + [FilingListCall(corpCode, bgnDe, endDe)];
      var response := env.filings(corpCode, bgnDe, endDe);
      if response.httpStatus != 200 {
        return [];
      }
      if !response.body.Object? || response.body.status != Some(StatusOk) {
        return [];
      }
      return if response.body.list.Some? then response.body.list.value else [];
    }

    /** download_filing: on HTTP 200 the document is written to `path`. */
    method DownloadFiling(rceptNo: string, path: string) returns (ok: bool)
      modifies this`trace, this`files
      ensures ok == DocumentGate(env.document(rceptNo))
      ensures trace == old(trace) + [DocumentCall(rceptNo)]
      ensures files == if ok then old(files) + {path} else old(files)
    {
      trace := trace + [DocumentCall(rceptNo)];
      if env.document(rceptNo) != 200 {
        return false;
      }
      files := files + {path};
      return true;
    }

    /** collect_filings: for each year, fetch the year's filing list and,
        when it is not empty, download its periodic reports. The report
        categories are a parameter, which collect_all sets to REPORT_TYPES. */
    method CollectFilings(corpCode: string, corpName: string, years: seq<string>, types: seq<ReportType>)
      returns (results: seq<FilingResult>)
      modifies this`trace, this`files
      ensures Harvest(files, trace, results)
              == Harvested(env, corpCode, corpName, types, Harvest(old(files), old(trace), []), years)
    {
      results := [];
      ghost var h0 := Harvest(files, trace, []);
      var y := 0;
      while y < |years|
        invariant 0 <= y <= |years|
        invariant Harvest(files, trace, results) == Harvested(env, corpCode, corpName, types, h0, years[..y])
      {
        results := CollectYear(corpCode, corpName, years[y], types, results);
        HarvestedNext(env, corpCode, corpName, types, h0, years, y);
        y := y + 1;
      }
      assert years[..y] == years;
    }

    /** One iteration of the loop over years in collect_filings: fetch the
        year's list, and download its periodic reports unless it is empty. */
    method CollectYear(corpCode: string, corpName: string, year: string, types: seq<ReportType>,
                       results0: seq<FilingResult>) returns (results: seq<FilingResult>)
      modifies this`trace, this`files
      ensures Harvest(files, trace, results)
              == YearStep(env, corpCode, corpName, types, Harvest(old(files), old(trace), results0), year)
    {
      results := results0;
      var allFilings := GetFilingsList(corpCode, BeginDate(year), EndDate(year));
      if allFilings != [] {
        results := CollectReports(corpCode, corpName, year, allFilings, types, results);
      }
    }

    /** One filing of the innermost loop of collect_filings: build its path,
        skip it when the path exists, else download it and record the
        result on success. */
    method FetchFiling(corpCode: string, corpName: string, year: string, reportType: string,
                       filing: FilingSummary, results0: seq<FilingResult>) returns (results: seq<FilingResult>)
      requires filing.rceptNo.Some? && filing.reportNm.Some?
      modifies this`trace, this`files
      ensures YearState(Harvest(files, trace, results), false)
              == Visit(env, corpCode, corpName, year, YearState(Harvest(old(files), old(trace), results0), false),
                       WorkItem(reportType, filing))
    {
      results := results0;
      var rceptNo := filing.rceptNo.value;
      var reportNm := filing.reportNm.value;
      var path := FilingPath(corpCode, year, rceptNo, reportNm);
      if path in files {
        return;
      }
      var ok := DownloadFiling(rceptNo, path);
      if ok {
        results := results + [FilingResult(corpName, year, reportType, reportNm, rceptNo, path)];
      }
    }

    /** The inner loop of the per-year `try` block of collect_filings, for
        one report category: download each matched filing unless its path
        exists. A filing without `rcept_no` or `report_nm` raises KeyError,
        which ends the loop and, through `aborted`, the rest of the year. */
    method CollectCategory(corpCode: string, corpName: string, year: string, reportType: string,
                           matched: seq<FilingSummary>, results0: seq<FilingResult>)
      returns (results: seq<FilingResult>, aborted: bool)
      modifies this`trace, this`files
      ensures YearState(Harvest(files, trace, results), aborted)
              == Visits(env, corpCode, corpName, year, YearState(Harvest(old(files), old(trace), results0), false),
                        Tagged(reportType, matched))
    {
      results := results0;
      aborted := false;
      ghost var start := YearState(Harvest(files, trace, results), false);
      ghost var items := Tagged(reportType, matched);
      var j := 0;
      while j < |matched|
        invariant 0 <= j <= |matched|
        invariant YearState(Harvest(files, trace, results), false) == Visits(env, corpCode, corpName, year, start, items[..j])
      {
        var filing := matched[j];
        assert Visit(env, corpCode, corpName, year, YearState(Harvest(files, trace, results), false), items[j])
               == Visits(env, corpCode, corpName, year, start, items[..j + 1]) by {
          assert items[..j + 1] == items[..j] + [items[j]];
          VisitsSnoc(env, corpCode, corpName, year, start, items[..j], items[j]);
        }
        if filing.rceptNo.None? || filing.reportNm.None? {
          // filing['rcept_no'] or filing['report_nm'] raises KeyError: the
          // rest of the year is skipped
          aborted := true;
          assert Visits(env, corpCode, corpName, year, start, items)
                 == YearState(Harvest(files, trace, results), true) by {
            assert items == items[..j + 1] + items[j + 1..];
            VisitsAppend(env, corpCode, corpName, year, start, items[..j + 1], items[j + 1..]);
            VisitsAborted(env, corpCode, corpName, year, YearState(Harvest(files, trace, results), true), items[j + 1..]);
          }
          return;
        }
        results := FetchFiling(corpCode, corpName, year, reportType, filing, results);
        j := j + 1;
      }
      assert items[..j] == items;
    }

    /** The part of the per-year `try` block of collect_filings after a
        non-empty list: the report categories in order, until a KeyError
        ends the year. The categories
        are a parameter, which collect_filings sets to REPORT_TYPES. */
    method CollectReports(corpCode: string, corpName: string, year: string, allFilings: seq<FilingSummary>,
                       types: seq<ReportType>, results0: seq<FilingResult>) returns (results: seq<FilingResult>)
      modifies this`trace, this`files
      ensures Harvest(files, trace, results)
              == Visits(env, corpCode, corpName, year, YearState(Harvest(old(files), old(trace), results0), false),
                        YearWork(allFilings, types)).harvest
    {
      results := results0;
      ghost var start := YearState(Harvest(files, trace, results), false);
      var aborted := false;
      var t := 0;
      while t < |types| && !aborted
        invariant 0 <= t <= |types|
        invariant YearState(Harvest(files, trace, results), aborted)
                  == Visits(env, corpCode, corpName, year, start, YearWork(allFilings, types[..t]))
      {
        ghost var before := YearState(Harvest(files, trace, results), false);
        var reportType := types[t];
        var matched := MatchedFilings(allFilings, reportType.keywords);
        results, aborted := CollectCategory(corpCode, corpName, year, reportType.name, matched, results);
        YearWorkNext(allFilings, types, t);
        VisitsAppend(env, corpCode, corpName, year, start, YearWork(allFilings, types[..t]), Tagged(reportType.name, matched));
        t := t + 1;
      }
      ghost var all := YearWork(allFilings, types);
      ghost var done := YearWork(allFilings, types[..t]);
      if aborted {
        assert Visits(env, corpCode, corpName, year, start, all) == Visits(env, corpCode, corpName, year, start, done) by {
          YearWorkPrefix(allFilings, types, t);
          assert all == done + all[|done|..];
          VisitsAppend(env, corpCode, corpName, year, start, done, all[|done|..]);
          VisitsAborted(env, corpCode, corpName, year, Visits(env, corpCode, corpName, year, start, done), all[|done|..]);
        }
      } else {
        assert types[..t] == types;
      }
    }

    /** Append `{corp_name, reason}` to `failed` and save. */
    method AddFailure(corpName: string, reason: string)
      modifies this`progress, this`stored
      ensures State() == RecordFailure(old(State()), corpName, reason)
    {
      progress := progress.(failed := progress.failed + [FailRecord(corpName, reason)]);
      SaveProgress();
    }

    /** The two `except` clauses of collect_all: an interrupt saves the ledger
        and ends the run; any other exception is recorded with its message. */
    method OnFault(corpName: string, kind: FaultKind) returns (halted: bool)
      modifies this`progress, this`stored
      ensures StepOutcome(State(), halted) == Abandon(old(State()), corpName, kind)
    {
      match kind
      case Interrupt =>
        SaveProgress();
        halted := true;
      case Raise(message) =>
        AddFailure(corpName, message);
        halted := false;
    }

    /** One iteration of the loop of collect_all: the company at row `idx`. */
    method ProcessCompany(idx: nat) returns (halted: bool)
      requires idx < |companies|
      modifies this
      ensures StepOutcome(State(), halted) == Step(env, plan, idx, companies[idx], old(State()))
    {
      var corpName := companies[idx];
      if corpName in progress.completed {
        return false;
      }
      var fault := env.fault(idx, BeforeResolve);
      if fault.Some? {
        halted := OnFault(corpName, fault.value);
        return;
      }
      var code := GetCorpCode(corpName);
      if code.None? || code.value == "" {
        AddFailure(corpName, ResolveFailed);
        return false;
      }
      fault := env.fault(idx, BeforeProfile);
      if fault.Some? {
        halted := OnFault(corpName, fault.value);
        return;
      }
      var corpCode := code.value;
      var ok := CollectCorpInfo(corpCode);
      if !ok {
        AddFailure(corpName, ProfileFailed);
        return false;
      }
      fault := env.fault(idx, BeforeFilings);
      if fault.Some? {
        halted := OnFault(corpName, fault.value);
        return;
      }
      var filings := CollectFilings(corpCode, corpName, plan.years, plan.types);
      fault := env.fault(idx, BeforeRecord);
      if fault.Some? {
        halted := OnFault(corpName, fault.value);
        return;
      }
      progress := progress.(completed := progress.completed + [corpName]);
      SaveProgress();
      halted := false;
    }

    /** collect_all: process every company in row order until an interrupt,
        then report. The result is None when the run was interrupted (no
        summary is printed) and the end-of-run summary otherwise. A run keeps
        progress.json equal to the ledger in memory and `completed` free of
        duplicates. */
    method CollectAll() returns (summary: Option<Summary>)
      modifies this
      ensures StepOutcome(State(), summary.None?) == Run(env, plan, companies, old(State()), |companies|)
      ensures summary.Some? ==> summary.value == Summarize(progress)
      ensures Durable(old(State())) ==> Durable(State())
      ensures NoDuplicates(old(progress.completed)) ==> NoDuplicates(progress.completed)
      ensures Appends(old(progress), progress)
    {
      ghost var w0 := State();
      var idx := 0;
      var halted := false;
      while idx < |companies| && !halted
        invariant 0 <= idx <= |companies|
        invariant Run(env, plan, companies, w0, idx) == StepOutcome(State(), halted)
      {
        halted := ProcessCompany(idx);
        idx := idx + 1;
      }
      if halted {
        RunHaltIsFinal(env, plan, companies, w0, idx, |companies|);
      }
      RunAppends(env, plan, companies, w0, |companies|);
      if Durable(w0) {
        RunDurable(env, plan, companies, w0, |companies|);
      }
      if NoDuplicates(w0.progress.completed) {
        RunKeepsCompletedUnique(env, plan, companies, w0, |companies|);
      }
      summary := if halted then None else Some(Summarize(progress));
    }
  }
}
