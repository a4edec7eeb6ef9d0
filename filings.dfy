/** Periodic-filing collection for one company (collect_filings): which
    filings of a year's list are downloaded, under which path, and what the
    pass leaves behind (files on disk, remote calls, result records). The
    functions here are the specification that DartCollector.CollectFilings
    is proved against. */
module Filings {
  import opened Text
  import opened DartApi

  /** A report category and the keywords that select its filings by title. */
  datatype ReportType = ReportType(name: string, keywords: seq<string>)

  /** REPORT_TYPES, in dictionary order: annual, semiannual, quarterly. */
  const ReportTypes: seq<ReportType> := [
    ReportType("사업보고서", ["사업보고서"]),
    ReportType("반기보고서", ["반기보고서"]),
    ReportType("분기보고서", ["분기보고서"])
  ]

  /** The default `years` argument of collect_filings. */
  const DefaultYears: seq<string> := ["2022", "2023", "2024"]

  /** What collect_all harvests for every company: the years (the default
      argument of collect_filings) and the report categories. */
  datatype Plan = Plan(years: seq<string>, types: seq<ReportType>)

  const DefaultPlan: Plan := Plan(DefaultYears, ReportTypes)

  const BasePath: string := "data/raw"

  /** The longest title part a file name keeps. */
  const TitleLimit: nat := 30

  /** First day of the year's query range, `YYYYMMDD`. */
  function BeginDate(year: string): string { year + "0101" }

  /** Last day of the year's query range, `YYYYMMDD`. */
  function EndDate(year: string): string { year + "1231" }

  /** `f.get('report_nm', '')`. */
  function ReportName(f: FilingSummary): string
  {
    if f.reportNm.Some? then f.reportNm.value else ""
  }

  /** Some keyword occurs in the filing's title. */
  predicate Mentions(f: FilingSummary, keywords: seq<string>)
  {
    exists k | k in keywords :: Contains(ReportName(f), k)
  }

  /** The list comprehension of collect_filings: the filings that mention a
      keyword, in list order. */
  function MatchedFilings(fs: seq<FilingSummary>, keywords: seq<string>): (r: seq<FilingSummary>)
    ensures |r| <= |fs|
    ensures forall g | g in r :: g in fs && Mentions(g, keywords)
  {
    if fs == [] then []
    else (if Mentions(fs[0], keywords) then [fs[0]] else []) + MatchedFilings(fs[1..], keywords)
  }

  /** The title part of a file name: every '/' and '\' turned into '_', then
      cut to its first 30 characters. */
  function SafeTitle(title: string): (t: string)
    ensures |t| == Min(|title|, TitleLimit)
    ensures forall k :: 0 <= k < |t| ==> t[k] != '/' && t[k] != '\\'
    ensures forall k :: 0 <= k < |t| ==>
              t[k] == (if title[k] == '/' || title[k] == '\\' then '_' else title[k])
  {
    var s := ReplaceChar(ReplaceChar(title, '/', '_'), '\\', '_');
    s[..Min(|title|, TitleLimit)]
  }

  /** `{year}_{rcept_no}_{title}.xml`. */
  function FileName(year: string, rceptNo: string, title: string): string
  {
    year + "_" + rceptNo + "_" + SafeTitle(title) + ".xml"
  }

  /** Where a filing document is stored. */
  function FilingPath(corpCode: string, year: string, rceptNo: string, title: string): string
  {
    BasePath + "/filings/" + corpCode + "/" + year + "/" + FileName(year, rceptNo, title)
  }

  /** Where a company profile is stored. */
  function ProfilePath(corpCode: string): string
  {
    BasePath + "/corp_info/" + corpCode + ".json"
  }

  /** Two filings of the same company and year whose receipt numbers have the
      same length but differ are stored under different paths, whatever
      their titles. */
  lemma DistinctReceiptsDistinctPaths(corpCode: string, year: string, r1: string, t1: string, r2: string, t2: string)
    requires |r1| == |r2| && r1 != r2
    ensures FilingPath(corpCode, year, r1, t1) != FilingPath(corpCode, year, r2, t2)
  {
    var pre := BasePath + "/filings/" + corpCode + "/" + year + "/" + year + "_";
    var p1 := FilingPath(corpCode, year, r1, t1);
    var p2 := FilingPath(corpCode, year, r2, t2);
    assert p1 == pre + r1 + ("_" + SafeTitle(t1) + ".xml");
    assert p2 == pre + r2 + ("_" + SafeTitle(t2) + ".xml");
    assert p1[|pre|..|pre| + |r1|] == r1;
    assert p2[|pre|..|pre| + |r2|] == r2;
  }

  // ---------------------------------------------------------------------
  // The download pass over one year

  /** One filing to fetch, with the report category it was selected for. */
  datatype WorkItem = WorkItem(reportType: string, filing: FilingSummary)

  /** The filings of one category, each paired with the category's name. */
  function Tagged(reportType: string, fs: seq<FilingSummary>): seq<WorkItem>
  {
    seq(|fs|, k requires 0 <= k < |fs| => WorkItem(reportType, fs[k]))
  }

  /** The filings of one year's list in the order the nested loops of
      collect_filings visit them: category by category, and within a
      category in list order. */
  function YearWork(fs: seq<FilingSummary>, types: seq<ReportType>): seq<WorkItem>
  {
    if types == [] then []
    else
      var last := types[|types| - 1];
      YearWork(fs, types[..|types| - 1]) + Tagged(last.name, MatchedFilings(fs, last.keywords))
  }

  /** One downloaded filing, as appended to `results`. */
  datatype FilingResult = FilingResult(corpName: string, year: string, reportType: string,
                                       reportNm: string, rceptNo: string, path: string)

  /** What the pass has produced so far: the files on disk, the remote calls
      made, and the result records. */
  datatype Harvest = Harvest(files: set<string>, trace: seq<Call>, results: seq<FilingResult>)

  /** The state inside one year: `aborted` once a filing without `rcept_no`
      or `report_nm` raised KeyError, which ends the rest of that year. */
  datatype YearState = YearState(harvest: Harvest, aborted: bool)

  /** One iteration of the innermost loop. */
  function Visit(env: Remote, corpCode: string, corpName: string, year: string,
                 st: YearState, item: WorkItem): YearState
  {
    if st.aborted then st
    else if item.filing.rceptNo.None? || item.filing.reportNm.None? then st.(aborted := true)
    else
      var rceptNo := item.filing.rceptNo.value;
      var reportNm := item.filing.reportNm.value;
      var path := FilingPath(corpCode, year, rceptNo, reportNm);
      var h := st.harvest;
      if path in h.files then st
      else
        var trace := h.trace + [DocumentCall(rceptNo)];
        if DocumentGate(env.document(rceptNo)) then
          var r := FilingResult(corpName, year, item.reportType, reportNm, rceptNo, path);
          YearState(Harvest(h.files + {path}, trace, h.results + [r]), false)
        else
          YearState(h.(trace := trace), false)
  }

  /** The innermost loop run over `items`, in order. */
  function Visits(env: Remote, corpCode: string, corpName: string, year: string,
                  st: YearState, items: seq<WorkItem>): YearState
  {
    if items == [] then st
    else Visit(env, corpCode, corpName, year,
               Visits(env, corpCode, corpName, year, st, items[..|items| - 1]), items[|items| - 1])
  }

  /** One iteration of the loop over years: fetch the year's list, then
      visit its filings unless the list is empty. */
  function YearStep(env: Remote, corpCode: string, corpName: string, types: seq<ReportType>,
                    h: Harvest, year: string): Harvest
  {
    var bgn, end := BeginDate(year), EndDate(year);
    var h1 := h.(trace := h.trace + [FilingListCall(corpCode, bgn, end)]);
    var fs := FilingsGate(env.filings(corpCode, bgn, end));
    if fs == [] then h1
    else Visits(env, corpCode, corpName, year, YearState(h1, false), YearWork(fs, types)).harvest
  }

  /** collect_filings over `years`, in order, with the report categories
      `types` (REPORT_TYPES in the program). */
  function Harvested(env: Remote, corpCode: string, corpName: string, types: seq<ReportType>,
                     h: Harvest, years: seq<string>): Harvest
  {
    if years == [] then h
    else YearStep(env, corpCode, corpName, types,
                  Harvested(env, corpCode, corpName, types, h, years[..|years| - 1]), years[|years| - 1])
  }

  // ---------------------------------------------------------------------
  // Properties

  /** The filter keeps exactly the filings that mention a keyword, in
      order: it distributes over concatenation, and keeps a single filing
      exactly when it mentions a keyword. */
  lemma {:induction false} MatchedFilingsAppend(a: seq<FilingSummary>, b: seq<FilingSummary>, keywords: seq<string>)
    ensures MatchedFilings(a + b, keywords) == MatchedFilings(a, keywords) + MatchedFilings(b, keywords)
  {
    if a != [] {
      assert (a + b)[1..] == a[1..] + b;
      MatchedFilingsAppend(a[1..], b, keywords);
    } else {
      assert a + b == b;
    }
  }

  lemma MatchedFilingsSingle(f: FilingSummary, keywords: seq<string>)
    ensures MatchedFilings([f], keywords) == if Mentions(f, keywords) then [f] else []
  {
    assert [f][1..] == [];
  }

  /** Every filing that mentions a keyword is kept. */
  lemma {:induction false} MatchedFilingsComplete(fs: seq<FilingSummary>, keywords: seq<string>, f: FilingSummary)
    requires f in fs && Mentions(f, keywords)
    ensures f in MatchedFilings(fs, keywords)
  {
    if fs[0] != f {
      assert f in fs[1..];
      MatchedFilingsComplete(fs[1..], keywords, f);
    }
  }

  /** With keywords that are not empty, as those of REPORT_TYPES, every
      filing the filter keeps has a `report_nm`, so reading it in the
      download loop does not raise. */
  lemma MatchedHaveTitles(fs: seq<FilingSummary>, keywords: seq<string>)
    requires forall k | k in keywords :: k != ""
    ensures forall g | g in MatchedFilings(fs, keywords) :: g.reportNm.Some?
  {
  }

  /** Appending items is running the loop further. */
  lemma {:induction false} VisitsAppend(env: Remote, corpCode: string, corpName: string, year: string,
                                        st: YearState, a: seq<WorkItem>, b: seq<WorkItem>)
    ensures Visits(env, corpCode, corpName, year, st, a + b)
            == Visits(env, corpCode, corpName, year, Visits(env, corpCode, corpName, year, st, a), b)
    decreases |b|
  {
    if b != [] {
      assert (a + b)[..|a + b| - 1] == a + b[..|b| - 1];
      VisitsAppend(env, corpCode, corpName, year, st, a, b[..|b| - 1]);
    } else {
      assert a + b == a;
    }
  }

  lemma VisitsSnoc(env: Remote, corpCode: string, corpName: string, year: string,
                   st: YearState, items: seq<WorkItem>, item: WorkItem)
    ensures Visits(env, corpCode, corpName, year, st, items + [item])
            == Visit(env, corpCode, corpName, year, Visits(env, corpCode, corpName, year, st, items), item)
  {
    assert (items + [item])[..|items|] == items;
  }

  lemma HarvestedNext(env: Remote, corpCode: string, corpName: string, types: seq<ReportType>,
                      h: Harvest, years: seq<string>, y: nat)
    requires y < |years|
    ensures Harvested(env, corpCode, corpName, types, h, years[..y + 1])
            == YearStep(env, corpCode, corpName, types, Harvested(env, corpCode, corpName, types, h, years[..y]), years[y])
  {
    assert years[..y + 1][..y] == years[..y];
  }

  /** Once a year is aborted, no later filing of that year is touched. */
  lemma {:induction false} VisitsAborted(env: Remote, corpCode: string, corpName: string, year: string,
                                         st: YearState, items: seq<WorkItem>)
    requires st.aborted
    ensures Visits(env, corpCode, corpName, year, st, items) == st
  {
    if items != [] {
      VisitsAborted(env, corpCode, corpName, year, st, items[..|items| - 1]);
    }
  }

  /** The work of the first categories is a prefix of the whole year's work. */
  lemma {:induction false} YearWorkPrefix(fs: seq<FilingSummary>, types: seq<ReportType>, t: nat)
    requires t <= |types|
    ensures YearWork(fs, types[..t]) <= YearWork(fs, types)
    decreases |types|
  {
    if t < |types| {
      assert types[..|types| - 1][..t] == types[..t];
      YearWorkPrefix(fs, types[..|types| - 1], t);
    } else {
      assert types[..t] == types;
    }
  }

  /** The year's work grows category by category: one more category adds
      exactly its matched filings, in list order, tagged with its name. */
  lemma YearWorkNext(fs: seq<FilingSummary>, types: seq<ReportType>, t: nat)
    requires t < |types|
    ensures YearWork(fs, types[..t + 1])
            == YearWork(fs, types[..t]) + Tagged(types[t].name, MatchedFilings(fs, types[t].keywords))
  {
    assert types[..t + 1][..t] == types[..t];
  }

  /** A download pass in which every filing's path already exists makes no
      remote call, downloads nothing and records nothing. */
  lemma {:induction false} ExistingFilesNotRefetched(env: Remote, corpCode: string, corpName: string, year: string,
                                                     st: YearState, items: seq<WorkItem>)
    requires forall i :: 0 <= i < |items| && items[i].filing.rceptNo.Some? && items[i].filing.reportNm.Some? ==>
               FilingPath(corpCode, year, items[i].filing.rceptNo.value, items[i].filing.reportNm.value) in st.harvest.files
    ensures Visits(env, corpCode, corpName, year, st, items).harvest == st.harvest
  {
    if items != [] {
      ExistingFilesNotRefetched(env, corpCode, corpName, year, st, items[..|items| - 1]);
    }
  }

  /** The pass only adds: the old files, calls and results are kept, and
      every result it adds is a download that succeeded (HTTP 200, after a
      request for that receipt) into a path that did not exist before and
      exists afterwards. No other file appears. */
  ghost predicate Extends(env: Remote, h: Harvest, h': Harvest)
  {
    && h.files <= h'.files
    && h.trace <= h'.trace
    && h.results <= h'.results
    && (forall i :: |h.results| <= i < |h'.results| ==>
          var r := h'.results[i];
          && DocumentGate(env.document(r.rceptNo))
          && DocumentCall(r.rceptNo) in h'.trace[|h.trace|..]
          && r.path !in h.files && r.path in h'.files)
    && (forall p :: p in h'.files && p !in h.files ==>
          exists i :: |h.results| <= i < |h'.results| && h'.results[i].path == p)
  }

  lemma ExtendsTransitive(env: Remote, h1: Harvest, h2: Harvest, h3: Harvest)
    requires Extends(env, h1, h2) && Extends(env, h2, h3)
    ensures Extends(env, h1, h3)
  {
    forall i | |h1.results| <= i < |h3.results|
      ensures DocumentCall(h3.results[i].rceptNo) in h3.trace[|h1.trace|..]
    {
      var r := h3.results[i];
      if i < |h2.results| {
        assert h2.results[i] == r;
        assert DocumentCall(r.rceptNo) in h2.trace[|h1.trace|..];
        assert h2.trace[|h1.trace|..] <= h3.trace[|h1.trace|..];
      } else {
        assert h3.trace[|h2.trace|..] == h3.trace[|h1.trace|..][|h2.trace| - |h1.trace|..];
      }
    }
    forall p | p in h3.files && p !in h1.files
      ensures exists i :: |h1.results| <= i < |h3.results| && h3.results[i].path == p
    {
      if p in h2.files {
        var i :| |h1.results| <= i < |h2.results| && h2.results[i].path == p;
        assert h3.results[i] == h2.results[i];
      }
    }
  }

  /** One filing adds at most one file, one call and one result. */
  lemma VisitExtends(env: Remote, corpCode: string, corpName: string, year: string,
                     st: YearState, item: WorkItem)
    ensures Extends(env, st.harvest, Visit(env, corpCode, corpName, year, st, item).harvest)
  {
    var h, h' := st.harvest, Visit(env, corpCode, corpName, year, st, item).harvest;
    if |h'.results| > |h.results| {
      assert h'.trace[|h.trace|..] == [DocumentCall(h'.results[|h.results|].rceptNo)];
    }
  }

  lemma {:induction false} VisitsExtends(env: Remote, corpCode: string, corpName: string, year: string,
                                         st: YearState, items: seq<WorkItem>)
    ensures Extends(env, st.harvest, Visits(env, corpCode, corpName, year, st, items).harvest)
  {
    if items != [] {
      var mid := Visits(env, corpCode, corpName, year, st, items[..|items| - 1]);
      VisitsExtends(env, corpCode, corpName, year, st, items[..|items| - 1]);
      VisitExtends(env, corpCode, corpName, year, mid, items[|items| - 1]);
      ExtendsTransitive(env, st.harvest, mid.harvest, Visits(env, corpCode, corpName, year, st, items).harvest);
    }
  }

  lemma {:induction false} HarvestedExtends(env: Remote, corpCode: string, corpName: string,
                                            types: seq<ReportType>, h: Harvest, years: seq<string>)
    ensures Extends(env, h, Harvested(env, corpCode, corpName, types, h, years))
  {
    if years != [] {
      var year := years[|years| - 1];
      var mid := Harvested(env, corpCode, corpName, types, h, years[..|years| - 1]);
      HarvestedExtends(env, corpCode, corpName, types, h, years[..|years| - 1]);
      var bgn, end := BeginDate(year), EndDate(year);
      var h1 := mid.(trace := mid.trace + [FilingListCall(corpCode, bgn, end)]);
      assert Extends(env, mid, h1);
      var fs := FilingsGate(env.filings(corpCode, bgn, end));
      if fs != [] {
        VisitsExtends(env, corpCode, corpName, year, YearState(h1, false), YearWork(fs, types));
        ExtendsTransitive(env, mid, h1, YearStep(env, corpCode, corpName, types, mid, year));
      }
      ExtendsTransitive(env, h, mid, YearStep(env, corpCode, corpName, types, mid, year));
    }
  }
}
