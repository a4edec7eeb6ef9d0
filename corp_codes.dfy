/** download_corp_codes.py: the registry directory (CORPCODE.xml) is turned
    into a table of companies, the listed companies are split off, and the
    rows of the hand-made companies.csv are matched to directory records by
    exact stock code. The download and the file formats are replaced by
    values; what is modelled is which rows end up in which output. */
module CorpCodes {
  import opened Text
  import opened DartApi

  // ---------------------------------------------------------------------
  // The directory table

  /** One row of dart_all_companies.csv. A child element without text is
      None; `stockCode` is already normalised. */
  datatype DirectoryRecord = DirectoryRecord(corpCode: Option<string>, corpName: Option<string>,
                                             stockCode: string, modifyDate: Option<string>)

  /** All four child elements exist, so reading their `.text` does not raise. */
  predicate Readable(e: CorpEntry)
  {
    !e.corpCode.Absent? && !e.corpName.Absent? && !e.stockCode.Absent? && !e.modifyDate.Absent?
  }

  /** The `.text` of an element that exists. */
  function TextOf(f: Field): Option<string>
    requires !f.Absent?
  {
    if f.HasText? then Some(f.text) else None
  }

  /** The stock code stored for a record: '' when the element has no text or
      only whitespace, the text unchanged otherwise. */
  function NormalizeStock(f: Field): (code: string)
    requires !f.Absent?
    ensures code == "" <==> f.NoText? || AllSpace(f.text)
    ensures code != "" ==> code == f.text
  {
    if f.HasText? then
      StripEmptyIffAllSpace(f.text);
      if f.text != "" && Strip(f.text) != "" then f.text else ""
    else ""
  }

  function Record(e: CorpEntry): DirectoryRecord
    requires Readable(e)
  {
    DirectoryRecord(TextOf(e.corpCode), TextOf(e.corpName), NormalizeStock(e.stockCode), TextOf(e.modifyDate))
  }

  /** The table the extraction loop builds: one record per `<list>` entry, in
      document order, or None when some entry lacks one of its four children
      (the AttributeError ends the script). */
  function Extracted(entries: seq<CorpEntry>): (r: Option<seq<DirectoryRecord>>)
    ensures r.Some? <==> forall i :: 0 <= i < |entries| ==> Readable(entries[i])
    ensures r.Some? ==> |r.value| == |entries| && forall i :: 0 <= i < |entries| ==> r.value[i] == Record(entries[i])
  {
    if entries == [] then Some([])
    else if !Readable(entries[0]) then None
    else
      match Extracted(entries[1..])
      case None => None
      case Some(rest) => Some([Record(entries[0])] + rest)
  }

  /** The extraction loop over `root.findall('list')`. */
  method ExtractCompanies(entries: seq<CorpEntry>) returns (companies: Option<seq<DirectoryRecord>>)
    ensures companies == Extracted(entries)
  {
    var acc: seq<DirectoryRecord> := [];
    var i := 0;
    while i < |entries|
      invariant 0 <= i <= |entries| && |acc| == i
      invariant forall k :: 0 <= k < i ==> Readable(entries[k]) && acc[k] == Record(entries[k])
    {
      var corp := entries[i];
      if !Readable(corp) {
        return None;
      }
      acc := acc + [Record(corp)];
      i := i + 1;
    }
    companies := Some(acc);
    assert acc == Extracted(entries).value;
  }

  /** `df[df['stock_code'] != '']`: the listed companies, in order. */
  function Listed(rs: seq<DirectoryRecord>): (l: seq<DirectoryRecord>)
    ensures |l| <= |rs|
    ensures forall r :: r in l <==> r in rs && r.stockCode != ""
  {
    if rs == [] then []
    else (if rs[0].stockCode != "" then [rs[0]] else []) + Listed(rs[1..])
  }

  /** The records without a stock code. */
  function Unlisted(rs: seq<DirectoryRecord>): (u: seq<DirectoryRecord>)
    ensures |u| <= |rs|
    ensures forall r :: r in u <==> r in rs && r.stockCode == ""
  {
    if rs == [] then []
    else (if rs[0].stockCode == "" then [rs[0]] else []) + Unlisted(rs[1..])
  }

  /** Every record is listed or unlisted and not both, so the unlisted count
      the script prints (total minus listed) is the number of records without
      a stock code. */
  lemma {:induction false} ListedUnlistedCount(rs: seq<DirectoryRecord>)
    ensures |Listed(rs)| + |Unlisted(rs)| == |rs|
  {
    if rs != [] {
      ListedUnlistedCount(rs[1..]);
    }
  }

  // ---------------------------------------------------------------------
  // Matching companies.csv against the directory

  const CorpCodeColumn: string := "corp_code"
  const StockCodeColumn: string := "stock_code"

  /** Width of a stock code. */
  const CodeWidth: nat := 6

  /** companies.csv: its column names and its rows. A row holds the text of
      each non-missing cell; a missing cell reads as "nan" once converted to
      `str`. */
  datatype InputRow = InputRow(corpName: string, cells: map<string, string>)
  datatype InputTable = InputTable(columns: set<string>, rows: seq<InputRow>)

  /** The column that holds the stock codes: `corp_code` when present (the
      hand-made file keeps stock codes there), else `stock_code`, else none. */
  function ChooseStockColumn(columns: set<string>): (c: Option<string>)
    ensures c == Some(CorpCodeColumn) <==> CorpCodeColumn in columns
    ensures c == Some(StockCodeColumn) <==> CorpCodeColumn !in columns && StockCodeColumn in columns
    ensures c.None? <==> CorpCodeColumn !in columns && StockCodeColumn !in columns
  {
    if CorpCodeColumn in columns then Some(CorpCodeColumn)
    else if StockCodeColumn in columns then Some(StockCodeColumn)
    else None
  }

  /** `str(cell)`. */
  function CellText(row: InputRow, col: string): string
  {
    if col in row.cells then row.cells[col] else "nan"
  }

  /** The cell after `.astype(str).str.strip().str.zfill(6)`: at least six
      characters, and a stripped code of six or more characters is kept as
      it is. */
  function PaddedCode(row: InputRow, col: string): (p: string)
    ensures |p| == Max(|Strip(CellText(row, col))|, CodeWidth)
    ensures |Strip(CellText(row, col))| >= CodeWidth ==> p == Strip(CellText(row, col))
  {
    ZFill(Strip(CellText(row, col)), CodeWidth)
  }

  /** The code the matching loop looks up: `str(row[stock_col]).strip()`. */
  function RowCode(row: InputRow, col: string): string
  {
    Strip(PaddedCode(row, col))
  }

  /** The second strip in the loop is a no-op: a zero-filled stripped code
      has no surrounding whitespace. */
  lemma {:induction false} RowCodeIsPadded(row: InputRow, col: string)
    ensures RowCode(row, col) == PaddedCode(row, col)
  {
    StripRemovesWhitespace(CellText(row, col));
    var s := Strip(CellText(row, col));
    var p := PaddedCode(row, col);
    var pad := |p| - |s|;
    assert !IsSpace(p[0]) by {
      if pad == 0 {
        assert p == s;
      }
    }
    assert !IsSpace(p[|p| - 1]) by {
      if s != [] && !(Signed(s) && pad > 0) {
        assert p[|p| - 1] == p[pad..][|s| - 1];
      } else if s != [] && |s| > 1 {
        assert p[|p| - 1] == p[pad + 1..][|s| - 2];
      }
    }
    StripKeeps(p);
  }

  /** The index of the first record whose stock code equals `code`, or the
      number of records when there is none. */
  function FindByStock(records: seq<DirectoryRecord>, code: string): (k: nat)
    ensures k <= |records|
    ensures forall j :: 0 <= j < k ==> records[j].stockCode != code
    ensures k < |records| ==> records[k].stockCode == code
  {
    if records == [] then 0
    else if records[0].stockCode == code then 0
    else 1 + FindByStock(records[1..], code)
  }

  /** `found.iloc[0]` of `df[df['stock_code'] == code]`, when not empty. */
  function Lookup(records: seq<DirectoryRecord>, code: string): (r: Option<DirectoryRecord>)
    ensures r.Some? <==> exists k :: 0 <= k < |records| && records[k].stockCode == code
    ensures r.Some? ==> r.value.stockCode == code && r.value in records
  {
    var k := FindByStock(records, code);
    if k < |records| then Some(records[k]) else None
  }

  /** An entry of matched_companies. */
  datatype MatchedCompany = MatchedCompany(corpName: Option<string>, corpCode: Option<string>, stockCode: string)

  /** An entry of not_matched. */
  datatype UnmatchedRow = UnmatchedRow(corpName: string, stockCode: string)

  function Project(r: DirectoryRecord): MatchedCompany
  {
    MatchedCompany(r.corpName, r.corpCode, r.stockCode)
  }

  /** A row of companies.csv as the matching loop sees it: its name and its
      normalised stock code. */
  datatype Prepared = Prepared(corpName: string, code: string)

  /** The rows with the stock column zero-filled, each code stripped once
      more as the matching loop reads it. */
  function Prepare(rows: seq<InputRow>, col: string): seq<Prepared>
  {
    seq(|rows|, i requires 0 <= i < |rows| => Prepared(rows[i].corpName, RowCode(rows[i], col)))
  }

  /** Every code the loop looks up is the zero-filled cell, so it has at
      least six characters and is never the empty code of an unlisted
      company. */
  lemma PreparedCodesPadded(rows: seq<InputRow>, col: string)
    ensures forall i :: 0 <= i < |rows| ==>
      Prepare(rows, col)[i].code == PaddedCode(rows[i], col) && |Prepare(rows, col)[i].code| >= CodeWidth
  {
    forall i | 0 <= i < |rows|
      ensures Prepare(rows, col)[i].code == PaddedCode(rows[i], col)
    {
      RowCodeIsPadded(rows[i], col);
    }
  }

  /** What one row adds to matched_companies. */
  function MatchedStep(records: seq<DirectoryRecord>, p: Prepared): seq<MatchedCompany>
  {
    match Lookup(records, p.code)
    case Some(e) => [Project(e)]
    case None => []
  }

  /** What one row adds to not_matched. */
  function UnmatchedStep(records: seq<DirectoryRecord>, p: Prepared): seq<UnmatchedRow>
  {
    if Lookup(records, p.code).Some? then [] else [UnmatchedRow(p.corpName, p.code)]
  }

  /** matched_companies after the rows `ps`. */
  function MatchedPart(records: seq<DirectoryRecord>, ps: seq<Prepared>): seq<MatchedCompany>
  {
    if ps == [] then []
    else MatchedPart(records, ps[..|ps| - 1]) + MatchedStep(records, ps[|ps| - 1])
  }

  /** not_matched after the rows `ps`. */
  function UnmatchedPart(records: seq<DirectoryRecord>, ps: seq<Prepared>): seq<UnmatchedRow>
  {
    if ps == [] then []
    else UnmatchedPart(records, ps[..|ps| - 1]) + UnmatchedStep(records, ps[|ps| - 1])
  }

  lemma PartNext(records: seq<DirectoryRecord>, ps: seq<Prepared>, i: nat)
    requires i < |ps|
    ensures MatchedPart(records, ps[..i + 1]) == MatchedPart(records, ps[..i]) + MatchedStep(records, ps[i])
    ensures UnmatchedPart(records, ps[..i + 1]) == UnmatchedPart(records, ps[..i]) + UnmatchedStep(records, ps[i])
  {
    assert ps[..i + 1][..i] == ps[..i];
  }

  /** The matching loop over the rows of companies.csv, each row given with
      the code it is looked up by. */
  method Reconcile(records: seq<DirectoryRecord>, ps: seq<Prepared>)
    returns (matched: seq<MatchedCompany>, notMatched: seq<UnmatchedRow>)
    ensures matched == MatchedPart(records, ps)
    ensures notMatched == UnmatchedPart(records, ps)
  {
    matched := [];
    notMatched := [];
    var i := 0;
    while i < |ps|
      invariant 0 <= i <= |ps|
      invariant matched == MatchedPart(records, ps[..i])
      invariant notMatched == UnmatchedPart(records, ps[..i])
    {
      var row := ps[i];
      var found := Lookup(records, row.code);
      PartNext(records, ps, i);
      if found.Some? {
        matched := matched + [Project(found.value)];
      } else {
        notMatched := notMatched + [UnmatchedRow(row.corpName, row.code)];
      }
      i := i + 1;
    }
    assert ps[..i] == ps;
  }

  /** One row lands in exactly one of the two lists: in matched_companies,
      with the name and codes of the first directory record whose stock code
      equals the row's code, or in not_matched with that code. */
  lemma RowLandsOnce(records: seq<DirectoryRecord>, p: Prepared)
    ensures var k := FindByStock(records, p.code);
      if k < |records| then
        && MatchedPart(records, [p]) == [Project(records[k])]
        && UnmatchedPart(records, [p]) == []
        && records[k].stockCode == p.code
      else
        && MatchedPart(records, [p]) == []
        && UnmatchedPart(records, [p]) == [UnmatchedRow(p.corpName, p.code)]
  {
    assert [p][..0] == [];
  }

  /** Kept as a lemma: stating it inline makes the two proofs below much
      costlier for the solver. */
  lemma ConcatAssoc<T>(x: seq<T>, y: seq<T>, z: seq<T>)
    ensures (x + y) + z == x + (y + z)
  {
  }

  /** Both lists are built in input order: the rows `a + b` give the lists of
      `a` followed by the lists of `b`. */
  lemma {:induction false} MatchedAppend(records: seq<DirectoryRecord>, a: seq<Prepared>, b: seq<Prepared>)
    ensures MatchedPart(records, a + b) == MatchedPart(records, a) + MatchedPart(records, b)
    decreases |b|
  {
    if b == [] {
      assert a + b == a;
      assert MatchedPart(records, a) + [] == MatchedPart(records, a);
    } else {
      var b' := b[..|b| - 1];
      MatchedAppend(records, a, b');
      assert (a + b)[..|a + b| - 1] == a + b' && (a + b)[|a + b| - 1] == b[|b| - 1];
      ConcatAssoc(MatchedPart(records, a), MatchedPart(records, b'), MatchedStep(records, b[|b| - 1]));
    }
  }

  lemma {:induction false} UnmatchedAppend(records: seq<DirectoryRecord>, a: seq<Prepared>, b: seq<Prepared>)
    ensures UnmatchedPart(records, a + b) == UnmatchedPart(records, a) + UnmatchedPart(records, b)
    decreases |b|
  {
    if b == [] {
      assert a + b == a;
      assert UnmatchedPart(records, a) + [] == UnmatchedPart(records, a);
    } else {
      var b' := b[..|b| - 1];
      UnmatchedAppend(records, a, b');
      assert (a + b)[..|a + b| - 1] == a + b' && (a + b)[|a + b| - 1] == b[|b| - 1];
      ConcatAssoc(UnmatchedPart(records, a), UnmatchedPart(records, b'), UnmatchedStep(records, b[|b| - 1]));
    }
  }

  /** Every input row lands in exactly one list, so the two lengths add up
      to the number of rows. */
  lemma {:induction false} ReconcilePartition(records: seq<DirectoryRecord>, ps: seq<Prepared>)
    ensures |MatchedPart(records, ps)| + |UnmatchedPart(records, ps)| == |ps|
  {
    if ps != [] {
      ReconcilePartition(records, ps[..|ps| - 1]);
    }
  }

  /** Rows whose codes have at least six characters only ever match listed
      directory records. */
  lemma {:induction false} MatchedAreListed(records: seq<DirectoryRecord>, ps: seq<Prepared>)
    requires forall i :: 0 <= i < |ps| ==> |ps[i].code| >= CodeWidth
    ensures forall m :: m in MatchedPart(records, ps) ==>
      |m.stockCode| >= CodeWidth && exists r :: r in Listed(records) && m == Project(r)
  {
    if ps != [] {
      var prefix := ps[..|ps| - 1];
      var p := ps[|ps| - 1];
      MatchedAreListed(records, prefix);
      forall m | m in MatchedPart(records, ps)
        ensures |m.stockCode| >= CodeWidth && exists r :: r in Listed(records) && m == Project(r)
      {
        if m !in MatchedPart(records, prefix) {
          var found := Lookup(records, p.code);
          assert m in MatchedStep(records, p);
          assert found.Some? && m == Project(found.value);
          assert found.value in Listed(records);
        }
      }
    }
  }

  /** Every company written to companies_fixed.csv is a listed company of
      the directory. */
  lemma ReconciledAreListed(records: seq<DirectoryRecord>, col: string, rows: seq<InputRow>)
    ensures forall m :: m in MatchedPart(records, Prepare(rows, col)) ==>
      |m.stockCode| >= CodeWidth && exists r :: r in Listed(records) && m == Project(r)
  {
    PreparedCodesPadded(rows, col);
    MatchedAreListed(records, Prepare(rows, col));
  }

  // ---------------------------------------------------------------------
  // The whole script

  /** How the script ends: normally, through `exit(code)`, or in the
      catch-all handler after an unexpected exception. */
  datatype Exit = Finished | Exited(code: int) | Crashed

  /** The three CSV files the script writes (None: not written) and how it
      ends. */
  datatype ScriptRun = ScriptRun(allFile: Option<seq<DirectoryRecord>>, listedFile: Option<seq<DirectoryRecord>>,
                                 fixedFile: Option<seq<MatchedCompany>>, exit: Exit)

  /** The script after the API key check: `resp` is the corpCode.xml
      download, `input` is companies.csv (None when the file does not
      exist). */
  method RunScript(resp: DirectoryResponse, input: Option<InputTable>) returns (r: ScriptRun)
    ensures resp.status != 200 ==> r == ScriptRun(None, None, None, Exited(1))
    ensures r.allFile.Some? <==> resp.status == 200 && resp.records.Some? && Extracted(resp.records.value).Some?
    ensures r.allFile.Some? ==> r.allFile == Extracted(resp.records.value)
    ensures r.listedFile.Some? <==> r.allFile.Some? && r.allFile.value != []
    ensures r.listedFile.Some? ==> r.listedFile.value == Listed(r.allFile.value)
    ensures r.fixedFile.Some? <==>
      && r.listedFile.Some? && input.Some?
      && ChooseStockColumn(input.value.columns).Some?
      && MatchedPart(r.allFile.value, Prepare(input.value.rows, ChooseStockColumn(input.value.columns).value)) != []
    ensures r.fixedFile.Some? ==>
      r.fixedFile.value == MatchedPart(r.allFile.value, Prepare(input.value.rows, ChooseStockColumn(input.value.columns).value))
    ensures r.exit == Crashed <==> resp.status == 200 && !r.listedFile.Some?
    ensures r.exit == Exited(1) <==>
      resp.status != 200 || (r.listedFile.Some? && input.Some? && ChooseStockColumn(input.value.columns).None?)
    ensures r.exit == Finished <==>
      resp.status == 200 && r.listedFile.Some? && (input.None? || ChooseStockColumn(input.value.columns).Some?)
  {
    if resp.status != 200 {
      return ScriptRun(None, None, None, Exited(1));
    }
    if resp.records.None? {
      // the archive or the XML inside it could not be read
      return ScriptRun(None, None, None, Crashed);
    }
    var companies := ExtractCompanies(resp.records.value);
    if companies.None? {
      return ScriptRun(None, None, None, Crashed);
    }
    var df := companies.value;
    if df == [] {
      // an empty table has no `stock_code` column: the listed filter raises
      return ScriptRun(Some(df), None, None, Crashed);
    }
    var listed := Listed(df);
    if input.None? {
      // FileNotFoundError is caught and the script finishes
      return ScriptRun(Some(df), Some(listed), None, Finished);
    }
    var stockCol := ChooseStockColumn(input.value.columns);
    if stockCol.None? {
      return ScriptRun(Some(df), Some(listed), None, Exited(1));
    }
    var matched, notMatched := Reconcile(df, Prepare(input.value.rows, stockCol.value));
    var fixed := if matched != [] then Some(matched) else None;
    return ScriptRun(Some(df), Some(listed), fixed, Finished);
  }
}
