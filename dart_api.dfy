/** The disclosure API as the collector sees it: the answers of its four
    endpoints (corpCode.xml, company.json, list.json, document.xml) and the
    rules by which data_collector.py turns each answer into a success or a
    failure. Every network call is replaced by a value of `Remote`. */
module DartApi {
  import opened Text

  /** The text of one child element of a `<list>` record of CORPCODE.xml:
      the element is missing (`find` gives None, so reading `.text` raises),
      present without text (`.text` is None), or present with text. */
  datatype Field = Absent | NoText | HasText(text: string)

  /** One `<list>` record of the registry directory. */
  datatype CorpEntry = CorpEntry(corpCode: Field, corpName: Field, stockCode: Field, modifyDate: Field)

  /** The answer of corpCode.xml: its HTTP status and, when the ZIP archive
      and the XML inside it could be read, the records in document order. */
  datatype DirectoryResponse = DirectoryResponse(status: int, records: Option<seq<CorpEntry>>)

  /** One summary of the `list` array that list.json returns; a key that is
      missing from the JSON object is None. */
  datatype FilingSummary = FilingSummary(rceptNo: Option<string>, reportNm: Option<string>)

  /** A decoded JSON body: Unparsable when `response.json()` or `data.get`
      raises, otherwise the object's `status` and `list` members. */
  datatype JsonBody = Unparsable | Object(status: Option<string>, list: Option<seq<FilingSummary>>)

  datatype JsonResponse = JsonResponse(httpStatus: int, body: JsonBody)

  /** A remote request, as logged by the collector. */
  datatype Call =
    | DirectoryCall
    | ProfileCall(corpCode: string)
    | FilingListCall(corpCode: string, bgnDe: string, endDe: string)
    | DocumentCall(rceptNo: string)

  /** The points of one company's pipeline at which a KeyboardInterrupt or an
      unexpected exception is taken to arrive. */
  datatype Stage = BeforeResolve | BeforeProfile | BeforeFilings | BeforeRecord

  datatype FaultKind = Interrupt | Raise(message: string)

  /** Everything outside the process: the answer of each endpoint as a
      function of its request parameters, the HTTP status of each document
      download, and the fault (if any) that hits the company at position
      `idx` of the input list at a given stage. */
  datatype Remote = Remote(
    directory: DirectoryResponse,
    profile: string -> JsonResponse,
    filings: (string, string, string) -> JsonResponse,
    document: string -> int,
    fault: (nat, Stage) -> Option<FaultKind>)

  /** The `status` value by which the API reports success. */
  const StatusOk: string := "000"

  /** The JSON answer is a success: HTTP 200 and `status == "000"`. */
  predicate Accepted(r: JsonResponse)
  {
    r.httpStatus == 200 && r.body.Object? && r.body.status == Some(StatusOk)
  }

  /** get_corp_info: the profile payload, or None for every other outcome. */
  function ProfileGate(r: JsonResponse): (info: Option<JsonBody>)
    ensures info.Some? <==> r.httpStatus == 200 && r.body.Object? && r.body.status == Some(StatusOk)
    ensures info.Some? ==> info.value == r.body
  {
    if Accepted(r) then Some(r.body) else None
  }

  /** get_filings_list: the `list` member of an accepted answer (an absent
      member reads as empty), and the empty list for every other outcome. */
  function FilingsGate(r: JsonResponse): (fs: seq<FilingSummary>)
    ensures fs != [] ==> r.httpStatus == 200 && r.body.Object? && r.body.status == Some(StatusOk)
                         && r.body.list == Some(fs)
    ensures Accepted(r) && r.body.list.Some? ==> fs == r.body.list.value
  {
    if Accepted(r) && r.body.list.Some? then r.body.list.value else []
  }

  /** download_filing: only HTTP 200 counts as a downloaded document. */
  predicate DocumentGate(status: int)
  {
    status == 200
  }

  // ---------------------------------------------------------------------
  // Directory lookup (get_corp_code)

  /** The record's name is non-empty and contains the query as a substring. */
  predicate NameMatches(e: CorpEntry, query: string)
  {
    e.corpName.HasText? && e.corpName.text != "" && Contains(e.corpName.text, query)
  }

  /** The scan ends at this record: reading its name raises, or it matches. */
  predicate Stops(e: CorpEntry, query: string)
  {
    e.corpName.Absent? || NameMatches(e, query)
  }

  /** The index at which the scan over `records` ends (|records| if none). */
  function FirstStop(records: seq<CorpEntry>, query: string): (k: nat)
    ensures k <= |records|
    ensures forall j :: 0 <= j < k ==> !Stops(records[j], query)
    ensures k < |records| ==> Stops(records[k], query)
  {
    if records == [] then 0
    else if Stops(records[0], query) then 0
    else 1 + FirstStop(records[1..], query)
  }

  /** What the lookup returns at the record where the scan ended: the text
      of `corp_code`, or None when that text is None or when reading
      `corp_name`, `corp_code` or `stock_code` raises. */
  function CodeAt(e: CorpEntry): Option<string>
  {
    if e.corpName.Absent? || e.corpCode.Absent? || e.stockCode.Absent? then None
    else if e.corpCode.HasText? then Some(e.corpCode.text)
    else None
  }

  /** get_corp_code: the registry code the lookup returns for `query`. */
  function Resolve(resp: DirectoryResponse, query: string): Option<string>
  {
    if resp.status != 200 || resp.records.None? then None
    else
      var records := resp.records.value;
      var k := FirstStop(records, query);
      if k == |records| then None else CodeAt(records[k])
  }

  /** `records[k]` is the first record whose name contains the query, and no
      record before it made the scan raise. */
  ghost predicate IsFirstMatch(records: seq<CorpEntry>, query: string, k: int)
  {
    && 0 <= k < |records|
    && NameMatches(records[k], query)
    && forall j :: 0 <= j < k ==> records[j].corpName != Absent && !NameMatches(records[j], query)
  }

  /** The lookup returns a code exactly when the answer was HTTP 200 with a
      readable directory and the first matching record carries a
      `corp_code` text and a `stock_code` element; the code returned is that
      record's `corp_code`. */
  lemma ResolveIsFirstMatch(resp: DirectoryResponse, query: string)
    ensures Resolve(resp, query).Some? <==>
      && resp.status == 200 && resp.records.Some?
      && exists k :: IsFirstMatch(resp.records.value, query, k)
                     && resp.records.value[k].corpCode.HasText?
                     && !resp.records.value[k].stockCode.Absent?
    ensures Resolve(resp, query).Some? ==>
      exists k :: IsFirstMatch(resp.records.value, query, k)
                  && Resolve(resp, query).value == resp.records.value[k].corpCode.text
  {
    if resp.status == 200 && resp.records.Some? {
      var records := resp.records.value;
      var k := FirstStop(records, query);
      forall k' | IsFirstMatch(records, query, k') ensures k' == k {
      }
      if k < |records| && records[k].corpName != Absent {
        assert IsFirstMatch(records, query, k);
      }
    }
  }
}
