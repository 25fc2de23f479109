/** Reading the tourism API's JSON envelope: a result code of "0000" means
    success, and the page counters and item list fall back to defaults when
    the API leaves them out. */
module PublicData {
  import opened Common

  /** `response.header`; an absent key is None. */
  datatype Header = Header(resultCode: Option<string>, resultMsg: Option<string>)

  /** `response.body`; `items` is the `{ item: [...] }` wrapper. */
  datatype ApiBody<T> = ApiBody(totalCount: Option<int>, pageNo: Option<int>, numOfRows: Option<int>, items: Option<Option<seq<T>>>)

  datatype ApiResponse<T> = ApiResponse(header: Option<Header>, body: Option<ApiBody<T>>)

  /** The `data` of the HTTP reply: `{ response: { header, body } }`. */
  datatype ApiData<T> = ApiData(response: Option<ApiResponse<T>>)

  /** What `parseResponse` returns; `Thrown` is the TypeError of reading
      `body.totalCount` when a successful reply has no body. */
  datatype Parsed<T> =
    | Success(totalCount: int, pageNo: int, numOfRows: int, items: seq<T>)
    | Failed(error: string, items: seq<T>)
    | Thrown

  const SuccessCode := "0000"

  /** `data.response?.header?.resultCode === '0000'`. */
  predicate Succeeded<T>(data: ApiData<T>)
  {
    && data.response.Some?
    && data.response.value.header.Some?
    && data.response.value.header.value.resultCode == Some(SuccessCode)
  }

  /** `x || d` for a number: undefined and 0 both give d. */
  function NumberOr(x: Option<int>, d: int): (r: int)
    ensures x.Some? && x.value != 0 ==> r == x.value
    ensures x.None? || x.value == 0 ==> r == d
  {
    if x.Some? && x.value != 0 then x.value else d
  }

  /** `x || d` for a string: undefined and "" both give d. */
  function TextOr(x: Option<string>, d: string): (r: string)
    ensures x.Some? && x.value != "" ==> r == x.value
    ensures x.None? || x.value == "" ==> r == d
  {
    if x.Some? && x.value != "" then x.value else d
  }

  /** `parseResponse`. */
  function ParseResponse<T>(data: ApiData<T>): (r: Parsed<T>)
    ensures r.Success? || r.Thrown? <==> Succeeded(data)
    ensures r.Thrown? <==> Succeeded(data) && data.response.value.body.None?
    ensures r.Success? ==>
      var body := data.response.value.body.value;
      && r.totalCount == NumberOr(body.totalCount, 0)
      && r.pageNo == NumberOr(body.pageNo, 1)
      && r.numOfRows == NumberOr(body.numOfRows, 0)
      && (body.items.Some? && body.items.value.Some? ==> r.items == body.items.value.value)
      && (body.items.None? || body.items.value.None? ==> r.items == [])
    ensures r.Failed? ==> r.items == []
    ensures r.Failed? && (data.response.None? || data.response.value.header.None?) ==> r.error == "Unknown error"
    ensures r.Failed? && data.response.Some? && data.response.value.header.Some? ==>
      r.error == TextOr(data.response.value.header.value.resultMsg, "Unknown error")
  {
    if Succeeded(data) then
      var body := data.response.value.body;
      if body.None? then Thrown
      else
        Success(
          NumberOr(body.value.totalCount, 0),
          NumberOr(body.value.pageNo, 1),
          NumberOr(body.value.numOfRows, 0),
          if body.value.items.Some? && body.value.items.value.Some? then body.value.items.value.value else [])
    else
      var msg := if data.response.Some? && data.response.value.header.Some?
                 then data.response.value.header.value.resultMsg else None;
      Failed(TextOr(msg, "Unknown error"), [])
  }

  /** A reply without a response or without a header is a failure, never a
      success and never a crash. */
  lemma MissingEnvelopeFails<T>(data: ApiData<T>)
    requires data.response.None? || data.response.value.header.None?
    ensures ParseResponse(data) == Failed("Unknown error", [])
  {
  }

  /** Any other result code fails with the API's message, and the caller
      always gets an empty item list. */
  lemma OtherCodeFails<T>(header: Header, body: Option<ApiBody<T>>)
    requires header.resultCode != Some(SuccessCode)
    ensures ParseResponse(ApiData(Some(ApiResponse(Some(header), body)))) == Failed(TextOr(header.resultMsg, "Unknown error"), [])
  {
  }

  /** A successful empty page: no counters and no items read as total 0,
      page 1, 0 rows and an empty list; so does a page number of 0. */
  lemma EmptySuccess<T>(msg: Option<string>, zeroPage: bool)
    ensures var body: ApiBody<T> := ApiBody(None, if zeroPage then Some(0) else None, None, None);
      ParseResponse(ApiData(Some(ApiResponse(Some(Header(Some(SuccessCode), msg)), Some(body))))) == Success(0, 1, 0, [])
  {
  }
}
