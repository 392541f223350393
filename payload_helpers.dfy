/** Conversions between a payload lookup result as the server keeps it
    (DomainResult, juju's payload.Result) and as it travels over the
    API (PayloadResult): the payload's ID becomes a payload tag, the error
    is wrapped by ServerError and unwrapped by RestoreError, and the
    NotFound flag is copied across. The conversion of a payload's body is
    handed in as a pair of functions, since the fields it fills are not
    determined by the fields it reads. */
module PayloadHelpers {
  import opened Wrappers
  import opened ApiErrors

  const PayloadTagPrefix := "payload-"

  /** names.NewPayloadTag(id).String(). */
  function PayloadTag(id: string): (tag: string)
    ensures PayloadTagPrefix <= tag
    ensures |tag| == |PayloadTagPrefix| + |id| && tag[|PayloadTagPrefix|..] == id
  {
    PayloadTagPrefix + id
  }

  /** Recovers the ID from a payload tag; anything else is not a payload tag. */
  function ParsePayloadTag(tag: string): (r: Result<string, Error>)
    ensures r.Success? <==> PayloadTagPrefix <= tag
    ensures r.Success? ==> PayloadTag(r.value) == tag
  {
    if PayloadTagPrefix <= tag then Success(tag[|PayloadTagPrefix|..])
    else Failure(OtherError("not a payload tag"))
  }

  lemma ParsePayloadTagInverse(id: string)
    ensures ParsePayloadTag(PayloadTag(id)) == Success(id)
  {
    assert PayloadTagPrefix <= PayloadTag(id);
  }

  /** An API-side payload body and a server-side one; their conversion is
      a parameter of the functions below. */
  datatype ApiPayload = ApiPayload(className: string, typ: string, id: string, status: string)
  datatype FullPayloadInfo = FullPayloadInfo(className: string, typ: string, id: string, status: string, unit: string, machine: string)

  /** payload.Result. */
  datatype DomainResult = DomainResult(id: string, payload: Option<FullPayloadInfo>, notFound: bool, error: Option<Error>)

  /** The API's PayloadResult: the entity's tag, the body, the flag and the error. */
  datatype PayloadResult = PayloadResult(tag: string, payload: Option<ApiPayload>, notFound: bool, error: Option<ParamsError>)

  function ServerErrorOf(e: Option<Error>): (p: Option<ParamsError>)
    ensures p.Some? <==> e.Some?
    ensures e.Some? ==> RestoreError(p.value) == e.value
  {
    if e.Some? then Some(ServerError(e.value)) else None
  }

  /** The result of looking up payload id: no body, NotFound set exactly
      when err is a not-found error, and the error wrapped by ServerError. */
  function NewPayloadResult(id: string, err: Option<Error>): (r: PayloadResult)
    ensures r.tag == PayloadTag(id) && r.payload.None?
    ensures r.notFound <==> err.Some? && IsNotFound(err.value)
    ensures r.error.Some? <==> err.Some?
    ensures err.Some? ==> r.error == Some(ServerError(err.value))
  {
    PayloadResult(PayloadTag(id), None, err.Some? && IsNotFound(err.value), ServerErrorOf(err))
  }

  /** Server side to API side. NotFound is copied, not derived from the error. */
  function Result2api(r: DomainResult, toApi: FullPayloadInfo -> ApiPayload): (p: PayloadResult)
    ensures p.tag == PayloadTag(r.id)
    ensures p.notFound == r.notFound
    ensures p.payload.Some? <==> r.payload.Some?
    ensures r.payload.Some? ==> p.payload.value == toApi(r.payload.value)
    ensures p.error.Some? <==> r.error.Some?
    ensures r.error.Some? ==> p.error.value == ServerError(r.error.value)
  {
    PayloadResult(
      PayloadTag(r.id),
      if r.payload.Some? then Some(toApi(r.payload.value)) else None,
      r.notFound,
      ServerErrorOf(r.error))
  }

  /** API side to server side: fails when the tag is not a payload tag or
      the body does not convert. NotFound is copied, not derived. */
  function API2Result(p: PayloadResult, fromApi: ApiPayload -> Result<FullPayloadInfo, Error>): (r: Result<DomainResult, Error>)
    ensures r.Success? <==> ParsePayloadTag(p.tag).Success? && (p.payload.Some? ==> fromApi(p.payload.value).Success?)
    ensures r.Success? ==> PayloadTag(r.value.id) == p.tag
    ensures r.Success? ==> r.value.notFound == p.notFound
    ensures r.Success? ==> (r.value.payload.Some? <==> p.payload.Some?)
    ensures r.Success? && p.payload.Some? ==> r.value.payload == Some(fromApi(p.payload.value).value)
    ensures r.Success? ==> (r.value.error.Some? <==> p.error.Some?)
    ensures r.Success? && p.error.Some? ==> r.value.error == Some(RestoreError(p.error.value))
  {
    var id := ParsePayloadTag(p.tag);
    if id.Failure? then Failure(id.error)
    else if p.payload.Some? && fromApi(p.payload.value).Failure? then Failure(fromApi(p.payload.value).error)
    else
      Success(DomainResult(
        id.value,
        if p.payload.Some? then Some(fromApi(p.payload.value).value) else None,
        p.notFound,
        if p.error.Some? then Some(RestoreError(p.error.value)) else None))
  }

  /** NewPayloadResult is Result2api of the lookup it describes. */
  lemma NewPayloadResultIsResult2api(id: string, err: Option<Error>, toApi: FullPayloadInfo -> ApiPayload)
    ensures NewPayloadResult(id, err) ==
      Result2api(DomainResult(id, None, err.Some? && IsNotFound(err.value), err), toApi)
  {
  }

  /** Without a body, API2Result undoes Result2api, whatever the error. */
  lemma ResultRoundTrip(r: DomainResult, toApi: FullPayloadInfo -> ApiPayload, fromApi: ApiPayload -> Result<FullPayloadInfo, Error>)
    requires r.payload.None?
    ensures API2Result(Result2api(r, toApi), fromApi) == Success(r)
  {
    ParsePayloadTagInverse(r.id);
    if r.error.Some? {
      ServerErrorRoundTrip(r.error.value, ParamsError("", ""));
    }
  }

  /** Without a body, Result2api undoes API2Result on every payload tag and
      every error in the form ServerError produces. */
  lemma ApiRoundTrip(p: PayloadResult, toApi: FullPayloadInfo -> ApiPayload, fromApi: ApiPayload -> Result<FullPayloadInfo, Error>)
    requires p.payload.None? && PayloadTagPrefix <= p.tag
    requires p.error.Some? ==> Canonical(p.error.value)
    ensures API2Result(p, fromApi).Success?
    ensures Result2api(API2Result(p, fromApi).value, toApi) == p
  {
    if p.error.Some? {
      ServerErrorRoundTrip(OtherError(""), p.error.value);
    }
  }

  /** A not-found error that crosses the API keeps its kind but does not set
      NotFound, in either direction. */
  lemma NotFoundErrorDoesNotSetFlag(id: string, m: string, toApi: FullPayloadInfo -> ApiPayload, fromApi: ApiPayload -> Result<FullPayloadInfo, Error>)
    ensures Result2api(DomainResult(id, None, false, Some(NotFound(m))), toApi).notFound == false
    ensures var back := API2Result(PayloadResult(PayloadTag(id), None, false, Some(ServerError(NotFound(m)))), fromApi);
      back == Success(DomainResult(id, None, false, Some(NotFound(m))))
  {
    ParsePayloadTagInverse(id);
  }
}
