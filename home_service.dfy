/** How `fetchSpoonCount` turns the provider's answer into a spoon count or one error. */
module HomeService {
  import opened Common

  datatype SpoonResponse = SpoonResponse(spoonAmount: int)

  /** The decoded envelope `BaseResponse<SpoonResponse>`. */
  datatype BaseResponse = BaseResponse(success: bool, data: Option<SpoonResponse>)

  /** What mapping the response body to the envelope produced. */
  datatype Decoding = Decoded(envelope: BaseResponse) | DecodeFailed

  /** The provider's completion: a response whose body was decoded (or not), or a
      transport failure. */
  datatype ProviderResult = Delivered(body: Decoding) | TransportFailed

  /** The single value or error the continuation is resumed with. */
  function SpoonCountOutcome(r: ProviderResult): (o: Result<int, APIError>)
    ensures o.Success? <==>
      r.Delivered? && r.body.Decoded? && r.body.envelope.success && r.body.envelope.data.Some?
    ensures o.Success? ==> o.value == r.body.envelope.data.value.spoonAmount
    ensures o == Failure(ResponseError) <==>
      r.Delivered? && r.body.Decoded? && (!r.body.envelope.success || r.body.envelope.data.None?)
    ensures o == Failure(DecodingError) <==> r.Delivered? && r.body.DecodeFailed?
    ensures o == Failure(InvalidResponse) <==> r.TransportFailed?
  {
    match r
    case Delivered(body) =>
      (match body
       case Decoded(envelope) =>
         if envelope.success && envelope.data.Some? then Success(envelope.data.value.spoonAmount)
         else Failure(ResponseError)
       case DecodeFailed => Failure(DecodingError))
    case TransportFailed => Failure(InvalidResponse)
  }
}
