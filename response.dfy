/** The JSON envelope every API handler answers with: an error message
    (empty on success) and a payload. */
module Response {

  /** A value of Go's `any` type: either `nil` or some boxed value. */
  datatype Dynamic<V> = Nil | Boxed(value: V)

  /** `Response[T]`: `ErrorMsg` is serialised as `error_msg`, `Data` as `data`. */
  datatype Response<T> = Response(errorMsg: string, data: T)

  /** A response reads as a failure exactly when its message is non-empty. */
  predicate IsError<T>(r: Response<T>) {
    r.errorMsg != ""
  }

  /** `OK(data)`: the payload is carried unchanged; the message keeps Go's
      zero value, the empty string. */
  function OK<T>(data: T): (r: Response<T>)
    ensures r.data == data
    ensures r.errorMsg == ""
    ensures !IsError(r)
  {
    Response("", data)
  }

  /** `OKNil()`: a success whose payload is `nil`. */
  function OKNil<V>(): (r: Response<Dynamic<V>>)
    ensures r.data == Nil
    ensures r.errorMsg == ""
    ensures !IsError(r)
  {
    Response("", Nil)
  }

  /** `Err(msg)`: the message is carried unchanged and the payload is `nil`. */
  function Err<V>(msg: string): (r: Response<Dynamic<V>>)
    ensures r.errorMsg == msg
    ensures r.data == Nil
    ensures IsError(r) <==> msg != ""
  {
    Response(msg, Nil)
  }

  /** The three constructors are told apart only by the message: `Err("")`
      is the very same value as `OKNil()`, and any other message differs. */
  lemma ErrDiffersFromOKNilOnlyByMessage<V>(msg: string)
    ensures Err<V>(msg) == OKNil<V>() <==> msg == ""
  {
  }

  /** `OK(nil)` at type `any` coincides with `OKNil()`. */
  lemma OKOfNilIsOKNil<V>()
    ensures OK<Dynamic<V>>(Nil) == OKNil<V>()
  {
  }
}
