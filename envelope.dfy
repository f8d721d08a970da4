/**
 * The rule every repository repeats to turn one HTTP exchange into a kotlin.Result.
 *
 * A call either throws (`Exn`, carrying the exception's possibly-null message) or
 * returns an HTTP response (`Resp`) whose body, when it parsed, is the server's
 * `{success, message, data}` envelope. The result is a success only when the HTTP
 * status was successful AND the envelope says `success == true`; every failure is a
 * message string.
 */
module Envelope {
  import opened Wrappers

  datatype ApiResponse<T> = ApiResponse(success: bool, message: Option<string>, data: Option<T>)

  datatype Response<T> =
    | Exn(exnMessage: Option<string>)
    | Resp(isSuccessful: bool, body: Option<ApiResponse<T>>)

  /** A value in a JSON request body that a repository builds as a `Map<String, Any>`. */
  datatype BodyValue = StringValue(s: string) | DoubleValue(x: real) | IntValue(n: int)

  const ConnectionPrefix: string := "Tidak dapat terhubung ke server: "

  /**
   * `"Tidak dapat terhubung ke server: ${e.message}"`; string templates render a
   * null message as the four letters "null".
   */
  function ConnectionFailure(exnMessage: Option<string>): (m: string)
    ensures ConnectionPrefix <= m
    ensures exnMessage.Some? ==> m[|ConnectionPrefix|..] == exnMessage.value
    ensures exnMessage.None? ==> m[|ConnectionPrefix|..] == "null"
  {
    ConnectionPrefix + exnMessage.GetOr("null")
  }

  /** The message of an exception can be read back from the failure it produced. */
  lemma ConnectionFailureInjective(a: string, b: string)
    requires ConnectionFailure(Some(a)) == ConnectionFailure(Some(b))
    ensures a == b
  {
    assert a == ConnectionFailure(Some(a))[|ConnectionPrefix|..];
  }

  /** `response.isSuccessful && response.body()?.success == true`. */
  function Accepted<T>(r: Response<T>): (ok: bool)
    ensures r.Exn? ==> !ok
    ensures r.Resp? && (!r.isSuccessful || r.body.None?) ==> !ok
    ensures ok ==> r.Resp? && r.body.Some? && r.body.value.success
  {
    r.Resp? && r.isSuccessful && r.body.Some? && r.body.value.success
  }

  /** `response.body()?.message`. */
  function BodyMessage<T>(r: Response<T>): (m: Option<string>)
    requires r.Resp?
    ensures m.Some? <==> r.body.Some? && r.body.value.message.Some?
    ensures m.Some? ==> m.value == r.body.value.message.value
  {
    match r.body
    case None => None
    case Some(b) => b.message
  }

  /** `response.body()?.data`. */
  function BodyData<T>(r: Response<T>): (d: Option<T>)
    requires r.Resp?
    ensures d.Some? <==> r.body.Some? && r.body.value.data.Some?
    ensures d.Some? ==> d.value == r.body.value.data.value
  {
    match r.body
    case None => None
    case Some(b) => b.data
  }

  /** The failure message of a response that was not accepted: the server's, else the fallback. */
  function Rejection<T>(r: Response<T>, fallback: string): (m: string)
    requires r.Resp?
    ensures BodyMessage(r).Some? ==> m == BodyMessage(r).value
    ensures BodyMessage(r).None? ==> m == fallback
  {
    BodyMessage(r).GetOr(fallback)
  }

  /**
   * A call that returns one entity: an accepted envelope without data fails with
   * `invalid`; otherwise the data is mapped by `f`.
   */
  function Single<T, D>(r: Response<T>, f: T -> D, invalid: string, fallback: string): (res: Result<D, string>)
    ensures res.Success? <==> Accepted(r) && BodyData(r).Some?
    ensures res.Success? ==> res.value == f(BodyData(r).value)
    ensures r.Exn? ==> res == Failure(ConnectionFailure(r.exnMessage))
    ensures Accepted(r) && BodyData(r).None? ==> res == Failure(invalid)
    ensures r.Resp? && !Accepted(r) ==> res == Failure(Rejection(r, fallback))
  {
    match r
    case Exn(m) => Failure(ConnectionFailure(m))
    case Resp(_, _) =>
      if !Accepted(r) then Failure(Rejection(r, fallback))
      else match BodyData(r)
        case None => Failure(invalid)
        case Some(d) => Success(f(d))
  }

  /** Kotlin's `List.map`. */
  function MapSeq<A, B>(f: A -> B, s: seq<A>): (r: seq<B>)
    ensures |r| == |s|
    ensures forall i :: 0 <= i < |s| ==> r[i] == f(s[i])
  {
    if s == [] then [] else [f(s[0])] + MapSeq(f, s[1..])
  }

  /** `out` is `dtos` mapped one by one by `f`: same length, same order. */
  ghost predicate InOrder<E, D>(f: E -> D, dtos: seq<E>, out: seq<D>) {
    |out| == |dtos| && forall i :: 0 <= i < |out| ==> out[i] == f(dtos[i])
  }

  /**
   * A call that returns a list: an accepted envelope without data is an empty
   * success, not a failure; otherwise the `items` of the data are mapped one by
   * one, in order.
   */
  function Many<T, E, D>(r: Response<T>, items: T -> seq<E>, f: E -> D, fallback: string): (res: Result<seq<D>, string>)
    ensures res.Success? <==> Accepted(r)
    ensures Accepted(r) && BodyData(r).None? ==> res == Success([])
    ensures Accepted(r) && BodyData(r).Some? ==> InOrder(f, items(BodyData(r).value), res.value)
    ensures r.Exn? ==> res == Failure(ConnectionFailure(r.exnMessage))
    ensures r.Resp? && !Accepted(r) ==> res == Failure(Rejection(r, fallback))
  {
    match r
    case Exn(m) => Failure(ConnectionFailure(m))
    case Resp(_, _) =>
      if !Accepted(r) then Failure(Rejection(r, fallback))
      else match BodyData(r)
        case None => Success([])
        case Some(d) => Success(MapSeq(f, items(d)))
  }

  /**
   * A call whose data is ignored (deletes, registration): success carries the
   * server's message, else `done`.
   */
  function MessageOnly<T>(r: Response<T>, done: string, fallback: string): (res: Result<string, string>)
    ensures res.Success? <==> Accepted(r)
    ensures res.Success? ==> res.value == BodyMessage(r).GetOr(done)
    ensures r.Exn? ==> res == Failure(ConnectionFailure(r.exnMessage))
    ensures r.Resp? && !Accepted(r) ==> res == Failure(Rejection(r, fallback))
  {
    match r
    case Exn(m) => Failure(ConnectionFailure(m))
    case Resp(_, _) =>
      if Accepted(r) then Success(BodyMessage(r).GetOr(done))
      else Failure(Rejection(r, fallback))
  }

  /**
   * When the server explains a rejection, the app shows exactly the server's words,
   * whatever the operation's fallback (a duplicate category name, say).
   */
  lemma ServerMessageWins<T, D>(r: Response<T>, f: T -> D, invalid: string, fallback: string, message: string)
    requires r.Resp? && r.body.Some? && r.body.value.message == Some(message)
    requires !r.isSuccessful || !r.body.value.success
    ensures Single(r, f, invalid, fallback) == Failure(message)
  {
  }

  /** An exception never escapes: it always becomes a failure that starts with the connection prefix. */
  lemma ExceptionsNeverSucceed<T, D>(m: Option<string>, f: T -> D, invalid: string, fallback: string)
    ensures Single(Exn(m), f, invalid, fallback).Failure?
    ensures ConnectionPrefix <= Single(Exn(m), f, invalid, fallback).error
  {
  }
}
