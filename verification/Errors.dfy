/** Error chains and their way across the RPC boundary (err/biz, err/comm, handler/http_result.go). */
module Errors {
  import opened Common
  import opened Decimal

  type Int32 = i: int | -0x8000_0000 <= i < 0x8000_0000

  /** `codes.Code` is unsigned. */
  type Code = c: nat | c < 0x1_0000_0000

  const SERVER_ERROR: string := "抱歉，系统繁忙，请稍后重试！"
  const OK_CODE: Code := 0
  const UNKNOWN_CODE: Code := 2

  /** Go errors: nil, errors without a cause, the framework's two wrappers, and gRPC status errors. */
  datatype Error =
    | Nil
    | Plain(message: string)
    | Biz(code: Int32, message: string, cause: Error)
    | Comm(code: Int32, message: string, cause: Error)
    | Status(status: Code, message: string)

  datatype BizInfo = BizInfo(code: Int32, message: string)

  const CODE_NAMES: seq<string> := [
    "OK", "Canceled", "Unknown", "InvalidArgument", "DeadlineExceeded", "NotFound", "AlreadyExists",
    "PermissionDenied", "ResourceExhausted", "FailedPrecondition", "Aborted", "OutOfRange",
    "Unimplemented", "Internal", "Unavailable", "DataLoss", "Unauthenticated"]

  function CodeName(code: Code): string {
    if code < |CODE_NAMES| then CODE_NAMES[code] else "Code(" + FormatInt(code) + ")"
  }

  /** What `Error()` returns; a status error puts its code in front of its message. */
  function Text(e: Error): string {
    match e
    case Nil => ""
    case Status(code, message) => "rpc error: code = " + CodeName(code) + " desc = " + message
    case _ => e.message
  }

  function IsBizErrorOrCause(e: Error): Option<BizInfo> {
    match e
    case Biz(code, message, _) => Some(BizInfo(code, message))
    case Comm(_, _, cause) => IsBizErrorOrCause(cause)
    case _ => None
  }

  /** The errors of a chain from the outside in. */
  function Chain(e: Error): seq<Error> {
    [e] + if e.Biz? || e.Comm? then Chain(e.cause) else []
  }

  predicate FirstBiz(chain: seq<Error>, i: nat) {
    i < |chain| && chain[i].Biz? && forall j :: 0 <= j < i ==> !chain[j].Biz?
  }

  /** The classification finds the outermost biz error of the chain, and finds one if there is any. */
  lemma {:induction false} FindsTheOutermostBiz(e: Error) returns (at: nat)
    ensures match IsBizErrorOrCause(e)
      case Some(b) => FirstBiz(Chain(e), at) && b == BizInfo(Chain(e)[at].code, Chain(e)[at].message)
      case None => forall i :: 0 <= i < |Chain(e)| ==> !Chain(e)[i].Biz?
  {
    at := 0;
    if e.Comm? {
      var below := FindsTheOutermostBiz(e.cause);
      at := below + 1;
      var rest := Chain(e.cause);
      assert Chain(e) == [e] + rest;
      assert forall i :: 0 < i < |Chain(e)| ==> Chain(e)[i] == rest[i - 1];
    }
  }

  // ---------------------------------------------------------------------------------------
  // The RPC boundary
  // ---------------------------------------------------------------------------------------

  /** A conversion from int32 wraps, and back. */
  function ToCode(i: Int32): Code {
    if i < 0 then i + 0x1_0000_0000 else i
  }

  function FromCode(c: Code): Int32 {
    if c < 0x8000_0000 then c else c - 0x1_0000_0000
  }

  /** `status.Error` gives no error for the code OK. */
  function StatusError(code: Code, message: string): Error {
    if code == OK_CODE then Nil else Status(code, message)
  }

  function ErrorInterceptor(e: Error): Error {
    var b := IsBizErrorOrCause(e);
    if b.Some? then StatusError(ToCode(b.value.code), b.value.message) else e
  }

  /** The wire carries signed 32-bit codes, and none of them negative. */
  type WireCode = c: nat | c < 0x8000_0000

  datatype Carried = Carried(code: WireCode, message: string)

  /** What the client's library makes of a code that the wire does not carry: some status with one that it does. */
  type Wire = (Code, string) -> Carried

  /** A status with a code that fits arrives as it is; errors without a status arrive as Unknown. */
  function Transport(w: Wire, e: Error): Error {
    match e
    case Nil => e
    case Status(code, message) =>
      if code < 0x8000_0000 then e else StatusError(w(code, message).code, w(code, message).message)
    case _ => Status(UNKNOWN_CODE, Text(e))
  }

  datatype Result = Result(message: string, code: int)

  /** nil counts as a status, with code OK and no message. */
  function ExceptionFail(e: Error): Result {
    if e.Nil? then Result("", OK_CODE)
    else if e.Status? && e.status != UNKNOWN_CODE then Result(e.message, FromCode(e.status))
    else
      var b := IsBizErrorOrCause(e);
      if b.Some? then Result(b.value.message, b.value.code) else Result(SERVER_ERROR, 500)
  }

  function Remote(w: Wire, e: Error): Result {
    ExceptionFail(Transport(w, ErrorInterceptor(e)))
  }

  /**
   Errors survive the RPC boundary: the client shows what the server would have shown, except
   exactly for biz code 2, which the client takes for Unknown, for biz code 0, whose error
   becomes no error and loses its message, and for negative codes and status codes above 31
   bits, which the wire does not carry.
   */
  lemma RemoteShowsWhatLocalShows(w: Wire, e: Error)
    ensures Remote(w, e) == ExceptionFail(e) <==>
      match IsBizErrorOrCause(e)
      case None => e.Status? ==> e.status < 0x8000_0000
      case Some(b) => b.code >= 0 && b.code != 2 && (b.code == 0 ==> b.message == "")
  {
    var b := IsBizErrorOrCause(e);
    if b.None? && !e.Status? && !e.Nil? {
      assert IsBizErrorOrCause(Transport(w, e)).None?;
    }
  }

  /**
   What is shown of an error: of a status its message and signed code, unless it is Unknown; of a
   chain the message and code of its outermost biz error, if there is one; of everything else
   that the system is busy.
   */
  lemma ShowsOutright(e: Error) returns (at: nat)
    ensures ExceptionFail(e) ==
      match e
      case Nil => Result("", 0)
      case Status(status, message) =>
        if status == 2 then Result("抱歉，系统繁忙，请稍后重试！", 500)
        else Result(message, if status < 0x8000_0000 then status else status - 0x1_0000_0000)
      case _ =>
        if FirstBiz(Chain(e), at) then Result(Chain(e)[at].message, Chain(e)[at].code)
        else Result("抱歉，系统繁忙，请稍后重试！", 500)
    ensures FirstBiz(Chain(e), at) || forall i :: 0 <= i < |Chain(e)| ==> !Chain(e)[i].Biz?
  {
    at := FindsTheOutermostBiz(e);
  }

  /** What the client shows in the two exceptional cases. */
  lemma LostCodes(w: Wire, e: Error)
    requires IsBizErrorOrCause(e).Some? && IsBizErrorOrCause(e).value.code in {0, 2}
    ensures Remote(w, e) ==
      if IsBizErrorOrCause(e).value.code == 0 then Result("", 0)
      else Result("抱歉，系统繁忙，请稍后重试！", 500)
  {
  }

  // ---------------------------------------------------------------------------------------
  // Wrapping
  // ---------------------------------------------------------------------------------------

  /** The message of a wrapper: the error's text, or for nil what `%v` prints. */
  function WrapText(e: Error): string {
    if e.Nil? then "<nil>" else Text(e)
  }

  function BizWrap(e: Error): Error {
    Biz(500, WrapText(e), e)
  }

  function CommWrap(e: Error): Error {
    Comm(500, WrapText(e), e)
  }

  function CommWrapAll(e: Error, times: nat): Error {
    if times == 0 then e else CommWrap(CommWrapAll(e, times - 1))
  }

  /** Both wrappers have code 500, the cause, and for a message what the cause prints. */
  lemma WrapsOutright(e: Error)
    ensures BizWrap(e).Biz? && BizWrap(e).code == 500 && BizWrap(e).cause == e
    ensures CommWrap(e).Comm? && CommWrap(e).code == 500 && CommWrap(e).cause == e
    ensures BizWrap(e).message == CommWrap(e).message
    ensures e.Nil? ==> BizWrap(e).message == "<nil>"
    ensures e.Plain? || e.Biz? || e.Comm? ==> BizWrap(e).message == e.message
  {
  }

  /** A status prints its code by name or, beyond the names, by number. */
  lemma StatusPrintsItsCode(message: string, code: Code)
    requires code > 16
    ensures BizWrap(Status(5, message)).message == "rpc error: code = " + "NotFound" + " desc = " + message
    ensures BizWrap(Status(code, message)).message ==
      "rpc error: code = " + ("Code(" + FormatInt(code) + ")") + " desc = " + message
  {
    assert CodeName(5) == "NotFound";
  }

  /** However often a common wrapper is put around it, an error is shown the same, locally and remotely. */
  lemma {:induction false} CommonWrappersAreTransparent(w: Wire, e: Error, times: nat)
    requires IsBizErrorOrCause(e).Some?
    ensures IsBizErrorOrCause(CommWrapAll(e, times)) == IsBizErrorOrCause(e)
    ensures ExceptionFail(CommWrapAll(e, times)) == ExceptionFail(e)
    ensures Remote(w, CommWrapAll(e, times)) == Remote(w, e)
  {
    if times > 0 {
      CommonWrappersAreTransparent(w, e, times - 1);
    }
  }

  /** A biz wrapper hides the codes inside it behind its own 500, and keeps the text. */
  lemma BizWrapperTakesOver(w: Wire, e: Error)
    ensures Remote(w, BizWrap(e)) == ExceptionFail(BizWrap(e)) == Result(WrapText(e), 500)
  {
  }
}
