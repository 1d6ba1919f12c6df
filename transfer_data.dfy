/** The route lookup against the remote table, reduced to how its reply
    is interpreted: a missing row is a normal empty outcome, any other
    error is thrown to the caller. */
module TransferData {
  import opened Wrappers
  import opened Domain

  /** PostgREST's error code for "`.single()` did not find exactly one
      row" (no row or several; the one-route-per-triple key rules out
      several, so here it means no row). */
  const NoRowCode: string := "PGRST116"

  /** The reply of the `.single()` query: the row, if any, and the error,
      if any (only its code matters here). */
  datatype StoreReply = StoreReply(data: Option<TransferRoute>, errorCode: Option<string>)

  /** `searchRoute`: an error other than "no row" becomes a failure;
      otherwise the (possibly missing) row is the outcome. */
  function SearchRoute(reply: StoreReply): (r: Result<Option<TransferRoute>, string>)
    ensures r.Failure? <==> reply.errorCode.Some? && reply.errorCode.value != NoRowCode
    ensures r.Failure? ==> r.error == reply.errorCode.value
    ensures r.Success? ==> r.value == reply.data
  {
    match reply.errorCode
    case Some(code) => if code != NoRowCode then Failure(code) else Success(reply.data)
    case None => Success(reply.data)
  }
}
