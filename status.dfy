/** Classification of a status-check response (functions/__main__.js:40-57):
    the body is searched for three fixed substrings, in priority order. */
module Status {
  import opened Text

  const FAILED_TOKEN: string := "Status=FAILED"
  const UNKNOWN_TOKEN: string := "Status=UNKNOWN"
  const READY_TOKEN: string := "Status=READY"

  /** Which branch of the if/else-if chain a status body takes. `Unrecognised`
      is the fall-through: nothing is delivered and nothing is fetched. */
  datatype SearchStatus = Failed | Unknown | Ready | Unrecognised

  /** The branch chosen for `body`, checked with `indexOf(...) != -1` in the
      order FAILED, UNKNOWN, READY. */
  function Classify(body: string): (st: SearchStatus)
    ensures st == Failed <==> Contains(body, FAILED_TOKEN)
    ensures st == Unknown <==> !Contains(body, FAILED_TOKEN) && Contains(body, UNKNOWN_TOKEN)
    ensures st == Ready <==> !Contains(body, FAILED_TOKEN) && !Contains(body, UNKNOWN_TOKEN)
                             && Contains(body, READY_TOKEN)
    ensures st == Unrecognised <==> !Contains(body, FAILED_TOKEN) && !Contains(body, UNKNOWN_TOKEN)
                                    && !Contains(body, READY_TOKEN)
  {
    if IndexOf(body, FAILED_TOKEN) != -1 then Failed
    else if IndexOf(body, UNKNOWN_TOKEN) != -1 then Unknown
    else if IndexOf(body, READY_TOKEN) != -1 then Ready
    else Unrecognised
  }
}
