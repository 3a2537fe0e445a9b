/** The origin check of the back end's CORS options. */
module Cors {
  import opened Common

  const AllowedOrigins: seq<string> := ["http://localhost:3000", "https://lets-pet.vercel.app"]
  const REJECTED: string := "Not allowed by CORS"

  /** What the `origin` callback is called with: `(null, true)` or an error. */
  datatype Decision = Allow | Reject(message: string)

  /** The decision for a request's `Origin` header; an absent header and an empty
      one are both falsy and both admitted. */
  function Admit(origin: Option<string>): (d: Decision)
    ensures d == Allow <==> origin.None? || origin.value == "" || origin.value in AllowedOrigins
    ensures d.Reject? ==> d.message == REJECTED
  {
    if origin.None? || origin.value == "" then Allow
    else if origin.value in AllowedOrigins then Allow
    else Reject(REJECTED)
  }

  /** The three ways a call can go, and exactly one of them per call. */
  lemma ThreeWays(origin: Option<string>)
    ensures origin.None? ==> Admit(origin) == Allow
    ensures origin.Some? && origin.value in AllowedOrigins ==> Admit(origin) == Allow
    ensures origin.Some? && origin.value != "" && origin.value !in AllowedOrigins ==>
              Admit(origin) == Reject(REJECTED)
  {
  }

  /** Matching is exact: no case folding and no trailing-slash normalisation. */
  lemma ExactMatch()
    ensures Admit(Some("http://localhost:3000")) == Allow
    ensures Admit(Some("https://lets-pet.vercel.app")) == Allow
    ensures Admit(Some("HTTP://localhost:3000")) == Reject(REJECTED)
    ensures Admit(Some("http://localhost:3000/")) == Reject(REJECTED)
    ensures Admit(Some("https://lets-pet.vercel.app/")) == Reject(REJECTED)
  {
  }
}
