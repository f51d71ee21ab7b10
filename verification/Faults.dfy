/** What can happen to one awaited call. */
module Faults {

  /** How an awaited call ends: it works; it throws without or with its effect in place; or the worker
      dies before or after the effect. */
  datatype Fault = Fine | Refused | Lost | DiesBefore | DiesAfter

  predicate Committed(f: Fault) { f.Fine? || f.Lost? || f.DiesAfter? }

  predicate Dies(f: Fault) { f.DiesBefore? || f.DiesAfter? }

  predicate Throws(f: Fault) { f.Refused? || f.Lost? }
}
