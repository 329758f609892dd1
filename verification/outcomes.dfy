/**
 What the handlers get back from the collaborators they await: the document
 store, the token generator and the credential lookup.
 */
module Outcomes {

  datatype Option<T> = None | Some(value: T)

  /** The error object a collaborator throws; the handlers pass it on untouched. */
  datatype Error = Error(detail: string)

  /** An awaited call either completes with a value or throws. */
  datatype Attempt<T> = Done(value: T) | Threw(error: Error)

  /** `await first; await second` inside one `try`: the first call to throw ends
      the block with its own error, and the second call is then never made, so
      its outcome plays no part. */
  function AndThen<A, B>(first: Attempt<A>, second: Attempt<B>): (r: Attempt<B>)
    ensures r.Done? <==> first.Done? && second.Done?
    ensures first.Threw? ==> r == Threw(first.error)
    ensures first.Done? ==> r == second
  {
    match first
    case Threw(e) => Threw(e)
    case Done(_) => second
  }

  /** Once the first call throws, the second call's outcome changes nothing. */
  lemma AndThenSkipsAfterThrow<A, B>(first: Attempt<A>, second1: Attempt<B>, second2: Attempt<B>)
    requires first.Threw?
    ensures AndThen(first, second1) == AndThen(first, second2)
  {
  }
}
