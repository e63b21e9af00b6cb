/**
  A model of the parts of System.Exception the logging facade reads:
  the message, the stack trace and the InnerException link.
 */
module Exceptions {
  import opened Wrappers

  /** An exception with its optional inner (causing) exception. A null stack
      trace is modelled as the empty string, which AppendLine treats alike. */
  datatype Exn = Exn(message: string, stackTrace: string, inner: Option<Exn>)

  /** The exceptions met by following InnerException from `e`, outermost first. */
  function Chain(e: Exn): (c: seq<Exn>)
    ensures |c| >= 1 && c[0] == e
    decreases e
  {
    match e.inner
    case None => [e]
    case Some(i) => [e] + Chain(i)
  }

  /** The chain of an optional exception: empty for null. */
  function ChainOf(ex: Option<Exn>): (c: seq<Exn>)
    ensures ex.None? <==> c == []
  {
    match ex
    case None => []
    case Some(e) => Chain(e)
  }

  /** Exception.GetBaseException: the innermost exception of the chain. */
  function BaseException(e: Exn): (b: Exn)
    ensures b.inner.None?
    ensures b in Chain(e)
    decreases e
  {
    match e.inner
    case None => e
    case Some(i) => BaseException(i)
  }

  /** The base exception is the last element of the chain and has no inner exception. */
  lemma {:induction false} BaseExceptionEndsChain(e: Exn)
    ensures Chain(e)[|Chain(e)| - 1] == BaseException(e)
    ensures BaseException(e).inner.None?
    decreases e
  {
    match e.inner
    case None =>
    case Some(i) => BaseExceptionEndsChain(i);
  }
}
