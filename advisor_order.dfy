/**
 * The precedence constants that fix how the transaction advisors nest around
 * a business method. Spring invokes advice with a lower order value first, so
 * it encloses advice with a higher value.
 */
module AdvisorOrder {

  /** `Ordered.LOWEST_PRECEDENCE`, that is `Integer.MAX_VALUE`. */
  const LOWEST_PRECEDENCE: int := 0x7fff_ffff

  /** Retry advice comes before any transaction is created. */
  const TRANSACTION_RETRY_ADVISOR: int := LOWEST_PRECEDENCE - 5
  /** Transaction manager advice comes after any retry advisor. */
  const TRANSACTION_MANAGER_ADVISOR: int := LOWEST_PRECEDENCE - 4
  /** Session attribute advice only makes sense within a transaction scope. */
  const TRANSACTION_ATTRIBUTES_ADVISOR: int := LOWEST_PRECEDENCE - 3
  /** Post-business advice (change feed, outbox), potentially within a transaction scope. */
  const CHANGE_FEED_ADVISOR: int := LOWEST_PRECEDENCE - 2

  /** The four kinds of advice these constants order. */
  datatype Advice = TransactionRetry | TransactionManager | TransactionAttributes | ChangeFeed

  /**
   * How deep each advice sits in the nesting the constants' comments
   * describe: retry outermost, then the transaction manager, then the
   * session attributes, then the change feed innermost.
   */
  function NestingDepth(a: Advice): nat
  {
    match a
    case TransactionRetry => 0
    case TransactionManager => 1
    case TransactionAttributes => 2
    case ChangeFeed => 3
  }

  /** The order value of each advice, each strictly below `LOWEST_PRECEDENCE`. */
  function Precedence(a: Advice): (r: int)
    ensures LOWEST_PRECEDENCE - 5 <= r < LOWEST_PRECEDENCE
  {
    match a
    case TransactionRetry => TRANSACTION_RETRY_ADVISOR
    case TransactionManager => TRANSACTION_MANAGER_ADVISOR
    case TransactionAttributes => TRANSACTION_ATTRIBUTES_ADVISOR
    case ChangeFeed => CHANGE_FEED_ADVISOR
  }

  /**
   * `outer` is invoked before, and therefore around, `inner`: exactly when
   * the documented nesting puts `outer` further out.
   */
  predicate Encloses(outer: Advice, inner: Advice): (r: bool)
    ensures r <==> NestingDepth(outer) < NestingDepth(inner)
  {
    Precedence(outer) < Precedence(inner)
  }

  /**
   * The constants nest the advices as their comments say, each enclosing
   * the next, and every one of them takes effect before an advisor left at
   * the default `LOWEST_PRECEDENCE`.
   */
  lemma AdvisorsNestAsDocumented()
    ensures Encloses(TransactionRetry, TransactionManager)
    ensures Encloses(TransactionManager, TransactionAttributes)
    ensures Encloses(TransactionAttributes, ChangeFeed)
    ensures forall a :: Precedence(a) < LOWEST_PRECEDENCE
    ensures forall a, b :: Encloses(a, b) ==> !Encloses(b, a)
  {
  }
}
