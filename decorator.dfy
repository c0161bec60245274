/**
 * The transaction decorator: around a method carrying a transaction profile it
 * issues the session statements the profile asks for, in a fixed order, inside
 * the already open transaction, and then invokes the method once.
 */
module TransactionDecorator {
  import opened Common
  import opened AssertUtils
  import AdvisorOrder

  datatype TransactionPriority = NORMAL | LOW | HIGH

  function PriorityName(p: TransactionPriority): string
  {
    match p
    case NORMAL => "NORMAL"
    case LOW => "LOW"
    case HIGH => "HIGH"
  }

  datatype TimeTravelMode = FOLLOWER_READ | HISTORICAL_READ | DISABLED

  /** `@TimeTravel`: the mode and, for a historical read, the interval expression. */
  datatype TimeTravel = TimeTravel(mode: TimeTravelMode, interval: string)

  /** The attributes of a transaction profile annotation that the decorator reads. */
  datatype TransactionExplicit = TransactionExplicit(
    applicationName: string,
    retryPriority: TransactionPriority,
    idleTimeout: string,
    readOnly: bool,
    timeTravel: TimeTravel)

  /** One session statement issued through the connection of the open transaction. */
  datatype Directive =
    | SetApplicationName(name: string)
    | SetPriority(priority: TransactionPriority)
    | SetIdleTimeout(timeout: string)
    | SetReadOnly
    | AsOfFollowerRead
    | AsOfInterval(interval: string)

  /** A SQL text with its bind arguments. */
  datatype Statement = Statement(sql: string, args: seq<string>)

  /** The exact statement each directive is issued as. */
  function Sql(d: Directive): Statement
  {
    match d
    case SetApplicationName(name) => Statement("SET application_name=?", [name])
    case SetPriority(p) => Statement("SET TRANSACTION PRIORITY " + PriorityName(p), [])
    case SetIdleTimeout(t) => Statement("SET idle_in_transaction_session_timeout=?", [t])
    case SetReadOnly => Statement("SET transaction_read_only=true", [])
    case AsOfFollowerRead => Statement("SET TRANSACTION AS OF SYSTEM TIME follower_read_timestamp()", [])
    case AsOfInterval(i) => Statement("SET TRANSACTION AS OF SYSTEM TIME INTERVAL '" + i + "'", [])
  }

  /** The kinds of session statement, in their fixed emission order. */
  datatype Kind = ApplicationNameKind | PriorityKind | IdleTimeoutKind | ReadOnlyKind | TimeTravelKind

  function KindOf(d: Directive): Kind
  {
    match d
    case SetApplicationName(_) => ApplicationNameKind
    case SetPriority(_) => PriorityKind
    case SetIdleTimeout(_) => IdleTimeoutKind
    case SetReadOnly => ReadOnlyKind
    case AsOfFollowerRead => TimeTravelKind
    case AsOfInterval(_) => TimeTravelKind
  }

  /** The position of a kind in the fixed emission order. */
  function Rank(k: Kind): nat
  {
    match k
    case ApplicationNameKind => 0
    case PriorityKind => 1
    case IdleTimeoutKind => 2
    case ReadOnlyKind => 3
    case TimeTravelKind => 4
  }

  function ApplicationNamePart(a: TransactionExplicit): seq<Directive>
  {
    if a.applicationName != "(empty)" then [SetApplicationName(a.applicationName)] else []
  }

  function PriorityPart(a: TransactionExplicit, retryCallCount: Option<int>): seq<Directive>
  {
    if a.retryPriority != NORMAL || (retryCallCount.Some? && retryCallCount.value > 1)
    then [SetPriority(a.retryPriority)] else []
  }

  function IdleTimeoutPart(a: TransactionExplicit): seq<Directive>
  {
    if a.idleTimeout != "0s" then [SetIdleTimeout(a.idleTimeout)] else []
  }

  function ReadOnlyPart(a: TransactionExplicit): seq<Directive>
  {
    if a.readOnly then [SetReadOnly] else []
  }

  function TimeTravelPart(a: TransactionExplicit, licensed: bool): seq<Directive>
  {
    if !licensed then []
    else if a.timeTravel.mode == FOLLOWER_READ then [AsOfFollowerRead]
    else if a.timeTravel.mode == HISTORICAL_READ then [AsOfInterval(a.timeTravel.interval)]
    else []
  }

  /** The directives the profile asks for, given the retry call count and the licence flag. */
  function Directives(a: TransactionExplicit, retryCallCount: Option<int>, licensed: bool): seq<Directive>
  {
    ApplicationNamePart(a) + PriorityPart(a, retryCallCount) + IdleTimeoutPart(a)
    + ReadOnlyPart(a) + TimeTravelPart(a, licensed)
  }

  lemma AppendAssoc(s: seq<Directive>, t: seq<Directive>, u: seq<Directive>)
    ensures s + t + u == s + (t + u)
  {
  }

  /** Some directive of kind `k` is in `ds`. */
  predicate Issued(ds: seq<Directive>, k: Kind)
  {
    exists i :: 0 <= i < |ds| && KindOf(ds[i]) == k
  }

  /** The decorator's failure when it finds no open transaction (the advice order is wrong). */
  const NO_TRANSACTION_MESSAGE: string := "Expecting active transaction - check advice @Order and @EnableTransactionManagement order"

  /** The decorator's failure when neither the method nor its type carries a profile. */
  const NO_PROFILE_MESSAGE: string := "No @TransactionBoundary annotation found!?"

  /** The connection of the current transaction, as far as the decorator uses it. */
  class Session {
    var issued: seq<Directive>
    var targetCalls: nat

    constructor ()
      ensures issued == [] && targetCalls == 0
    {
      issued, targetCalls := [], 0;
    }

    /** `jdbcTemplate.execute` / `jdbcTemplate.update` of one session statement. */
    method Execute(d: Directive)
      modifies this
      ensures issued == old(issued) + [d] && targetCalls == old(targetCalls)
    {
      issued := issued + [d];
    }
  }

  class TransactionDecoratorAspect {
    /** The advice runs inside the transaction-manager advice (`AttributesAdviceInsideTransaction`). */
    static const PRECEDENCE: int := AdvisorOrder.TRANSACTION_ATTRIBUTES_ADVISOR

    const hasEnterpriseLicense: bool
    const session: Session

    constructor (licensed: bool, session: Session)
      ensures hasEnterpriseLicense == licensed && this.session == session
    {
      hasEnterpriseLicense := licensed;
      this.session := session;
    }

    /** Issues, one statement at a time, the session statements the profile asks for. */
    method IssueDirectives(a: TransactionExplicit, retryCallCount: Option<int>)
      modifies session
      ensures session.issued == old(session.issued) + Directives(a, retryCallCount, hasEnterpriseLicense)
      ensures session.targetCalls == old(session.targetCalls)
    {
      ghost var before := session.issued;
      IssueApplicationName(a);
      IssuePriority(a, retryCallCount);
      AppendAssoc(before, ApplicationNamePart(a), PriorityPart(a, retryCallCount));
      ghost var emitted := ApplicationNamePart(a) + PriorityPart(a, retryCallCount);
      IssueIdleTimeout(a);
      AppendAssoc(before, emitted, IdleTimeoutPart(a));
      emitted := emitted + IdleTimeoutPart(a);
      IssueReadOnly(a);
      AppendAssoc(before, emitted, ReadOnlyPart(a));
      emitted := emitted + ReadOnlyPart(a);
      IssueTimeTravel(a);
      AppendAssoc(before, emitted, TimeTravelPart(a, hasEnterpriseLicense));
    }

    method IssueApplicationName(a: TransactionExplicit)
      modifies session
      ensures session.issued == old(session.issued) + ApplicationNamePart(a)
      ensures session.targetCalls == old(session.targetCalls)
    {
      if a.applicationName != "(empty)" {
        session.Execute(SetApplicationName(a.applicationName));
      }
    }

    method IssuePriority(a: TransactionExplicit, retryCallCount: Option<int>)
      modifies session
      ensures session.issued == old(session.issued) + PriorityPart(a, retryCallCount)
      ensures session.targetCalls == old(session.targetCalls)
    {
      if a.retryPriority != NORMAL {
        session.Execute(SetPriority(a.retryPriority));
      } else if retryCallCount.Some? {
        var numCalls := retryCallCount.value;
        // Re-issues the profile's own priority, NORMAL, on a retry.
        if numCalls > 1 {
          session.Execute(SetPriority(a.retryPriority));
        }
      }
    }

    method IssueIdleTimeout(a: TransactionExplicit)
      modifies session
      ensures session.issued == old(session.issued) + IdleTimeoutPart(a)
      ensures session.targetCalls == old(session.targetCalls)
    {
      if a.idleTimeout != "0s" {
        session.Execute(SetIdleTimeout(a.idleTimeout));
      }
    }

    method IssueReadOnly(a: TransactionExplicit)
      modifies session
      ensures session.issued == old(session.issued) + ReadOnlyPart(a)
      ensures session.targetCalls == old(session.targetCalls)
    {
      if a.readOnly {
        session.Execute(SetReadOnly);
      }
    }

    /** Time travel needs the enterprise licence; without it nothing is issued. */
    method IssueTimeTravel(a: TransactionExplicit)
      modifies session
      ensures session.issued == old(session.issued) + TimeTravelPart(a, hasEnterpriseLicense)
      ensures session.targetCalls == old(session.targetCalls)
    {
      if hasEnterpriseLicense {
        if a.timeTravel.mode == FOLLOWER_READ {
          session.Execute(AsOfFollowerRead);
        } else if a.timeTravel.mode == HISTORICAL_READ {
          session.Execute(AsOfInterval(a.timeTravel.interval));
        }
      }
    }

    /**
     * The aspect's order value is the session-attribute precedence, which the
     * transaction manager and the retry advice both enclose: by the time
     * `doInTransaction` runs, the transaction it requires has been opened.
     */
    static lemma AttributesAdviceInsideTransaction()
      ensures PRECEDENCE == AdvisorOrder.Precedence(AdvisorOrder.TransactionAttributes)
      ensures AdvisorOrder.Encloses(AdvisorOrder.TransactionManager, AdvisorOrder.TransactionAttributes)
      ensures AdvisorOrder.Encloses(AdvisorOrder.TransactionRetry, AdvisorOrder.TransactionAttributes)
    {
    }

    /**
     * `doInTransaction`: fails, issuing nothing and not invoking the target,
     * without an active transaction or without a profile on the method or its
     * type; otherwise issues `Directives(...)` in order, invokes the target once
     * and returns its outcome unchanged.
     */
    method DoInTransaction<T>(ctx: TxContext, retryCallCount: Option<int>,
                              methodProfile: Option<TransactionExplicit>,
                              typeProfile: Option<TransactionExplicit>,
                              target: Result<T>) returns (r: Result<T>)
      modifies session
      ensures !ctx.active ==>
        && r == Failure(Fault(IllegalArgument, NO_TRANSACTION_MESSAGE))
        && session.issued == old(session.issued) && session.targetCalls == old(session.targetCalls)
      ensures ctx.active && methodProfile.None? && typeProfile.None? ==>
        && r == Failure(Fault(IllegalArgument, NO_PROFILE_MESSAGE))
        && session.issued == old(session.issued) && session.targetCalls == old(session.targetCalls)
      ensures ctx.active && (methodProfile.Some? || typeProfile.Some?) ==>
        var a := if methodProfile.Some? then methodProfile.value else typeProfile.value;
        && session.issued == old(session.issued) + Directives(a, retryCallCount, hasEnterpriseLicense)
        && session.targetCalls == old(session.targetCalls) + 1
        && r == target
    {
      if !ctx.active {
        return Failure(Fault(IllegalArgument, NO_TRANSACTION_MESSAGE));
      }
      var profile := methodProfile;
      if profile.None? {
        profile := typeProfile;
      }
      if profile.None? {
        return Failure(Fault(IllegalArgument, NO_PROFILE_MESSAGE));
      }
      var a := profile.value;
      IssueDirectives(a, retryCallCount);
      session.targetCalls := session.targetCalls + 1;
      r := target;
    }
  }

  /**
   * Directives come in the fixed order application name, priority, idle
   * timeout, read-only, time travel; so no kind is issued twice.
   */
  lemma DirectivesInFixedOrder(a: TransactionExplicit, retryCallCount: Option<int>, licensed: bool)
    ensures var ds := Directives(a, retryCallCount, licensed);
      forall i, j :: 0 <= i < j < |ds| ==> Rank(KindOf(ds[i])) < Rank(KindOf(ds[j]))
  {
    var ds0 := ApplicationNamePart(a);
    var ds1 := ds0 + PriorityPart(a, retryCallCount);
    RankedAppend(ds0, PriorityPart(a, retryCallCount), 1);
    var ds2 := ds1 + IdleTimeoutPart(a);
    RankedAppend(ds1, IdleTimeoutPart(a), 2);
    var ds3 := ds2 + ReadOnlyPart(a);
    RankedAppend(ds2, ReadOnlyPart(a), 3);
    RankedAppend(ds3, TimeTravelPart(a, licensed), 4);
  }

  /**
   * Appending at most one directive of rank `r` to directives in strictly
   * increasing rank, all below `r`, keeps the ranks strictly increasing and
   * at most `r`.
   */
  lemma RankedAppend(xs: seq<Directive>, ys: seq<Directive>, r: nat)
    requires forall i, j :: 0 <= i < j < |xs| ==> Rank(KindOf(xs[i])) < Rank(KindOf(xs[j]))
    requires forall i :: 0 <= i < |xs| ==> Rank(KindOf(xs[i])) < r
    requires |ys| <= 1 && forall i :: 0 <= i < |ys| ==> Rank(KindOf(ys[i])) == r
    ensures forall i, j :: 0 <= i < j < |xs + ys| ==> Rank(KindOf((xs + ys)[i])) < Rank(KindOf((xs + ys)[j]))
    ensures forall i :: 0 <= i < |xs + ys| ==> Rank(KindOf((xs + ys)[i])) <= r
  {
  }


  /** The application name is issued, with the profile's name, unless it is "(empty)". */
  lemma ApplicationNameDirective(a: TransactionExplicit, retryCallCount: Option<int>, licensed: bool)
    ensures var ds := Directives(a, retryCallCount, licensed);
      && (Issued(ds, ApplicationNameKind) <==> a.applicationName != "(empty)")
      && (forall d :: d in ds && d.SetApplicationName? ==> d.name == a.applicationName)
  {
    var ds := Directives(a, retryCallCount, licensed);
    if a.applicationName != "(empty)" {
      assert ds[0].SetApplicationName?;
    }
  }

  /** The idle timeout is issued, with the profile's value, unless it is "0s". */
  lemma IdleTimeoutDirective(a: TransactionExplicit, retryCallCount: Option<int>, licensed: bool)
    ensures var ds := Directives(a, retryCallCount, licensed);
      && (Issued(ds, IdleTimeoutKind) <==> a.idleTimeout != "0s")
      && (forall d :: d in ds && d.SetIdleTimeout? ==> d.timeout == a.idleTimeout)
  {
    var ds := Directives(a, retryCallCount, licensed);
    if a.idleTimeout != "0s" {
      assert SetIdleTimeout(a.idleTimeout) in ds;
    }
  }

  /** The read-only statement is issued exactly for a read-only profile. */
  lemma ReadOnlyDirective(a: TransactionExplicit, retryCallCount: Option<int>, licensed: bool)
    ensures var ds := Directives(a, retryCallCount, licensed);
      Issued(ds, ReadOnlyKind) <==> a.readOnly
  {
    var ds := Directives(a, retryCallCount, licensed);
    if a.readOnly {
      assert SetReadOnly in ds;
    }
  }

  /**
   * A priority statement is issued iff the priority is not NORMAL, or it is
   * NORMAL and the retry call count is present and above 1; it always names the
   * profile's own priority, so a retried NORMAL transaction is set to NORMAL
   * again and never escalated to HIGH.
   */
  lemma PriorityDirective(a: TransactionExplicit, retryCallCount: Option<int>, licensed: bool)
    ensures var ds := Directives(a, retryCallCount, licensed);
      && (Issued(ds, PriorityKind) <==>
            a.retryPriority != NORMAL || (retryCallCount.Some? && retryCallCount.value > 1))
      && (forall d :: d in ds && d.SetPriority? ==> d == SetPriority(a.retryPriority))
      && (SetPriority(HIGH) in ds ==> a.retryPriority == HIGH)
  {
    var ds := Directives(a, retryCallCount, licensed);
    if a.retryPriority != NORMAL || (retryCallCount.Some? && retryCallCount.value > 1) {
      assert SetPriority(a.retryPriority) in ds;
    }
  }

  /**
   * Time travel is only issued with the licence: FOLLOWER_READ issues the
   * follower-read statement, HISTORICAL_READ splices the interval text
   * verbatim, DISABLED issues nothing.
   */
  lemma TimeTravelDirective(a: TransactionExplicit, retryCallCount: Option<int>, licensed: bool)
    ensures var ds := Directives(a, retryCallCount, licensed);
      && (Issued(ds, TimeTravelKind) <==>
            licensed && a.timeTravel.mode != DISABLED)
      && (licensed && a.timeTravel.mode == FOLLOWER_READ ==> ds[|ds| - 1] == AsOfFollowerRead)
      && (licensed && a.timeTravel.mode == HISTORICAL_READ ==>
            ds[|ds| - 1] == AsOfInterval(a.timeTravel.interval)
            && Sql(ds[|ds| - 1]).sql == "SET TRANSACTION AS OF SYSTEM TIME INTERVAL '" + a.timeTravel.interval + "'")
  {
    var ds := Directives(a, retryCallCount, licensed);
    if licensed && a.timeTravel.mode != DISABLED {
      assert ds[|ds| - 1].AsOfFollowerRead? || ds[|ds| - 1].AsOfInterval?;
    }
  }
}
