/**
 * The claim-status poller of lib/pollingUtils.ts. `startPollingClaimStatus`
 * keeps three closure variables (an attempt counter, a running flag and a
 * timer handle) that its `poll` step and its `cleanup` function update; here
 * they are the fields of a `ClaimStatusPoller`. The asynchronous parts become
 * discrete events: the status query goes out (`inFlight`), its response comes
 * back (`Respond`), the rescheduled timer fires (`TimerFires`), and the caller
 * cancels (`Cleanup`). Callbacks are recorded, in order, in `log`.
 */
module Polling {
  import opened Wrappers

  datatype Status = Pending | Success | Failed

  /** One snapshot of a claim's transaction status as the status endpoint reports it. */
  datatype ClaimStatus = ClaimStatus(
    claimId: string,
    status: Status,
    txHash: Option<string>,
    explorerLink: Option<string>,
    blockchain: Option<string>,
    error: Option<string>)

  /** What one status query comes back with. */
  datatype Response =
    | Fetched(data: ClaimStatus)        // an ok response whose body parsed
    | NotOk                             // the response's `ok` flag is false
    | Thrown(message: Option<string>)   // the request or the body parse threw; `None` when what was thrown is not an `Error`

  /** A callback the poller invokes. */
  datatype Callback =
    | OnUpdate(status: ClaimStatus)
    | OnComplete(final: ClaimStatus)
    | OnError(message: string)

  /** The optional tuning fields of the options object; `None` is `undefined`. */
  datatype PollOptions = PollOptions(interval: Option<int>, maxAttempts: Option<int>)

  const DefaultInterval: int := 5000
  const DefaultMaxAttempts: int := 60
  const TimeoutMessage := "Polling timeout: Transaction took too long to process."
  const NotOkMessage := "Failed to fetch claim status"
  const UnknownErrorMessage := "Unknown error"

  /** The interval after destructuring with its default. */
  function EffectiveInterval(o: PollOptions): (ms: int)
    ensures o.interval.None? ==> ms == DefaultInterval
    ensures o.interval.Some? ==> ms == o.interval.value
  {
    match o.interval
    case None => DefaultInterval
    case Some(v) => v
  }

  /** The attempt ceiling after destructuring with its default. */
  function EffectiveMaxAttempts(o: PollOptions): (n: int)
    ensures o.maxAttempts.None? ==> n == DefaultMaxAttempts
    ensures o.maxAttempts.Some? ==> n == o.maxAttempts.value
  {
    match o.maxAttempts
    case None => DefaultMaxAttempts
    case Some(v) => v
  }

  /** The URL every status query of one poller requests. */
  function StatusUrl(claimId: string): string {
    "/api/claim/" + claimId + "/status"
  }

  /** The message `onError` receives for a failed query. */
  function FailureMessage(r: Response): (m: string)
    requires !r.Fetched?
    ensures r.NotOk? ==> m == NotOkMessage
    ensures r.Thrown? && r.message.Some? ==> m == r.message.value
    ensures r == Thrown(None) ==> m == UnknownErrorMessage
  {
    match r
    case NotOk => NotOkMessage
    case Thrown(msg) => if msg.Some? then msg.value else UnknownErrorMessage
  }

  predicate IsTerminal(c: Callback) {
    c.OnComplete? || c.OnError?
  }

  /** How many callbacks in `log` end the polling (`onComplete` or `onError`). */
  function TerminalCount(log: seq<Callback>): nat {
    if log == [] then 0
    else TerminalCount(log[..|log| - 1]) + (if IsTerminal(log[|log| - 1]) then 1 else 0)
  }

  /** How many `onUpdate` callbacks in `log` carried a pending status. */
  function PendingUpdates(log: seq<Callback>): nat {
    if log == [] then 0
    else PendingUpdates(log[..|log| - 1])
         + (if log[|log| - 1].OnUpdate? && log[|log| - 1].status.status == Pending then 1 else 0)
  }

  lemma CountsSnoc(log: seq<Callback>, c: Callback)
    ensures TerminalCount(log + [c]) == TerminalCount(log) + (if IsTerminal(c) then 1 else 0)
    ensures PendingUpdates(log + [c])
            == PendingUpdates(log) + (if c.OnUpdate? && c.status.status == Pending then 1 else 0)
  {
    assert (log + [c])[..|log + [c]| - 1] == log;
  }

  /** `log` with `onComplete` only ever right after the `onUpdate` of the same, non-pending, status. */
  ghost predicate CompletesFollowUpdates(log: seq<Callback>) {
    forall k :: 0 <= k < |log| && log[k].OnComplete? ==>
      k > 0 && log[k - 1] == OnUpdate(log[k].final) && log[k].final.status != Pending
  }

  /** Appending a callback other than `onComplete` keeps `CompletesFollowUpdates`. */
  lemma SnocKeepsCompletes(log: seq<Callback>, c: Callback)
    requires CompletesFollowUpdates(log) && !c.OnComplete?
    ensures CompletesFollowUpdates(log + [c])
  {
  }

  /** Appending an update followed by the completion of the same, non-pending, status keeps it. */
  lemma SnocCompleteKeepsCompletes(log: seq<Callback>, d: ClaimStatus)
    requires CompletesFollowUpdates(log) && d.status != Pending
    ensures CompletesFollowUpdates(log + [OnUpdate(d)] + [OnComplete(d)])
  {
    SnocKeepsCompletes(log, OnUpdate(d));
  }

  /** All queries of one poller go to the same URL. */
  ghost predicate AllTo(requests: seq<string>, url: string) {
    forall k :: 0 <= k < |requests| ==> requests[k] == url
  }

  class ClaimStatusPoller {
    const claimId: string
    const interval: int
    const maxAttempts: int
    var attempts: nat
    var isPolling: bool
    /** A `setTimeout(poll, interval)` is scheduled and has not fired or been cleared. */
    var timerPending: bool
    /** A status query has been sent and its response has not been processed. */
    var inFlight: bool
    /** The callbacks invoked so far, in order. */
    var log: seq<Callback>
    /** The status queries sent so far (their URLs), in order. */
    var requests: seq<string>
    /** A response ended the polling: a non-pending status or a failed query. */
    ghost var resolved: bool

    ghost predicate Valid()
      reads this
    {
      && (attempts == 0 || attempts <= maxAttempts)
      && (inFlight ==> attempts < maxAttempts && !timerPending)
      && (timerPending ==> isPolling)
      && (resolved ==> !isPolling && !timerPending && !inFlight && attempts < maxAttempts)
      && |requests| == attempts + (if inFlight then 1 else 0) + (if resolved then 1 else 0)
      && AllTo(requests, StatusUrl(claimId))
      && TerminalCount(log) <= 1
      && (TerminalCount(log) == 1 ==> !inFlight && !timerPending)
      && (resolved ==> TerminalCount(log) == 1)
      && PendingUpdates(log) == attempts
      && CompletesFollowUpdates(log)
    }

    /** At most `maxAttempts` status queries are ever sent (none when it is not positive). */
    lemma QueriesBounded()
      requires Valid()
      ensures |requests| <= (if maxAttempts < 0 then 0 else maxAttempts)
      ensures TerminalCount(log) <= 1
    {
    }

    /**
     * `startPollingClaimStatus(claimId, options)`: set up the state and run
     * the first `poll` at once.
     */
    constructor Start(claimId: string, options: PollOptions)
      ensures Valid()
      ensures this.claimId == claimId
      ensures interval == EffectiveInterval(options) && maxAttempts == EffectiveMaxAttempts(options)
      ensures attempts == 0 && isPolling && !timerPending
      ensures maxAttempts > 0 ==> inFlight && requests == [StatusUrl(claimId)] && log == []
      ensures maxAttempts <= 0 ==> !inFlight && requests == [] && log == [OnError(TimeoutMessage)]
    {
      this.claimId := claimId;
      interval := EffectiveInterval(options);
      maxAttempts := EffectiveMaxAttempts(options);
      attempts := 0;
      isPolling := true;
      timerPending := false;
      inFlight := false;
      log := [];
      requests := [];
      resolved := false;
      new;
      Poll();
    }

    /**
     * One `poll` step up to its `await`: give up when stopped, report a
     * timeout when the attempts are used up, otherwise send a query.
     */
    method Poll()
      requires Valid() && !inFlight && !timerPending && TerminalCount(log) == 0
      modifies this
      ensures Valid()
      ensures attempts == old(attempts) && isPolling == old(isPolling) && !timerPending
      ensures old(attempts) >= maxAttempts ==>
        !inFlight && requests == old(requests) && log == old(log) + [OnError(TimeoutMessage)]
      ensures old(attempts) < maxAttempts && !old(isPolling) ==>
        !inFlight && requests == old(requests) && log == old(log)
      ensures old(attempts) < maxAttempts && old(isPolling) ==>
        inFlight && requests == old(requests) + [StatusUrl(claimId)] && log == old(log)
    {
      if !isPolling || attempts >= maxAttempts {
        if attempts >= maxAttempts {
          CountsSnoc(log, OnError(TimeoutMessage));
          SnocKeepsCompletes(log, OnError(TimeoutMessage));
          log := log + [OnError(TimeoutMessage)];
        }
        return;
      }
      assert AllTo(requests + [StatusUrl(claimId)], StatusUrl(claimId));
      requests := requests + [StatusUrl(claimId)];
      inFlight := true;
    }

    /** The scheduled timer fires and runs `poll` again. */
    method TimerFires()
      requires Valid() && timerPending
      modifies this
      ensures Valid()
      ensures attempts == old(attempts) && isPolling && !timerPending
      ensures old(attempts) >= maxAttempts ==>
        !inFlight && requests == old(requests) && log == old(log) + [OnError(TimeoutMessage)]
      ensures old(attempts) < maxAttempts ==>
        inFlight && requests == old(requests) + [StatusUrl(claimId)] && log == old(log)
    {
      timerPending := false;
      Poll();
    }

    /**
     * The in-flight query's response is processed: every parsed status goes
     * to `onUpdate`; a non-pending one then goes to `onComplete` and stops the
     * poller; a pending one counts an attempt and reschedules while polling is
     * still on; a failed query goes to `onError` and stops the poller.
     */
    method Respond(r: Response)
      requires Valid() && inFlight
      modifies this
      ensures Valid()
      ensures !inFlight && requests == old(requests)
      ensures !r.Fetched? ==>
        && log == old(log) + [OnError(FailureMessage(r))]
        && !isPolling && !timerPending && attempts == old(attempts)
      ensures r.Fetched? && r.data.status != Pending ==>
        && log == old(log) + [OnUpdate(r.data)] + [OnComplete(r.data)]
        && !isPolling && !timerPending && attempts == old(attempts)
      ensures r.Fetched? && r.data.status == Pending ==>
        && log == old(log) + [OnUpdate(r.data)]
        && attempts == old(attempts) + 1
        && isPolling == old(isPolling) && timerPending == old(isPolling)
    {
      inFlight := false;
      match r
      case Fetched(data) =>
        CountsSnoc(log, OnUpdate(data));
        if data.status != Pending {
          SnocCompleteKeepsCompletes(log, data);
          CountsSnoc(log + [OnUpdate(data)], OnComplete(data));
          log := log + [OnUpdate(data)] + [OnComplete(data)];
          isPolling := false;
          resolved := true;
          return;
        }
        SnocKeepsCompletes(log, OnUpdate(data));
        log := log + [OnUpdate(data)];
        attempts := attempts + 1;
        if isPolling {
          timerPending := true;
        }
      case _ =>
        CountsSnoc(log, OnError(FailureMessage(r)));
        SnocKeepsCompletes(log, OnError(FailureMessage(r)));
        log := log + [OnError(FailureMessage(r))];
        isPolling := false;
        resolved := true;
    }

    /**
     * The returned `cleanup`: stop polling and clear a scheduled timer. A
     * query already in flight is not affected.
     */
    method Cleanup()
      requires Valid()
      modifies this
      ensures Valid()
      ensures !isPolling && !timerPending
      ensures attempts == old(attempts) && inFlight == old(inFlight)
      ensures log == old(log) && requests == old(requests)
    {
      isPolling := false;
      if timerPending {
        timerPending := false;
      }
    }
  }

  /** `count` pending `onUpdate` callbacks for the same status. */
  function RepeatUpdate(s: ClaimStatus, count: nat): (log: seq<Callback>)
    ensures |log| == count
  {
    if count == 0 then [] else RepeatUpdate(s, count - 1) + [OnUpdate(s)]
  }

  /** One round against a claim that stays pending: the query answers `pending`, then the timer fires. */
  method PendingRound(p: ClaimStatusPoller, pending: ClaimStatus)
    requires p.Valid() && p.inFlight && p.isPolling && pending.status == Pending
    modifies p
    ensures p.Valid() && p.isPolling && !p.timerPending
    ensures p.attempts == old(p.attempts) + 1
    ensures p.inFlight <==> p.attempts < p.maxAttempts
    ensures p.inFlight ==> p.requests == old(p.requests) + [StatusUrl(p.claimId)] && p.log == old(p.log) + [OnUpdate(pending)]
    ensures !p.inFlight ==>
      p.requests == old(p.requests) && p.log == old(p.log) + [OnUpdate(pending)] + [OnError(TimeoutMessage)]
  {
    p.Respond(Fetched(pending));
    p.TimerFires();
  }

  /**
   * A claim that stays pending: every query answers `pending`. The poller
   * sends exactly `maxAttempts` queries, reports each status, and ends with
   * the timeout error and nothing left scheduled or in flight.
   */
  method RunAlwaysPending(claimId: string, maxAttempts: nat, pending: ClaimStatus)
    returns (p: ClaimStatusPoller)
    requires maxAttempts > 0 && pending.status == Pending
    ensures p.Valid() && p.maxAttempts == maxAttempts
    ensures |p.requests| == maxAttempts
    ensures p.log == RepeatUpdate(pending, maxAttempts) + [OnError(TimeoutMessage)]
    ensures !p.inFlight && !p.timerPending
  {
    p := new ClaimStatusPoller.Start(claimId, PollOptions(None, Some(maxAttempts)));
    while p.inFlight
      invariant p.Valid() && p.maxAttempts == maxAttempts && p.isPolling && !p.timerPending
      invariant p.inFlight <==> p.attempts < maxAttempts
      invariant |p.requests| == p.attempts + (if p.inFlight then 1 else 0)
      invariant p.inFlight ==> p.log == RepeatUpdate(pending, p.attempts)
      invariant !p.inFlight ==> p.log == RepeatUpdate(pending, maxAttempts) + [OnError(TimeoutMessage)]
      decreases maxAttempts - p.attempts
    {
      PendingRound(p, pending);
    }
  }

  /**
   * Cancelling while a query is in flight: the response still reaches
   * `onUpdate`, and a final status still reaches `onComplete`; only the
   * rescheduling is suppressed.
   */
  method CleanupWithQueryInFlight(claimId: string, final: ClaimStatus)
    returns (p: ClaimStatusPoller)
    requires final.status != Pending
    ensures p.Valid() && !p.isPolling && !p.timerPending && !p.inFlight
    ensures p.requests == [StatusUrl(claimId)]
    ensures p.log == [OnUpdate(final), OnComplete(final)]
  {
    p := new ClaimStatusPoller.Start(claimId, PollOptions(None, None));
    p.Cleanup();
    p.Respond(Fetched(final));
  }

  /** `getExplorerName`: the block explorer's name for a chain. */
  function ExplorerName(blockchain: string): (name: string)
    ensures name == "Solscan" <==> blockchain == "solana"
    ensures name == "Etherscan" <==> blockchain == "ethereum"
    ensures name == "Basescan" <==> blockchain == "base"
    ensures name == "Explorer" <==> blockchain !in {"solana", "ethereum", "base"}
  {
    match blockchain
    case "solana" => "Solscan"
    case "ethereum" => "Etherscan"
    case "base" => "Basescan"
    case _ => "Explorer"
  }
}
