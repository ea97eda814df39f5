/**
 * The ambassador dashboard of app/ambassador/page.tsx: the total of the
 * faucet balances, the gift amount check against a quarter of that total,
 * and the state updates of `handleCreateGift` and `fetchStats`, each split
 * at its `await` into the request and the arrival of its answer.
 */
module Ambassador {
  import opened Wrappers
  import opened JsStrings
  import opened JsNumbers
  import Wallet

  /** One faucet entry of the stats answer; `None` is a missing `token_balance`. */
  datatype FaucetStat = FaucetStat(tokenBalance: Option<string>)

  /** `parseFloat(curr.token_balance) || 0`: an unreadable balance counts as 0. */
  function BalanceOf(stat: FaucetStat): (b: real)
    ensures stat.tokenBalance.None? || ParseFloat(stat.tokenBalance.value).None? ==> b == 0.0
    ensures stat.tokenBalance.Some? && ParseFloat(stat.tokenBalance.value).Some? ==> b == ParseFloat(stat.tokenBalance.value).value
  {
    match stat.tokenBalance
    case None => 0.0
    case Some(text) =>
      match ParseFloat(text)
      case None => 0.0
      case Some(v) => v
  }

  /** `faucetStats.reduce((acc, curr) => acc + balance(curr), 0)`, folding from the left. */
  function TotalBalance(stats: seq<FaucetStat>): real {
    if stats == [] then 0.0 else TotalBalance(stats[..|stats| - 1]) + BalanceOf(stats[|stats| - 1])
  }

  /** The total of a concatenation is the sum of the totals. */
  lemma {:induction false} TotalBalanceAppend(a: seq<FaucetStat>, b: seq<FaucetStat>)
    ensures TotalBalance(a + b) == TotalBalance(a) + TotalBalance(b)
    decreases |b|
  {
    if b == [] {
      assert a + b == a;
    } else {
      var front := b[..|b| - 1];
      assert (a + b)[..|a + b| - 1] == a + front;
      assert (a + b)[|a + b| - 1] == b[|b| - 1];
      TotalBalanceAppend(a, front);
    }
  }

  /** Entries whose balance cannot be read add nothing. */
  lemma {:induction false} UnreadableEntriesAddNothing(stats: seq<FaucetStat>, entry: FaucetStat)
    requires entry.tokenBalance.None? || ParseFloat(entry.tokenBalance.value).None?
    ensures TotalBalance(stats + [entry]) == TotalBalance(stats)
    ensures TotalBalance([entry] + stats) == TotalBalance(stats)
  {
    TotalBalanceAppend(stats, [entry]);
    TotalBalanceAppend([entry], stats);
    assert [entry][..0] == [];
  }

  /** With no negative balance the total is at least each entry's own. */
  lemma {:induction false} TotalBoundsEachEntry(stats: seq<FaucetStat>, i: nat)
    requires i < |stats|
    requires forall k :: 0 <= k < |stats| ==> BalanceOf(stats[k]) >= 0.0
    ensures TotalBalance(stats) >= BalanceOf(stats[i])
    ensures TotalBalance(stats) >= 0.0
    decreases |stats|
  {
    var front := stats[..|stats| - 1];
    NonNegativeTotal(front);
    if i < |stats| - 1 {
      assert front[i] == stats[i];
      TotalBoundsEachEntry(front, i);
    }
  }

  lemma {:induction false} NonNegativeTotal(stats: seq<FaucetStat>)
    requires forall k :: 0 <= k < |stats| ==> BalanceOf(stats[k]) >= 0.0
    ensures TotalBalance(stats) >= 0.0
    decreases |stats|
  {
    if stats != [] {
      NonNegativeTotal(stats[..|stats| - 1]);
    }
  }

  /** The most a single gift may be: 25% of the total balance. */
  function GiftLimit(totalBalance: real): real {
    totalBalance * 0.25
  }

  /** The outcome of checking the amount typed in. */
  datatype GiftCheck = InvalidNumber | TooHigh(limit: real) | Accepted(amount: real)

  /** The two checks of `handleCreateGift` before any request is sent. */
  function CheckGift(customAmount: string, totalBalance: real): (r: GiftCheck)
    ensures r == InvalidNumber <==> ParseFloat(customAmount).None? || ParseFloat(customAmount).value <= 0.0
    ensures r.TooHigh? <==> ParseFloat(customAmount).Some? && ParseFloat(customAmount).value > 0.0
                             && ParseFloat(customAmount).value > GiftLimit(totalBalance)
    ensures r.TooHigh? ==> r.limit == GiftLimit(totalBalance)
    ensures r.Accepted? <==> ParseFloat(customAmount).Some? && 0.0 < ParseFloat(customAmount).value <= GiftLimit(totalBalance)
    ensures r.Accepted? ==> Some(r.amount) == ParseFloat(customAmount)
  {
    var maxAllowed := GiftLimit(totalBalance);
    match ParseFloat(customAmount)
    case None => InvalidNumber
    case Some(amountNum) =>
      if amountNum <= 0.0 then InvalidNumber
      else if amountNum > maxAllowed then TooHigh(maxAllowed)
      else Accepted(amountNum)
  }

  /** No gift passes when the balances add up to nothing or less. */
  lemma NothingHeldNothingGiven(customAmount: string, totalBalance: real)
    requires totalBalance <= 0.0
    ensures !CheckGift(customAmount, totalBalance).Accepted?
  {
  }

  /** The limit itself is accepted. */
  lemma LimitIsAccepted(customAmount: string, totalBalance: real)
    requires ParseFloat(customAmount) == Some(GiftLimit(totalBalance)) && totalBalance > 0.0
    ensures CheckGift(customAmount, totalBalance) == Accepted(GiftLimit(totalBalance))
  {
  }

  /** The texts the `error` state can hold; translated ones by their key. */
  datatype ErrorText =
    | NoError
    | EnterValidNumber
    | AmountTooHigh(limit: real)
    | ServerMessage(message: string)
    | GenerationFailed
    | AccessDenied
    | ConnectionError

  /** `err.response?.data?.error || t.fallo_generar`. */
  function CreateFailureText(serverError: Option<string>): (e: ErrorText)
    ensures serverError.Some? && serverError.value != "" ==> e == ServerMessage(serverError.value)
    ensures serverError.None? || serverError.value == "" ==> e == GenerationFailed
  {
    if serverError.Some? && serverError.value != "" then ServerMessage(serverError.value) else GenerationFailed
  }

  /** The `catch` of `fetchStats`: 403 is access denied, anything else a connection error. */
  function StatsFailureText(status: Option<int>): (e: ErrorText)
    ensures e == AccessDenied <==> status == Some(403)
    ensures e == ConnectionError <==> status != Some(403)
  {
    if status == Some(403) then AccessDenied else ConnectionError
  }

  /** A create-code request as posted. */
  datatype CreateRequest = CreateRequest(walletAddress: Option<string>, customAmount: string, days: int)

  /** How a create-code request ends: the code's full token, or an error with the server's `error` field if any. */
  datatype CreateAnswer = Created(fullToken: string) | CreateFailed(serverError: Option<string>)

  /** How a stats request ends: the entries, or an error with the HTTP status if there was a response. */
  datatype StatsAnswer = StatsLoaded(data: Option<seq<FaucetStat>>) | StatsFailed(status: Option<int>)

  /** The values the stats effect depends on: `[ready, authenticated, activeWallet]`. */
  datatype EffectDeps = EffectDeps(ready: bool, authenticated: bool, wallet: Option<string>)

  /** The in-flight requests after the answer to the `i`-th one has arrived. */
  function Answered<T>(inFlight: seq<T>, i: nat): (rest: seq<T>)
    requires i < |inFlight|
    ensures |rest| == |inFlight| - 1
    ensures multiset(rest) + multiset{inFlight[i]} == multiset(inFlight)
  {
    assert inFlight == inFlight[..i] + [inFlight[i]] + inFlight[i + 1..];
    inFlight[..i] + inFlight[i + 1..]
  }

  /** The dashboard's state. */
  class AmbassadorPage {
    /** `wallets[0]?.address` at the latest render. */
    var activeWallet: Option<string>
    /** The stats entries; `None` when the answer carried no data. */
    var faucetStats: Option<seq<FaucetStat>>
    var customAmount: string
    var customDays: int
    var generatedCode: Option<string>
    var loading: bool
    var error: ErrorText
    var isCheckingRole: bool
    /** Create-code requests sent, in order. */
    var createRequests: seq<CreateRequest>
    /** The wallet each stats request was sent for, in order. */
    var statsRequests: seq<Option<string>>
    /** The stats requests still awaiting their answer, by wallet; they may be answered in any order. */
    var statsInFlight: seq<Option<string>>
    /** The effect's dependencies when it last ran; `None` before the first render. */
    var lastDeps: Option<EffectDeps>

    /** Every stats request in flight is one that was sent. */
    ghost predicate Valid()
      reads this
    {
      multiset(statsInFlight) <= multiset(statsRequests)
    }

    constructor (activeWallet: Option<string>)
      ensures Valid() && this.activeWallet == activeWallet && lastDeps == None
      ensures faucetStats == Some([]) && customAmount == "6.9" && customDays == 14
      ensures generatedCode == None && !loading && error == NoError && isCheckingRole
      ensures createRequests == [] && statsRequests == [] && statsInFlight == []
    {
      this.activeWallet := activeWallet;
      faucetStats := Some([]);
      customAmount, customDays := "6.9", 14;
      generatedCode, loading, error := None, false, NoError;
      isCheckingRole := true;
      createRequests, statsRequests, statsInFlight := [], [], [];
      lastDeps := None;
    }

    /** The total over the entries on show (none when there are no entries). */
    function Total(): real
      reads this`faucetStats
    {
      match faucetStats
      case None => 0.0
      case Some(stats) => TotalBalance(stats)
    }

    /** The amount and days inputs (`onChange`): the typed text is kept as it is. */
    method EditForm(amountText: string, days: int)
      requires Valid()
      modifies this
      ensures Valid() && customAmount == amountText && customDays == days
      ensures unchanged(this`activeWallet, this`faucetStats, this`generatedCode, this`loading, this`error)
      ensures unchanged(this`isCheckingRole, this`createRequests, this`statsRequests, this`statsInFlight, this`lastDeps)
    {
      customAmount, customDays := amountText, days;
    }

    /**
     * `handleCreateGift` up to its request: nothing without stats; otherwise
     * the error and the code are cleared, and the amount is either rejected
     * with `loading` back to false, or posted with `loading` kept on.
     */
    method BeginCreateGift()
      requires Valid() && !loading
      modifies this
      ensures Valid()
      ensures unchanged(this`activeWallet, this`faucetStats, this`customAmount, this`customDays)
      ensures unchanged(this`isCheckingRole, this`statsRequests, this`statsInFlight, this`lastDeps)
      ensures old(faucetStats).None? ==>
        generatedCode == old(generatedCode) && error == old(error) && !loading && createRequests == old(createRequests)
      ensures old(faucetStats).Some? ==> generatedCode == None
      ensures old(faucetStats).Some? && CheckGift(customAmount, Total()) == InvalidNumber ==>
        error == EnterValidNumber && !loading && createRequests == old(createRequests)
      ensures old(faucetStats).Some? && CheckGift(customAmount, Total()).TooHigh? ==>
        error == AmountTooHigh(GiftLimit(Total())) && !loading && createRequests == old(createRequests)
      ensures old(faucetStats).Some? && CheckGift(customAmount, Total()).Accepted? ==>
        error == NoError && loading
        && createRequests == old(createRequests) + [CreateRequest(activeWallet, customAmount, customDays)]
    {
      if faucetStats.None? {
        return;
      }
      loading := true;
      error := NoError;
      generatedCode := None;
      var maxAllowed := GiftLimit(Total());
      var amountNum := ParseFloat(customAmount);
      if amountNum.None? || amountNum.value <= 0.0 {
        error := EnterValidNumber;
        loading := false;
        return;
      }
      if amountNum.value > maxAllowed {
        error := AmountTooHigh(maxAllowed);
        loading := false;
        return;
      }
      createRequests := createRequests + [CreateRequest(activeWallet, customAmount, customDays)];
    }

    /** The create-code request comes back: the code on success, the error text on failure; `loading` ends either way. */
    method FinishCreateGift(answer: CreateAnswer)
      requires Valid() && loading
      modifies this
      ensures Valid() && !loading
      ensures answer.Created? ==> generatedCode == Some(answer.fullToken) && error == old(error)
      ensures answer.CreateFailed? ==> generatedCode == old(generatedCode) && error == CreateFailureText(answer.serverError)
      ensures unchanged(this`activeWallet, this`faucetStats, this`customAmount, this`customDays, this`isCheckingRole)
      ensures unchanged(this`createRequests, this`statsRequests, this`statsInFlight, this`lastDeps)
    {
      match answer {
        case Created(fullToken) =>
          generatedCode := Some(fullToken);
        case CreateFailed(serverError) =>
          error := CreateFailureText(serverError);
      }
      loading := false;
    }

    /** `fetchStats` up to its request: the error is cleared, the role check starts, and the stats of the current wallet are asked for. */
    method BeginFetchStats()
      requires Valid()
      modifies this
      ensures Valid() && isCheckingRole && error == NoError
      ensures statsRequests == old(statsRequests) + [activeWallet]
      ensures statsInFlight == old(statsInFlight) + [activeWallet]
      ensures unchanged(this`activeWallet, this`lastDeps, this`faucetStats, this`generatedCode)
      ensures unchanged(this`loading, this`createRequests, this`customAmount, this`customDays)
    {
      error := NoError;
      isCheckingRole := true;
      statsRequests := statsRequests + [activeWallet];
      statsInFlight := statsInFlight + [activeWallet];
    }

    /**
     * The answer to the `i`-th stats request still in flight arrives: its
     * entries, or the mapped error, are stored whichever wallet it was asked
     * for, and the role check ends even if other requests are still in flight.
     */
    method FinishFetchStats(i: nat, answer: StatsAnswer)
      requires Valid() && i < |statsInFlight|
      modifies this
      ensures Valid() && !isCheckingRole
      ensures statsInFlight == Answered(old(statsInFlight), i) && statsRequests == old(statsRequests)
      ensures answer.StatsLoaded? ==> faucetStats == answer.data && error == old(error)
      ensures answer.StatsFailed? ==> faucetStats == old(faucetStats) && error == StatsFailureText(answer.status)
      ensures unchanged(this`activeWallet, this`lastDeps, this`generatedCode)
      ensures unchanged(this`loading, this`createRequests, this`customAmount, this`customDays)
    {
      match answer {
        case StatsLoaded(data) =>
          faucetStats := data;
        case StatsFailed(status) =>
          error := StatsFailureText(status);
      }
      isCheckingRole := false;
      statsInFlight := Answered(statsInFlight, i);
    }

    /**
     * A render with the session's `ready`, `authenticated` and first wallet.
     * The effect runs when one of them differs from its last run: stats are
     * fetched once signed in with a wallet, and the role check ends at once
     * when not signed in. Requests already in flight are not cancelled.
     */
    method SessionChanged(ready: bool, authenticated: bool, wallet: Option<string>)
      requires Valid()
      modifies this
      ensures Valid() && activeWallet == wallet && lastDeps == Some(EffectDeps(ready, authenticated, wallet))
      ensures old(lastDeps) != Some(EffectDeps(ready, authenticated, wallet)) && ready && authenticated && Wallet.Truthy(wallet) ==>
        isCheckingRole && error == NoError
        && statsRequests == old(statsRequests) + [wallet] && statsInFlight == old(statsInFlight) + [wallet]
      ensures old(lastDeps) != Some(EffectDeps(ready, authenticated, wallet)) && ready && !authenticated ==>
        !isCheckingRole && error == old(error)
        && statsRequests == old(statsRequests) && statsInFlight == old(statsInFlight)
      ensures old(lastDeps) == Some(EffectDeps(ready, authenticated, wallet)) || !ready || (authenticated && !Wallet.Truthy(wallet)) ==>
        isCheckingRole == old(isCheckingRole) && error == old(error)
        && statsRequests == old(statsRequests) && statsInFlight == old(statsInFlight)
      ensures unchanged(this`faucetStats, this`generatedCode, this`loading)
      ensures unchanged(this`createRequests, this`customAmount, this`customDays)
    {
      var deps := EffectDeps(ready, authenticated, wallet);
      activeWallet := wallet;
      if lastDeps == Some(deps) {
        return;
      }
      lastDeps := Some(deps);
      if ready && authenticated && Wallet.Truthy(wallet) {
        BeginFetchStats();
      } else if ready && !authenticated {
        isCheckingRole := false;
      }
    }
  }

  /**
   * Switching wallets while the first wallet's stats are in flight: the first
   * answer to arrive ends the role check although the second request is
   * still out, and when the old wallet's answer arrives last its entries
   * replace the new wallet's.
   */
  method StaleStatsAnswerWins(first: string, second: string, firstStats: seq<FaucetStat>, secondStats: seq<FaucetStat>)
    returns (page: AmbassadorPage, checkingAfterFirstAnswer: bool, inFlightAfterFirstAnswer: seq<Option<string>>)
    requires first != "" && second != "" && first != second
    ensures !checkingAfterFirstAnswer && inFlightAfterFirstAnswer == [Some(first)]
    ensures page.activeWallet == Some(second) && page.statsRequests == [Some(first), Some(second)]
    ensures page.faucetStats == Some(firstStats) && page.statsInFlight == [] && !page.isCheckingRole
  {
    page := new AmbassadorPage(Some(first));
    page.SessionChanged(true, true, Some(first));
    page.SessionChanged(true, true, Some(second));
    assert page.statsInFlight == [Some(first), Some(second)];
    page.FinishFetchStats(1, StatsLoaded(Some(secondStats)));
    assert !page.isCheckingRole && page.statsInFlight == [Some(first)];
    checkingAfterFirstAnswer, inFlightAfterFirstAnswer := page.isCheckingRole, page.statsInFlight;
    page.FinishFetchStats(0, StatsLoaded(Some(firstStats)));
  }

  /**
   * Typing an amount and days and then pressing the button: the amount
   * checked, and the one posted, is the one typed, with the days typed and
   * the wallet of the page.
   */
  method TypeThenCreate(page: AmbassadorPage, amountText: string, days: int)
    requires page.Valid() && !page.loading && page.faucetStats.Some?
    modifies page
    ensures page.Valid() && page.customAmount == amountText && page.customDays == days
    ensures CheckGift(amountText, old(page.Total())) == InvalidNumber ==>
      page.error == EnterValidNumber && !page.loading && page.createRequests == old(page.createRequests)
    ensures CheckGift(amountText, old(page.Total())).TooHigh? ==>
      page.error == AmountTooHigh(GiftLimit(old(page.Total()))) && !page.loading && page.createRequests == old(page.createRequests)
    ensures CheckGift(amountText, old(page.Total())).Accepted? ==>
      page.loading && page.createRequests == old(page.createRequests) + [CreateRequest(old(page.activeWallet), amountText, days)]
  {
    page.EditForm(amountText, days);
    page.BeginCreateGift();
  }

  /** Signing out while stats are in flight ends the role check with the request still out. */
  method SignOutDuringStats(wallet: string) returns (page: AmbassadorPage)
    requires wallet != ""
    ensures !page.isCheckingRole && page.statsInFlight == [Some(wallet)]
  {
    page := new AmbassadorPage(Some(wallet));
    page.SessionChanged(true, true, Some(wallet));
    page.SessionChanged(true, false, Some(wallet));
  }
}
