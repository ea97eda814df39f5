/**
 * The wallet helpers of lib/walletUtils.ts: the fixed-priority choice of the
 * address a claim pays out to (first Solana linked wallet, else first EVM
 * linked wallet, else the provider's embedded wallet), the chain family of an
 * address, and the shortened form shown in the interface.
 */
module Wallet {
  import opened Wrappers
  import opened JsStrings

  /** A linked account as the auth provider reports it; `None` fields are `undefined`. */
  datatype LinkedAccount = LinkedAccount(kind: string, chainType: Option<string>, address: Option<string>)

  datatype EmbeddedWallet = EmbeddedWallet(address: Option<string>)

  /** The authenticated user; `None` fields are `undefined`. */
  datatype User = User(linkedAccounts: Option<seq<LinkedAccount>>, wallet: Option<EmbeddedWallet>)

  datatype ChainFamily = Evm | Solana

  /** A JavaScript-truthy address: present and not empty. */
  predicate Truthy(a: Option<string>) {
    a.Some? && a.value != ""
  }

  /** The account is an external wallet on `chain`. */
  predicate IsWalletOn(a: LinkedAccount, chain: string) {
    a.kind == "wallet" && a.chainType == Some(chain)
  }

  /** `accounts.findIndex(a => a.type === 'wallet' && a.chainType === chain)`. */
  function FirstWalletOn(accounts: seq<LinkedAccount>, chain: string): (r: Option<nat>)
    ensures r.Some? ==> r.value < |accounts| && IsWalletOn(accounts[r.value], chain)
    ensures r.Some? ==> forall j :: 0 <= j < r.value ==> !IsWalletOn(accounts[j], chain)
    ensures r.None? ==> forall j :: 0 <= j < |accounts| ==> !IsWalletOn(accounts[j], chain)
  {
    if accounts == [] then None
    else if IsWalletOn(accounts[0], chain) then Some(0)
    else match FirstWalletOn(accounts[1..], chain)
      case None => None
      case Some(k) => Some(k + 1)
  }

  function Accounts(user: User): seq<LinkedAccount> {
    match user.linkedAccounts
    case None => []
    case Some(accounts) => accounts
  }

  /** `user?.linkedAccounts?.find(...)?.address`: the address of the first wallet account on `chain`. */
  function LinkedAddress(user: User, chain: string): (r: Option<string>)
    ensures r.Some? ==> exists k :: 0 <= k < |Accounts(user)| && IsWalletOn(Accounts(user)[k], chain)
                                    && Accounts(user)[k].address == r
  {
    match FirstWalletOn(Accounts(user), chain)
    case None => None
    case Some(i) => Accounts(user)[i].address
  }

  /** `user?.wallet?.address`. */
  function EmbeddedAddress(user: User): Option<string> {
    match user.wallet
    case None => None
    case Some(w) => w.address
  }

  /**
   * `getActiveWalletAddress(user)`: the first truthy one of the Solana
   * wallet's, the EVM wallet's and the embedded wallet's address, else null.
   */
  function ActiveWalletAddress(user: Option<User>): (r: Option<string>)
    ensures user.None? ==> r.None?
    ensures r.Some? ==> r.value != ""
    ensures r.Some? ==>
      || r == EmbeddedAddress(user.value)
      || exists k :: 0 <= k < |Accounts(user.value)| && Accounts(user.value)[k].address == r
                     && (IsWalletOn(Accounts(user.value)[k], "solana") || IsWalletOn(Accounts(user.value)[k], "ethereum"))
  {
    match user
    case None => None
    case Some(u) =>
      var solana := LinkedAddress(u, "solana");
      var evm := LinkedAddress(u, "ethereum");
      var embedded := EmbeddedAddress(u);
      if Truthy(solana) then solana
      else if Truthy(evm) then evm
      else if Truthy(embedded) then embedded
      else None
  }

  /** The first Solana wallet account, when its address is set, wins over everything else. */
  lemma SolanaPreferred(u: User, i: nat)
    requires i < |Accounts(u)|
    requires IsWalletOn(Accounts(u)[i], "solana") && Truthy(Accounts(u)[i].address)
    requires forall j :: 0 <= j < i ==> !IsWalletOn(Accounts(u)[j], "solana")
    ensures ActiveWalletAddress(Some(u)) == Accounts(u)[i].address
  {
    var r := FirstWalletOn(Accounts(u), "solana");
    assert r == Some(i);
  }

  /** With no usable Solana address, the first EVM wallet account, when its address is set, wins over the embedded wallet. */
  lemma EvmPreferredOverEmbedded(u: User, i: nat)
    requires i < |Accounts(u)|
    requires !Truthy(LinkedAddress(u, "solana"))
    requires IsWalletOn(Accounts(u)[i], "ethereum") && Truthy(Accounts(u)[i].address)
    requires forall j :: 0 <= j < i ==> !IsWalletOn(Accounts(u)[j], "ethereum")
    ensures ActiveWalletAddress(Some(u)) == Accounts(u)[i].address
  {
    var r := FirstWalletOn(Accounts(u), "ethereum");
    assert r == Some(i);
  }

  /**
   * Only the first Solana wallet account is consulted: when its address is
   * empty, the choice falls through to the EVM wallet even if a later Solana
   * wallet account has an address.
   */
  lemma EmptyFirstSolanaFallsThrough(u: User, evm: string)
    requires |Accounts(u)| > 0
    requires IsWalletOn(Accounts(u)[0], "solana") && Accounts(u)[0].address == Some("")
    requires LinkedAddress(u, "ethereum") == Some(evm) && evm != ""
    ensures ActiveWalletAddress(Some(u)) == Some(evm)
  {
    assert FirstWalletOn(Accounts(u), "solana") == Some(0);
  }

  /** With neither linked address set, the embedded wallet's address is chosen when it is set, else null. */
  lemma EmbeddedWhenNoLinkedAddress(u: User)
    requires !Truthy(LinkedAddress(u, "solana")) && !Truthy(LinkedAddress(u, "ethereum"))
    ensures ActiveWalletAddress(Some(u)) == (if Truthy(EmbeddedAddress(u)) then EmbeddedAddress(u) else None)
  {
  }

  /** The accounts of kind "wallet", in their original order. */
  function WalletsOnly(accounts: seq<LinkedAccount>): seq<LinkedAccount> {
    if accounts == [] then []
    else (if accounts[0].kind == "wallet" then [accounts[0]] else []) + WalletsOnly(accounts[1..])
  }

  /** Dropping the accounts that are not wallets leaves the first wallet on each chain the same account. */
  lemma {:induction false} WalletsOnlyKeepsFirstWallet(accounts: seq<LinkedAccount>, chain: string)
    ensures FirstWalletOn(WalletsOnly(accounts), chain).Some? == FirstWalletOn(accounts, chain).Some?
    ensures FirstWalletOn(accounts, chain).Some? ==>
      WalletsOnly(accounts)[FirstWalletOn(WalletsOnly(accounts), chain).value] == accounts[FirstWalletOn(accounts, chain).value]
    decreases |accounts|
  {
    if accounts != [] {
      var w := WalletsOnly(accounts);
      WalletsOnlyKeepsFirstWallet(accounts[1..], chain);
      if accounts[0].kind == "wallet" {
        assert w == [accounts[0]] + WalletsOnly(accounts[1..]);
        assert w[1..] == WalletsOnly(accounts[1..]);
      } else {
        assert w == WalletsOnly(accounts[1..]);
      }
    }
  }

  /**
   * Accounts that are not external wallets never matter: removing them from
   * the linked accounts leaves the chosen address unchanged.
   */
  lemma NonWalletAccountsIgnored(u: User)
    ensures ActiveWalletAddress(Some(u)) == ActiveWalletAddress(Some(User(Some(WalletsOnly(Accounts(u))), u.wallet)))
  {
    WalletsOnlyKeepsFirstWallet(Accounts(u), "solana");
    WalletsOnlyKeepsFirstWallet(Accounts(u), "ethereum");
  }

  /** Null exactly when none of the three candidate addresses is set. */
  lemma NullOnlyWhenNothingUsable(u: User)
    ensures ActiveWalletAddress(Some(u)).None? <==>
      !Truthy(LinkedAddress(u, "solana")) && !Truthy(LinkedAddress(u, "ethereum")) && !Truthy(EmbeddedAddress(u))
  {
  }

  /** `getWalletChainType(address)`: EVM for a `0x` prefix, Solana for any other non-empty address, else null. */
  function WalletChainType(address: Option<string>): (r: Option<ChainFamily>)
    ensures r.None? <==> !Truthy(address)
    ensures r == Some(Evm) <==> Truthy(address) && StartsWith(address.value, "0x")
    ensures r == Some(Solana) <==> Truthy(address) && !StartsWith(address.value, "0x")
  {
    if !Truthy(address) then None
    else if StartsWith(address.value, "0x") then Some(Evm)
    else Some(Solana)
  }

  /** A resolved address always has a chain family; an absent one never does. */
  lemma ResolvedAddressHasFamily(user: Option<User>)
    ensures WalletChainType(ActiveWalletAddress(user)).Some? <==> ActiveWalletAddress(user).Some?
  {
  }

  /**
   * `formatShortAddress(address)`: empty stays empty; otherwise the first six
   * and the last four characters around "...", with `substring` clamping for
   * short inputs.
   */
  function FormatShortAddress(address: string): (r: string)
    ensures address == "" ==> r == ""
    ensures |address| >= 6 ==> r == address[..6] + "..." + address[|address| - 4..]
    ensures 4 <= |address| < 6 ==> r == address + "..." + address[|address| - 4..]
    ensures 0 < |address| < 4 ==> r == address + "..." + address
  {
    if address == "" then "" else Abbreviate(address, 6, 4)
  }
}
