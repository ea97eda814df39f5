# Pass-it client core, modelled in Dafny

This project models the decision logic and small state machines of the
pass-it client, a game that hands out invitation tokens as QR codes. A
scanned token leads to a claim, whose transaction status is then polled.
The modules follow the program's files:

- `polling.dfy` (`Polling`): `startPollingClaimStatus` of `lib/pollingUtils.ts`. It is a
  `ClaimStatusPoller` class holding the attempt counter, the running flag, the pending-timer handle, the
  query in flight, the callbacks invoked and the queries sent. The asynchronous steps are
  discrete events: start, timer fires, response arrives, cleanup. It also models `getExplorerName`.
- `wallet.dfy` (`Wallet`): the payout-address priority of `lib/walletUtils.ts` (Solana linked
  wallet, then EVM linked wallet, then the embedded wallet), the chain family of an address and
  the short address.
- `scan.dfy` (`Scan`): `handleScan` of `app/scan/page.tsx`. It covers token extraction after
  "/claim/" or "/c/", dropping one trailing slash then trimming, and the `scanned` latch in
  front of the navigation.
- `referral.dfy` (`Referral`): `components/ReferralCard.tsx`. It covers the share URL and its
  round trip through the scan parser, the download file name, the node and ID labels, and the
  `downloading` flag around the image export.
- `instructions.dfy` (`Instructions`): the four-step navigator of `components/InstructionsModal.tsx`.
- `faq.dfy` (`Faq`): the category filter and the accordion toggle of `app/faq/page.tsx`.
- `language.dfy` (`Language`): the language provider of `context/LanguageContext.tsx`.
- `admin.dfy` (`Admin`): the server actions of `app/admin/actions.ts`. It covers the cookie
  password check, login and logout, folding the settings rows into a map, and coercing and
  upserting a setting.
- `ambassador.dfy` (`Ambassador`): `app/ambassador/page.tsx`. It covers the balance total, the
  gift limit check, and the state updates of `handleCreateGift` and `fetchStats`.
- `strings.dfy` (`JsStrings`), `numbers.dfy` (`JsNumbers`), `wrappers.dfy` (`Wrappers`): the
  JavaScript string and number operations the code relies on, over `seq<char>`, plus `Option`
  and `Result`.

Each asynchronous handler is split at its `await` into the request and the arrival of its
answer. This exposes the state in between (`downloading`, `loading`, `isCheckingRole` set).
Network answers, database rows, cookies and local storage are inputs or fields.

The poller's `cleanup` does not cancel a query already sent. It only clears the timer and the
running flag, so a response already on its way still reaches `onUpdate`, and `onComplete` or
`onError` when it is final. Only the rescheduling is suppressed.
`Polling.CleanupWithQueryInFlight` exhibits this.

The ambassador page's stats effect runs again whenever `ready`, `authenticated` or the first
wallet changes, even while a stats request is in flight. Nothing cancels or matches the earlier
request. The first answer to arrive ends the role check, and the last one to arrive sets the
entries shown, whichever wallet it was asked for. `Ambassador.StaleStatsAnswerWins` and
`Ambassador.SignOutDuringStats` exhibit this.

## Model

| member | source | states |
|---|---|---|
| Polling.EffectiveInterval | lib/pollingUtils.ts:22-28 | Without an interval option the poller waits 5000 ms; otherwise it uses the option. |
| Polling.EffectiveMaxAttempts | lib/pollingUtils.ts:22-28 | Without a maxAttempts option the ceiling is 60; otherwise it is the option. |
| Polling.FailureMessage | lib/pollingUtils.ts:44-61 | A non-ok response reports "Failed to fetch claim status". A thrown Error reports its message; anything else thrown reports "Unknown error". |
| Polling.ClaimStatusPoller.Start | lib/pollingUtils.ts:12-67 | Starting takes the defaults and at once sends the first query to `/api/claim/<id>/status`, or reports the timeout when the ceiling is not positive. |
| Polling.ClaimStatusPoller.Poll | lib/pollingUtils.ts:34-43 | A poll with the attempts used up sends nothing and reports the timeout error. A stopped poll does nothing. Otherwise it sends one query. |
| Polling.ClaimStatusPoller.TimerFires | lib/pollingUtils.ts:34-58 | The rescheduled timer runs the poll again: one more query, or the timeout error once the attempts are used up. |
| Polling.ClaimStatusPoller.Respond | lib/pollingUtils.ts:43-63 | Every parsed status goes to onUpdate first. A non-pending one is then passed to onComplete and the poller stops. A pending one counts an attempt and reschedules while still polling. A failed query goes to onError and the poller stops without rescheduling. The invariant keeps at most one terminal callback and at most maxAttempts queries. |
| Polling.ClaimStatusPoller.Cleanup | lib/pollingUtils.ts:70-76 | Cleanup stops polling and clears a scheduled timer. It is safe to repeat and leaves the log and an in-flight query alone. |
| Polling.ClaimStatusPoller.QueriesBounded | lib/pollingUtils.ts:35-56 | In every reachable state at most maxAttempts queries have been sent and at most one terminal callback has fired. |
| Polling.PendingRound | lib/pollingUtils.ts:34-59 | A pending answer followed by the timer costs one attempt and sends the next query, or ends with the timeout error once the attempts are used up. |
| Polling.RunAlwaysPending | lib/pollingUtils.ts:34-59 | A claim that stays pending gets exactly maxAttempts queries and maxAttempts updates, then the timeout error, with nothing left scheduled. |
| Polling.CleanupWithQueryInFlight | lib/pollingUtils.ts:43-76 | A final status that arrives after cleanup still reaches onUpdate and onComplete. |
| Polling.ExplorerName | lib/pollingUtils.ts:81-87 | solana maps to Solscan, ethereum to Etherscan, base to Basescan, and exactly every other chain to Explorer. |
| Wallet.FirstWalletOn | lib/walletUtils.ts:7-13 | The `find` picks the first account that is an external wallet on the chain, and none exists when it finds nothing. |
| Wallet.LinkedAddress | lib/walletUtils.ts:7-13 | A linked address comes from a wallet account on the requested chain. |
| Wallet.ActiveWalletAddress | lib/walletUtils.ts:3-20 | No user gives null. A result is never empty and is the embedded wallet's address or that of a Solana or EVM wallet account. |
| Wallet.EmbeddedWhenNoLinkedAddress | lib/walletUtils.ts:16-19 | With neither linked address set, the embedded wallet's address is returned when set, and null otherwise. |
| Wallet.SolanaPreferred | lib/walletUtils.ts:7-19 | The first Solana wallet account with an address wins over every other candidate. |
| Wallet.EvmPreferredOverEmbedded | lib/walletUtils.ts:11-19 | With no usable Solana address, the first EVM wallet account with an address wins over the embedded wallet. |
| Wallet.EmptyFirstSolanaFallsThrough | lib/walletUtils.ts:7-19 | An empty address on the first Solana wallet account falls through to the EVM wallet. Later Solana accounts are never consulted. |
| Wallet.WalletsOnlyKeepsFirstWallet | lib/walletUtils.ts:7-13 | Removing the accounts whose type is not "wallet" leaves the `find` on each chain finding the same account. |
| Wallet.NonWalletAccountsIgnored | lib/walletUtils.ts:3-19 | Removing every account whose type is not "wallet" from the linked accounts leaves the chosen address unchanged. |
| Wallet.NullOnlyWhenNothingUsable | lib/walletUtils.ts:19 | The result is null exactly when none of the three candidates has a non-empty address. |
| Wallet.WalletChainType | lib/walletUtils.ts:22-25 | Null or empty gives null, a "0x" prefix gives EVM, and anything else gives Solana, each as an if-and-only-if. |
| Wallet.ResolvedAddressHasFamily | lib/walletUtils.ts:19-25 | A resolved payout address always has a chain family. |
| Wallet.FormatShortAddress | lib/walletUtils.ts:27-30 | Empty stays empty. Otherwise the result is the first six characters, "...", then the last four, with `substring` clamping for short inputs. |
| JsStrings.IndexOf | app/scan/page.tsx:29 | The first position where the pattern occurs, and none before it, or no occurrence at all. |
| JsStrings.Split | app/scan/page.tsx:30 | Split pieces contain no separator, and there is a second piece exactly when the separator occurs. |
| JsStrings.JoinSplit | app/scan/page.tsx:30 | Joining the pieces of a split with the same separator gives back the string. |
| JsStrings.SecondPiece | app/scan/page.tsx:31 | `split(sep)[1]` is the text after the first separator, up to the next one. |
| JsStrings.TrimStartSpec | app/scan/page.tsx:39 | `trimStart` keeps a suffix of its input, drops only whitespace, and leaves no whitespace at the front. |
| JsStrings.TrimEndSpec | app/scan/page.tsx:39 | `trimEnd` keeps a prefix of its input, drops only whitespace, and leaves no whitespace at the back. |
| JsStrings.TrimEdges | app/scan/page.tsx:39 | `trim` leaves no whitespace at either end. |
| JsStrings.TrimSpec | app/scan/page.tsx:39 | `trim` returns a slice of its input with only whitespace around it. |
| JsStrings.Substring | lib/walletUtils.ts:29 | `substring` clamps both bounds to `0..length` and takes the slice between them, swapping them when the first exceeds the second. |
| JsNumbers.DecimalTextRoundTrip | components/ReferralCard.tsx:38 | The decimal text of a card number reads back as that number. |
| JsNumbers.Number | app/admin/actions.ts:79 | `Number(s)` is a number exactly when `s` is empty or a decimal literal; the empty string is 0. |
| JsNumbers.ParseFloatDefined | app/ambassador/page.tsx:71 | `parseFloat(s)` is a number exactly when, after the leading whitespace, an optional sign is followed by a digit, or by a point and a digit. |
| JsNumbers.ParseFloatSkipsWhitespace | app/ambassador/page.tsx:71 | `parseFloat` reads the literal at the start of what `trimStart` leaves. |
| JsNumbers.ParseFloatOfLiteral | app/ambassador/page.tsx:71 | On a whole decimal literal `parseFloat` and `Number` give the same value. |
| Scan.TokenPiece | app/scan/page.tsx:27-36 | Exactly the text after the first "/claim/" up to the first "/claim/" in what follows, or to the end. Only without "/claim/", the same for "/c/". Otherwise the whole value. |
| Scan.DropTrailingSlash | app/scan/page.tsx:39 | One trailing slash is removed when present; otherwise nothing changes. |
| Scan.Clean | app/scan/page.tsx:39 | A cleaned token has no whitespace at either end. |
| Scan.CleanKeepsCleanToken | app/scan/page.tsx:39 | A token with no edge whitespace and no trailing slash comes through cleaning unchanged. |
| Scan.CleanDropsOneSlash | app/scan/page.tsx:39 | Only one slash is dropped: "x//" keeps a trailing slash. |
| Scan.SlashBeforeWhitespaceStays | app/scan/page.tsx:39 | The slash is removed before trimming, so a slash followed by whitespace survives. |
| Scan.ScanPage.HandleScan | app/scan/page.tsx:19-50 | Once latched, or with no codes, nothing changes. Otherwise the first code's token, when non-empty, latches the page and navigates to "/claim/" + token. An empty token changes nothing. |
| Scan.ScanPage.constructor | app/scan/page.tsx:13 | The page starts unlatched, with no navigation made. |
| Scan.ScanTwice | app/scan/page.tsx:20-42 | After one navigation, a second scan navigates nowhere. |
| Referral.NoMarkerStartsInBase | components/ReferralCard.tsx:17 | No "/claim/" of the share URL starts inside a base that neither contains "/claim/" nor ends in "/claim". |
| Referral.FirstMarkerIsTheSeparator | components/ReferralCard.tsx:17 | In the share URL the first "/claim/" is the separator, when the base neither contains "/claim/" nor ends in "/claim". |
| Referral.ShareUrlScansBack | components/ReferralCard.tsx:17 | Scanning a card's URL gives back its code. This holds for a non-empty code without "/claim/", a trailing slash or edge whitespace, and a base as above. |
| Referral.BaseEndingInClaimBreaksRoundTrip | components/ReferralCard.tsx:17 | A base ending in "/claim" makes the scan return "claim/" + code instead of the code. |
| Referral.FilenamesDistinct | components/ReferralCard.tsx:38 | Different card positions download under different file names `PASS-IT-CARD-<index+1>.png`. |
| Referral.NodeLabelMatchesFilename | components/ReferralCard.tsx:76 | The node label shows index + 1, the same number as the file name. |
| Referral.IdLabel | components/ReferralCard.tsx:96 | The ID is the first 8 characters, "...", then the last 4, with clamping for short codes. |
| Referral.ReferralCard.constructor | components/ReferralCard.tsx:13-15 | A card keeps its code, index and base URL, and starts not downloading, with nothing saved, alerted or copied. |
| Referral.QrScansBack | components/ReferralCard.tsx:17 | Scanning the card's QR code gives back the card's code, for a clean code and a base as above. |
| Referral.ReferralCard.CopyLink | components/ReferralCard.tsx:110 | The clipboard gets the share URL and the "Link copiado" alert follows. |
| Referral.ReferralCard.DownloadImage | components/ReferralCard.tsx:19-21 | Without the card element nothing happens; otherwise `downloading` turns on. |
| Referral.ReferralCard.FinishExport | components/ReferralCard.tsx:35-45 | On success the PNG is saved under the card's file name; on failure the alert is shown. Either way `downloading` is reset. |
| Instructions.Indicator | components/InstructionsModal.tsx:157-163 | Indicator i is current iff i+1 is the step, completed iff i+1 is below it, and upcoming otherwise. |
| Instructions.IndicatorRowLayout | components/InstructionsModal.tsx:146-163 | For a valid step, the row is step-1 completed, one current, then the rest upcoming. |
| Instructions.ProgressPerStep | components/InstructionsModal.tsx:124 | The progress width is 25% per step and 100% on the last step. |
| Instructions.InstructionsModal.constructor | components/InstructionsModal.tsx:14-15 | Navigation starts at step 1 of 4. |
| Instructions.InstructionsModal.ShownStep | components/InstructionsModal.tsx:136 | The step description indexed is always within the four steps. |
| Instructions.InstructionsModal.NextStep | components/InstructionsModal.tsx:65-71 | Below 4 the step goes up by one; at 4 the step stays and the modal asks to close. The step stays within 1..4. |
| Instructions.InstructionsModal.PrevStep | components/InstructionsModal.tsx:73-77 | Above 1 the step goes down by one; at 1 nothing changes. |
| Instructions.InstructionsModal.SelectIndicator | components/InstructionsModal.tsx:146-149 | A click on indicator i shows step i+1. |
| Instructions.InstructionsModal.KeyDown | components/InstructionsModal.tsx:18-20 | Escape asks the parent to close; other keys do nothing. |
| Faq.InCategoryCounts | app/faq/page.tsx:84 | The filter keeps exactly the items of the category, each as often as it occurs. |
| Faq.InCategoryAppend | app/faq/page.tsx:84 | The filter keeps the original order. |
| Faq.Filtered | app/faq/page.tsx:82-84 | "all" shows the full list unchanged; any other id shows exactly that category's items. |
| Faq.NoItemIsInAll | app/faq/page.tsx:82-84 | No item has the id "all", so only the "all" branch shows everything. |
| Faq.Without | app/faq/page.tsx:89 | Removal takes out every occurrence of the index and keeps every other entry. |
| Faq.WithoutAppend | app/faq/page.tsx:89 | Removal keeps the remaining entries in order. |
| Faq.Toggled | app/faq/page.tsx:86-92 | A toggled index is open iff it was closed. A closed one is appended at the end, other entries keep their counts, and no duplicates are introduced. |
| Faq.ToggleClosedTwice | app/faq/page.tsx:86-92 | Opening and then closing an entry restores the list exactly. |
| Faq.ToggleOpenTwice | app/faq/page.tsx:86-92 | Closing and then reopening an entry keeps the same entries, with that one moved to the end. |
| Faq.FaqPage.constructor | app/faq/page.tsx:17-18 | The page starts on "all" with nothing open. |
| Faq.FaqPage.SelectCategory | app/faq/page.tsx:127 | Changing category leaves the open entries as they are. |
| Faq.FaqPage.ToggleItem | app/faq/page.tsx:147-159 | A click flips whether that position is shown open and no other position's. |
| Language.TranslationsFor | context/LanguageContext.tsx:32 | The Spanish bundle is shown iff the language is "es"; the English one otherwise, unrecognised values included. |
| Language.Toggled | context/LanguageContext.tsx:27 | "es" becomes "en"; everything else becomes "es". |
| Language.ToggleTwice | context/LanguageContext.tsx:26-28 | Toggling twice returns the original exactly for "es" and "en". |
| Language.ToggleSwitchesTranslations | context/LanguageContext.tsx:26-32 | Every toggle changes the bundle shown. |
| Language.LanguageProvider.constructor | context/LanguageContext.tsx:18 | The initial language is "es". |
| Language.LanguageProvider.Mount | context/LanguageContext.tsx:21-24 | A saved non-empty value under "app-lang" becomes the language, without validation; otherwise nothing changes. |
| Language.LanguageProvider.ToggleLanguage | context/LanguageContext.tsx:26-30 | Toggling switches the language and stores the new one under "app-lang". |
| Language.UseLanguage | context/LanguageContext.tsx:41-45 | Outside a provider the hook fails with its message; inside, it returns the context. |
| Admin.CheckAuthWithPassword | app/admin/actions.ts:8-12 | With the password set, a request is authenticated iff its cookie holds exactly that password. |
| Admin.UnsetPasswordAdmitsNoCookie | app/admin/actions.ts:11 | With ADMIN_PASSWORD unset, a request without the cookie is authenticated, and one with any cookie is not. |
| Admin.RequiringPasswordClosesUnsetCase | app/admin/actions.ts:8-12 | The intended check authenticates nobody when the password is unset, and agrees with the written check when it is set. |
| Admin.UnsetPasswordOpensUpdates | app/admin/actions.ts:68-93 | With ADMIN_PASSWORD unset, a browser that never logged in gets its setting update stored. |
| Admin.Coerce | app/admin/actions.ts:73-84 | A non-empty numeric string becomes that number. Otherwise "true" or "false" in any case becomes a boolean, and anything else stays the trimmed text. Each case is an if-and-only-if. |
| Admin.EmptyGuardExcludesZero | app/admin/actions.ts:79 | `Number("")` is 0, and the `trimmed !== ''` guard is what keeps it out: a trimmed value is numeric exactly when it is a decimal literal. |
| Admin.BlankBecomesEmptyString | app/admin/actions.ts:73-79 | Whitespace-only input is stored as the empty string. |
| Admin.PaddingIgnored | app/admin/actions.ts:74 | Whitespace before and after the value, in any amounts, changes neither the trimmed text nor the stored value. |
| Admin.RowKeyInConfig | app/admin/actions.ts:50-53 | Every row's key is in the configuration map. |
| Admin.ConfigKeyFromRow | app/admin/actions.ts:50-53 | Every key of the map comes from some row. |
| Admin.LastRowWins | app/admin/actions.ts:50-53 | A later row with the same key overwrites an earlier one: each key holds the value of its last row. |
| Admin.UniqueKeysConfig | app/admin/actions.ts:47-53 | With one row per key, as the table's primary key guarantees, each key holds its row's value. |
| Admin.BuildConfigMap | app/admin/actions.ts:50-53 | The `forEach` loop builds exactly the folded map. |
| Admin.AdminServer.constructor | app/admin/actions.ts:11-20 | The server holds ADMIN_PASSWORD (possibly unset), whether NODE_ENV is production, and the settings table, with no session cookie and no database use yet. |
| Admin.AdminServer.Login | app/admin/actions.ts:14-26 | Login succeeds iff the password equals ADMIN_PASSWORD. It then sets the httpOnly cookie for 86400 s and the session is authenticated; otherwise nothing changes. |
| Admin.AdminServer.Logout | app/admin/actions.ts:28-31 | Logout deletes the cookie. |
| Admin.AdminServer.GetDashboardData | app/admin/actions.ts:35-62 | Unauthenticated requests get null before any database use. Otherwise the result is the counts and the folded configuration. |
| Admin.AdminServer.UpdateSetting | app/admin/actions.ts:68-96 | An unauthenticated update fails with the "No autorizado" message and writes nothing. Otherwise the trimmed, coerced value is upserted for the key. |
| Ambassador.BalanceOf | app/ambassador/page.tsx:33 | An unreadable or missing balance counts as 0; otherwise the entry counts its parseFloat value. |
| Ambassador.TotalBalanceAppend | app/ambassador/page.tsx:32-34 | The total of two lists of entries is the sum of their totals. |
| Ambassador.UnreadableEntriesAddNothing | app/ambassador/page.tsx:33 | An unreadable entry adds nothing to the total. |
| Ambassador.TotalBoundsEachEntry | app/ambassador/page.tsx:32-34 | With no negative balance, the total is at least each entry. |
| Ambassador.CheckGift | app/ambassador/page.tsx:70-83 | An amount that is not a number or not positive is invalid. One above 25% of the total is too high, reporting that limit. One in (0, limit] is accepted, the limit included. |
| Ambassador.NothingHeldNothingGiven | app/ambassador/page.tsx:70-83 | Nothing is accepted when the total is not positive. |
| Ambassador.LimitIsAccepted | app/ambassador/page.tsx:79 | An amount equal to the limit is accepted. |
| Ambassador.CreateFailureText | app/ambassador/page.tsx:93 | A failed creation shows the server's non-empty error field, else the fallo_generar text. |
| Ambassador.StatsFailureText | app/ambassador/page.tsx:54-58 | A stats failure shows acceso_denegado iff the status is 403, and "Connection Error" otherwise. |
| Ambassador.Answered | app/ambassador/page.tsx:44-61 | An answered request leaves the others in flight: one fewer, and the multiset loses exactly that request. |
| Ambassador.AmbassadorPage.constructor | app/ambassador/page.tsx:17-27 | The page starts with no stats entries, amount "6.9", 14 days, no code, no error, not loading, the role check on, no request sent, and the effect not yet run. |
| Ambassador.AmbassadorPage.EditForm | app/ambassador/page.tsx:197-207 | The inputs store the typed amount and days and change nothing else. |
| Ambassador.AmbassadorPage.BeginCreateGift | app/ambassador/page.tsx:64-90 | Error and code are cleared before validation. The typed amount, as it stands (it is left unchanged), is checked. An invalid or too-high amount sets its error, sends nothing and ends loading. An accepted one posts the typed amount, days and wallet with loading on. |
| Ambassador.AmbassadorPage.FinishCreateGift | app/ambassador/page.tsx:85-96 | Success stores the server's fullToken as the code and failure stores the error text. Loading ends either way, and the form, the stats and the requests stay as they were. |
| Ambassador.AmbassadorPage.BeginFetchStats | app/ambassador/page.tsx:44-50 | Fetching clears the error, turns the role check on and sends one request for the current wallet, also while earlier requests are in flight. |
| Ambassador.AmbassadorPage.FinishFetchStats | app/ambassador/page.tsx:47-61 | The answer to any in-flight request stores its entries, or the error text mapped from the status, whichever wallet it was for. The role check ends either way, even with other requests still in flight. |
| Ambassador.AmbassadorPage.SessionChanged | app/ambassador/page.tsx:15-42 | Each render records the first wallet. The effect runs only when ready, authenticated or the wallet changed: signed in with a wallet, stats are fetched; signed out, the role check ends at once, with any request left in flight. |
| Ambassador.StaleStatsAnswerWins | app/ambassador/page.tsx:36-61 | After a wallet switch during a request, the first answer to arrive (the new wallet's) ends the role check with the old wallet's request still out, as the returned intermediate state shows; the old wallet's answer arriving last then replaces the new wallet's entries. |
| Ambassador.TypeThenCreate | app/ambassador/page.tsx:64-90 | Typing an amount and days and then pressing the button checks exactly the typed amount, and an accepted one is posted with the typed days and the page's wallet. |
| Ambassador.SignOutDuringStats | app/ambassador/page.tsx:36-42 | Signing out while stats are in flight ends the role check with the request still out. |

## Findings

| source | as written | input that shows it | evidently intended | confidence | as-written member | corrected member |
|---|---|---|---|---|---|---|
| app/admin/actions.ts:11 | `authCookie?.value === process.env.ADMIN_PASSWORD` authenticates a request with no cookie when ADMIN_PASSWORD is unset (`undefined === undefined`), so `getDashboardData` and `updateSetting` are open to anyone | ADMIN_PASSWORD unset, a request without the `admin_session` cookie | an unset password authenticates nobody | high, by reading the code; not executed | Admin.UnsetPasswordOpensUpdates | Admin.RequiringPasswordClosesUnsetCase |

The server model keeps the check as written, so that its contracts describe the deployed
behaviour. `Admin.CheckAuthRequiringPassword` is the intended check.

## Left out

- Network, database and cookies: fetch/axios calls, the Postgres pool, SQL text and `revalidatePath` are not modelled. Responses, query results and rows are inputs; the settings upsert is a map update.
- Timers: `setTimeout`/`clearTimeout` become the poller's timer-pending flag and its events. The interval is recorded but real time is not modelled.
- Polling.ClaimStatusPoller.Respond: the callbacks are assumed not to throw. In the code, a throwing `onUpdate` or `onComplete` would land in the `catch` and also call `onError`.
- Polling.ClaimStatusPoller.Start: a fractional or NaN `maxAttempts` is not modelled; the ceiling is an integer.
- Polling: no callback-free cancellation is claimed. Cleanup does not cancel a query already sent, so its answer still reaches onUpdate, and onComplete or onError, as the code does it.
- JsNumbers.Number, JsNumbers.ParseFloat: only plain decimal literals with an optional sign and fraction are read. Exponents, hexadecimal ("0x1F"), binary ("0b101"), octal ("0o17"), `Infinity` and IEEE rounding are not modelled. `Number` treats such strings as not numeric, and `parseFloat` stops reading before an exponent and reads `Infinity` as not a number.
- Ambassador.CheckGift: because of the JsNumbers line, an amount typed with an exponent is read only up to the exponent: "1e3" is taken as 1 and can be accepted, where the code reads 1000 and may reject it as too high.
- Admin.Coerce: because of the line above, a setting typed as "0x1F", "0b101", "0o17", "1e3" or "Infinity" is stored as text, where the code stores a number.
- JsStrings: strings are sequences of Unicode scalar values, while JavaScript's `length` and `substring` count UTF-16 code units. Wallet.FormatShortAddress and Referral.IdLabel therefore differ from the code on characters outside the Basic Multilingual Plane, which JavaScript counts as two units.
- Ambassador.AmbassadorPage.Total: an answer without data leaves `faucetStats` undefined, and the page then throws at `faucetStats.reduce` on the next render. The model instead takes the total as 0 and keeps running; the crash is not modelled.
- Admin.AdminServer.UpdateSetting: the JSON text produced by `JSON.stringify` is not modelled; the stored value is the coerced JSON value itself.
- Admin.AdminServer.GetDashboardData: `parseInt` of the count columns is taken as the counts themselves, and the connection release in `finally` is not modelled.
- Ambassador: IEEE arithmetic is not modelled; balances and amounts are exact reals. The `toFixed(2)` and `toLocaleString` formatting of the limit is not modelled: the error carries the limit itself.
- Ambassador.AmbassadorPage.EditForm: `Number(e.target.value)` for the days field is taken as an integer; NaN is not modelled.
- Translations: the texts of the `es` and `en` bundles and the translated error texts are named by their keys; their wording is not modelled.
- Foreign libraries: the auth provider hooks, the camera scanner, `html2canvas`, the QR encoder (the QR code is taken to carry the share URL verbatim), the clipboard, `navigator.vibrate`, `alert` and animations.
- Scan.ScanPage.HandleScan: React batches state updates, so two scan events within one render could both pass the latch. Handlers here run one after another.
- Referral.ShareUrlScansBack: a base URL that contains "/claim/" or ends in "/claim" is excluded. `Referral.BaseEndingInClaimBreaksRoundTrip` shows what happens then.
- The pages' rendering, the dashboard's duplicate of the wallet priority, the leaderboard, the about page, the layout wrappers and the Next.js rewrites are display or configuration code and are not part of this model. The claim submission page is not part of this model.
