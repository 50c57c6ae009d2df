# PrideX casino front end: session and betting model

This project models in Dafny the part of the PrideX casino front end that holds state: the
session store (`AuthManager`), the game catalog and round engine (`GameManager`), and the
page controller's form handling and lookups (`PrideXApp`). Everything else in the front end
draws the page: the DOM, toasts and timers. Money is an exact `real`. Each `Math.random()`
result is one element of a draw sequence that the caller passes in. `Date.now()` is a
parameter. The simulated network delays happen instantly.

Files:

- `wrappers.dfy`: `Option`, and `Completion`, which says whether a JavaScript call returned a
  value or threw an `Error`.
- `strings.dfy`: the e-mail pattern `^[^\s@]+@[^\s@]+\.[^\s@]+$`. It appears twice: as the
  regular expression, read literally (`MatchesEmailPattern`), and as a character-by-character
  check (`ValidateEmail`). A lemma proves the two are equivalent. The file also has
  `split('@')[0]`, JavaScript's UTF-16 `length`, and the decimal form of a timestamp.
- `auth.dfy`: the `AuthManager` class. It holds `currentUser`, `token` and a map that stands for
  `localStorage` (keys `pridex_token` and `pridex_user`). Each method is specified by a function
  on the abstract `Session` value (`SignedIn`, `SignedOut`, `Credited`), and lemmas relate
  those functions. User records are JavaScript objects, modelled as maps. Because of that,
  `{ id, ...userData, balance: 100.00 }` is a map union in which the later key wins.
  `getCurrentUser` is the field accessor `GetCurrentUser`; the other classes read the user
  through it.
- `games.dfy`: the catalog, and the outcome rules as functions of the draws. `GameManager`
  changes `currentGame` and `gameState`, and it settles a round through
  `AuthManager.UpdateBalance`.
- `app.dfy`: `PrideXApp`'s name and icon lookups, its ordered form checks, and the records that
  `handleLogin` and `handleRegister` install. A handler returns the notification it would show.
  Where registration is refused, that notification is the only visible sign of which check
  failed.

Behaviour of the code that the model keeps as written:

- `updateBalance` adds the signed amount with no clamp at 0. It also does not write
  `pridex_user` back to storage.
- A win adds `bet * multiplier`, not `bet * (multiplier - 1)`. No stake is taken when the bet is
  placed.
- `play` never refuses a second settlement. The bet stays in place, so each further call
  settles again. `ReplayedBetOverdraws` shows how this takes a balance below 0.
- `login` checks nothing. Only the page's `handleLogin` checks the address. The two sign-in
  paths also install different starting balances: 100.00 in the store and 1000.00 on the page.
- The crash game's outcome is what `simulateCrash` returns synchronously: a win at 1x.

## Model

| member | source | states |
|---|---|---|
| `Strings.ValidateEmail` | js/main.js:418-421 | an accepted address contains an '@' and is at least five characters long |
| `Strings.ValidateEmailIsPattern` | js/main.js:418-421 | the character-level check holds iff the e-mail regular expression matches: no whitespace, exactly one '@' with text before it, and an inner '.' after it |
| `Strings.ValidateEmailByCount` | js/main.js:418-421 | the check holds iff: there is no whitespace, the count of '@' is exactly one, the text before it is non-empty, and the text after it has a '.' that is neither its first nor its last character |
| `Strings.LocalPart` | js/auth.js:68 | `split('@')[0]` is a prefix of the address, contains no '@', and stops at the first '@' when there is one |
| `Strings.LocalPartOfValidEmail` | js/main.js:254 | on an accepted address the username is the non-empty text before its only '@' |
| `Strings.Utf16Length` | js/auth.js:145 | a password's `length` lies between its character count and twice that count, and equals the character count iff every character is in the Basic Multilingual Plane |
| `Strings.Decimal` | js/auth.js:71 | `String(Date.now())` is a non-empty string of decimal digits with no leading zero |
| `Strings.DecimalInjective` | js/auth.js:71 | different timestamps give different decimal strings |
| `Auth.Fields` | js/auth.js:115 | the spread object has the caller's keys plus `email`, `password` and `confirmPassword`, holding the three form values |
| `Auth.DemoToken` | js/auth.js:71 | a session token is `demo_token_` followed by at least one more character |
| `Auth.DemoTokenInjective` | js/auth.js:118 | tokens issued at different instants differ |
| `Auth.LoginUser` | js/auth.js:63-72 | the login record has exactly the keys `id`, `email`, `username` and `balance`: the timestamp id, the given address, the text before the first '@' as username, and balance 100.00 |
| `Auth.RegisteredUser` | js/auth.js:111-117 | the registered record has exactly the input's keys plus `id`, `balance`, `email`, `password` and `confirmPassword`, and its balance is 100.00 |
| `Auth.RegisteredUserFields` | js/auth.js:111-119 | the registered record has balance 100.00 even when the input carries a balance; it copies the email, the password, its confirmation and every other input field, and has no other keys; the input's own `id`, if any, replaces the timestamp |
| `Auth.ValidateUserData` | js/auth.js:142-148 | accepted data has an address the e-mail regular expression matches, a password of at least three characters (six UTF-16 code units), and a confirmation equal to the password |
| `Auth.SignedIn` | js/auth.js:75-80 | after sign-in, the user and token are set, `pridex_token` and `pridex_user` hold them, and every other storage key is untouched |
| `Auth.SignedOut` | js/auth.js:150-155 | after logout, there is no user and no token, both keys are removed, and other storage keys keep their values |
| `Auth.Credited` | js/auth.js:216-223 | with a user, the balance grows by exactly the amount and nothing else in the record, the token or storage changes; with no user, the session is unchanged |
| `Auth.LogoutIdempotent` | js/auth.js:150-155 | a second logout gives the same state as the first |
| `Auth.SignInReplaces` | js/auth.js:121-125 | signing in twice leaves the same state as the second sign-in alone |
| `Auth.SignOutUndoesSignIn` | js/auth.js:150-155 | signing in and then out leaves the same state as a logout alone |
| `Auth.CreditsAdd` | js/auth.js:218 | two balance updates have the same effect as one update by their sum |
| `Auth.CreditCanOverdraw` | js/auth.js:218 | a debit larger than the balance leaves it negative: there is no clamp at 0 |
| `Auth.AuthManager.constructor` | js/auth.js:5-9 | a new store has no user, and it takes its token from `pridex_token` in storage |
| `Auth.AuthManager.GetCurrentUser` | js/auth.js:212-214 | in a valid store, the user it returns, if any, carries a numeric balance |
| `Auth.AuthManager.Login` | js/auth.js:47-97 | login always returns true and installs the login record and a fresh token in both fields and both storage keys |
| `Auth.AuthManager.Register` | js/auth.js:99-140 | register returns true iff `validateUserData` holds; on true it installs the registered record and token, and on false nothing changes |
| `Auth.AuthManager.Logout` | js/auth.js:150-159 | logout clears both fields and removes both storage keys |
| `Auth.AuthManager.UpdateBalance` | js/auth.js:216-223 | updateBalance returns true iff there is a user, and the new state is `Credited` applied to the old one |
| `Games.AvailableGames` | js/games.js:6-37 | the catalog has exactly five games, each with `0 < minBet <= maxBet`; exactly blackjack and poker are not demo games |
| `Games.GetGameInfo` | js/games.js:231-233 | a lookup finds nothing exactly for ids outside the catalog, and what it finds has valid limits |
| `Games.ReelIndex` | js/games.js:172-174 | each reel draw selects a valid symbol index, and each index covers one fifth of [0, 1) |
| `Games.SimulateSlots` | js/games.js:169-202 | the three reels come from the three draws, the payout is bet times multiplier, and the round is a win iff the multiplier is non-zero |
| `Games.SlotsPayByDistinctSymbols` | js/games.js:178-202 | one distinct symbol pays 10x, two pay 2x, and three distinct symbols mean a loss with multiplier 0 and payout 0 (each case is an iff) |
| `Games.SimulateGeneric` | js/games.js:146-165 | a generic round wins iff the first draw exceeds 0.4; a win pays a multiplier in [1, 4) times the bet, and a loss pays 0 at multiplier 0 |
| `Games.SimulateCrash` | js/games.js:205-229 | the synchronous crash result is a win at 1x that pays the bet, with a crash point in [1, 11) |
| `Games.SimulateGameResult` | js/games.js:140-167 | slots and crash get their own result shapes; every win has a multiplier in [1, 10] and pays bet times multiplier; every loss pays 0 at multiplier 0 |
| `Games.Settlement` | js/games.js:133 | for a positive bet and a non-negative multiplier, the balance change is non-negative iff the round is a win |
| `Games.SettlementBounds` | js/games.js:132-135 | for a positive bet, a loss moves the balance by exactly minus the bet, and a win moves it by the reported payout, which lies between one and ten bets |
| `Games.RepeatedLossOverdraws` | js/games.js:133-134 | settling two losses of a bet equal to the whole balance leaves the balance at minus the bet |
| `Games.ReplayedBetOverdraws` | js/games.js:92-138 | after login (balance 100), loading roulette, a bet of 100 accepted by `placeBet`, and two losing `play` calls on the kept bet, the balance is -100 |
| `Games.GameStateBalance` | js/games.js:84 | the round's balance is never 0: it is the user's balance when that is non-zero, and 100 when there is no user or the balance is 0 |
| `Games.GameManager.constructor` | js/games.js:5-41 | a new manager has no current game and an unloaded round |
| `Games.GameManager.LoadGame` | js/games.js:43-75 | an unknown id throws "Game not found"; a non-demo game with no user returns false and changes nothing; otherwise the game becomes current, the round starts at the game's minimum bet, and the call returns true |
| `Games.GameManager.InitializeGame` | js/games.js:77-90 | the round is loaded for the requested game with `bet = minBet` |
| `Games.GameManager.PlaceBet` | js/games.js:92-115 | with no round loaded it throws; otherwise it returns true iff the amount is within the game's limits and, when a user exists, not above the balance; on true only the bet changes, and on false nothing does |
| `Games.GameManager.Play` | js/games.js:117-138 | with no round loaded it throws; otherwise it returns the round's result and applies `Credited` with that round's settlement to the session; the bet is not cleared |
| `App.GetGameName` | js/main.js:183-192 | the page's game names equal the catalog's names, and any other id gets 'Игра' |
| `App.GetGameIcon` | js/main.js:194-203 | the icon is 'gamepad' iff the id is not in the catalog |
| `App.RegisterFormError` | js/main.js:279-293 | the address is checked first, then the confirmation, then the length; the form accepts exactly the data that `validateUserData` accepts |
| `App.LoginProfile` | js/main.js:251-256 | the page's login record has exactly `id`, `email`, `username` and `balance`, with the given address, its local part as username, and balance 1000.00 |
| `App.RegisterProfile` | js/main.js:299-304 | the page's registration record has exactly `id`, `email`, `username` and `balance`, with the form's address and username, and balance 100.00 |
| `App.LoginBalancesDiffer` | js/main.js:251-256 | the page's login record has balance 1000.00, ten times the store's; both records derive the same username |
| `App.PrideXApp.constructor` | js/main.js:7-13 | a new page has no current game and no user |
| `App.PrideXApp.LoadGame` | js/main.js:145-181 | the requested id becomes the current game whether or not a user is signed in, and the user is unchanged |
| `App.PrideXApp.HandleLogin` | js/main.js:226-270 | an invalid address is refused and leaves the user unchanged; a valid one installs the login record (username = local part, balance 1000.00) |
| `App.PrideXApp.HandleRegister` | js/main.js:272-313 | the first failing check is reported and leaves the user unchanged; if all checks pass, the handler installs the record with the form's username and balance 100.00 |

## Left out

- js/ui.js: its notifications, loading overlay and CSS injection are DOM work. `uiManager` is a no-op collaborator here.
- `startBalanceUpdates`: a free-running 30-second timer that adds random drift to the balance, clamped at 0. It is timer behaviour, and its clamp does not apply to `updateBalance`.
- `validateToken`, `init`, `updateUI` and `updateUserUI`: a fake wait that installs a hard-coded demo user, and DOM updates.
- The rest of `PrideXApp`: navigation, modals, the mobile menu, the simulated socket, periodic statistics, `checkAuth`, `loadActualGame` (a wait with no effect), `apiRequest` (`fetch`), the HTML `loadGame` writes, and the parsing of the jackpot and online counts.
- `getAvailableGames`: it returns the catalog object itself, which is `Games.AvailableGames`.
- Games.SimulateGeneric: does not model the `toFixed(2)` rounding of the reported multiplier. The source computes `amount` from the unrounded value and `play` uses the rounded one; here the two coincide.
- Games.SimulateCrash: models only what `simulateCrash` returns before its interval can fire. The race between the interval and the return is event-loop behaviour. The reported crash point is not rounded with `toFixed(2)`; the source's rounded value reaches 11 for draws of 0.9995 or more, so the bound [1, 11) holds of the model only.
- Floating point in general: balances, bets and multipliers are exact reals; `0.4` is the exact rational; `toFixed` and `toLocaleString` formatting is left out.
- `Math.random()` and `Date.now()` are parameters. The two `Date.now()` reads in `login` and `register` are taken as the same instant.
- `JSON.stringify`: `pridex_user` stores the user record itself, not its text.
- Auth.AuthManager.constructor: a `pridex_token` entry holding serialized JSON text is read as absent.
- Prototype properties: the source looks games up in plain objects, so an id such as `"constructor"` finds an inherited member. The model treats the catalog and the name and icon tables as plain dictionaries, so such an id is unknown.
- JavaScript values other than numbers and strings: a missing or non-string form field (for example, a numeric password has no `length` and skips the length test) and a `NaN` bet are not modelled. Form fields are strings.
- Strings with lone surrogate code units: Dafny characters are Unicode scalar values.
- Asynchrony: the model is sequential. In the source, `loadGame` sets `currentGame` two seconds before `initializeGame` sets `gameState`, so overlapping loads could leave the two naming different games.
- Games.GameManager.Play: the `!this.gameState.bet` branch (returning null) is modelled, but the invariant keeps every bet at or above a positive minimum, so it is never taken.
