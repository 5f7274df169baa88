# Crash game round engine and account bookkeeping, in Dafny

This project models the two sequential cores of a "crash" betting game backend.

- **The round** (`game/index.js`, module `Game` in `game.dfy`). A crash point is drawn as `1 / u` from a non-zero random draw `u`. In real-money mode it is compressed by the house edge `1 + (r - 1) * 0.95`, and then capped at `MAX_WIN`. `startGame` compares the crash point with the player's auto-stop target. It arms a timer that later records either a loss at the crash point or an auto-stop win at the target. The timer's delay is the time at which the curve `1 + A t^2 / 2` reaches that multiplier. `stopGame` clears the last armed timer and records a cash-out at the multiplier the curve shows. `writeStatistics` pushes the record onto one of the two ledgers (real or virtual) and adds its profit to that ledger's balance.
- **Accounts** (`router/userBase.js`, module `UserBase` in `userbase.dfy`). This covers the name, password and session-key validators, and the alphanumeric key generator. It covers the uniqueness checks and the session check against the `users` collection. It covers the profile-page history summary of `usersInfo`, deposit crediting with the 3% inviter bonus, and the guards of `withdraw`.

The shared data model lives in `store.dfy` (module `Store`): history records, user documents, and the `users` collection as a class holding a `map` from `_id` to document. `wrappers.dfy` holds the `Option`, `Result` and `Outcome` types used for thrown errors. `random.dfy` models `Math.random()` as a stream of draws in [0, 1).

How the model is shaped:
- Multipliers and money are `real`.
- Randomness and clocks are parameters. A draw stream replaces `Math.random()`, and `now` replaces `Date.now()` and `new Date()`.
- The module-level `timeout` of `game/index.js` is a field of the class `Game.CrashGame`. Beside it is the map of callbacks armed and not yet run or cleared. Arming a new timer in the source does not clear the previous one, and the model keeps the previous one armed too.
- The message sent on the player's connection is returned as a `Notice`.
- A falsy `userID` or `inviter` is `None`. A validator argument that is `undefined` is `None`.
- A history record is sound (`Store.Sound`) when exactly one of its `crash` and `stop` columns is `'x'` and its profit is the payout for that outcome. `Store.Consistent` says every record in the collection is sound. Every operation that writes the collection keeps this invariant. The profile summary needs only its first half, exactly one `'x'` column per record, for wins plus losses to equal the number of games.

## Model

| member | source | states |
|---|---|---|
| `Game.NonNullRandom` | game/index.js:20-22 | Returns a draw exactly when the stream holds a non-zero one. The value returned is non-zero and is one of the draws. |
| `Game.NonNullRandomTakesFirst` | game/index.js:20-22 | The draw returned is the first non-zero one: every zero draw before it is skipped. |
| `Game.Inverse` | game/index.js:25 | `1 / u` times `u` is 1, and for a draw in (0, 1] it is at least 1. |
| `Game.Compress` | game/index.js:26-28 | The real-money compression keeps 0.95 of the excess over 1. A value of at least 1 stays at least 1 and never grows. |
| `Game.Cap` | game/index.js:29 | The capped value never exceeds `MAX_WIN` or the input. A value at or below `MAX_WIN` is left unchanged, and a value above it becomes `MAX_WIN`. |
| `Game.CrashPoint` | game/index.js:25-29 | The crash point never exceeds `MAX_WIN` or `1 / u`. For a draw in (0, 1) it is at least 1. Below the cap it is exactly `1 / u` in virtual mode and exactly `Compress(1 / u)` in real mode. Above the cap it is `MAX_WIN`. |
| `Game.CrashPointInRange` | game/index.js:20-29 | Every crash point drawn from a stream of `Math.random` values lies in [1, `MAX_WIN`], in both modes. |
| `Game.MultiplierAt` | game/index.js:70 | The curve `1 + A t^2 / 2` shows 1 at the start of the round and never less than 1 for a non-negative acceleration. |
| `Game.DelaySquared` | game/index.js:37 | The argument `(m - 1) / A * 2` of the delay's square root, times `A`, is `2 (m - 1)`. It is non-negative exactly when `m` is at least 1. |
| `Game.MultiplierIncreasing` | game/index.js:70 | The curve `1 + A t^2 / 2` is strictly increasing for t >= 0. |
| `Game.DelayReachesMultiplier` | game/index.js:37-50 | A non-negative delay has square `(m - 1) / A * 2` exactly when the curve shows `m` at that delay. |
| `Game.Schedule` | game/index.js:36-61 | A crash point below `autoStop` arms `'crashed'`; otherwise `'stopped'` is armed. The record is a loss at the crash point (profit `-bet`) or a win at `autoStop` (profit `bet*(autoStop-1)`). Exactly one column is `'x'`. The delay is for the resolved multiplier. |
| `Game.ScheduleDelayDefined` | game/index.js:36-50 | For a crash point of at least 1, the armed square-root argument is non-negative exactly when the round is a loss or `autoStop` is at least 1. An auto-stop win with `autoStop` below 1 gives `Math.sqrt` a negative argument. |
| `Game.ScheduleFiresOnCurve` | game/index.js:36-51 | At the armed delay the curve shows the crash point (loss) or the auto-stop target (win). |
| `Game.CashOut` | game/index.js:69-76 | A cash-out record has `crash` `'x'` and `stop` equal to the curve at the elapsed time. Its profit is `bet * (stop - 1)`. The crash point is not consulted. |
| `Game.CashOutNeverLoses` | game/index.js:67-76 | A manual stop is resolved at a multiplier of at least 1. With a non-negative bet it never has a negative profit. |
| `Game.Statistics` | game/index.js:6-18 | A falsy or unknown user changes nothing. Otherwise only the selected ledger's history gets the record appended and only its balance gets the profit added. The other ledger, the user's other fields and every other user are unchanged. |
| `Game.StatisticsKeepsConsistent` | game/index.js:6-18 | Writing a sound record keeps every stored history sound. |
| `Game.WriteStatistics` | game/index.js:6-18 | The in-place update of the collection has exactly the effect `Statistics` describes. |
| `Game.CrashGame.constructor` | game/index.js:4 | At module load no callback is armed and `timeout` is unset. |
| `Game.CrashGame.StartGame` | game/index.js:24-65 | Sends `'started'` and returns the start time. It arms a new callback with the `Schedule` of the drawn, compressed and capped crash point, and points `timeout` at it. Earlier armed callbacks stay armed. |
| `Game.CrashGame.Fire` | game/index.js:38-61 | An armed callback runs once: it is removed and sends its operation with its record. Then it applies `Statistics` for its ledger. Sound histories stay sound. |
| `Game.CrashGame.StopGame` | game/index.js:67-79 | Clears the callback `timeout` names, so it never fires; others stay armed. Sends `'stopped'` with the `CashOut` record for `now - startTime` and applies `Statistics`. |
| `UserBase.ValidateName` | router/userBase.js:57-61 | Passes exactly for a defined string of length 4..25 without `'@'`. Otherwise it fails with `'name_incorrect'`. |
| `UserBase.ValidatePassword` | router/userBase.js:82-86 | Passes exactly for a defined string of length 8..25. Otherwise it fails with `'password'`. |
| `UserBase.ValidateSession` | router/userBase.js:94-98 | Passes exactly for a defined string of length 32. Otherwise it fails with `'session'`. |
| `UserBase.CharactersAreAlphanumeric` | router/userBase.js:111-112 | The alphabet has 62 characters, each a letter A–Z, a–z or a digit 0–9. Every such character occurs in it. |
| `UserBase.CharIndex` | router/userBase.js:116 | `Math.floor(u * 62)` of a draw is a valid index into the alphabet. |
| `UserBase.GenerateRandomString` | router/userBase.js:110-119 | Returns exactly `length` characters (none for a length below 1). Character i is the alphabet entry chosen by draw i, so every character is alphanumeric. |
| `UserBase.IsNameUnique` | router/userBase.js:18-23 | Fails with `'name_occupied'` exactly when some user has that name. |
| `UserBase.IsEmailRegistered` | router/userBase.js:31-36 | Fails with `'email_not_registered'` exactly when no user has that email. |
| `UserBase.IsEmailUnique` | router/userBase.js:44-49 | Fails with `'email_occupied'` exactly when some user has that email. |
| `UserBase.EmailChecksAreComplementary` | router/userBase.js:31-49 | An email passes `isEmailRegistered` exactly when it fails `isEmailUnique`. |
| `UserBase.UniqueNameKeepsNamesDistinct` | router/userBase.js:205-211 | Inserting a document whose name passed `isNameUnique`, under a fresh id, keeps all names distinct. |
| `UserBase.CheckSession` | router/userBase.js:141-150 | A malformed key fails with `'session'` before any lookup. An unknown user then fails with `'name_incorrect'`, and a key that differs from the stored one fails with `'session'`. It passes exactly when a well-formed key equals the stored key. |
| `UserBase.CheckNameAndPassword` | router/userBase.js:176-184 | Fails with `'login'` when no user has the name, and with `'password'` when one has it but the hash differs. Passes exactly when such a user exists and the hash matches. |
| `UserBase.WonRecords` | router/userBase.js:318 | A record occurs in the result exactly when it occurs in the history with `crash` `'x'`. The result is no longer than the history. |
| `UserBase.LostRecords` | router/userBase.js:319 | A record occurs in the result exactly when it occurs in the history with `stop` `'x'`. The result is no longer than the history. |
| `UserBase.RecordsKeepMultiplicity` | router/userBase.js:318-319 | The two filters keep every copy: a won (lost) record occurs in the won (lost) list as often as in the history, and other records do not occur. |
| `UserBase.RoundCounted` | router/userBase.js:317-319 | Appending one record adds one to the win count exactly when the record is a win, and likewise for losses. |
| `UserBase.WinsAndLossesPartition` | router/userBase.js:317-319 | In a history of well-formed records, wins plus losses equal the number of games. |
| `UserBase.LastEntries` | router/userBase.js:320-322 | With a positive size, keeps the last `historySize` entries, or all of them when the history is not longer. A negative size gives an empty history. |
| `UserBase.UsersInfo` | router/userBase.js:310-333 | For a cursor order listing every document of the collection once, it yields as many profiles as there are documents. Every document's `Info` profile appears, at its position in that order. |
| `UserBase.Info` | router/userBase.js:314-331 | The profile keeps the name and both balances. With `historySize` set, the counts are taken on the full history before trimming. Games is the history length, wins the `crash === 'x'` count and losses the `stop === 'x'` count. The history shown is its last `historySize` entries; a negative size, which is truthy, shows empty histories. Without `historySize` nothing is counted or trimmed. |
| `UserBase.UsersInfoCountsAddUp` | router/userBase.js:316-325 | For a document whose records each have exactly one `'x'` column, the reported wins plus losses equal the reported games. |
| `UserBase.RoundHundredths` | router/userBase.js:380 | `parseInt((n/100).toFixed(0))` is the integer nearest to n/100, with halves rounded away from zero. |
| `UserBase.DepositAmount` | router/userBase.js:380 | The credited amount is within half a unit of `(total_received - recieved - 1500) / 100` and has its sign. As in the source, `recieved` (hundreds of satoshi) is subtracted from satoshi unscaled. |
| `UserBase.CreditDeposit` | router/userBase.js:381-382 | The depositor gets the same amount on `btc.deposited` and `balance.real`, and exactly one more deposit entry. Nothing else changes. |
| `UserBase.CreditInviter` | router/userBase.js:383-385 | The inviter gets the bonus on `balance.real` and one more affiliation entry. Nothing else changes. |
| `UserBase.DepositEffect` | router/userBase.js:379-386 | Only the depositor and the inviter change. The depositor is credited and the inviter gets the bonus, both applied when they are one document. |
| `UserBase.DepositKeepsConsistent` | router/userBase.js:379-386 | Crediting a deposit touches no game history. |
| `UserBase.FindByEmail` | router/userBase.js:381 | The document a by-email update matches has that email. There is none exactly when no document has it. |
| `UserBase.WriteDepositData` | router/userBase.js:379-387 | Credits the document with the report's email, if any, and its inviter, if any, by `DepositEffect`. The deposit entry carries the computed amount, the date and an 8-character alphanumeric id. The bonus is 3% of the amount. |
| `UserBase.WithdrawLogAsWritten` | router/userBase.js:417 | As written, `btc.withdraws` afterwards holds the new withdrawal and nothing else. |
| `UserBase.WithdrawLogAsWrittenForgets` | router/userBase.js:417 | The `$set` update of `btc.withdraws` drops an earlier withdrawal. |
| `UserBase.WithdrawLog` | router/userBase.js:417 | The corrected update appends the withdrawal and keeps every earlier one. |
| `UserBase.WithdrawChecks` | router/userBase.js:392-400 | The session check comes first, then the name/password check, then `amount < 1` fails with `'less than 1'`. It passes exactly when all three do. |
| `UserBase.Withdraw` | router/userBase.js:392-424 | A failed check changes nothing. Otherwise, if the named user's real balance covers the amount, the withdrawal is logged and returned. If not, nothing changes and nothing is returned. No balance is ever decremented. The withdrawal is appended by `WithdrawLog`, where line 417 replaces the list with `$set` (see Findings). |

## Findings

| source | as written | input that shows it | evidently intended | confidence | as-written member | corrected member |
|---|---|---|---|---|---|---|
| router/userBase.js:417 | `$set: { 'btc.withdraws': {...} }` replaces the list of withdrawals with the newest one. | A user with one logged withdrawal `w1` makes a second withdrawal `w2`: `btc.withdraws` ends up holding only `w2`. | `$push`, as for `btc.deposits` and `btc.affilation`. `register` creates `btc.withdraws` as an empty list (line 229). | medium, not executed | `UserBase.WithdrawLogAsWritten`, exhibited by `UserBase.WithdrawLogAsWrittenForgets` | `UserBase.WithdrawLog`, used by `UserBase.Withdraw` |

## Left out

- Rounding by `.toFixed(2)` is not modelled. The source rounds the crash point, the compressed crash point, the cash-out multiplier and the win profits to hundredths; the loss profit `-bet` is not rounded. The model keeps exact reals. The payout half of `Store.Sound` (`Store.PaysOut`) holds only on exact reals: the source rounds a cash-out's `stop` and `profit` separately, so a stored record can miss it by a rounding step (bet 10 at a gain of 0.123 stores stop `1.12` and profit `1.23`). The one-`'x'` half holds for every record the source writes. The rounding of the delay to whole milliseconds by `.toFixed(0)` is also left out.
- `Math.sqrt` is not modelled. The model stores the square of the delay, `(m - 1) / A * 2`, and `Game.DelayReachesMultiplier` characterises the delay through it.
- JavaScript coercions are not modelled. `parseFloat` of a missing `autoStop` gives `NaN`, and string-versus-number comparisons follow JavaScript's rules; in the model `autoStop`, bets and amounts are reals.
- The firing order and time of timers, `setStopFlag`, `console.log` and the transport of messages are not modelled. Any armed callback may fire, and `Game.CrashGame.Fire` models one run.
- Concurrent rounds are not modelled. The source shares `timeout` process-wide across all players, and so does the model: it is one object. Interleavings are out of scope.
- `ACCELERATION` and `MAX_WIN` come from utils/globals.js, which is not part of this model. They are the `Config` of `Game.CrashGame`, assumed positive and at least 1 respectively.
- `game/index.js` resamples a zero draw by unbounded recursion. `Game.NonNullRandom` returns `None` for a stream with no non-zero draw, where the source would recurse without end.
- `game/index.js` shares one timer for all players. `stopGame` does not compare the cash-out multiplier with the crash point. Neither file keeps streak, achievement or ranking data. The model follows the code in each.
- Document matching is only partly modelled. Malformed `ObjectId`s throw in the source and are not modelled. When several documents match a name or email, Mongo's `findOne`/`updateOne` picks one; the model lets any matching one be picked.
- `UserBase.DepositAmount` follows line 380 as written, though line 380 mixes units. With `btc.deposited` 0 and `total_received` 101500, the first poll credits 1000. The next poll still passes the guard at line 347 (101500 > 100000) and credits 990 more. No corrected version is modelled, because which unit was intended cannot be read off the code.
- In `writeDepositDataToDB` the two `updateOne` calls for the depositor, and the two for the inviter, are modelled as one update of each document.
- String lengths are counted in characters, not in UTF-16 code units.
- `validateEmail`'s regular expression is not modelled.
- Password hashing and salts are not modelled. `UserBase.CheckNameAndPassword` takes the hash comparison as the boolean `passwordMatches`. `checkEmailAndPassword` is not modelled, because it is this hashing plus a lookup by email.
- `register` is not modelled. Besides the modelled validators and uniqueness checks, it inserts the new document with its initial balances (10 virtual, 0 real), empty histories and lists, a wallet and a hashed password, and then starts a session.
- `login` is not modelled. It runs `checkEmailAndPassword`, itself not modelled, then reads the document and starts a session.
- `changePassword` is not modelled. After the modelled session and name/password checks it writes two fields, `password` and `dynamicSalt`. Any error inside its `try` block, including the `'password'` error of `validatePassword`, is rethrown as `'new_password'`.
- `changeEmail` is not modelled. After the modelled session and name/password checks it validates the email and writes it. It writes the email without awaiting its `isEmailUnique` call, so a taken email is written anyway; that rejection is not modelled.
- The validators' `null` case is not modelled. `Object.prototype.hasOwnProperty.call(null, 'length')` throws a `TypeError` rather than the validator's own error; the model only has defined strings and `undefined` (`None`).
- `startSession`, `endSession`, `logout` and `readData` are not modelled. They are single-field writes and reads around the modelled key generator and session check.
- Bitcoin transactions are not modelled. That covers `checkDeposits` (balance query, transaction building, signing and pushing), the transfer in `withdraw`, `generateWallet` and `cipher.decrypt`.
- `logVisitor`, `getIncomesFromReferrals`, `getReferrals`, `getDeposits` and `getWithdraws` are not modelled. They only insert or read.
- `usersInfo`'s projection fields `referral`, `expiration` and the decrypted public address are not modelled. A non-integer `historySize` is not modelled either; a size of 0 stands for an absent one.
- router/index.js routes to controllers that router/userBase.js does not define (`recovery`, `support`, `userInfo` and others). These are not part of this model, nor is the rest of router/index.js and main/index.js (routing, headers, static files, views).
