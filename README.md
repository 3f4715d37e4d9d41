# Suivest backend: authentication core and ledger queries

Suivest is a no-loss lottery on Sui. Users deposit into vaults, receive
tickets, and win prizes drawn each round. The backend logs a wallet in by
wallet signature and keeps a ledger of users, vaults, deposits, withdrawals,
rounds, winners, streaks and chain events. This project models three parts
of that backend.

- **The login rate limiter** of the authentication service (`login_attempts.dfy`).
  - It is a per-wallet map holding an attempt count and the time of the last attempt.
  - A wallet gets at most five attempts.
  - A stored entry is replaced by a fresh one once strictly more than fifteen minutes have passed since its last attempt.
  - A successful login forgets the wallet.
  - The limiter is modelled as a class whose map field its methods update.
  - Each method is specified by a pure function of the old map.
- **The authentication controller's handlers** (`auth_controller.dfy`).
  - Each handler is modelled as a function. Its inputs are what the handler reads: the request fields, the user attached by the middleware, and the answers of the services it calls.
  - Its result is the status and body it sends.
  - Login also appears as a method over the limiter object.
  - The challenge message that `getAuthMessage` issues is modelled in `auth_message.dfy`. A parser recovers the wallet and the timestamp from it.
  - The email pattern `^[^\s@]+@[^\s@]+\.[^\s@]+$` is modelled in `email_format.dfy`. It is defined twice: once as the regular expression's structure and once as a direct scan. The two are proved equivalent.
- **The database service** (`rows.dfy`, `database.dfy`, `pagination.dfy`).
  - Tables are in-memory sequences of rows. A row maps column names to values, and a missing column reads as NULL.
  - Reads are filters, orderings and offset/limit windows, specified by what they select and in what order.
  - `DatabaseService` is a class holding the tables. Its create and update methods append rows, or merge update objects into the rows with a given id, stamping a time column where the source does.
  - The generic paginated query is a method that builds its query step by step, as the source does. It is proved to compute a page of the filtered, ordered rows.

The clock (`Date.now()`, `new Date()`) and the database's UUID generator are
parameters (`now`, `id`).

## Model

| member | source | states |
|---|---|---|
| LoginAttempts.Check | suivestBackend/src/services/auth.ts:290-314 | A check is allowed exactly when the wallet has no entry, or more than 15 minutes have passed since its last attempt, or it has made fewer than 5 attempts. A refused check leaves the map unchanged. An allowed one records `now` as the wallet's last attempt. No other wallet's entry changes, and every count stays between 1 and 5. |
| LoginAttempts.Reset | suivestBackend/src/services/auth.ts:316-318 | The afterwards map has no entry for the wallet and keeps every other wallet's entry unchanged. |
| LoginAttempts.FirstAttempt | suivestBackend/src/services/auth.ts:296-299 | A wallet with no entry is allowed and gets an entry with count 1 and the current time. |
| LoginAttempts.WindowExpired | suivestBackend/src/services/auth.ts:301-305 | Once strictly more than the window has passed, the entry restarts at count 1, whatever its count was. |
| LoginAttempts.ExactWindowDoesNotReset | suivestBackend/src/services/auth.ts:301-313 | At exactly 15 minutes the entry is not reset: the count still decides, and an allowed attempt increments it. |
| LoginAttempts.BlockedLeavesEntry | suivestBackend/src/services/auth.ts:307-309 | Within the window, a wallet with 5 or more attempts is refused and neither its count nor its time changes. |
| LoginAttempts.WithinWindowIncrements | suivestBackend/src/services/auth.ts:311-313 | Within the window and under the limit, the count goes up by one and the last attempt becomes `now`. |
| LoginAttempts.ResetThenFirstAttempt | suivestBackend/src/services/auth.ts:316-318 | After a reset, the wallet's next check behaves as its first attempt ever. |
| LoginAttempts.CheckAll | suivestBackend/src/services/auth.ts:290-314 | Repeated checks for one wallet allow at most one check per attempt. They give the wallet an entry if any check was made, never touch another wallet's entry, and keep counts within 1..5. |
| LoginAttempts.AllowanceWithinWindow | suivestBackend/src/services/auth.ts:290-314 | While every check time lies within one window that starts no later than the entry's last attempt, at most `5 - count` further checks are allowed. |
| LoginAttempts.AtMostMaxAttemptsPerWindow | suivestBackend/src/services/auth.ts:290-314 | Starting from no entry, at most 5 checks are allowed among any run of checks inside one 15-minute window. |
| LoginAttempts.LoginRateLimiter.constructor | suivestBackend/src/services/auth.ts:288 | The limiter starts with no entries. |
| LoginAttempts.LoginRateLimiter.CheckLoginAttempts | suivestBackend/src/services/auth.ts:290-314 | Updates the limiter's map in place. The answer and the new map are those of `Check` on the old map, and the counts stay within 1..5. |
| LoginAttempts.LoginRateLimiter.ResetLoginAttempts | suivestBackend/src/services/auth.ts:316-318 | The new map is `Reset` of the old one. |
| AuthMessage.Decimal | suivestBackend/src/controllers/auth.ts:375 | The timestamp's decimal text is non-empty, consists of digits only, and has no leading zero except for 0 itself. |
| AuthMessage.DecimalRoundTrip | suivestBackend/src/controllers/auth.ts:375 | Reading the decimal text back gives the number. |
| AuthMessage.Challenge | suivestBackend/src/controllers/auth.ts:375 | Every issued message begins with the fixed text "Sign this message to authenticate with Suivest." followed by a blank line and "Wallet: ", and extends past the wallet address. |
| AuthMessage.CanonicalRoundTrip | suivestBackend/src/controllers/auth.ts:375 | Decimal text without leading zeros is exactly how its value is written. |
| AuthMessage.SplitTimestamp | suivestBackend/src/controllers/auth.ts:375 | What follows the prefix splits into a wallet and a time only when it is that wallet, the timestamp label and the time's decimal text. |
| AuthMessage.ParseChallenge | suivestBackend/src/controllers/auth.ts:375 | The parser accepts only issued messages. The message it accepts is exactly the one issued for the wallet and time it returns. |
| AuthMessage.ParseChallengeExactly | suivestBackend/src/controllers/auth.ts:375 | A message parses to a wallet and a time exactly when it is the message issued for them. Both directions are proved. |
| AuthMessage.ParseChallengeRoundTrip | suivestBackend/src/controllers/auth.ts:375 | Parsing a challenge gives back its wallet and timestamp, whatever characters the wallet contains. |
| AuthMessage.ChallengeInjective | suivestBackend/src/controllers/auth.ts:375 | Two challenges are equal only when their wallets and timestamps are. |
| EmailFormat.IndexOf | suivestBackend/src/controllers/auth.ts:302 | Finds the first occurrence of a character: the returned position holds it, no earlier position does, and none is found exactly when the string has none. |
| EmailFormat.AllPlainSlices | suivestBackend/src/controllers/auth.ts:302 | Two runs of characters that are neither whitespace nor `@`, joined by one more such character, form a single such run. |
| EmailFormat.EmailAddressIffPattern | suivestBackend/src/controllers/auth.ts:302 | The scan on the first `@` accepts a string exactly when the pattern `^[^\s@]+@[^\s@]+\.[^\s@]+$` matches it. Both directions are proved. |
| AuthController.GetAuthMessage | suivestBackend/src/controllers/auth.ts:361-395 | 400 "Valid wallet address is required" exactly when the address is missing or empty, or its length is outside 42..66. Otherwise 200 with the challenge for that wallet and the current time, the nonce, and the address; the challenge parses back to the same wallet and time. |
| AuthController.LoginStep | suivestBackend/src/controllers/auth.ts:50-112 | 400 "Validation failed" exactly when validation fails, and then neither the limiter nor authentication is consulted. 429 "Too many login attempts. Please try again later." exactly when the limiter refuses, with the map unchanged. Authentication is attempted exactly when validation passes and the limiter admits. 401 with the authentication-failed text when authentication fails, keeping the counted attempt. 200 with the service's response when it succeeds; the new map is then the checked map with only that wallet removed, so no other wallet gains, loses or changes an entry. |
| AuthController.RefusedLoginIgnoresAuthentication | suivestBackend/src/controllers/auth.ts:53-75 | An invalid or rate-limited login has the same reply and limiter state whatever authentication would have answered. |
| AuthController.Login | suivestBackend/src/controllers/auth.ts:50-112 | Drives the limiter object in the same order. Its reply and the limiter's new map are those of `LoginStep`, and the limiter's counts stay within 1..5. |
| AuthController.Register | suivestBackend/src/controllers/auth.ts:114-162 | 400 "Validation failed" exactly when validation fails. 409 "User already exists with this wallet address" exactly when the wallet already has a user or the creation fails. 201 with the created user and token otherwise. |
| AuthController.RefreshToken | suivestBackend/src/controllers/auth.ts:164-206 | 400 "Validation failed" exactly when validation fails. 401 "Invalid or expired refresh token" exactly when the refresh token is refused. 200 with the new session otherwise. |
| AuthController.Logout | suivestBackend/src/controllers/auth.ts:208-247 | 401 with no logout attempted when no user is attached. Otherwise that user's id is logged out: 500 "Logout failed" exactly when the service reports failure, and 200 exactly when it succeeds. |
| AuthController.GetProfile | suivestBackend/src/controllers/auth.ts:249-285 | 401 exactly when no user is attached, and a success exactly when one is. The success is 200 with the user's id, wallet, email, username, avatar and both timestamps. |
| AuthController.ProfileHidesSessionFields | suivestBackend/src/controllers/auth.ts:262-276 | The profile does not depend on the user's active flag or last login time. |
| AuthController.UpdateProfile | suivestBackend/src/controllers/auth.ts:287-359 | The checks run in order. 401 with no user. Then 400 "Invalid email format" exactly when a given email fails the pattern. Then 400 on the username length exactly when the email passed and a given username has fewer than 3 or more than 50 characters. Only after both pass is the service asked to write that user's email, username and avatar. It answers 500 when the write fails and 200 with the six returned fields when it succeeds. |
| AuthController.ValidateToken | suivestBackend/src/controllers/auth.ts:397-428 | 400 "Token is required" exactly when the token is missing or empty. A given token always gets 200 with the session service's verdict. |
| Rows.Get | suivestBackend/src/services/database.ts:28-34 | A column the row holds reads as its stored value, and a column it does not hold reads as NULL. |
| Rows.StrLeTotal | suivestBackend/src/services/database.ts:229-235 | Any two strings are ordered one way or the other. |
| Rows.StrLeTransitive | suivestBackend/src/services/database.ts:229-235 | The string order is transitive. |
| Rows.ValueLeTotal | suivestBackend/src/services/database.ts:229-235 | The order on column values, with NULL last, is total. |
| Rows.ValueLeTransitive | suivestBackend/src/services/database.ts:229-235 | The order on column values is transitive. |
| Rows.RowLeTotal | suivestBackend/src/services/database.ts:229-235 | Ordering rows by one column, ascending or descending, is total. |
| Rows.RowLeTransitive | suivestBackend/src/services/database.ts:229-235 | Ordering rows by one column, ascending or descending, is transitive. |
| Rows.SortedPairwise | suivestBackend/src/services/database.ts:229-235 | In a sequence sorted by a column, every earlier row is ordered before every later one, not just neighbours. |
| Rows.Insert | suivestBackend/src/services/database.ts:229-235 | Inserting a row into a sorted sequence gives a sorted sequence with that row added. |
| Rows.SortBy | suivestBackend/src/services/database.ts:229-235 | `orderBy(column, direction)` returns a permutation of its rows, sorted by the column in the requested direction. |
| Rows.Filter | suivestBackend/src/services/database.ts:229-235 | `where` keeps every row satisfying the condition, as many times as it occurs, and no other row. |
| Rows.FindFirst | suivestBackend/src/services/database.ts:28-34 | Gives the position of the first row satisfying the condition, or none exactly when no row satisfies it. |
| Rows.FirstWhere | suivestBackend/src/services/database.ts:28-34 | `where(...).first()` gives a row of the table satisfying the condition, or none exactly when no row does. |
| Rows.Window | suivestBackend/src/services/database.ts:229-235 | `limit(l).offset(o)` gives at most `l` rows. They are the rows from position `o` on, as many as remain up to `l`. |
| Rows.WindowOfSorted | suivestBackend/src/services/database.ts:229-235 | A window of a sorted sequence is sorted and holds only rows of that sequence. |
| Rows.UpdateById | suivestBackend/src/services/database.ts:52-62 | `where('id', id).update(patch)` merges the patch into every row with that id, later columns winning, and leaves every other row as it was. |
| Rows.UpdatedRow | suivestBackend/src/services/database.ts:52-62 | The returned row is the first row with the id, merged with the patch, so it carries every patched column. It is none exactly when no row has the id. |
| Rows.UpdateChangesOneRow | suivestBackend/src/services/database.ts:52-62 | With unique ids, an update changes exactly the row with that id and returns it merged with the patch. |
| Database.GetUser | suivestBackend/src/services/database.ts:28-34 | Gives a user with the wallet address, or none exactly when no user has it. |
| Database.GetVault | suivestBackend/src/services/database.ts:66-72 | Gives the vault with the id, or none exactly when no vault has it. |
| Database.GetVaults | suivestBackend/src/services/database.ts:74-78 | Exactly the active vaults, each as often as in the table, newest first. |
| Database.UserRows | suivestBackend/src/services/database.ts:123-176 | `getUserDeposits` (lines 123-133) and `getUserWithdrawals` (lines 166-176), the same query on two tables. The result is exactly the user's rows, restricted to the vault when one is given, each as often as in the table, newest first. |
| Database.GetCurrentRound | suivestBackend/src/services/database.ts:180-187 | Gives an active round of the vault, or none exactly when the vault has no active round. |
| Database.GetRound | suivestBackend/src/services/database.ts:189-195 | Gives the round with the id, or none exactly when no round has it. |
| Database.VaultRounds | suivestBackend/src/services/database.ts:229-235 | Exactly the vault's rounds, highest round number first. |
| Database.RoundsLimit | suivestBackend/src/services/database.ts:229 | The limit is 10 when the argument is not passed, and the given value otherwise. |
| Database.RoundsOffset | suivestBackend/src/services/database.ts:229 | The offset is 0 when the argument is not passed, and the given value otherwise. |
| Database.GetRounds | suivestBackend/src/services/database.ts:229-235 | The vault's rounds, highest round number first, all from the table. The result holds `limit` (default 10) rows, or fewer when fewer remain after `offset` (default 0), and none when `offset` is past the end. They are the consecutive rows from position `offset` of the vault's ordered rounds. |
| Database.VaultRoundsWindow | suivestBackend/src/services/database.ts:229-235 | Any window of the vault's ordered rounds is sorted and holds only that vault's rounds. |
| Database.GetRoundWinners | suivestBackend/src/services/database.ts:267-271 | Exactly the round's winners, by ascending position. |
| Database.GetUserWinners | suivestBackend/src/services/database.ts:273-277 | Exactly the user's prizes, newest first. |
| Database.GetUserStreak | suivestBackend/src/services/database.ts:281-288 | Gives the streak row of that user and vault, or none exactly when there is none. |
| Database.GetUnprocessedEvents | suivestBackend/src/services/database.ts:350-354 | Exactly the events whose `processed` is false, oldest first. |
| Database.UnprocessedOldestFirst | suivestBackend/src/services/database.ts:350-354 | Of any two unprocessed events returned, the earlier one is no newer than the later. |
| Database.NewRow | suivestBackend/src/services/database.ts:94-109 | An inserted row holds exactly the listed columns present in the data, plus a fresh id and the creation time. Each listed column keeps the data's value. |
| Database.NewUserRow | suivestBackend/src/services/database.ts:36-50 | A new user row holds its listed columns. `is_active` defaults to true when absent or NULL. `created_at` and `updated_at` are both now. |
| Database.NewStreakRow | suivestBackend/src/services/database.ts:290-305 | A new streak row holds its listed columns, with creation and update times both now. |
| Database.Touch | suivestBackend/src/services/database.ts:52-62 | The update object keeps every given column and adds or replaces `updated_at` with now. |
| Database.StampWhen | suivestBackend/src/services/database.ts:217-227 | A conditional spread: the update gains the time column only when the condition holds, and is otherwise unchanged. |
| Database.ConfirmationPatch | suivestBackend/src/services/database.ts:111-121 | `confirmed_at` is stamped exactly when the update sets status 'confirmed'. |
| Database.FinalizationPatch | suivestBackend/src/services/database.ts:217-227 | `finalized_at` is stamped exactly when the update's `is_finalized` is truthy. |
| Database.ClaimPatch | suivestBackend/src/services/database.ts:255-265 | `claimed_at` is stamped exactly when the update's `has_claimed` is truthy. |
| Database.ProcessedPatch | suivestBackend/src/services/database.ts:338-348 | `processed_at` is stamped exactly when the update's `processed` is truthy. |
| Database.EventUpdateStampsOnlyWhenProcessed | suivestBackend/src/services/database.ts:338-348 | After an event update, the event's `processed_at` is now if the update set `processed`. Otherwise it is whatever the update or the old row held. |
| Database.DatabaseService.constructor | suivestBackend/src/services/database.ts:21-24 | The service starts with every table empty. |
| Database.DatabaseService.CreateUser | suivestBackend/src/services/database.ts:36-50 | Appends the new user row to the user table and returns it. |
| Database.DatabaseService.UpdateUser | suivestBackend/src/services/database.ts:52-62 | Merges the update, stamped with `updated_at`, into the users with the id. Returns the updated row, or none when no user has the id. |
| Database.DatabaseService.UpdateVault | suivestBackend/src/services/database.ts:80-90 | The same as UpdateUser, on the vault table. |
| Database.DatabaseService.CreateDeposit | suivestBackend/src/services/database.ts:94-109 | Appends the new deposit row and returns it. |
| Database.DatabaseService.UpdateDeposit | suivestBackend/src/services/database.ts:111-121 | Merges the update into the deposits with the id, stamping `confirmed_at` on confirmation. Returns the updated row. |
| Database.DatabaseService.CreateWithdrawal | suivestBackend/src/services/database.ts:137-152 | Appends the new withdrawal row and returns it. |
| Database.DatabaseService.UpdateWithdrawal | suivestBackend/src/services/database.ts:154-164 | Merges the update into the withdrawals with the id, stamping `confirmed_at` on confirmation. Returns the updated row. |
| Database.DatabaseService.CreateRound | suivestBackend/src/services/database.ts:197-215 | Appends the new round row and returns it. |
| Database.DatabaseService.UpdateRound | suivestBackend/src/services/database.ts:217-227 | Merges the update into the rounds with the id, stamping `finalized_at` on finalization. Returns the updated row. |
| Database.DatabaseService.CreateWinner | suivestBackend/src/services/database.ts:239-253 | Appends the new winner row and returns it. |
| Database.DatabaseService.UpdateWinner | suivestBackend/src/services/database.ts:255-265 | Merges the update into the winners with the id, stamping `claimed_at` on a claim. Returns the updated row. |
| Database.DatabaseService.CreateUserStreak | suivestBackend/src/services/database.ts:290-305 | Appends the new streak row and returns it. |
| Database.DatabaseService.UpdateUserStreak | suivestBackend/src/services/database.ts:307-317 | Merges the update, stamped with `updated_at`, into the streaks with the id. Returns the updated row. |
| Database.DatabaseService.CreateEvent | suivestBackend/src/services/database.ts:321-336 | Appends the new event row and returns it. |
| Database.DatabaseService.UpdateEvent | suivestBackend/src/services/database.ts:338-348 | Merges the update into the events with the id, stamping `processed_at` when it is processed. Returns the updated row. |
| Pagination.EffectivePage | suivestBackend/src/services/database.ts:363 | The page is the given one, or 1 when it is absent or 0. It is always at least 1. |
| Pagination.EffectiveLimit | suivestBackend/src/services/database.ts:364 | The page size is the given one, or 10 when it is absent or 0. It is always at least 1. |
| Pagination.Offset | suivestBackend/src/services/database.ts:365 | The first page starts at row 0. |
| Pagination.PagesAdjoin | suivestBackend/src/services/database.ts:365 | Each page starts exactly `limit` rows after the page before it, so consecutive pages neither overlap nor leave a gap. |
| Pagination.PageCount | suivestBackend/src/services/database.ts:408 | `Math.ceil(total / limit)`: zero pages exactly when there are no rows. Otherwise the last page is the one that holds the final row. |
| Pagination.FilteredMatches | suivestBackend/src/services/database.ts:369-384 | The chain of optional filters keeps exactly the rows that satisfy every given filter, each as often as in the source. |
| Pagination.PageOfFiltered | suivestBackend/src/services/database.ts:390-399 | A page holds at most `limit` rows. Every one is a source row matching the filters, and they are in the requested order: `sortBy` (descending unless `sortOrder` says otherwise), or newest first. |
| Pagination.PageAt | suivestBackend/src/services/database.ts:399 | The page's rows are the ordered rows starting at `(page - 1) * limit`. |
| Pagination.GetPaginatedResults | suivestBackend/src/services/database.ts:358-411 | Builds the query step by step. It returns the page `Page` describes, the count of filtered rows taken before ordering, and page information with the effective page, limit, the count and `PageCount`. |

## Left out

- The authentication service's other functions (`authenticateUser`, `registerUser`, `refreshToken`, `verifyWalletSignature`, `hashPassword`, `comparePassword`, `getUserFromToken`, `updateUserProfile`, `deactivateUser`, `validateSession`, `logoutUser`, `generateNonce`, `generateSecureToken`), JWT signing and session storage: the controller receives their answers as inputs (`validationOk`, `auth`, `existingUser`, `created`, `refreshed`, `loggedOut`, `updated`, `sessionValid`, `nonce`).
- Request validation rules (express-validator chains): modelled only by their outcome, `validationOk`.
- The writes that `authenticateUser`, `registerUser`, `logoutUser` and `updateUserProfile` make to the database: these services are not part of this model.
- Every `catch` path answering 500 "Internal server error": exceptions are not modelled.
- The `timestamp`, `details` and `message` fields of responses, and logging.
- Express routing and the authentication middleware: the attached user is an input.
- AuthController.Register: the service refuses an existing wallet, or fails to create the user. Both reach the client as 409 with the same text, and the model keeps that.
- The SQL engine: primary keys, unique constraints, column defaults other than those the service code writes, transactions, `transaction` and `close`.
- Ties in `orderBy`: SQL leaves the order of equal keys unspecified. The model fixes one order, and its contracts speak only of sortedness and contents.
- String collation: strings are ordered by code point. Values of different kinds never share a column; their relative order is an arbitrary fixed rank.
- Rows.FirstWhere, Database.GetUser and the other single-row lookups: the contract says "a matching row", not which one, because SQL does not promise which row `first()` returns without an ordering.
- Pagination.GetPaginatedResults: negative or fractional `page` and `limit` are not modelled (they are natural numbers here). The `offset` field of the parameters is not modelled because the source ignores it. `baseQuery` is modelled as the sequence of rows it selects. Query builders are mutable in the source, so building on `baseQuery` changes the caller's builder in place; the model takes the rows by value and does not capture that. No caller of it is part of this model.
- `event_data` and other JSON columns are opaque text.
- Lengths are counted in characters rather than JavaScript's UTF-16 code units. The two differ only for characters outside the Basic Multilingual Plane.
- EmailFormat.IsWhitespace: JavaScript's `\s` is modelled as a fixed set of code points. Those are the ECMAScript white space and line terminators, including U+FEFF and the Unicode space separators.
- AuthController.Login: each request runs atomically. The source awaits the authentication service between the limiter check and the reset, so two logins for one wallet can interleave. Example: at count 4, login A is admitted and waits; login B gets 429; A then succeeds and removes the entry. No sequential order of `Login` calls produces that outcome, and the model does not capture it.
- AuthController.UpdateProfile, AuthController.ValidateToken: body fields are modelled as strings. In the source the JSON body is untyped, so a non-string value behaves differently. For example, a numeric `username` has no `length`, skips the length check and is written. The model does not capture that.
- Database.NewUserRow, Database.NewStreakRow: the source calls `new Date()` once for `created_at` and again for `updated_at`, so the two may differ by a millisecond. The model uses one clock reading for both.
- LoginAttempts.LoginRateLimiter.CheckLoginAttempts: the source mutates the stored attempt object in place. The model replaces the map entry by a new value, which is the same because no other reference to the object escapes.
- The blockchain service, the deployment scripts, the background jobs and the frontend are not part of this model.
