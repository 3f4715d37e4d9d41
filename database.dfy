/**
 * The ledger's database service over in-memory tables. Reads are filters,
 * orderings and windows over a table; `create*` appends a row built from
 * the listed columns, and `update*` merges an update object into the rows
 * with the given id, stamping a time column when the update says so.
 * Ids come from the database's UUID generator and times from the clock:
 * both are parameters here.
 */
module Database {
  import opened Common
  import opened Rows

  // ---------- reads ----------

  /** The user with this wallet address, if any. */
  function GetUser(users: seq<Row>, walletAddress: string): (r: Option<Row>)
    ensures r.None? <==> forall k :: 0 <= k < |users| ==> Get(users[k], "wallet_address") != Str(walletAddress)
    ensures r.Some? ==> r.value in users && Get(r.value, "wallet_address") == Str(walletAddress)
  {
    FirstWhere(users, Eq("wallet_address", Str(walletAddress)))
  }

  /** The vault with this id, if any. */
  function GetVault(vaults: seq<Row>, vaultId: string): (r: Option<Row>)
    ensures r.None? <==> forall k :: 0 <= k < |vaults| ==> Get(vaults[k], "id") != Str(vaultId)
    ensures r.Some? ==> r.value in vaults && Get(r.value, "id") == Str(vaultId)
  {
    FirstWhere(vaults, Eq("id", Str(vaultId)))
  }

  /** The active vaults, newest first. */
  function GetVaults(vaults: seq<Row>): (r: seq<Row>)
    ensures forall row :: multiset(r)[row] ==
              if Get(row, "is_active") == Bool(true) then multiset(vaults)[row] else 0
    ensures Sorted(r, "created_at", Desc)
  {
    SortBy(Filter(vaults, Eq("is_active", Bool(true))), "created_at", Desc)
  }

  /**
   * A user's rows of the deposit or the withdrawal table (`getUserDeposits`,
   * `getUserWithdrawals`: the same query on two tables), newest first,
   * restricted to one vault when one is given.
   */
  function UserRows(rows: seq<Row>, userId: string, vaultId: Option<string>): (r: seq<Row>)
    ensures forall row :: multiset(r)[row] ==
              if Get(row, "user_id") == Str(userId)
                 && (Given(vaultId) ==> Get(row, "vault_id") == Str(vaultId.value))
              then multiset(rows)[row] else 0
    ensures forall k :: 0 <= k < |r| ==> Get(r[k], "user_id") == Str(userId)
    ensures Given(vaultId) ==> forall k :: 0 <= k < |r| ==> Get(r[k], "vault_id") == Str(vaultId.value)
    ensures Sorted(r, "created_at", Desc)
  {
    var mine := Filter(rows, Eq("user_id", Str(userId)));
    var chosen := if Given(vaultId) then Filter(mine, Eq("vault_id", Str(vaultId.value))) else mine;
    var r := SortBy(chosen, "created_at", Desc);
    forall k | 0 <= k < |r|
      ensures Get(r[k], "user_id") == Str(userId)
      ensures Given(vaultId) ==> Get(r[k], "vault_id") == Str(vaultId.value)
    {
      assert multiset(r)[r[k]] > 0;
    }
    r
  }

  predicate ActiveRoundOf(vaultId: string, row: Row)
  {
    Get(row, "vault_id") == Str(vaultId) && Get(row, "is_active") == Bool(true)
  }

  /** The vault's active round: none exactly when no round of the vault is active. */
  function GetCurrentRound(rounds: seq<Row>, vaultId: string): (r: Option<Row>)
    ensures r.None? <==> forall k :: 0 <= k < |rounds| ==> !ActiveRoundOf(vaultId, rounds[k])
    ensures r.Some? ==> r.value in rounds && ActiveRoundOf(vaultId, r.value)
  {
    FirstWhere(rounds, row => ActiveRoundOf(vaultId, row))
  }

  function GetRound(rounds: seq<Row>, roundId: string): (r: Option<Row>)
    ensures r.None? <==> forall k :: 0 <= k < |rounds| ==> Get(rounds[k], "id") != Str(roundId)
    ensures r.Some? ==> r.value in rounds && Get(r.value, "id") == Str(roundId)
  {
    FirstWhere(rounds, Eq("id", Str(roundId)))
  }

  /** The vault's rounds, highest round number first: the ordering that GetRounds pages through. */
  function VaultRounds(rounds: seq<Row>, vaultId: string): (r: seq<Row>)
    ensures forall row :: multiset(r)[row] ==
              if Get(row, "vault_id") == Str(vaultId) then multiset(rounds)[row] else 0
    ensures Sorted(r, "round_id", Desc)
  {
    SortBy(Filter(rounds, Eq("vault_id", Str(vaultId))), "round_id", Desc)
  }

  /** The defaults of `getRounds`: they apply only when the argument is not passed. */
  function RoundsLimit(limit: Option<nat>): (l: nat)
    ensures limit.None? ==> l == 10
    ensures limit.Some? ==> l == limit.value
  {
    if limit.None? then 10 else limit.value
  }

  function RoundsOffset(offset: Option<nat>): (o: nat)
    ensures offset.None? ==> o == 0
    ensures offset.Some? ==> o == offset.value
  {
    if offset.None? then 0 else offset.value
  }

  /** A page of the vault's rounds, highest round number first. */
  function GetRounds(rounds: seq<Row>, vaultId: string, limit: Option<nat>, offset: Option<nat>): (r: seq<Row>)
    ensures |r| == if RoundsOffset(offset) >= |VaultRounds(rounds, vaultId)| then 0
                   else if RoundsOffset(offset) + RoundsLimit(limit) <= |VaultRounds(rounds, vaultId)| then RoundsLimit(limit)
                   else |VaultRounds(rounds, vaultId)| - RoundsOffset(offset)
    ensures forall k :: 0 <= k < |r| ==> r[k] in rounds && Get(r[k], "vault_id") == Str(vaultId)
    ensures Sorted(r, "round_id", Desc)
    ensures forall k :: 0 <= k < |r| ==>
              RoundsOffset(offset) + k < |VaultRounds(rounds, vaultId)|
              && r[k] == VaultRounds(rounds, vaultId)[RoundsOffset(offset) + k]
  {
    VaultRoundsWindow(rounds, vaultId, RoundsOffset(offset), RoundsLimit(limit));
    Window(VaultRounds(rounds, vaultId), RoundsOffset(offset), RoundsLimit(limit))
  }

  lemma VaultRoundsWindow(rounds: seq<Row>, vaultId: string, offset: nat, limit: nat)
    ensures var w := Window(VaultRounds(rounds, vaultId), offset, limit);
            && Sorted(w, "round_id", Desc)
            && forall k :: 0 <= k < |w| ==> w[k] in rounds && Get(w[k], "vault_id") == Str(vaultId)
  {
    var all := VaultRounds(rounds, vaultId);
    WindowOfSorted(all, offset, limit, "round_id", Desc);
    forall row | row in all ensures row in rounds && Get(row, "vault_id") == Str(vaultId) {
      assert multiset(all)[row] > 0;
    }
  }

  /** The round's winners, by ascending position. */
  function GetRoundWinners(winners: seq<Row>, roundId: string): (r: seq<Row>)
    ensures forall row :: multiset(r)[row] ==
              if Get(row, "round_id") == Str(roundId) then multiset(winners)[row] else 0
    ensures Sorted(r, "position", Asc)
  {
    SortBy(Filter(winners, Eq("round_id", Str(roundId))), "position", Asc)
  }

  /** A user's prizes, newest first. */
  function GetUserWinners(winners: seq<Row>, userId: string): (r: seq<Row>)
    ensures forall row :: multiset(r)[row] ==
              if Get(row, "user_id") == Str(userId) then multiset(winners)[row] else 0
    ensures Sorted(r, "created_at", Desc)
  {
    SortBy(Filter(winners, Eq("user_id", Str(userId))), "created_at", Desc)
  }

  predicate StreakOf(userId: string, vaultId: string, row: Row)
  {
    Get(row, "user_id") == Str(userId) && Get(row, "vault_id") == Str(vaultId)
  }

  function GetUserStreak(streaks: seq<Row>, userId: string, vaultId: string): (r: Option<Row>)
    ensures r.None? <==> forall k :: 0 <= k < |streaks| ==> !StreakOf(userId, vaultId, streaks[k])
    ensures r.Some? ==> r.value in streaks && StreakOf(userId, vaultId, r.value)
  {
    FirstWhere(streaks, row => StreakOf(userId, vaultId, row))
  }

  /** The events still to process: exactly those whose `processed` is false, oldest first. */
  function GetUnprocessedEvents(events: seq<Row>): (r: seq<Row>)
    ensures forall k :: 0 <= k < |r| ==> Get(r[k], "processed") == Bool(false)
    ensures forall e :: multiset(r)[e] ==
              if Get(e, "processed") == Bool(false) then multiset(events)[e] else 0
    ensures Sorted(r, "created_at", Asc)
  {
    var r := SortBy(Filter(events, Eq("processed", Bool(false))), "created_at", Asc);
    forall k | 0 <= k < |r| ensures Get(r[k], "processed") == Bool(false) {
      assert multiset(r)[r[k]] > 0;
    }
    r
  }

  /** Dequeued events come oldest first: each one is no newer than any later one. */
  lemma UnprocessedOldestFirst(events: seq<Row>, i: int, j: int)
    requires 0 <= i < j < |GetUnprocessedEvents(events)|
    ensures ValueLe(Get(GetUnprocessedEvents(events)[i], "created_at"),
                    Get(GetUnprocessedEvents(events)[j], "created_at"))
  {
    SortedPairwise(GetUnprocessedEvents(events), "created_at", Asc, i, j);
  }

  // ---------- rows written by create* ----------

  /** The row an insert stores: the listed columns the data holds, a fresh id and the creation time. */
  function NewRow(data: Row, columns: set<string>, id: string, now: int): (r: Row)
    requires "id" !in columns && "created_at" !in columns
    ensures r.Keys == (data.Keys * columns) + {"id", "created_at"}
    ensures r["id"] == Str(id) && r["created_at"] == Time(now)
    ensures forall c :: c in columns && c in data ==> r[c] == data[c]
  {
    (map c | c in columns && c in data :: data[c])["id" := Str(id)]["created_at" := Time(now)]
  }

  const UserColumns: set<string> := {"wallet_address", "email", "username", "avatar_url", "is_active"}
  const DepositColumns: set<string> :=
    {"user_id", "vault_id", "transaction_hash", "amount", "tickets_minted", "round_id", "status"}
  const WithdrawalColumns: set<string> :=
    {"user_id", "vault_id", "transaction_hash", "amount", "tickets_burned", "round_id", "status"}
  const RoundColumns: set<string> :=
    {"vault_id", "round_id", "start_time", "end_time", "total_participants", "total_tickets",
     "prize_pool", "is_active", "is_finalized", "randomness_seed"}
  const WinnerColumns: set<string> :=
    {"round_id", "user_id", "wallet_address", "position", "prize_amount", "has_claimed"}
  const StreakColumns: set<string> :=
    {"user_id", "vault_id", "current_streak", "longest_streak", "rounds_participated",
     "last_participation_round"}
  const EventColumns: set<string> :=
    {"event_type", "vault_id", "user_id", "round_id", "transaction_hash", "event_data", "processed"}

  /** A new user: active unless the data says otherwise (`is_active ?? true`), created and updated now. */
  function NewUserRow(userData: Row, id: string, now: int): (r: Row)
    ensures r.Keys == (userData.Keys * UserColumns) + {"id", "created_at", "updated_at", "is_active"}
    ensures r["id"] == Str(id) && r["created_at"] == Time(now) && r["updated_at"] == Time(now)
    ensures r["is_active"] == (if Get(userData, "is_active") == Null then Bool(true) else userData["is_active"])
    ensures forall c :: c in UserColumns - {"is_active"} && c in userData ==> r[c] == userData[c]
  {
    var data := userData["is_active" := if Get(userData, "is_active") == Null then Bool(true) else userData["is_active"]];
    NewRow(data, UserColumns, id, now)["updated_at" := Time(now)]
  }

  /** A new streak row, created and updated now. */
  function NewStreakRow(streakData: Row, id: string, now: int): (r: Row)
    ensures r.Keys == (streakData.Keys * StreakColumns) + {"id", "created_at", "updated_at"}
    ensures r["id"] == Str(id) && r["created_at"] == Time(now) && r["updated_at"] == Time(now)
    ensures forall c :: c in StreakColumns && c in streakData ==> r[c] == streakData[c]
  {
    NewRow(streakData, StreakColumns, id, now)["updated_at" := Time(now)]
  }

  // ---------- update objects written by update* ----------

  /** `{...updates, updated_at: now}`: the update with the modification time added or replaced. */
  function Touch(updates: Row, now: int): (p: Row)
    ensures p.Keys == updates.Keys + {"updated_at"}
    ensures p["updated_at"] == Time(now)
    ensures forall c :: c in updates && c != "updated_at" ==> p[c] == updates[c]
  {
    updates["updated_at" := Time(now)]
  }

  /** `{...updates, ...(stamp && {col: now})}`: the update, with `col` set to now only when `stamp`. */
  function StampWhen(updates: Row, stamp: bool, col: string, now: int): (p: Row)
    ensures stamp ==> p.Keys == updates.Keys + {col} && p[col] == Time(now)
    ensures !stamp ==> p == updates
    ensures forall c :: c in updates && c != col ==> p[c] == updates[c]
  {
    if stamp then updates[col := Time(now)] else updates
  }

  /** Deposits and withdrawals: `confirmed_at` is stamped only when the status becomes 'confirmed'. */
  function ConfirmationPatch(updates: Row, now: int): (p: Row)
    ensures Get(updates, "status") == Str("confirmed") ==> p == updates["confirmed_at" := Time(now)]
    ensures Get(updates, "status") != Str("confirmed") ==> p == updates
  {
    StampWhen(updates, Get(updates, "status") == Str("confirmed"), "confirmed_at", now)
  }

  /** Rounds: `finalized_at` is stamped only when the update sets `is_finalized`. */
  function FinalizationPatch(updates: Row, now: int): (p: Row)
    ensures Truthy(Get(updates, "is_finalized")) ==> p == updates["finalized_at" := Time(now)]
    ensures !Truthy(Get(updates, "is_finalized")) ==> p == updates
  {
    StampWhen(updates, Truthy(Get(updates, "is_finalized")), "finalized_at", now)
  }

  /** Winners: `claimed_at` is stamped only when the update sets `has_claimed`. */
  function ClaimPatch(updates: Row, now: int): (p: Row)
    ensures Truthy(Get(updates, "has_claimed")) ==> p == updates["claimed_at" := Time(now)]
    ensures !Truthy(Get(updates, "has_claimed")) ==> p == updates
  {
    StampWhen(updates, Truthy(Get(updates, "has_claimed")), "claimed_at", now)
  }

  /** Events: `processed_at` is stamped only when the update sets `processed`. */
  function ProcessedPatch(updates: Row, now: int): (p: Row)
    ensures Truthy(Get(updates, "processed")) ==> p == updates["processed_at" := Time(now)]
    ensures !Truthy(Get(updates, "processed")) ==> p == updates
  {
    StampWhen(updates, Truthy(Get(updates, "processed")), "processed_at", now)
  }

  /**
   * After an event update, a row with the id carries `processed_at` = now
   * when the update set `processed`, and otherwise whatever it had or the update gave.
   */
  lemma EventUpdateStampsOnlyWhenProcessed(events: seq<Row>, eventId: string, updates: Row, now: int, k: nat)
    requires k < |events| && Get(events[k], "id") == Str(eventId)
    ensures var r := UpdateById(events, eventId, ProcessedPatch(updates, now))[k];
            Get(r, "processed_at") ==
              if Truthy(Get(updates, "processed")) then Time(now) else Get(events[k] + updates, "processed_at")
  {
  }

  /** The ledger's tables, changed in place by the create and update operations. */
  class DatabaseService {
    var users: seq<Row>
    var vaults: seq<Row>
    var deposits: seq<Row>
    var withdrawals: seq<Row>
    var rounds: seq<Row>
    var winners: seq<Row>
    var streaks: seq<Row>
    var events: seq<Row>

    constructor ()
      ensures users == [] && vaults == [] && deposits == [] && withdrawals == []
      ensures rounds == [] && winners == [] && streaks == [] && events == []
    {
      users, vaults, deposits, withdrawals := [], [], [], [];
      rounds, winners, streaks, events := [], [], [], [];
    }

    method CreateUser(userData: Row, id: string, now: int) returns (user: Row)
      modifies this`users
      ensures user == NewUserRow(userData, id, now)
      ensures users == old(users) + [user]
    {
      user := NewUserRow(userData, id, now);
      users := users + [user];
    }

    method UpdateUser(userId: string, updates: Row, now: int) returns (user: Option<Row>)
      modifies this`users
      ensures users == UpdateById(old(users), userId, Touch(updates, now))
      ensures user == UpdatedRow(old(users), userId, Touch(updates, now))
    {
      user := UpdatedRow(users, userId, Touch(updates, now));
      users := UpdateById(users, userId, Touch(updates, now));
    }

    method UpdateVault(vaultId: string, updates: Row, now: int) returns (vault: Option<Row>)
      modifies this`vaults
      ensures vaults == UpdateById(old(vaults), vaultId, Touch(updates, now))
      ensures vault == UpdatedRow(old(vaults), vaultId, Touch(updates, now))
    {
      vault := UpdatedRow(vaults, vaultId, Touch(updates, now));
      vaults := UpdateById(vaults, vaultId, Touch(updates, now));
    }

    method CreateDeposit(depositData: Row, id: string, now: int) returns (deposit: Row)
      modifies this`deposits
      ensures deposit == NewRow(depositData, DepositColumns, id, now)
      ensures deposits == old(deposits) + [deposit]
    {
      deposit := NewRow(depositData, DepositColumns, id, now);
      deposits := deposits + [deposit];
    }

    method UpdateDeposit(depositId: string, updates: Row, now: int) returns (deposit: Option<Row>)
      modifies this`deposits
      ensures deposits == UpdateById(old(deposits), depositId, ConfirmationPatch(updates, now))
      ensures deposit == UpdatedRow(old(deposits), depositId, ConfirmationPatch(updates, now))
    {
      deposit := UpdatedRow(deposits, depositId, ConfirmationPatch(updates, now));
      deposits := UpdateById(deposits, depositId, ConfirmationPatch(updates, now));
    }

    method CreateWithdrawal(withdrawalData: Row, id: string, now: int) returns (withdrawal: Row)
      modifies this`withdrawals
      ensures withdrawal == NewRow(withdrawalData, WithdrawalColumns, id, now)
      ensures withdrawals == old(withdrawals) + [withdrawal]
    {
      withdrawal := NewRow(withdrawalData, WithdrawalColumns, id, now);
      withdrawals := withdrawals + [withdrawal];
    }

    method UpdateWithdrawal(withdrawalId: string, updates: Row, now: int) returns (withdrawal: Option<Row>)
      modifies this`withdrawals
      ensures withdrawals == UpdateById(old(withdrawals), withdrawalId, ConfirmationPatch(updates, now))
      ensures withdrawal == UpdatedRow(old(withdrawals), withdrawalId, ConfirmationPatch(updates, now))
    {
      withdrawal := UpdatedRow(withdrawals, withdrawalId, ConfirmationPatch(updates, now));
      withdrawals := UpdateById(withdrawals, withdrawalId, ConfirmationPatch(updates, now));
    }

    method CreateRound(roundData: Row, id: string, now: int) returns (round: Row)
      modifies this`rounds
      ensures round == NewRow(roundData, RoundColumns, id, now)
      ensures rounds == old(rounds) + [round]
    {
      round := NewRow(roundData, RoundColumns, id, now);
      rounds := rounds + [round];
    }

    method UpdateRound(roundId: string, updates: Row, now: int) returns (round: Option<Row>)
      modifies this`rounds
      ensures rounds == UpdateById(old(rounds), roundId, FinalizationPatch(updates, now))
      ensures round == UpdatedRow(old(rounds), roundId, FinalizationPatch(updates, now))
    {
      round := UpdatedRow(rounds, roundId, FinalizationPatch(updates, now));
      rounds := UpdateById(rounds, roundId, FinalizationPatch(updates, now));
    }

    method CreateWinner(winnerData: Row, id: string, now: int) returns (winner: Row)
      modifies this`winners
      ensures winner == NewRow(winnerData, WinnerColumns, id, now)
      ensures winners == old(winners) + [winner]
    {
      winner := NewRow(winnerData, WinnerColumns, id, now);
      winners := winners + [winner];
    }

    method UpdateWinner(winnerId: string, updates: Row, now: int) returns (winner: Option<Row>)
      modifies this`winners
      ensures winners == UpdateById(old(winners), winnerId, ClaimPatch(updates, now))
      ensures winner == UpdatedRow(old(winners), winnerId, ClaimPatch(updates, now))
    {
      winner := UpdatedRow(winners, winnerId, ClaimPatch(updates, now));
      winners := UpdateById(winners, winnerId, ClaimPatch(updates, now));
    }

    method CreateUserStreak(streakData: Row, id: string, now: int) returns (streak: Row)
      modifies this`streaks
      ensures streak == NewStreakRow(streakData, id, now)
      ensures streaks == old(streaks) + [streak]
    {
      streak := NewStreakRow(streakData, id, now);
      streaks := streaks + [streak];
    }

    method UpdateUserStreak(streakId: string, updates: Row, now: int) returns (streak: Option<Row>)
      modifies this`streaks
      ensures streaks == UpdateById(old(streaks), streakId, Touch(updates, now))
      ensures streak == UpdatedRow(old(streaks), streakId, Touch(updates, now))
    {
      streak := UpdatedRow(streaks, streakId, Touch(updates, now));
      streaks := UpdateById(streaks, streakId, Touch(updates, now));
    }

    method CreateEvent(eventData: Row, id: string, now: int) returns (event: Row)
      modifies this`events
      ensures event == NewRow(eventData, EventColumns, id, now)
      ensures events == old(events) + [event]
    {
      event := NewRow(eventData, EventColumns, id, now);
      events := events + [event];
    }

    method UpdateEvent(eventId: string, updates: Row, now: int) returns (event: Option<Row>)
      modifies this`events
      ensures events == UpdateById(old(events), eventId, ProcessedPatch(updates, now))
      ensures event == UpdatedRow(old(events), eventId, ProcessedPatch(updates, now))
    {
      event := UpdatedRow(events, eventId, ProcessedPatch(updates, now));
      events := UpdateById(events, eventId, ProcessedPatch(updates, now));
    }
  }

}
