/**
 * The per-wallet login rate limiter of the authentication service: a map from
 * wallet address to the number of recent attempts and the time of the last
 * counted one, with a fifteen-minute window and a limit of five attempts.
 * The clock (`Date.now()`) is the parameter `now`, in milliseconds.
 */
module LoginAttempts {

  /** Length of the window, in milliseconds (fifteen minutes). */
  const WindowMs: int := 15 * 60 * 1000

  /** Attempts allowed within one window. */
  const MaxAttempts: int := 5

  /** One entry of the map: how many attempts were counted and when the last one was. */
  datatype Attempt = Attempt(count: int, lastAttempt: int)

  type Attempts = map<string, Attempt>

  /** Every stored count lies in 1..MaxAttempts. */
  predicate CountsBounded(m: Attempts)
  {
    forall w :: w in m ==> 1 <= m[w].count <= MaxAttempts
  }

  /** Whether a check for `wallet` at time `now` is allowed. */
  predicate Admits(m: Attempts, wallet: string, now: int)
  {
    wallet !in m || now - m[wallet].lastAttempt > WindowMs || m[wallet].count < MaxAttempts
  }

  /** The answer of one check and the map afterwards. */
  datatype CheckOutcome = CheckOutcome(allowed: bool, attempts: Attempts)

  /** One call of the limiter's check, as a function of the map before it. */
  function Check(m: Attempts, wallet: string, now: int): (r: CheckOutcome)
    ensures r.allowed == Admits(m, wallet, now)
    ensures !r.allowed ==> r.attempts == m
    ensures r.allowed ==> wallet in r.attempts && r.attempts[wallet].lastAttempt == now
    ensures r.attempts.Keys == m.Keys + {wallet}
    ensures forall w :: w in m && w != wallet ==> r.attempts[w] == m[w]
    ensures CountsBounded(m) ==> CountsBounded(r.attempts)
  {
    if wallet !in m then
      CheckOutcome(true, m[wallet := Attempt(1, now)])
    else if now - m[wallet].lastAttempt > WindowMs then
      CheckOutcome(true, m[wallet := Attempt(1, now)])
    else if m[wallet].count >= MaxAttempts then
      CheckOutcome(false, m)
    else
      CheckOutcome(true, m[wallet := m[wallet].(count := m[wallet].count + 1, lastAttempt := now)])
  }

  /** Forgetting a wallet after a successful login. */
  function Reset(m: Attempts, wallet: string): (r: Attempts)
    ensures wallet !in r
    ensures r.Keys == m.Keys - {wallet}
    ensures forall w :: w in m && w != wallet ==> r[w] == m[w]
  {
    m - {wallet}
  }

  lemma FirstAttempt(m: Attempts, wallet: string, now: int)
    requires wallet !in m
    ensures Check(m, wallet, now) == CheckOutcome(true, m[wallet := Attempt(1, now)])
  {
  }

  lemma WindowExpired(m: Attempts, wallet: string, now: int)
    requires wallet in m && now - m[wallet].lastAttempt > WindowMs
    ensures Check(m, wallet, now) == CheckOutcome(true, m[wallet := Attempt(1, now)])
  {
  }

  /** Exactly one window after the last attempt, the entry is not reset. */
  lemma ExactWindowDoesNotReset(m: Attempts, wallet: string, now: int)
    requires wallet in m && now - m[wallet].lastAttempt == WindowMs
    ensures Check(m, wallet, now).allowed == (m[wallet].count < MaxAttempts)
    ensures Check(m, wallet, now).allowed ==>
              Check(m, wallet, now).attempts[wallet].count == m[wallet].count + 1
  {
  }

  lemma BlockedLeavesEntry(m: Attempts, wallet: string, now: int)
    requires wallet in m && now - m[wallet].lastAttempt <= WindowMs
    requires m[wallet].count >= MaxAttempts
    ensures !Check(m, wallet, now).allowed
    ensures Check(m, wallet, now).attempts == m
  {
  }

  lemma WithinWindowIncrements(m: Attempts, wallet: string, now: int)
    requires wallet in m && now - m[wallet].lastAttempt <= WindowMs
    requires m[wallet].count < MaxAttempts
    ensures Check(m, wallet, now) ==
              CheckOutcome(true, m[wallet := Attempt(m[wallet].count + 1, now)])
  {
  }

  /** After a reset, the next check behaves as the wallet's first attempt. */
  lemma ResetThenFirstAttempt(m: Attempts, wallet: string, now: int)
    ensures Check(Reset(m, wallet), wallet, now) ==
              CheckOutcome(true, (m - {wallet})[wallet := Attempt(1, now)])
  {
  }

  /** The result of a series of checks for one wallet at the given times. */
  datatype Replay = Replay(allowed: nat, attempts: Attempts)

  function CheckAll(m: Attempts, wallet: string, times: seq<int>): (r: Replay)
    ensures r.allowed <= |times|
    ensures r.attempts.Keys == if times == [] then m.Keys else m.Keys + {wallet}
    ensures forall w :: w in m && w != wallet ==> r.attempts[w] == m[w]
    ensures CountsBounded(m) ==> CountsBounded(r.attempts)
    decreases |times|
  {
    if times == [] then Replay(0, m)
    else
      var o := Check(m, wallet, times[0]);
      var rest := CheckAll(o.attempts, wallet, times[1..]);
      Replay((if o.allowed then 1 else 0) + rest.allowed, rest.attempts)
  }

  /**
   * While every check falls within one window of `start`, and the last
   * counted attempt is no earlier than `start`, no entry is reset: at most
   * the remaining allowance is admitted.
   */
  lemma {:induction false} AllowanceWithinWindow(m: Attempts, wallet: string, times: seq<int>, start: int)
    requires wallet in m && 1 <= m[wallet].count <= MaxAttempts
    requires start <= m[wallet].lastAttempt
    requires forall i :: 0 <= i < |times| ==> start <= times[i] <= start + WindowMs
    ensures CheckAll(m, wallet, times).allowed <= MaxAttempts - m[wallet].count
    decreases |times|
  {
    if times != [] {
      var o := Check(m, wallet, times[0]);
      assert times[0] - m[wallet].lastAttempt <= WindowMs;
      AllowanceWithinWindow(o.attempts, wallet, times[1..], start);
    }
  }

  /**
   * From a wallet's first attempt (or the first after a reset), at most
   * MaxAttempts checks are allowed while the clock stays within one window
   * of that first attempt.
   */
  lemma {:induction false} AtMostMaxAttemptsPerWindow(m: Attempts, wallet: string, times: seq<int>)
    requires wallet !in m && |times| > 0
    requires forall i :: 0 <= i < |times| ==> times[0] <= times[i] <= times[0] + WindowMs
    ensures CheckAll(m, wallet, times).allowed <= MaxAttempts
  {
    var o := Check(m, wallet, times[0]);
    AllowanceWithinWindow(o.attempts, wallet, times[1..], times[0]);
  }

  /** The service's map of login attempts, updated in place. */
  class LoginRateLimiter {
    var loginAttempts: Attempts

    ghost predicate Valid()
      reads this
    {
      CountsBounded(loginAttempts)
    }

    constructor ()
      ensures Valid() && loginAttempts == map[]
    {
      loginAttempts := map[];
    }

    method CheckLoginAttempts(walletAddress: string, now: int) returns (allowed: bool)
      requires Valid()
      modifies this
      ensures Valid()
      ensures allowed == Check(old(loginAttempts), walletAddress, now).allowed
      ensures loginAttempts == Check(old(loginAttempts), walletAddress, now).attempts
    {
      if walletAddress !in loginAttempts {
        loginAttempts := loginAttempts[walletAddress := Attempt(1, now)];
        return true;
      }
      var attempts := loginAttempts[walletAddress];
      if now - attempts.lastAttempt > WindowMs {
        loginAttempts := loginAttempts[walletAddress := Attempt(1, now)];
        return true;
      }
      if attempts.count >= MaxAttempts {
        return false;
      }
      attempts := attempts.(count := attempts.count + 1);
      attempts := attempts.(lastAttempt := now);
      loginAttempts := loginAttempts[walletAddress := attempts];
      return true;
    }

    method ResetLoginAttempts(walletAddress: string)
      requires Valid()
      modifies this
      ensures Valid()
      ensures loginAttempts == Reset(old(loginAttempts), walletAddress)
    {
      loginAttempts := loginAttempts - {walletAddress};
    }
  }

}
