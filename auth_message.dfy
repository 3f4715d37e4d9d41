/**
 * The challenge message that the login flow asks a wallet to sign: a fixed
 * text, the wallet address and the current time in milliseconds written in
 * decimal (JavaScript's rendering of an integer-valued number).
 */
module AuthMessage {
  import opened Common

  predicate IsDigit(c: char)
  {
    '0' as int <= c as int <= '9' as int
  }

  function DigitChar(d: nat): (c: char)
    requires d < 10
    ensures IsDigit(c) && (c as int) - ('0' as int) == d
  {
    ['0', '1', '2', '3', '4', '5', '6', '7', '8', '9'][d]
  }

  function DigitValue(c: char): (d: nat)
    requires IsDigit(c)
    ensures d < 10
  {
    (c as int) - ('0' as int)
  }

  /** The decimal digits of `n`, most significant first, without leading zeros. */
  function Decimal(n: nat): (s: string)
    ensures |s| >= 1
    ensures forall i :: 0 <= i < |s| ==> IsDigit(s[i])
    ensures |s| > 1 ==> s[0] != '0'
  {
    if n < 10 then [DigitChar(n)] else Decimal(n / 10) + [DigitChar(n % 10)]
  }

  /** The value of a string of decimal digits. */
  function DecimalValue(s: string): nat
    requires forall i :: 0 <= i < |s| ==> IsDigit(s[i])
  {
    if s == [] then 0
    else DecimalValue(s[..|s| - 1]) * 10 + DigitValue(s[|s| - 1])
  }

  lemma {:induction false} DecimalRoundTrip(n: nat)
    ensures DecimalValue(Decimal(n)) == n
  {
    if n >= 10 {
      var s := Decimal(n / 10) + [DigitChar(n % 10)];
      assert s[..|s| - 1] == Decimal(n / 10);
      DecimalRoundTrip(n / 10);
    }
  }

  /** Decimal text as `Decimal` writes it: at least one digit, and no leading zero unless it is "0". */
  predicate Canonical(s: string)
  {
    |s| >= 1 && (forall i :: 0 <= i < |s| ==> IsDigit(s[i])) && (|s| > 1 ==> s[0] != '0')
  }

  lemma {:induction false} CanonicalPositive(s: string)
    requires Canonical(s) && s[0] != '0'
    ensures DecimalValue(s) >= 1
  {
    if |s| > 1 {
      CanonicalPositive(s[..|s| - 1]);
    }
  }

  /** Canonical decimal text is exactly what `Decimal` writes for its value. */
  lemma {:induction false} CanonicalRoundTrip(s: string)
    requires Canonical(s)
    ensures Decimal(DecimalValue(s)) == s
  {
    var last := s[|s| - 1];
    var d := DigitValue(last);
    if |s| == 1 {
      assert DecimalValue(s) == d;
      assert [DigitChar(d)] == s;
    } else {
      var p := s[..|s| - 1];
      CanonicalPositive(p);
      CanonicalRoundTrip(p);
      var v := DecimalValue(s);
      assert v == DecimalValue(p) * 10 + d;
      assert v / 10 == DecimalValue(p) && v % 10 == d;
      assert DigitChar(d) == last;
      assert s == p + [last];
    }
  }

  const MessagePrefix: string := "Sign this message to authenticate with Suivest.\n\nWallet: "
  const TimestampLabel: string := "\nTimestamp: "

  /** The message issued for `wallet` at time `now`. */
  function Challenge(wallet: string, now: nat): (m: string)
    ensures |m| > |MessagePrefix| + |wallet|
    ensures m[..|MessagePrefix|] == MessagePrefix
  {
    MessagePrefix + wallet + TimestampLabel + Decimal(now)
  }

  /** The position of the last occurrence of `c` in `s`, if any. */
  function LastIndexOf(s: string, c: char): (r: Option<nat>)
    ensures r.Some? ==> r.value < |s| && s[r.value] == c
    ensures r.Some? ==> forall i :: r.value < i < |s| ==> s[i] != c
    ensures r.None? ==> forall i :: 0 <= i < |s| ==> s[i] != c
  {
    if s == [] then None
    else if s[|s| - 1] == c then Some(|s| - 1)
    else LastIndexOf(s[..|s| - 1], c)
  }

  /**
   * Splits the part of a message after the prefix into the wallet address and
   * the timestamp. The timestamp holds no newline, so the wallet address is
   * everything before the last newline.
   */
  function SplitTimestamp(body: string): (r: Option<(string, nat)>)
    ensures r.Some? ==> body == r.value.0 + TimestampLabel + Decimal(r.value.1)
  {
    match LastIndexOf(body, '\n')
    case None => None
    case Some(k) =>
      var tail := body[k..];
      if |tail| <= |TimestampLabel| || tail[..|TimestampLabel|] != TimestampLabel then None
      else
        var digits := tail[|TimestampLabel|..];
        if Canonical(digits) then
          CanonicalRoundTrip(digits);
          assert tail == TimestampLabel + digits;
          assert body == body[..k] + tail;
          Some((body[..k], DecimalValue(digits)))
        else None
  }

  /** Reads a message of the issued form back into its wallet address and timestamp. */
  function ParseChallenge(m: string): (r: Option<(string, nat)>)
    ensures r.Some? ==> Challenge(r.value.0, r.value.1) == m
  {
    if |m| < |MessagePrefix| || m[..|MessagePrefix|] != MessagePrefix then None
    else
      assert m == MessagePrefix + m[|MessagePrefix|..];
      SplitTimestamp(m[|MessagePrefix|..])
  }

  /** Parsing an issued message gives back exactly its wallet address and time. */
  lemma ParseChallengeRoundTrip(wallet: string, now: nat)
    ensures ParseChallenge(Challenge(wallet, now)) == Some((wallet, now))
  {
    var m := Challenge(wallet, now);
    var body := m[|MessagePrefix|..];
    var digits := Decimal(now);
    assert body == wallet + TimestampLabel + digits;
    var k := |wallet|;
    assert body[k] == '\n';
    forall i | k < i < |body| ensures body[i] != '\n' {
      if i < k + |TimestampLabel| {
        assert body[i] == TimestampLabel[i - k];
      } else {
        assert body[i] == digits[i - k - |TimestampLabel|];
      }
    }
    assert LastIndexOf(body, '\n') == Some(k);
    assert body[k..] == TimestampLabel + digits;
    assert body[..k] == wallet;
    DecimalRoundTrip(now);
  }

  /** A message parses to a wallet and a time exactly when it is the message issued for them. */
  lemma ParseChallengeExactly(m: string, wallet: string, now: nat)
    ensures ParseChallenge(m) == Some((wallet, now)) <==> m == Challenge(wallet, now)
  {
    if m == Challenge(wallet, now) {
      ParseChallengeRoundTrip(wallet, now);
    }
  }

  /** Two issued messages are equal only when their wallets and times are. */
  lemma ChallengeInjective(w1: string, t1: nat, w2: string, t2: nat)
    requires Challenge(w1, t1) == Challenge(w2, t2)
    ensures w1 == w2 && t1 == t2
  {
    ParseChallengeRoundTrip(w1, t1);
    ParseChallengeRoundTrip(w2, t2);
  }

}
