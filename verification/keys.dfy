/**
 * Key and TTL policy of the concurrency cache: the three key spaces
 * (account ledgers, user ledgers, wait counters), the decimal rendering of
 * 64-bit identifiers used to build keys, and the normalisation of the
 * configured slot TTL.
 */
module ConcurrencyKeys {
  import opened Wrappers

  const AccountSlotKeyPrefix: string := "concurrency:account:"
  const UserSlotKeyPrefix: string := "concurrency:user:"
  const WaitQueueKeyPrefix: string := "concurrency:wait:"

  /** TTL used when the configured number of minutes is zero or negative. */
  const DefaultSlotTTLMinutes: int := 15

  /** Go's `int64`. */
  type Int64 = x: int | -0x8000_0000_0000_0000 <= x < 0x8000_0000_0000_0000

  predicate IsDigit(c: char) {
    '0' <= c <= '9'
  }

  predicate AllDigits(s: string) {
    forall i :: 0 <= i < |s| ==> IsDigit(s[i])
  }

  function DigitChar(d: nat): (c: char)
    requires d < 10
    ensures IsDigit(c) && c as int - '0' as int == d
  {
    ('0' as int + d) as char
  }

  function DigitValue(c: char): (d: nat)
    requires IsDigit(c)
    ensures d < 10
  {
    c as int - '0' as int
  }

  /** The decimal digits of `n`, most significant first, without leading zeros. */
  function Decimal(n: nat): (s: string)
    ensures |s| >= 1 && AllDigits(s)
    ensures s[0] == '0' ==> n == 0
    decreases n
  {
    if n < 10 then [DigitChar(n)] else Decimal(n / 10) + [DigitChar(n % 10)]
  }

  /** The number a non-empty string of decimal digits denotes. */
  function DecimalValue(s: string): nat
    requires |s| >= 1 && AllDigits(s)
    decreases |s|
  {
    if |s| == 1 then DigitValue(s[0])
    else DecimalValue(s[..|s| - 1]) * 10 + DigitValue(s[|s| - 1])
  }

  lemma {:induction false} DecimalRoundTrip(n: nat)
    ensures DecimalValue(Decimal(n)) == n
    decreases n
  {
    if n >= 10 {
      var s := Decimal(n);
      assert s[..|s| - 1] == Decimal(n / 10);
      DecimalRoundTrip(n / 10);
    }
  }

  /** Go's `%d` verb applied to an integer: an optional minus sign, then the digits. */
  function FormatInt(n: int): (s: string)
    ensures |s| >= 1
    ensures s[0] == '-' <==> n < 0
  {
    if n < 0 then "-" + Decimal(-n) else Decimal(n)
  }

  /** Reads back what FormatInt writes; anything else is rejected. */
  function ParseInt(s: string): Option<int> {
    if |s| >= 2 && s[0] == '-' && AllDigits(s[1..]) then Some(-(DecimalValue(s[1..]) as int))
    else if |s| >= 1 && AllDigits(s) then Some(DecimalValue(s) as int)
    else None
  }

  lemma FormatIntRoundTrip(n: int)
    ensures ParseInt(FormatInt(n)) == Some(n)
  {
    if n < 0 {
      var s := FormatInt(n);
      assert s[1..] == Decimal(-n);
      DecimalRoundTrip(-n);
    } else {
      DecimalRoundTrip(n);
    }
  }

  /** Distinct identifiers are written as distinct strings. */
  lemma FormatIntInjective(a: int, b: int)
    requires FormatInt(a) == FormatInt(b)
    ensures a == b
  {
    FormatIntRoundTrip(a);
    FormatIntRoundTrip(b);
  }

  predicate HasPrefix(s: string, prefix: string) {
    |prefix| <= |s| && s[..|prefix|] == prefix
  }

  /** A key of a slot ledger (sorted set), for an account or for a user. */
  predicate IsSlotKey(key: string) {
    HasPrefix(key, AccountSlotKeyPrefix) || HasPrefix(key, UserSlotKeyPrefix)
  }

  /** A key of a wait counter. */
  predicate IsWaitKey(key: string) {
    HasPrefix(key, WaitQueueKeyPrefix)
  }

  function AccountSlotKey(accountID: Int64): (key: string)
    ensures HasPrefix(key, AccountSlotKeyPrefix)
    ensures ParseInt(key[|AccountSlotKeyPrefix|..]) == Some(accountID as int)
  {
    var key := AccountSlotKeyPrefix + FormatInt(accountID);
    assert key[|AccountSlotKeyPrefix|..] == FormatInt(accountID);
    FormatIntRoundTrip(accountID);
    key
  }

  function UserSlotKey(userID: Int64): (key: string)
    ensures HasPrefix(key, UserSlotKeyPrefix)
    ensures ParseInt(key[|UserSlotKeyPrefix|..]) == Some(userID as int)
  {
    var key := UserSlotKeyPrefix + FormatInt(userID);
    assert key[|UserSlotKeyPrefix|..] == FormatInt(userID);
    FormatIntRoundTrip(userID);
    key
  }

  function WaitQueueKey(userID: Int64): (key: string)
    ensures HasPrefix(key, WaitQueueKeyPrefix)
    ensures ParseInt(key[|WaitQueueKeyPrefix|..]) == Some(userID as int)
  {
    var key := WaitQueueKeyPrefix + FormatInt(userID);
    assert key[|WaitQueueKeyPrefix|..] == FormatInt(userID);
    FormatIntRoundTrip(userID);
    key
  }

  /** The three prefixes part ways right after "concurrency:", so no key is in two spaces. */
  lemma KeySpacesDisjoint(key: string)
    ensures !(HasPrefix(key, AccountSlotKeyPrefix) && HasPrefix(key, UserSlotKeyPrefix))
    ensures !(IsSlotKey(key) && IsWaitKey(key))
  {
    if HasPrefix(key, AccountSlotKeyPrefix) {
      assert key[12] == AccountSlotKeyPrefix[12] == 'a';
    }
    if HasPrefix(key, UserSlotKeyPrefix) {
      assert key[12] == UserSlotKeyPrefix[12] == 'u';
    }
    if HasPrefix(key, WaitQueueKeyPrefix) {
      assert key[12] == WaitQueueKeyPrefix[12] == 'w';
    }
  }

  /** Each key space is one-to-one in its identifier, and the spaces never meet. */
  lemma KeysIdentifyTheirOwner(a: Int64, b: Int64)
    ensures AccountSlotKey(a) == AccountSlotKey(b) ==> a == b
    ensures UserSlotKey(a) == UserSlotKey(b) ==> a == b
    ensures WaitQueueKey(a) == WaitQueueKey(b) ==> a == b
    ensures AccountSlotKey(a) != UserSlotKey(b)
    ensures AccountSlotKey(a) != WaitQueueKey(b)
    ensures UserSlotKey(a) != WaitQueueKey(b)
  {
    KeySpacesDisjoint(AccountSlotKey(a));
    KeySpacesDisjoint(UserSlotKey(a));
  }

  /**
   * The slot TTL in seconds for a configured number of minutes: values of
   * zero or below fall back to the default, then minutes become seconds.
   */
  function SlotTTLSeconds(slotTTLMinutes: int): (seconds: int)
    ensures seconds > 0 && seconds % 60 == 0
    ensures slotTTLMinutes > 0 ==> seconds / 60 == slotTTLMinutes
    ensures slotTTLMinutes <= 0 ==> seconds / 60 == DefaultSlotTTLMinutes
  {
    var minutes := if slotTTLMinutes <= 0 then DefaultSlotTTLMinutes else slotTTLMinutes;
    minutes * 60
  }
}
