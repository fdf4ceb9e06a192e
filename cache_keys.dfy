/** The cache keys the helpers use: one fixed key for the settings map, one
    for the account list, and one per account for its quota. */
module CacheKeys {

  const SettingKey: string := "setting"
  const AccountsKey: string := "onedrive_accounts"

  function Digit(d: nat): (c: char)
    requires d < 10
    ensures '0' <= c <= '9'
  {
    "0123456789"[d]
  }

  predicate IsDecimal(s: string)
  {
    forall i :: 0 <= i < |s| ==> '0' <= s[i] <= '9'
  }

  /** The decimal spelling of an account id, as PHP converts it when
      concatenating it into a string. */
  function Decimal(n: nat): (s: string)
    ensures |s| >= 1 && IsDecimal(s)
  {
    if n < 10 then [Digit(n)] else Decimal(n / 10) + [Digit(n % 10)]
  }

  /** The value of a string of decimal digits. */
  function DecimalValue(s: string): nat
    requires IsDecimal(s)
  {
    if s == [] then 0
    else DecimalValue(s[..|s| - 1]) * 10 + (s[|s| - 1] as int - '0' as int)
  }

  /** Reading back the decimal spelling of `n` gives `n`. */
  lemma {:induction false} DecimalRoundTrip(n: nat)
    ensures DecimalValue(Decimal(n)) == n
  {
    if n >= 10 {
      var s := Decimal(n);
      assert s[..|s| - 1] == Decimal(n / 10);
      DecimalRoundTrip(n / 10);
    }
  }

  /** The key `'one:' . $clientId . ':quota'` of one account's quota. */
  function QuotaKey(id: nat): (k: string)
    ensures |k| == |Decimal(id)| + 10
    ensures k[..4] == "one:" && k[|k| - 6..] == ":quota"
    ensures k[4..|k| - 6] == Decimal(id)
  {
    "one:" + Decimal(id) + ":quota"
  }

  /** Different accounts never share a quota entry. */
  lemma QuotaKeyInjective(a: nat, b: nat)
    requires QuotaKey(a) == QuotaKey(b)
    ensures a == b
  {
    DecimalRoundTrip(a);
    DecimalRoundTrip(b);
  }

  /** A quota key is never the settings key or the account-list key, so the
      three owners never write each other's entries. */
  lemma QuotaKeyForeign(id: nat)
    ensures QuotaKey(id) != SettingKey && QuotaKey(id) != AccountsKey
  {
  }
}
