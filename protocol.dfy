/** The cache-aside and token-gate protocol of the helper functions, as
    functions from one state of the world to the next. Every external call
    (table reads, the OAuth refresh, the drive-info call, time parsing, size
    formatting) is an input; the effect log records which of them ran. */
module Protocol {
  import opened Base
  import opened TtlCache
  import opened Settings
  import opened Accounts
  import opened Quota
  import opened CacheKeys

  /** The TTL of the settings map and of the account list: 60 * 60 seconds. */
  const Hour: int := 60 * 60

  /** The setting naming the instant the access token expires. */
  const ExpiresSetting: string := "access_token_expires"

  /** The setting holding the TTL of quota entries. */
  const QuotaTtlSetting: string := "expires"

  /** What the cache can hold: the settings map, the account list, or one
      account's quota map. */
  datatype CacheValue =
    | SettingsMap(settings: map<string, string>)
    | AccountList(accounts: seq<Account>)
    | QuotaMap(quota: map<string, Item>)

  /** The outside calls a step makes, in order. */
  datatype Effect =
    | SettingsRead
    | SettingsWrite(name: string, value: string)
    | AccountsRead
    | TokenRefresh(id: nat)
    | DriveInfo(id: nat)

  /** The shared cache, the clock, the two tables and the log of outside calls. */
  datatype World = World(
    cache: Cache<CacheValue>,
    now: int,
    settings: seq<Row>,
    accounts: seq<Account>,
    log: seq<Effect>)

  /** The answers of the outside world during one call: whether the settings
      table read throws, `strtotime`, the OAuth refresh result code, the
      drive-info `errno` and quota map, `Tool::convertSize`, and the
      conversion of the `expires` setting into a TTL in seconds. */
  datatype Remote = Remote(
    settingsReadFails: bool,
    strtotime: string -> int,
    refreshCode: int,
    errno: int,
    quota: map<string, Item>,
    convertSize: int -> string,
    ttlSeconds: string -> int)

  /** What `one_info` returns: `[]` when the token gate is closed, otherwise
      the quota map or one of its values. */
  datatype Info = Unavailable | Available(view: Projection<Item>)

  /** What `getOnedriveAccount` returns for a found account: the whole record
      or, for a truthy key, the field access on it. */
  datatype AccountView = Record(account: Account) | FieldOf(account: Account, key: string)

  /** Each owner's key holds that owner's kind of value. */
  ghost predicate WellTyped(c: Cache<CacheValue>)
  {
    && (SettingKey in c ==> c[SettingKey].value.SettingsMap?)
    && (AccountsKey in c ==> c[AccountsKey].value.AccountList?)
    && (forall id: nat :: QuotaKey(id) in c ==> c[QuotaKey(id)].value.QuotaMap?)
  }

  /** The token is expired when its expiry instant is not after now; equality
      counts as expired. This is the cache's own notion of a stale entry. */
  predicate Expired(expires: int, now: int)
    ensures Expired(expires, now) <==> !Live(Entry((), expires), now)
  {
    expires - now <= 0
  }

  /** The settings-map producer: the flattened table, or the empty map when
      the table read throws. */
  function LoadedSettings(rows: seq<Row>, readFails: bool): (m: map<string, string>)
    ensures m.Keys == if readFails then {} else set r | r in rows :: r.name
  {
    if readFails then map[] else Flatten(rows)
  }

  /** `Cache::remember('setting', 3600, ...)`. */
  function AllSettings(w: World, readFails: bool): (r: (World, map<string, string>))
    requires WellTyped(w.cache)
    ensures WellTyped(r.0.cache)
  {
    if Hit(w.cache, SettingKey, w.now) then (w, w.cache[SettingKey].value.settings)
    else
      var m := LoadedSettings(w.settings, readFails);
      (w.(cache := Put(w.cache, SettingKey, SettingsMap(m), w.now, Hour), log := w.log + [SettingsRead]), m)
  }

  /** `setting($key, $default)`. */
  function Setting(w: World, key: string, default: string, readFails: bool): (r: (World, Projection<string>))
    requires WellTyped(w.cache)
    ensures WellTyped(r.0.cache)
  {
    var (w1, m) := AllSettings(w, readFails);
    (w1, Project(m, key, default))
  }

  /** `setSetting($key, $value)`: update the rows, then forget the settings map. */
  function SetSetting(w: World, key: string, value: string): (w': World)
    requires WellTyped(w.cache)
    ensures WellTyped(w'.cache)
  {
    w.(settings := UpdateRows(w.settings, key, value),
       cache := Forget(w.cache, SettingKey),
       log := w.log + [SettingsWrite(key, value)])
  }

  /** `one_account($key)`: three settings gathered into one map, then projected. */
  function OneAccount(w: World, key: string, readFails: bool): (r: (World, Projection<string>))
    requires WellTyped(w.cache)
    ensures WellTyped(r.0.cache)
  {
    var (w1, t) := Setting(w, "account_type", "", readFails);
    var (w2, a) := Setting(w1, "access_token", "", readFails);
    var (w3, e) := Setting(w2, "account_email", "", readFails);
    var m := map["account_type" := t.item, "access_token" := a.item, "account_email" := e.item];
    (w3, Project(m, key, ""))
  }

  /** `getOnedriveAccounts()`: `Cache::remember('onedrive_accounts', 3600, ...)`. */
  function GetOnedriveAccounts(w: World): (r: (World, seq<Account>))
    requires WellTyped(w.cache)
    ensures WellTyped(r.0.cache)
  {
    if Hit(w.cache, AccountsKey, w.now) then (w, w.cache[AccountsKey].value.accounts)
    else
      (w.(cache := Put(w.cache, AccountsKey, AccountList(w.accounts), w.now, Hour), log := w.log + [AccountsRead]),
       w.accounts)
  }

  /** `getOnedriveAccount($id, $key)`: the first cached account with the id;
      no match is the null dereference. */
  function GetOnedriveAccount(w: World, id: nat, key: string): (r: (World, Result<AccountView, Failure>))
    requires WellTyped(w.cache)
    ensures WellTyped(r.0.cache)
  {
    var (w1, list) := GetOnedriveAccounts(w);
    match FindById(list, id)
    case None => (w1, Err(NullAccount(id)))
    case Some(a) => (w1, Ok(if Falsy(key) then Record(a) else FieldOf(a, key)))
  }

  /** `refreshOnedriveAccounts()`: forget the account list, then put the table back for an hour. */
  function RefreshOnedriveAccounts(w: World): (w': World)
    requires WellTyped(w.cache)
    ensures WellTyped(w'.cache)
  {
    w.(cache := Put(Forget(w.cache, AccountsKey), AccountsKey, AccountList(w.accounts), w.now, Hour),
       log := w.log + [AccountsRead])
  }

  /** `refresh_token($id)`: the expiry of the global `access_token_expires`
      setting decides; an expired token goes through the refresh flow for the
      account and succeeds iff the flow answers code 200. The account-list
      refresh written after the `return` never runs. */
  function RefreshToken(w: World, id: nat, io: Remote): (r: (World, Result<bool, Failure>))
    requires WellTyped(w.cache)
    ensures WellTyped(r.0.cache)
  {
    var (w1, s) := Setting(w, ExpiresSetting, "0", io.settingsReadFails);
    if Expired(io.strtotime(s.item), w1.now) then
      var (w2, acc) := GetOnedriveAccount(w1, id, "");
      if acc.Err? then (w2, Err(acc.error))
      else (w2.(log := w2.log + [TokenRefresh(id)]), Ok(io.refreshCode == 200))
    else (w1, Ok(true))
  }

  /** `one_info($key, $clientId)`: behind the token gate, read the account's
      quota through its own cache entry. */
  function OneInfo(w: World, key: string, clientId: nat, io: Remote): (r: (World, Result<Info, Failure>))
    requires WellTyped(w.cache)
    ensures WellTyped(r.0.cache)
  {
    var (w1, gate) := RefreshToken(w, clientId, io);
    if gate.Err? then (w1, Err(gate.error))
    else if !gate.value then (w1, Ok(Unavailable))
    else ReadQuota(w1, key, clientId, io)
  }

  /** The open-gate branch of `one_info`: `Cache::remember` on the account's
      quota key with the TTL held in `expires`; the producer looks the
      account up, calls the drive-info service, and keeps the normalised
      quota when `errno` is 0 and `[]` otherwise. */
  function ReadQuota(w: World, key: string, clientId: nat, io: Remote): (r: (World, Result<Info, Failure>))
    requires WellTyped(w.cache)
    ensures WellTyped(r.0.cache)
  {
    var (w1, e) := Setting(w, QuotaTtlSetting, "", io.settingsReadFails);
    var qk := QuotaKey(clientId);
    if Hit(w1.cache, qk, w1.now) then
      (w1, Ok(Available(Project(w1.cache[qk].value.quota, key, Text("")))))
    else
      var (w2, acc) := GetOnedriveAccount(w1, clientId, "");
      if acc.Err? then (w2, Err(acc.error))
      else
        var q := if io.errno == 0 then Normalized(io.quota, io.convertSize) else map[];
        var w3 := w2.(cache := Put(w2.cache, qk, QuotaMap(q), w2.now, io.ttlSeconds(e.item)),
                      log := w2.log + [DriveInfo(clientId)]);
        (w3, Ok(Available(Project(q, key, Text("")))))
  }

  /** Time passes. */
  function Advance(w: World, seconds: nat): (w': World)
    ensures w'.now == w.now + seconds
    ensures w'.cache == w.cache && w'.settings == w.settings && w'.accounts == w.accounts && w'.log == w.log
  {
    w.(now := w.now + seconds)
  }
}
