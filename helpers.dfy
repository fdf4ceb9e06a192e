/** The helper functions as one sequential state machine: the shared cache,
    the clock, the two tables and the log of outside calls are fields, and
    each helper is a method that updates them. Every method is proved to do
    exactly what the corresponding step of `Protocol` says. */
module Helpers {
  import opened Base
  import opened TtlCache
  import opened Settings
  import opened Accounts
  import opened Quota
  import opened CacheKeys
  import opened Protocol

  class App {
    var cache: Cache<CacheValue>
    var now: int
    var settingsTable: seq<Row>
    var accountsTable: seq<Account>
    var log: seq<Effect>

    /** Each owner's key holds that owner's kind of value. */
    ghost predicate Valid()
      reads this
    {
      WellTyped(cache)
    }

    /** The state as a value of the protocol model. */
    function Snapshot(): World
      reads this
    {
      World(cache, now, settingsTable, accountsTable, log)
    }

    /** An application with an empty cache. */
    constructor (start: int, settings: seq<Row>, accounts: seq<Account>)
      ensures Valid()
      ensures Snapshot() == World(map[], start, settings, accounts, [])
    {
      cache := map[];
      now := start;
      settingsTable := settings;
      accountsTable := accounts;
      log := [];
    }

    /** Time passes. */
    method Tick(seconds: nat)
      requires Valid()
      modifies this
      ensures Valid()
      ensures Snapshot() == Advance(old(Snapshot()), seconds)
    {
      now := now + seconds;
    }

    /** `Cache::remember('setting', 60 * 60, ...)`: on a miss the table is
        read (an exception yields `[]`), flattened row by row and stored. */
    method AllSettings(readFails: bool) returns (data: map<string, string>)
      requires Valid()
      modifies this
      ensures Valid()
      ensures (Snapshot(), data) == Protocol.AllSettings(old(Snapshot()), readFails)
    {
      if Hit(cache, SettingKey, now) {
        data := cache[SettingKey].value.settings;
      } else {
        log := log + [SettingsRead];
        if readFails {
          data := map[];
        } else {
          data := FlattenRows(settingsTable);
        }
        cache := Put(cache, SettingKey, SettingsMap(data), now, Hour);
      }
    }

    /** `setting($key, $default)`. */
    method Setting(key: string, default: string, readFails: bool) returns (r: Projection<string>)
      requires Valid()
      modifies this
      ensures Valid()
      ensures (Snapshot(), r) == Protocol.Setting(old(Snapshot()), key, default, readFails)
    {
      var data := AllSettings(readFails);
      r := Project(data, key, default);
    }

    /** `setSetting($key, $value)`: update the table, then forget the settings map. */
    method SetSetting(key: string, value: string)
      requires Valid()
      modifies this
      ensures Valid()
      ensures Snapshot() == Protocol.SetSetting(old(Snapshot()), key, value)
    {
      settingsTable := UpdateRows(settingsTable, key, value);
      log := log + [SettingsWrite(key, value)];
      cache := Forget(cache, SettingKey);
    }

    /** `one_account($key)`. */
    method OneAccount(key: string, readFails: bool) returns (r: Projection<string>)
      requires Valid()
      modifies this
      ensures Valid()
      ensures (Snapshot(), r) == Protocol.OneAccount(old(Snapshot()), key, readFails)
    {
      var accountType := Setting("account_type", "", readFails);
      var accessToken := Setting("access_token", "", readFails);
      var accountEmail := Setting("account_email", "", readFails);
      var account := map["account_type" := accountType.item,
                         "access_token" := accessToken.item,
                         "account_email" := accountEmail.item];
      r := Project(account, key, "");
    }

    /** `getOnedriveAccounts()`: `Cache::remember('onedrive_accounts', 60 * 60, ...)`. */
    method GetOnedriveAccounts() returns (accounts: seq<Account>)
      requires Valid()
      modifies this
      ensures Valid()
      ensures (Snapshot(), accounts) == Protocol.GetOnedriveAccounts(old(Snapshot()))
    {
      if Hit(cache, AccountsKey, now) {
        accounts := cache[AccountsKey].value.accounts;
      } else {
        log := log + [AccountsRead];
        accounts := accountsTable;
        cache := Put(cache, AccountsKey, AccountList(accounts), now, Hour);
      }
    }

    /** `getOnedriveAccount($id, $key)`. */
    method GetOnedriveAccount(id: nat, key: string) returns (r: Result<AccountView, Failure>)
      requires Valid()
      modifies this
      ensures Valid()
      ensures (Snapshot(), r) == Protocol.GetOnedriveAccount(old(Snapshot()), id, key)
    {
      var accounts := GetOnedriveAccounts();
      match FindById(accounts, id)
      case None =>
        r := Err(NullAccount(id));
      case Some(a) =>
        r := Ok(if Falsy(key) then Record(a) else FieldOf(a, key));
    }

    /** `refreshOnedriveAccounts()`: forget the list, then put the table back. */
    method RefreshOnedriveAccounts()
      requires Valid()
      modifies this
      ensures Valid()
      ensures Snapshot() == Protocol.RefreshOnedriveAccounts(old(Snapshot()))
    {
      cache := Forget(cache, AccountsKey);
      log := log + [AccountsRead];
      cache := Put(cache, AccountsKey, AccountList(accountsTable), now, Hour);
    }

    /** `refresh_token($id)`. */
    method RefreshToken(id: nat, io: Remote) returns (r: Result<bool, Failure>)
      requires Valid()
      modifies this
      ensures Valid()
      ensures (Snapshot(), r) == Protocol.RefreshToken(old(Snapshot()), id, io)
    {
      var expires := Setting(ExpiresSetting, "0", io.settingsReadFails);
      var hasExpired := Expired(io.strtotime(expires.item), now);
      if hasExpired {
        var account := GetOnedriveAccount(id, "");
        if account.Err? {
          r := Err(account.error);
        } else {
          log := log + [TokenRefresh(id)];
          r := Ok(io.refreshCode == 200);
        }
        return;
      }
      r := Ok(true);
    }

    /** `one_info($key, $clientId)`. */
    method OneInfo(key: string, clientId: nat, io: Remote) returns (r: Result<Info, Failure>)
      requires Valid()
      modifies this
      ensures Valid()
      ensures (Snapshot(), r) == Protocol.OneInfo(old(Snapshot()), key, clientId, io)
    {
      var gate := RefreshToken(clientId, io);
      if gate.Err? {
        r := Err(gate.error);
        return;
      }
      if !gate.value {
        r := Ok(Unavailable);
        return;
      }
      ghost var afterGate := Snapshot();
      var ttl := Setting(QuotaTtlSetting, "", io.settingsReadFails);
      var qk := QuotaKey(clientId);
      if Hit(cache, qk, now) {
        r := Ok(Available(Project(cache[qk].value.quota, key, Text(""))));
      } else {
        var account := GetOnedriveAccount(clientId, "");
        if account.Err? {
          r := Err(account.error);
        } else {
          log := log + [DriveInfo(clientId)];
          var quota: map<string, Item> := map[];
          if io.errno == 0 {
            quota := NormalizeQuota(io.quota, io.convertSize);
          }
          cache := Put(cache, qk, QuotaMap(quota), now, io.ttlSeconds(ttl.item));
          r := Ok(Available(Project(quota, key, Text(""))));
        }
      }
      assert (Snapshot(), r) == ReadQuota(afterGate, key, clientId, io);
    }
  }
}
