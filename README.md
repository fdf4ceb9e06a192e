# OLAINDEX helpers: cache-aside and token gate

This project models the helper functions of `app/Utils/helpers.php` in the
OLAINDEX OneDrive directory lister. Those functions put three kinds of data
behind the framework's TTL cache:

- the settings table, flattened into one `name => value` map under the key
  `setting` for an hour;
- the list of linked OneDrive accounts, kept under `onedrive_accounts` for an
  hour;
- each account's storage quota, kept under `one:<id>:quota` for as long as the
  `expires` setting says.

A token gate (`refresh_token`) stands in front of the quota read. The access
token counts as expired when its expiry instant is not after now. An expired
token goes through the OAuth refresh flow, and the quota is read only if that
flow answers code 200.

The model has two layers:

- `Protocol` gives every helper as a function from one `World` to the next.
  A `World` holds the cache, the clock, the settings table, the accounts table
  and a log of the outside calls made (table reads, table writes, token
  refreshes, drive-info calls).
- `Helpers.App` is a class with those same fields. It has one method per
  helper. Each method is proved to leave exactly the state, and return exactly
  the value, that the `Protocol` function gives. The two `foreach` loops of the
  source are loop methods (`Settings.FlattenRows`, `Quota.NormalizeQuota`),
  each proved against its own specification function.

`Properties` proves what the protocol promises:

- when each producer runs;
- which key holds what;
- what `forget` and `put` leave behind;
- the `<= 0` expiry boundary;
- the short-circuit when the gate is closed.

The outside world comes in as a `Remote` value. It says:

- whether the settings-table read throws;
- what `strtotime` returns;
- the OAuth refresh result code;
- the drive-info `errno` and quota map;
- what `Tool::convertSize` returns;
- how the `expires` setting becomes a number of seconds.

The cache follows the usual meaning of `Cache::remember`. If the key holds a
live entry, `remember` returns it. Otherwise it runs the producer, stores the
result with expiry `now + ttl`, and returns it. An entry is live strictly
before its expiry instant.

### Behaviour worth noting

- A settings-table read that throws is caught inside the producer, so the
  empty map `[]` is cached for an hour (`helpers.php:33-37`).
- `getOnedriveAccount` with an id that no account has dereferences null. The
  model returns `Err(NullAccount(id))` for it (`helpers.php:87-88`).
- `refresh_token($id)` reads the global `access_token_expires` setting and
  ignores `$id` when it decides expiry (`helpers.php:165`).
- The call to `refreshOnedriveAccounts()` comes after a `return`, so it never
  runs (`helpers.php:171-172`).
- The quota key is `one:<id>:quota` (`helpers.php:133`). Its TTL is whatever
  the `expires` setting converts to, with no fallback for zero or negative
  values.
- A key is falsy, in PHP's sense, when it is `""` or `"0"`. A falsy key asks for
  the whole collection (`helpers.php:45, 72, 150`).

## Model

| member | source | states |
|---|---|---|
| `Base.Project` | app/Utils/helpers.php:45 | a falsy key (`""` or `"0"`) yields the whole map; a truthy key yields its value, or the default when it is absent |
| `TtlCache.Get` | app/Utils/helpers.php:32 | a read answers the stored value iff the key holds an entry whose expiry is after now |
| `TtlCache.Put` | app/Utils/helpers.php:116 | `put` stores the value with expiry `now + ttl` under the key and keeps every other entry |
| `TtlCache.Forget` | app/Utils/helpers.php:52 | `forget` removes the key and keeps every other entry |
| `TtlCache.PutLiveUntil` | app/Utils/helpers.php:116 | a value put with a ttl reads back exactly until `now + ttl` and not from then on |
| `TtlCache.ForgetMisses` | app/Utils/helpers.php:115 | after `forget`, a read misses at every instant, so the next `remember` runs its producer |
| `TtlCache.ForgetIdempotent` | app/Utils/helpers.php:115 | forgetting twice is forgetting once |
| `TtlCache.OtherKeysUnchanged` | app/Utils/helpers.php:52 | `put` and `forget` leave the reads of every other key as they were |
| `Settings.FlattenRows` | app/Utils/helpers.php:38-42 | the `foreach` builds exactly the row-by-row flattening of the table |
| `Settings.Flatten` | app/Utils/helpers.php:39-41 | the table flattened row by row in order; its names are exactly the names of the rows |
| `Settings.FlattenLastWins` | app/Utils/helpers.php:39-41 | a name maps to the value of the last row carrying it |
| `Settings.UpdateRows` | app/Utils/helpers.php:51 | the update sets the value of every row named `k` and no other row; it inserts, removes and renames nothing |
| `Settings.FlattenUpdate` | app/Utils/helpers.php:51 | after the update, the flattened map changes at `k` only, to `v`, and only if `k` was present |
| `Accounts.FindById` | app/Utils/helpers.php:87 | the lookup finds an account with the id that is in the list, and finds none iff no account carries the id |
| `Accounts.FindByIdIsFirst` | app/Utils/helpers.php:87 | the account found is the first one in list order with that id |
| `CacheKeys.Decimal` | app/Utils/helpers.php:133 | an id is spelled as a non-empty string of decimal digits |
| `CacheKeys.DecimalRoundTrip` | app/Utils/helpers.php:133 | reading the decimal spelling back gives the id |
| `CacheKeys.QuotaKey` | app/Utils/helpers.php:133 | the quota key is `one:` followed by the id's decimal spelling and `:quota` |
| `CacheKeys.QuotaKeyInjective` | app/Utils/helpers.php:133 | two accounts never share a quota key |
| `CacheKeys.QuotaKeyForeign` | app/Utils/helpers.php:133 | a quota key is never `setting` or `onedrive_accounts` |
| `Quota.NormalizeQuota` | app/Utils/helpers.php:139-143 | the in-place `foreach` yields exactly the normalised quota map |
| `Quota.NormalizeItem` | app/Utils/helpers.php:140-141 | one normalised value is always a string, and a string value is kept |
| `Quota.Normalized` | app/Utils/helpers.php:139-143 | the normalised map has the same keys and only string values |
| `Quota.NormalizedMeaning` | app/Utils/helpers.php:139-143 | normalising keeps the keys and every string value, replaces every number by `convertSize` of it, and leaves only strings |
| `Protocol.Expired` | app/Utils/helpers.php:167 | the token is expired iff `expires - now <= 0`, which is exactly when a cache entry with that expiry would no longer be live |
| `Protocol.LoadedSettings` | app/Utils/helpers.php:33-42 | the producer's map has no names when the table read throws, and exactly the rows' names otherwise |
| `Protocol.AllSettings` | app/Utils/helpers.php:32-43 | step function of `Cache::remember` on `setting`; its own contract states only that every owner's key keeps holding its own kind of value (the behaviour is stated by the `Properties` lemmas) |
| `Protocol.Setting` | app/Utils/helpers.php:30-46 | step function of `setting()`; its own contract states only that every owner's key keeps holding its own kind of value (the behaviour is stated by the `Properties` lemmas) |
| `Protocol.SetSetting` | app/Utils/helpers.php:50-53 | step function of `setSetting()`; its own contract states only that every owner's key keeps holding its own kind of value (the behaviour is stated by the `Properties` lemmas) |
| `Protocol.OneAccount` | app/Utils/helpers.php:64-73 | step function of `one_account()`; its own contract states only that every owner's key keeps holding its own kind of value (the behaviour is stated by the `Properties` lemmas) |
| `Protocol.GetOnedriveAccounts` | app/Utils/helpers.php:99-104 | step function of `getOnedriveAccounts()`; its own contract states only that every owner's key keeps holding its own kind of value (the behaviour is stated by the `Properties` lemmas) |
| `Protocol.GetOnedriveAccount` | app/Utils/helpers.php:83-89 | step function of `getOnedriveAccount()`; its own contract states only that every owner's key keeps holding its own kind of value (the behaviour is stated by the `Properties` lemmas) |
| `Protocol.RefreshOnedriveAccounts` | app/Utils/helpers.php:114-117 | step function of `refreshOnedriveAccounts()`; its own contract states only that every owner's key keeps holding its own kind of value (the behaviour is stated by the `Properties` lemmas) |
| `Protocol.RefreshToken` | app/Utils/helpers.php:163-175 | step function of `refresh_token()`; its own contract states only that every owner's key keeps holding its own kind of value (the behaviour is stated by the `Properties` lemmas) |
| `Protocol.OneInfo` | app/Utils/helpers.php:128-153 | step function of `one_info()`; its own contract states only that every owner's key keeps holding its own kind of value (the behaviour is stated by the `Properties` lemmas) |
| `Protocol.ReadQuota` | app/Utils/helpers.php:132-150 | step function of the quota `Cache::remember` in `one_info()`; its own contract states only that every owner's key keeps holding its own kind of value (the behaviour is stated by the `Properties` lemmas) |
| `Properties.SettingHitReadsNothing` | app/Utils/helpers.php:32-45 | a live `setting` entry answers without reading the table, and nothing changes |
| `Properties.SettingMissStoresTable` | app/Utils/helpers.php:32-45 | on a miss the table is read once; its flattening (or `[]` when the read throws) is stored for 3600 s and answered |
| `Properties.SettingCachedForAnHour` | app/Utils/helpers.php:32-43 | within 3600 s of a miss, `setting()` answers the stored map (even `[]` from a failed read) and reads no table |
| `Properties.SettingStaleAfterAnHour` | app/Utils/helpers.php:32-43 | 3600 s or more after the miss, the table is read again |
| `Properties.LoadedSettingsMeaning` | app/Utils/helpers.php:33-42 | the producer's map is empty when the read throws; otherwise its names are the rows' names and the last row wins |
| `Properties.SetSettingFrame` | app/Utils/helpers.php:50-53 | `setSetting(k, v)` applies the row update (`UpdateRows`) to the table, drops the `setting` entry and no other key, logs the write, and leaves the clock and accounts table unchanged |
| `Properties.SetSettingThenSetting` | app/Utils/helpers.php:50-53 | after `setSetting(k, v)`, `setting(k)` reads the table again; when that re-read succeeds it answers `v` if a row named `k` existed and the default otherwise (a re-read that throws answers the default, by `SettingMissStoresTable`) |
| `Properties.OneAccountFromSettings` | app/Utils/helpers.php:64-73 | `one_account()` reads the settings map at most once and projects its three account fields, each defaulting to `""` |
| `Properties.AllSettingsFrame` | app/Utils/helpers.php:32-43 | the settings read touches no key but `setting`, and only on a miss, logging one table read |
| `Properties.AccountsFrame` | app/Utils/helpers.php:100-103 | the account-list read touches no key but `onedrive_accounts`, and only on a miss, logging one table read; on a hit it answers the cached list; on a miss it answers the table and stores it with expiry now + 3600 |
| `Properties.AccountsCachedForAnHour` | app/Utils/helpers.php:100-102 | within 3600 s of a miss, the account-list read answers the stored list and reads no table |
| `Properties.AccountsStaleAfterAnHour` | app/Utils/helpers.php:100-102 | 3600 s or more after the miss, the table is read again and stored for a fresh hour |
| `Properties.AccountReadersShareEntry` | app/Utils/helpers.php:84-86 | both account helpers go through the same entry; after the list read, the lookup reads no table |
| `Properties.GetOnedriveAccountFirstMatch` | app/Utils/helpers.php:84-88 | the lookup fails (null dereference) iff no cached account has the id; otherwise it yields the first that does |
| `Properties.RefreshAccountsExact` | app/Utils/helpers.php:114-117 | after the refresh the entry holds exactly the current table with expiry now + 3600, whatever was cached; other keys, the clock and both tables are untouched; reads within the hour answer the table without reading it |
| `Properties.RefreshTokenOpen` | app/Utils/helpers.php:165-174 | a token not yet expired opens the gate for any id, with no account read and no refresh call |
| `Properties.RefreshTokenExpired` | app/Utils/helpers.php:168-171 | an expired token reads the account; a missing account is the null-dereference error; otherwise the refresh runs once and the gate opens iff the code is 200 |
| `Properties.RefreshTokenBoundary` | app/Utils/helpers.php:167 | an expiry equal to now counts as expired (refresh runs unless the account is missing); one second later counts as valid |
| `Properties.RefreshTokenKeepsLive` | app/Utils/helpers.php:171-172 | every entry live before the gate is unchanged after it |
| `Properties.RefreshTokenKeepsForeign` | app/Utils/helpers.php:165-174 | every key other than `setting` and `onedrive_accounts` is unchanged by the gate |
| `Properties.RefreshTokenLeavesSettingsLive` | app/Utils/helpers.php:165 | after the gate, the settings map it read is live in the cache |
| `Properties.RefreshTokenEffects` | app/Utils/helpers.php:165-174 | the gate keeps the clock and tables, only appends to the log, and never calls the drive-info service |
| `Properties.OneInfoGateClosed` | app/Utils/helpers.php:131-152 | a closed gate answers `[]`; the quota entry is untouched and no drive-info call is made |
| `Properties.OneInfoGateError` | app/Utils/helpers.php:126-131 | when the gate throws (expired token, no account with the id) `one_info` throws the same null-account error from the gate's world, without consulting the quota entry |
| `Properties.ReadQuotaHit` | app/Utils/helpers.php:132-150 | a live quota entry answers the cached map with no account lookup and no drive-info call |
| `Properties.ReadQuotaMiss` | app/Utils/helpers.php:132-150 | on a miss with the account present, the log grows by exactly the account-list read (if it missed) and one drive-info call; the normalised quota (`errno == 0`) or `[]` is stored with the `expires` TTL and answered; a missing account is the error, with the world left exactly as the account-list read leaves it (a list miss is still filled and logged) and no quota entry stored; the clock and both tables are kept |
| `Properties.ReadQuotaOtherAccounts` | app/Utils/helpers.php:132-148 | the quota read for one account leaves every other account's quota entry untouched |
| `Properties.OneInfoHit` | app/Utils/helpers.php:131-150 | an open gate and a live quota entry: the cached map answers and nothing beyond the gate's own reads happens |
| `Properties.OneInfoMiss` | app/Utils/helpers.php:131-150 | an open gate and a missed quota entry: after the gate and the account-list read, exactly one drive-info call is logged; the quota is stored with the TTL from the settings the gate read; a missing account is the error, with the world exactly as the account-list read after the gate leaves it and no quota entry stored; the clock and both tables are kept |
| `Properties.OneInfoEmptyPersists` | app/Utils/helpers.php:137-146 | after a failed drive-info call caches `[]`, any open-gate `one_info` within the TTL answers `[]` with no new call |
| `Properties.OneInfoOtherAccounts` | app/Utils/helpers.php:128-153 | `one_info` for one account never touches another account's quota entry |
| `Helpers.App.AllSettings` | app/Utils/helpers.php:32-43 | the method leaves the state and returns the map that `Protocol.AllSettings` gives |
| `Helpers.App.Setting` | app/Utils/helpers.php:30-46 | the method leaves the state and returns the value that `Protocol.Setting` gives |
| `Helpers.App.SetSetting` | app/Utils/helpers.php:50-53 | the method leaves the state that `Protocol.SetSetting` gives |
| `Helpers.App.OneAccount` | app/Utils/helpers.php:64-73 | the method leaves the state and returns the value that `Protocol.OneAccount` gives |
| `Helpers.App.GetOnedriveAccounts` | app/Utils/helpers.php:99-104 | the method leaves the state and returns the list that `Protocol.GetOnedriveAccounts` gives |
| `Helpers.App.GetOnedriveAccount` | app/Utils/helpers.php:83-89 | the method leaves the state and returns the result that `Protocol.GetOnedriveAccount` gives |
| `Helpers.App.RefreshOnedriveAccounts` | app/Utils/helpers.php:114-117 | the method leaves the state that `Protocol.RefreshOnedriveAccounts` gives |
| `Helpers.App.RefreshToken` | app/Utils/helpers.php:163-175 | the method leaves the state and returns the gate result that `Protocol.RefreshToken` gives |
| `Helpers.App.OneInfo` | app/Utils/helpers.php:128-153 | the method leaves the state and returns the result that `Protocol.OneInfo` gives |

## Left out

- `is_json` (`helpers.php:16-20`) only wraps PHP's JSON decoder and has no logic of its own.
- `strtotime` is an input function from string to instant. When parsing fails, PHP yields `false`, which counts as 0 in the subtraction; the input function is expected to return 0 in that case.
- `Tool::convertSize` is an input function from a byte count to a display string. Its float formatting is not modelled.
- The OAuth refresh flow and the drive-info call are network calls. Only their results are modelled (the result code, `errno` and the quota map). Any writes the refresh flow makes to the tables are not modelled. The refresh flow's body is not part of this model, and it is assumed to write nothing to the cache. Every lemma about `refresh_token` and `one_info` relies on that assumption (the `Properties.RefreshToken*` and `Properties.OneInfo*` lemmas).
- Quota values are either strings or integer byte counts. Floats, booleans and nested JSON objects are not distinguished from integers, so the model treats every non-string value as a number.
- `Protocol.GetOnedriveAccount`: with a truthy key, the result is the account plus the key (`FieldOf`). The model leaves the field read to the ORM's `get` on a record and does not say what it returns.
- `setSetting` assumes the table update succeeds. If `DB::table('settings')->update` throws, it does so before `Cache::forget` runs, so a stale settings map stays cached. The model does not include that path.
- Reading the accounts table is assumed to succeed. The source does not catch an exception there, so one would propagate out of the helper.
- Every settings read inside one helper call shares one "read throws" flag. Only the first read in a call can miss, because that read stores the map for an hour, so no behaviour is lost.
- PHP's coercion of numeric-string array keys, and the loose `==` in `where('id', $id)`, are not modelled. Account ids are natural numbers and keys are strings.
- Laravel's handling of zero, negative or non-numeric TTLs is not modelled. The model stores the entry with expiry `now + ttl`, which is already stale when `ttl <= 0`, so the next read misses as Laravel's would.
- Concurrency, such as the window between the table write and `Cache::forget`, is not modelled, and neither is real wall-clock time. The clock is a field that only `Tick` advances.
- Protocol.AllSettings: its own contract states only that the cache stays well typed; what `Cache::remember` on `setting` does is stated by the `Properties` lemmas and by `Helpers.App.AllSettings`.
- Protocol.Setting: its own contract states only that the cache stays well typed; what `setting()` does is stated by the `Properties` lemmas and by `Helpers.App.Setting`.
- Protocol.SetSetting: its own contract states only that the cache stays well typed; what `setSetting()` does is stated by the `Properties` lemmas and by `Helpers.App.SetSetting`.
- Protocol.OneAccount: its own contract states only that the cache stays well typed; what `one_account()` does is stated by the `Properties` lemmas and by `Helpers.App.OneAccount`.
- Protocol.GetOnedriveAccounts: its own contract states only that the cache stays well typed; what `getOnedriveAccounts()` does is stated by `Properties.AccountsFrame`, `Properties.AccountsCachedForAnHour`, `Properties.AccountsStaleAfterAnHour` and `Helpers.App.GetOnedriveAccounts`.
- Protocol.GetOnedriveAccount: its own contract states only that the cache stays well typed; what `getOnedriveAccount()` does is stated by the `Properties` lemmas and by `Helpers.App.GetOnedriveAccount`.
- Protocol.RefreshOnedriveAccounts: its own contract states only that the cache stays well typed; what `refreshOnedriveAccounts()` does is stated by the `Properties` lemmas and by `Helpers.App.RefreshOnedriveAccounts`.
- Protocol.RefreshToken: its own contract states only that the cache stays well typed; what `refresh_token()` does is stated by the `Properties` lemmas and by `Helpers.App.RefreshToken`.
- Protocol.OneInfo: its own contract states only that the cache stays well typed; what `one_info()` does is stated by the `Properties` lemmas and by `Helpers.App.OneInfo`.
- Protocol.ReadQuota: its own contract states only that the cache stays well typed; what the quota `Cache::remember` in `one_info()` does is stated by the `Properties` lemmas and by `Helpers.App.OneInfo`.
