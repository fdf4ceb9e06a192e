/** What the protocol promises: when each producer runs, which key holds
    what, what `forget` and `put` leave behind, the expiry boundary and the
    short-circuit of the token gate. */
module Properties {
  import opened Base
  import opened TtlCache
  import opened Settings
  import opened Accounts
  import opened Quota
  import opened CacheKeys
  import opened Protocol

  /** `k` holds the same entry, or is absent, in both caches. */
  predicate Untouched(c: Cache<CacheValue>, c': Cache<CacheValue>, k: string)
  {
    (k in c <==> k in c') && (k in c ==> c'[k] == c[k])
  }

  /** `w'` only appended outside calls to the log of `w`. */
  predicate Extends(w: World, w': World)
  {
    |w.log| <= |w'.log| && w'.log[..|w.log|] == w.log
  }

  // ---------------------------------------------------------------- settings

  /** A live settings entry answers `setting()` without reading the table,
      and nothing changes. */
  lemma SettingHitReadsNothing(w: World, key: string, default: string, readFails: bool)
    requires WellTyped(w.cache) && Hit(w.cache, SettingKey, w.now)
    ensures Setting(w, key, default, readFails) == (w, Project(w.cache[SettingKey].value.settings, key, default))
  {
  }

  /** On a miss the table is read once and its flattening (or `[]` when the
      read throws) is stored under 'setting' for an hour and answered. */
  lemma SettingMissStoresTable(w: World, key: string, default: string, readFails: bool)
    requires WellTyped(w.cache) && !Hit(w.cache, SettingKey, w.now)
    ensures var (w', r) := Setting(w, key, default, readFails);
      && w'.log == w.log + [SettingsRead]
      && w'.cache == Put(w.cache, SettingKey, SettingsMap(LoadedSettings(w.settings, readFails)), w.now, Hour)
      && r == Project(LoadedSettings(w.settings, readFails), key, default)
  {
  }

  /** After a miss, every `setting()` within the hour is answered from the
      stored map, even an empty one stored after a failed read, and reads no table. */
  lemma SettingCachedForAnHour(w: World, k1: string, d1: string, f1: bool,
                               k2: string, d2: string, f2: bool, seconds: nat)
    requires WellTyped(w.cache) && !Hit(w.cache, SettingKey, w.now)
    requires seconds < Hour
    ensures var w2 := Advance(Setting(w, k1, d1, f1).0, seconds);
      Setting(w2, k2, d2, f2) == (w2, Project(LoadedSettings(w.settings, f1), k2, d2))
  {
  }

  /** An hour after the miss, the entry is stale and the table is read again. */
  lemma SettingStaleAfterAnHour(w: World, k1: string, d1: string, f1: bool,
                                k2: string, d2: string, f2: bool, seconds: nat)
    requires WellTyped(w.cache) && !Hit(w.cache, SettingKey, w.now)
    requires seconds >= Hour
    ensures var w2 := Advance(Setting(w, k1, d1, f1).0, seconds);
      var (w3, r) := Setting(w2, k2, d2, f2);
      w3.log == w2.log + [SettingsRead] && r == Project(LoadedSettings(w2.settings, f2), k2, d2)
  {
  }

  /** The loaded map: empty when the read throws; otherwise its names are the
      rows' names and each holds the value of the last row carrying it. */
  lemma LoadedSettingsMeaning(rows: seq<Row>, readFails: bool)
    ensures readFails ==> LoadedSettings(rows, readFails) == map[]
    ensures !readFails ==> LoadedSettings(rows, readFails).Keys == set r | r in rows :: r.name
    ensures !readFails ==>
      forall i | 0 <= i < |rows| && (forall j :: i < j < |rows| ==> rows[j].name != rows[i].name) ::
        LoadedSettings(rows, readFails)[rows[i].name] == rows[i].value
  {
    forall i | 0 <= i < |rows| && (forall j :: i < j < |rows| ==> rows[j].name != rows[i].name)
      ensures rows[i].name in Flatten(rows) && Flatten(rows)[rows[i].name] == rows[i].value
    {
      FlattenLastWins(rows, i);
    }
  }

  /** `setSetting(k, v)` drops only the 'setting' entry, changes only rows
      named `k`, and leaves the clock and the account table alone. */
  lemma SetSettingFrame(w: World, k: string, v: string, other: string)
    requires WellTyped(w.cache) && other != SettingKey
    ensures var w' := SetSetting(w, k, v);
      && w'.settings == UpdateRows(w.settings, k, v)
      && SettingKey !in w'.cache
      && Untouched(w.cache, w'.cache, other)
      && w'.now == w.now && w'.accounts == w.accounts
      && w'.log == w.log + [SettingsWrite(k, v)]
  {
  }

  /** After `setSetting(k, v)`, `setting(k)` reads the table again and answers
      `v` when a row named `k` existed, and the default when none did,
      whatever stale map was cached before. */
  lemma SetSettingThenSetting(w: World, k: string, v: string, default: string)
    requires WellTyped(w.cache) && !Falsy(k)
    ensures var w1 := SetSetting(w, k, v);
      var (w2, r) := Setting(w1, k, default, false);
      && w2.log == w1.log + [SettingsRead]
      && r == Field(if exists i :: 0 <= i < |w.settings| && w.settings[i].name == k then v else default)
  {
    var rows := w.settings;
    FlattenUpdate(rows, k, v);
    if exists i :: 0 <= i < |rows| && rows[i].name == k {
      var i :| 0 <= i < |rows| && rows[i].name == k;
      assert rows[i] in rows;
    } else {
      assert k !in Flatten(rows);
    }
  }

  /** `one_account()` reads the settings map at most once (the three
      `setting()` calls share the 'setting' entry) and gathers its three
      account fields, each defaulting to "". */
  lemma OneAccountFromSettings(w: World, key: string, readFails: bool)
    requires WellTyped(w.cache)
    ensures var (w1, m) := AllSettings(w, readFails);
      OneAccount(w, key, readFails)
        == (w1, Project(map["account_type" := Project(m, "account_type", "").item,
                            "access_token" := Project(m, "access_token", "").item,
                            "account_email" := Project(m, "account_email", "").item], key, ""))
  {

  }

  // ---------------------------------------------------------------- accounts

  /** The settings read changes nothing but the 'setting' entry on a miss. */
  lemma AllSettingsFrame(w: World, readFails: bool)
    requires WellTyped(w.cache)
    ensures var w' := AllSettings(w, readFails).0;
      && w'.now == w.now && w'.settings == w.settings && w'.accounts == w.accounts
      && w'.log == w.log + (if Hit(w.cache, SettingKey, w.now) then [] else [SettingsRead])
      && (forall k :: k != SettingKey ==> Untouched(w.cache, w'.cache, k))
      && (Hit(w.cache, SettingKey, w.now) ==> w'.cache == w.cache)
  {
  }

  /** The account-list read changes nothing but the 'onedrive_accounts' entry on a miss. */
  lemma AccountsFrame(w: World)
    requires WellTyped(w.cache)
    ensures var (w', list) := GetOnedriveAccounts(w);
      && w'.now == w.now && w'.settings == w.settings && w'.accounts == w.accounts
      && w'.log == w.log + (if Hit(w.cache, AccountsKey, w.now) then [] else [AccountsRead])
      && (forall k :: k != AccountsKey ==> Untouched(w.cache, w'.cache, k))
      && (Hit(w.cache, AccountsKey, w.now) ==> w'.cache == w.cache && list == w.cache[AccountsKey].value.accounts)
      && (!Hit(w.cache, AccountsKey, w.now) ==>
            list == w.accounts && w'.cache[AccountsKey] == Entry(AccountList(w.accounts), w.now + Hour))
  {
  }

  /** After a miss, every account-list read within the hour answers the
      stored list and reads no table. */
  lemma AccountsCachedForAnHour(w: World, seconds: nat)
    requires WellTyped(w.cache) && !Hit(w.cache, AccountsKey, w.now)
    requires seconds < Hour
    ensures var w2 := Advance(GetOnedriveAccounts(w).0, seconds);
      GetOnedriveAccounts(w2) == (w2, w.accounts)
  {
  }

  /** An hour after the miss, the entry is stale and the table is read again. */
  lemma AccountsStaleAfterAnHour(w: World, seconds: nat)
    requires WellTyped(w.cache) && !Hit(w.cache, AccountsKey, w.now)
    requires seconds >= Hour
    ensures var w2 := Advance(GetOnedriveAccounts(w).0, seconds);
      var (w3, list) := GetOnedriveAccounts(w2);
      w3.log == w2.log + [AccountsRead] && list == w2.accounts
      && w3.cache[AccountsKey] == Entry(AccountList(w2.accounts), w2.now + Hour)
  {
  }

  /** Both account helpers go through the same 'onedrive_accounts' entry: the
      single-account lookup has the cache effect of the list read, and after
      the list read it reads no table. */
  lemma AccountReadersShareEntry(w: World, id: nat, key: string)
    requires WellTyped(w.cache)
    ensures GetOnedriveAccount(w, id, key).0 == GetOnedriveAccounts(w).0
    ensures var w1 := GetOnedriveAccounts(w).0;
      GetOnedriveAccount(w1, id, key).0 == w1
  {
  }

  /** `getOnedriveAccount(id)` fails exactly when no account in the list it
      reads carries the id, and otherwise yields the first that does. */
  lemma GetOnedriveAccountFirstMatch(w: World, id: nat, key: string)
    requires WellTyped(w.cache)
    ensures var list := GetOnedriveAccounts(w).1;
      var r := GetOnedriveAccount(w, id, key).1;
      && (r == Err(NullAccount(id)) <==> forall a :: a in list ==> a.id != id)
      && (forall i :: 0 <= i < |list| && list[i].id == id && (forall j :: 0 <= j < i ==> list[j].id != id) ==>
            r == Ok(if Falsy(key) then Record(list[i]) else FieldOf(list[i], key)))
  {
    var list := GetOnedriveAccounts(w).1;
    forall i | 0 <= i < |list| && list[i].id == id && (forall j :: 0 <= j < i ==> list[j].id != id)
      ensures FindById(list, id) == Some(list[i])
    {
      FindByIdIsFirst(list, id, i);
    }
  }

  /** After `refreshOnedriveAccounts()` the entry holds exactly the current
      table for a fresh hour, whatever was cached before; no other key changes,
      and list reads within the hour answer the table without reading it. */
  lemma RefreshAccountsExact(w: World, other: string, seconds: nat)
    requires WellTyped(w.cache) && other != AccountsKey && seconds < Hour
    ensures var w' := RefreshOnedriveAccounts(w);
      && w'.cache[AccountsKey] == Entry(AccountList(w.accounts), w.now + Hour)
      && Untouched(w.cache, w'.cache, other)
      && w'.log == w.log + [AccountsRead]
      && w'.now == w.now && w'.settings == w.settings && w'.accounts == w.accounts
      && GetOnedriveAccounts(Advance(w', seconds)) == (Advance(w', seconds), w.accounts)
  {
  }

  // ---------------------------------------------------------------- token gate

  /** The parsed expiry instant `refresh_token` compares with now: the global
      `access_token_expires` setting (default "0") as seen through the cache,
      whatever account is asked about. */
  function TokenExpiry(w: World, io: Remote): int
    requires WellTyped(w.cache)
  {
    io.strtotime(Project(AllSettings(w, io.settingsReadFails).1, ExpiresSetting, "0").item)
  }

  /** `refresh_token` as the settings read followed, for an expired token,
      by the account lookup and the refresh call. */
  lemma RefreshTokenSteps(w: World, id: nat, io: Remote)
    requires WellTyped(w.cache)
    ensures var (w1, m) := AllSettings(w, io.settingsReadFails);
      var (w2, list) := GetOnedriveAccounts(w1);
      RefreshToken(w, id, io)
        == if !Expired(io.strtotime(Project(m, ExpiresSetting, "0").item), w.now) then (w1, Ok(true))
           else if FindById(list, id).None? then (w2, Err(NullAccount(id)))
           else (w2.(log := w2.log + [TokenRefresh(id)]), Ok(io.refreshCode == 200))
  {
    var (w1, m) := AllSettings(w, io.settingsReadFails);
    AllSettingsFrame(w, io.settingsReadFails);
    assert Setting(w, ExpiresSetting, "0", io.settingsReadFails) == (w1, Project(m, ExpiresSetting, "0"));
  }

  /** A token that has not expired opens the gate for every account id
      without reading the account list or calling the refresh flow. */
  lemma RefreshTokenOpen(w: World, id: nat, io: Remote)
    requires WellTyped(w.cache) && !Expired(TokenExpiry(w, io), w.now)
    ensures RefreshToken(w, id, io) == (AllSettings(w, io.settingsReadFails).0, Ok(true))
  {
  }

  /** An expired token reads the account; a missing account is the null
      dereference, otherwise the refresh flow runs once and the gate opens
      iff it answers code 200. */
  lemma RefreshTokenExpired(w: World, id: nat, io: Remote)
    requires WellTyped(w.cache) && Expired(TokenExpiry(w, io), w.now)
    ensures var (w2, list) := GetOnedriveAccounts(AllSettings(w, io.settingsReadFails).0);
      var (w', r) := RefreshToken(w, id, io);
      && (r.Err? <==> forall a :: a in list ==> a.id != id)
      && (r.Err? ==> r.error == NullAccount(id) && w' == w2)
      && (r.Ok? ==> r.value == (io.refreshCode == 200) && w' == w2.(log := w2.log + [TokenRefresh(id)]))
  {
  }

  /** The boundary: an expiry instant equal to now counts as expired (the
      refresh flow runs unless the account is missing); one second later
      counts as valid. */
  lemma RefreshTokenBoundary(w: World, id: nat, io: Remote)
    requires WellTyped(w.cache)
    ensures var (w', r) := RefreshToken(w, id, io);
      TokenExpiry(w, io) == w.now ==> r.Err? || (|w'.log| > 0 && w'.log[|w'.log| - 1] == TokenRefresh(id))
    ensures TokenExpiry(w, io) == w.now + 1 ==> RefreshToken(w, id, io).1 == Ok(true)
  {
  }

  /** `refresh_token` only fills misses: an entry live before the gate is
      unchanged after it (the account-list refresh after `return` never runs). */
  lemma RefreshTokenKeepsLive(w: World, id: nat, io: Remote)
    requires WellTyped(w.cache)
    ensures var w' := RefreshToken(w, id, io).0;
      forall k :: Hit(w.cache, k, w.now) ==> Untouched(w.cache, w'.cache, k)
  {
    RefreshTokenSteps(w, id, io);
    AllSettingsFrame(w, io.settingsReadFails);
    AccountsFrame(AllSettings(w, io.settingsReadFails).0);
  }

  /** The gate changes no key but 'setting' and 'onedrive_accounts'. */
  lemma RefreshTokenKeepsForeign(w: World, id: nat, io: Remote)
    requires WellTyped(w.cache)
    ensures var w' := RefreshToken(w, id, io).0;
      forall k :: k != SettingKey && k != AccountsKey ==> Untouched(w.cache, w'.cache, k)
  {
    RefreshTokenSteps(w, id, io);
    AllSettingsFrame(w, io.settingsReadFails);
    AccountsFrame(AllSettings(w, io.settingsReadFails).0);
  }

  /** After `refresh_token` the settings map it read is live, so the next
      `setting()` at the same instant answers from it. */
  lemma RefreshTokenLeavesSettingsLive(w: World, id: nat, io: Remote)
    requires WellTyped(w.cache)
    ensures var w' := RefreshToken(w, id, io).0;
      && Hit(w'.cache, SettingKey, w.now)
      && w'.cache[SettingKey].value.settings == AllSettings(w, io.settingsReadFails).1
  {
    RefreshTokenSteps(w, id, io);
    AllSettingsFrame(w, io.settingsReadFails);
    AccountsFrame(AllSettings(w, io.settingsReadFails).0);
  }

  /** `refresh_token` keeps the clock and the tables, only appends to the log,
      and never calls the drive-info service. */
  lemma RefreshTokenEffects(w: World, id: nat, io: Remote)
    requires WellTyped(w.cache)
    ensures var w' := RefreshToken(w, id, io).0;
      && w'.now == w.now && w'.settings == w.settings && w'.accounts == w.accounts
      && Extends(w, w')
      && (forall i :: |w.log| <= i < |w'.log| ==> !w'.log[i].DriveInfo?)
  {
    RefreshTokenSteps(w, id, io);
    AllSettingsFrame(w, io.settingsReadFails);
    AccountsFrame(AllSettings(w, io.settingsReadFails).0);
  }

  // ---------------------------------------------------------------- quota

  /** The TTL `one_info` stores a quota map with: the `expires` setting as
      seen through the cache, converted to seconds. */
  function QuotaTtl(w: World, io: Remote): int
    requires WellTyped(w.cache)
  {
    io.ttlSeconds(Project(AllSettings(w, io.settingsReadFails).1, QuotaTtlSetting, "").item)
  }

  /** A closed gate short-circuits: the answer is `[]`, the world is the one
      the gate left, the quota entry is untouched and no drive-info call is made. */
  lemma OneInfoGateClosed(w: World, key: string, clientId: nat, io: Remote)
    requires WellTyped(w.cache) && RefreshToken(w, clientId, io).1 == Ok(false)
    ensures var (w', r) := OneInfo(w, key, clientId, io);
      && r == Ok(Unavailable)
      && w' == RefreshToken(w, clientId, io).0
      && Untouched(w.cache, w'.cache, QuotaKey(clientId))
      && (forall i :: |w.log| <= i < |w'.log| ==> !w'.log[i].DriveInfo?)
  {

  }

  /** When the gate fails (an expired token and no account with the id)
      `one_info` throws that error from the gate's world, before the quota
      entry is consulted. */
  lemma OneInfoGateError(w: World, key: string, clientId: nat, io: Remote)
    requires WellTyped(w.cache) && RefreshToken(w, clientId, io).1.Err?
    ensures OneInfo(w, key, clientId, io) == (RefreshToken(w, clientId, io).0, Err(NullAccount(clientId)))
  {
    RefreshTokenSteps(w, clientId, io);
  }

  /** With a live quota entry the cached map answers: no account lookup and
      no drive-info call. */
  lemma ReadQuotaHit(w: World, key: string, clientId: nat, io: Remote)
    requires WellTyped(w.cache) && Hit(w.cache, SettingKey, w.now)
    requires Hit(w.cache, QuotaKey(clientId), w.now)
    ensures ReadQuota(w, key, clientId, io)
         == (w, Ok(Available(Project(w.cache[QuotaKey(clientId)].value.quota, key, Text("")))))
  {
  }

  /** With a missed quota entry the account is looked up; if it exists the
      drive info is fetched once and its quota (normalised when `errno` is 0,
      `[]` otherwise) is stored with the `expires` TTL and answered. */
  lemma ReadQuotaMiss(w: World, key: string, clientId: nat, io: Remote)
    requires WellTyped(w.cache) && Hit(w.cache, SettingKey, w.now)
    requires !Hit(w.cache, QuotaKey(clientId), w.now)
    ensures var list := GetOnedriveAccounts(w).1;
      var q := if io.errno == 0 then Normalized(io.quota, io.convertSize) else map[];
      var ttl := io.ttlSeconds(Project(w.cache[SettingKey].value.settings, QuotaTtlSetting, "").item);
      var (w', r) := ReadQuota(w, key, clientId, io);
      && w'.now == w.now && w'.settings == w.settings && w'.accounts == w.accounts
      && (FindById(list, clientId).None? ==>
            && (w', r) == (GetOnedriveAccounts(w).0, Err(NullAccount(clientId)))
            && Untouched(w.cache, w'.cache, QuotaKey(clientId)))
      && (FindById(list, clientId).Some? ==>
            && w'.cache[QuotaKey(clientId)] == Entry(QuotaMap(q), w.now + ttl)
            && w'.log == GetOnedriveAccounts(w).0.log + [DriveInfo(clientId)]
            && r == Ok(Available(Project(q, key, Text("")))))
  {

  }

  /** `one_info` for one account never touches another account's quota entry. */
  lemma ReadQuotaOtherAccounts(w: World, key: string, clientId: nat, other: nat, io: Remote)
    requires WellTyped(w.cache) && other != clientId
    ensures Untouched(w.cache, ReadQuota(w, key, clientId, io).0.cache, QuotaKey(other))
  {
    QuotaKeyForeign(other);
    AllSettingsFrame(w, io.settingsReadFails);
    AccountsFrame(AllSettings(w, io.settingsReadFails).0);
    if QuotaKey(other) == QuotaKey(clientId) {
      QuotaKeyInjective(other, clientId);
    }
  }

  /** An open gate and a live quota entry: the cached map answers, and
      nothing beyond the gate's own reads happens. */
  lemma OneInfoHit(w: World, key: string, clientId: nat, io: Remote)
    requires WellTyped(w.cache) && RefreshToken(w, clientId, io).1 == Ok(true)
    requires Hit(w.cache, QuotaKey(clientId), w.now)
    ensures OneInfo(w, key, clientId, io)
         == (RefreshToken(w, clientId, io).0,
             Ok(Available(Project(w.cache[QuotaKey(clientId)].value.quota, key, Text("")))))
  {
    var w1 := RefreshToken(w, clientId, io).0;
    RefreshTokenKeepsLive(w, clientId, io);
    RefreshTokenEffects(w, clientId, io);
    RefreshTokenLeavesSettingsLive(w, clientId, io);
    ReadQuotaHit(w1, key, clientId, io);
  }

  /** An open gate and a missed quota entry: `ReadQuotaMiss` after the gate,
      with the TTL taken from the settings map the gate read. */
  lemma OneInfoMiss(w: World, key: string, clientId: nat, io: Remote)
    requires WellTyped(w.cache) && RefreshToken(w, clientId, io).1 == Ok(true)
    requires !Hit(w.cache, QuotaKey(clientId), w.now)
    ensures var list := GetOnedriveAccounts(RefreshToken(w, clientId, io).0).1;
      var q := if io.errno == 0 then Normalized(io.quota, io.convertSize) else map[];
      var (w', r) := OneInfo(w, key, clientId, io);
      && w'.now == w.now && w'.settings == w.settings && w'.accounts == w.accounts
      && (FindById(list, clientId).None? ==>
            && (w', r) == (GetOnedriveAccounts(RefreshToken(w, clientId, io).0).0, Err(NullAccount(clientId)))
            && Untouched(w.cache, w'.cache, QuotaKey(clientId)))
      && (FindById(list, clientId).Some? ==>
            && w'.cache[QuotaKey(clientId)] == Entry(QuotaMap(q), w.now + QuotaTtl(w, io))
            && w'.log == GetOnedriveAccounts(RefreshToken(w, clientId, io).0).0.log + [DriveInfo(clientId)]
            && r == Ok(Available(Project(q, key, Text("")))))
  {
    var w1 := RefreshToken(w, clientId, io).0;
    RefreshTokenEffects(w, clientId, io);
    RefreshTokenKeepsForeign(w, clientId, io);
    RefreshTokenLeavesSettingsLive(w, clientId, io);
    QuotaKeyForeign(clientId);
    assert OneInfo(w, key, clientId, io) == ReadQuota(w1, key, clientId, io);
    ReadQuotaMiss(w1, key, clientId, io);
  }

  /** A miss whose drive-info call fails stores `[]` under the account's
      quota key for the TTL the gate's settings give, at the same instant. */
  lemma OneInfoMissEmpty(w: World, key: string, clientId: nat, io: Remote)
    requires WellTyped(w.cache) && RefreshToken(w, clientId, io).1 == Ok(true)
    requires !Hit(w.cache, QuotaKey(clientId), w.now) && io.errno != 0
    requires FindById(GetOnedriveAccounts(RefreshToken(w, clientId, io).0).1, clientId).Some?
    ensures var w1 := OneInfo(w, key, clientId, io).0;
      && w1.now == w.now && QuotaKey(clientId) in w1.cache
      && w1.cache[QuotaKey(clientId)] == Entry(QuotaMap(map[]), w.now + QuotaTtl(w, io))
  {
    OneInfoMiss(w, key, clientId, io);
  }

  /** An empty quota entry stored now for `ttl` seconds answers every
      open-gate `one_info` for its account before the `ttl` seconds pass. */
  lemma CachedEmptyAnswers(w: World, key: string, clientId: nat, io: Remote, ttl: int, seconds: nat)
    requires WellTyped(w.cache) && QuotaKey(clientId) in w.cache
    requires w.cache[QuotaKey(clientId)] == Entry(QuotaMap(map[]), w.now + ttl) && seconds < ttl
    requires RefreshToken(Advance(w, seconds), clientId, io).1 == Ok(true)
    ensures var w2 := Advance(w, seconds);
      OneInfo(w2, key, clientId, io) == (RefreshToken(w2, clientId, io).0, Ok(Available(Project(map[], key, Text("")))))
  {
    var w2 := Advance(w, seconds);
    assert Hit(w2.cache, QuotaKey(clientId), w2.now) && w2.cache[QuotaKey(clientId)].value.quota == map[];
    OneInfoHit(w2, key, clientId, io);
  }

  /** A failed drive-info call caches `[]`, and within its TTL every open-gate
      `one_info` for that account answers from it without calling the
      service again, whatever the service would now say. */
  lemma OneInfoEmptyPersists(w: World, key: string, clientId: nat, io: Remote,
                             key2: string, io2: Remote, seconds: nat)
    requires WellTyped(w.cache) && RefreshToken(w, clientId, io).1 == Ok(true)
    requires !Hit(w.cache, QuotaKey(clientId), w.now) && io.errno != 0
    requires FindById(GetOnedriveAccounts(RefreshToken(w, clientId, io).0).1, clientId).Some?
    requires seconds < QuotaTtl(w, io)
    requires var w2 := Advance(OneInfo(w, key, clientId, io).0, seconds);
      RefreshToken(w2, clientId, io2).1 == Ok(true)
    ensures var w2 := Advance(OneInfo(w, key, clientId, io).0, seconds);
      OneInfo(w2, key2, clientId, io2) == (RefreshToken(w2, clientId, io2).0, Ok(Available(Project(map[], key2, Text("")))))
  {
    OneInfoMissEmpty(w, key, clientId, io);
    CachedEmptyAnswers(OneInfo(w, key, clientId, io).0, key2, clientId, io2, QuotaTtl(w, io), seconds);
  }

  /** `one_info` for one account never touches another account's quota entry. */
  lemma OneInfoOtherAccounts(w: World, key: string, clientId: nat, other: nat, io: Remote)
    requires WellTyped(w.cache) && other != clientId
    ensures Untouched(w.cache, OneInfo(w, key, clientId, io).0.cache, QuotaKey(other))
  {
    var w1 := RefreshToken(w, clientId, io).0;
    RefreshTokenKeepsForeign(w, clientId, io);
    QuotaKeyForeign(other);
    ReadQuotaOtherAccounts(w1, key, clientId, other, io);
  }
}
