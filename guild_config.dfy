/** Per-guild settings: stored fields overlay a fixed set of defaults, an old
    default AFK timeout is migrated on read, and the DJ permission rule. */
module GuildConfig {
  import opened Wrappers

  type GuildId = string

  /** The JSON values a setting can hold (floating point numbers as reals). */
  datatype Value = Null | Bool(b: bool) | Num(n: real) | Str(s: string)

  /** JavaScript truthiness of a setting; NaN is not modelled. */
  predicate Truthy(v: Value) {
    match v
    case Null => false
    case Bool(b) => b
    case Num(n) => n != 0.0
    case Str(s) => s != ""
  }

  /** A configuration object: field name to value. `{ ...a, ...b }` is `a + b`. */
  type Config = map<string, Value>

  const AFK_TIMEOUT: string := "afkTimeout"
  const DJ_ROLE_ID: string := "djRoleId"
  const AUTOPLAY: string := "autoplay"

  /** 2.5 minutes, and the 5 minutes it replaced. */
  const DEFAULT_AFK_TIMEOUT: real := 150000.0
  const OLD_DEFAULT_AFK_TIMEOUT: real := 300000.0

  const DEFAULT_CONFIG: Config := map[
    "preferredSource" := Null,
    DJ_ROLE_ID := Null,
    "maxVolume" := Num(100.0),
    "voteSkipPercent" := Num(0.6),
    "stayInChannel" := Bool(false),
    AFK_TIMEOUT := Num(DEFAULT_AFK_TIMEOUT),
    "persistentQueue" := Bool(true),
    "twentyFourSevenChannelId" := Null,
    "defaultVolume" := Num(60.0),
    "announceTracks" := Bool(true),
    "crossfadeSeconds" := Num(0.0),
    "normalizeAudio" := Bool(false),
    AUTOPLAY := Bool(false),
    "announceChannelId" := Null
  ]

  lemma DefaultFacts()
    ensures AFK_TIMEOUT in DEFAULT_CONFIG && DEFAULT_CONFIG[AFK_TIMEOUT] == Num(DEFAULT_AFK_TIMEOUT)
    ensures DJ_ROLE_ID in DEFAULT_CONFIG && DEFAULT_CONFIG[DJ_ROLE_ID] == Null
    ensures AUTOPLAY in DEFAULT_CONFIG && DEFAULT_CONFIG[AUTOPLAY] == Bool(false)
  {
  }

  /** `configStore.get(guildId, {})`. */
  function StoredOf(store: map<GuildId, Config>, g: GuildId): Config {
    if g in store then store[g] else map[]
  }

  /** Whether a stored record still needs the AFK migration: the field is
      missing or holds the old default. */
  predicate NeedsMigration(stored: Config) {
    AFK_TIMEOUT !in stored || stored[AFK_TIMEOUT] == Num(OLD_DEFAULT_AFK_TIMEOUT)
  }

  /** What `getConfig(guildId)` returns: the defaults overlaid by the stored
      fields, with the old default AFK timeout read as the new one. */
  function ConfigOf(store: map<GuildId, Config>, g: GuildId): (c: Config)
    ensures g == "" ==> c == DEFAULT_CONFIG
    ensures c.Keys == DEFAULT_CONFIG.Keys + StoredOf(store, g).Keys || g == ""
    ensures g != "" ==> forall k :: k in StoredOf(store, g) && k != AFK_TIMEOUT ==> c[k] == StoredOf(store, g)[k]
    ensures g != "" ==> forall k :: k in DEFAULT_CONFIG && k !in StoredOf(store, g) ==> c[k] == DEFAULT_CONFIG[k]
    ensures AFK_TIMEOUT in c && c[AFK_TIMEOUT] != Num(OLD_DEFAULT_AFK_TIMEOUT)
    ensures g != "" && !NeedsMigration(StoredOf(store, g)) ==> c[AFK_TIMEOUT] == StoredOf(store, g)[AFK_TIMEOUT]
    ensures g != "" && NeedsMigration(StoredOf(store, g)) ==> c[AFK_TIMEOUT] == Num(DEFAULT_AFK_TIMEOUT)
  {
    DefaultFacts();
    if g == "" then DEFAULT_CONFIG
    else
      var stored := StoredOf(store, g);
      var merged := DEFAULT_CONFIG + stored;
      if AFK_TIMEOUT in stored && stored[AFK_TIMEOUT] == Num(OLD_DEFAULT_AFK_TIMEOUT) then
        merged[AFK_TIMEOUT := DEFAULT_CONFIG[AFK_TIMEOUT]]
      else merged
  }

  /** The store after `getConfig(guildId)`: a record that needs the migration
      is written back with the AFK timeout it was read with. */
  function StoreAfterGet(store: map<GuildId, Config>, g: GuildId): (after: map<GuildId, Config>)
    ensures g == "" || !NeedsMigration(StoredOf(store, g)) ==> after == store
    ensures g != "" && NeedsMigration(StoredOf(store, g)) ==>
              after == store[g := StoredOf(store, g)[AFK_TIMEOUT := Num(DEFAULT_AFK_TIMEOUT)]]
  {
    DefaultFacts();
    if g == "" then store
    else
      var stored := StoredOf(store, g);
      if NeedsMigration(stored) then store[g := stored[AFK_TIMEOUT := ConfigOf(store, g)[AFK_TIMEOUT]]]
      else store
  }

  /** Overlaying a record with one field replaced is replacing that field of the overlay. */
  lemma OverlayUpdate(base: Config, over: Config, k: string, v: Value)
    ensures base + over[k := v] == (base + over)[k := v]
  {
    var a := base + over[k := v];
    var b := (base + over)[k := v];
    assert a.Keys == b.Keys;
  }

  /** Writing a field that only the base had, with the base's value, changes no overlay. */
  lemma OverlayWithBaseValue(base: Config, over: Config, k: string)
    requires k in base && k !in over
    ensures base + over[k := base[k]] == base + over
  {
    OverlayUpdate(base, over, k, base[k]);
    var m := base + over;
    assert m[k := base[k]] == m;
  }

  /** A record with every field of the base hides the base entirely. */
  lemma OverlayCovering(base: Config, over: Config)
    requires over.Keys >= base.Keys
    ensures base + over == over
  {
    var m := base + over;
    assert m.Keys == over.Keys;
  }

  /** A migrated record needs no further migration. */
  lemma StoreAfterGetIdempotent(store: map<GuildId, Config>, g: GuildId)
    ensures StoreAfterGet(StoreAfterGet(store, g), g) == StoreAfterGet(store, g)
  {
    var after := StoreAfterGet(store, g);
    if g != "" && NeedsMigration(StoredOf(store, g)) {
      var fixed := StoredOf(store, g)[AFK_TIMEOUT := Num(DEFAULT_AFK_TIMEOUT)];
      assert StoredOf(after, g) == fixed;
      assert !NeedsMigration(fixed);
    }
  }

  /** The migrated record reads as the record did before it was written back. */
  lemma ConfigOfAfterGet(store: map<GuildId, Config>, g: GuildId)
    ensures ConfigOf(StoreAfterGet(store, g), g) == ConfigOf(store, g)
  {
    var after := StoreAfterGet(store, g);
    if g != "" && NeedsMigration(StoredOf(store, g)) {
      DefaultFacts();
      var stored := StoredOf(store, g);
      var fixed := stored[AFK_TIMEOUT := Num(DEFAULT_AFK_TIMEOUT)];
      assert StoredOf(after, g) == fixed;
      assert ConfigOf(after, g) == DEFAULT_CONFIG + fixed;
      OverlayUpdate(DEFAULT_CONFIG, stored, AFK_TIMEOUT, Num(DEFAULT_AFK_TIMEOUT));
      if AFK_TIMEOUT !in stored {
        OverlayWithBaseValue(DEFAULT_CONFIG, stored, AFK_TIMEOUT);
      }
    }
  }

  /** Reading touches only the guild that was read. */
  lemma GetConfigFramed(store: map<GuildId, Config>, g: GuildId, h: GuildId)
    requires h != g
    ensures StoredOf(StoreAfterGet(store, g), h) == StoredOf(store, h)
  {
  }

  /** After `deleteConfig`, the guild reads as the defaults. */
  lemma DeleteThenDefaults(store: map<GuildId, Config>, g: GuildId)
    ensures ConfigOf(store - {g}, g) == DEFAULT_CONFIG
  {
    DefaultFacts();
    assert StoredOf(store - {g}, g) == map[];
    assert DEFAULT_CONFIG + map[] == DEFAULT_CONFIG;
  }

  /** The record `setConfig(guildId, partial)` writes and returns: the
      current configuration overlaid by the partial one. */
  function Updated(store: map<GuildId, Config>, g: GuildId, partial: Config): (u: Config)
    ensures u.Keys >= DEFAULT_CONFIG.Keys
    ensures forall k :: k in partial ==> k in u && u[k] == partial[k]
    ensures forall k :: k in ConfigOf(store, g) && k !in partial ==> k in u && u[k] == ConfigOf(store, g)[k]
  {
    ConfigOf(store, g) + partial
  }

  /** What is read back after a write: the written record, except that an AFK
      timeout of exactly five minutes is migrated to two and a half. */
  lemma SetThenGet(store: map<GuildId, Config>, g: GuildId, partial: Config)
    requires g != ""
    ensures var u := Updated(store, g, partial);
            && (u[AFK_TIMEOUT] != Num(OLD_DEFAULT_AFK_TIMEOUT) ==> ConfigOf(store[g := u], g) == u)
            && (u[AFK_TIMEOUT] == Num(OLD_DEFAULT_AFK_TIMEOUT) ==>
                  ConfigOf(store[g := u], g) == u[AFK_TIMEOUT := Num(DEFAULT_AFK_TIMEOUT)])
  {
    DefaultFacts();
    var u := Updated(store, g, partial);
    assert StoredOf(store[g := u], g) == u;
    OverlayCovering(DEFAULT_CONFIG, u);
  }

  /** `/config afk_timeout:5` stores 300000 ms, and every later read gives
      150000 ms: the migration cannot tell a chosen five minutes from the old
      default. */
  lemma FiveMinuteTimeoutReadsAsDefault(store: map<GuildId, Config>, g: GuildId)
    requires g != ""
    ensures var u := Updated(store, g, map[AFK_TIMEOUT := Num(5.0 * 60.0 * 1000.0)]);
            ConfigOf(store[g := u], g)[AFK_TIMEOUT] == Num(DEFAULT_AFK_TIMEOUT)
  {
    SetThenGet(store, g, map[AFK_TIMEOUT := Num(5.0 * 60.0 * 1000.0)]);
  }

  /** `listConfigs()`: every stored guild overlaid on the defaults, without
      the AFK migration. */
  function ListConfigs(store: map<GuildId, Config>): (list: map<GuildId, Config>)
    ensures list.Keys == store.Keys
    ensures forall g :: g in list ==> list[g] == DEFAULT_CONFIG + store[g]
  {
    map g | g in store :: DEFAULT_CONFIG + store[g]
  }

  /** A listed record is what `getConfig` reads, unless it still holds the old
      default AFK timeout. */
  lemma ListedAsRead(store: map<GuildId, Config>, g: GuildId)
    requires g in store && g != ""
    requires AFK_TIMEOUT !in store[g] || store[g][AFK_TIMEOUT] != Num(OLD_DEFAULT_AFK_TIMEOUT)
    ensures ListConfigs(store)[g] == ConfigOf(store, g)
  {
  }

  datatype Permission = Administrator | ManageGuild | MuteMembers | OtherPermission(name: string)

  /** A guild member: their permissions and the ids of their roles. */
  datatype Member = Member(permissions: set<Permission>, roles: set<string>)

  /** `guildConfig.djRoleId && member.roles.cache.has(guildConfig.djRoleId)`:
      role ids are strings, so only a non-empty string id can be held. */
  predicate HoldsDjRole(m: Member, config: Config) {
    var dj := if DJ_ROLE_ID in config then config[DJ_ROLE_ID] else Null;
    Truthy(dj) && dj.Str? && dj.s in m.roles
  }

  /** `hasDJPermissions(member, guildConfig)`. */
  function HasDJPermissions(member: Option<Member>, config: Config): (ok: bool)
    ensures ok <==> member.Some? && (Administrator in member.value.permissions
                                     || HoldsDjRole(member.value, config)
                                     || ManageGuild in member.value.permissions
                                     || MuteMembers in member.value.permissions)
  {
    match member
    case None => false
    case Some(m) =>
      if Administrator in m.permissions then true
      else if HoldsDjRole(m, config) then true
      else if ManageGuild in m.permissions || MuteMembers in m.permissions then true
      else false
  }

  /** With the default configuration no role makes a member a DJ: only the
      three permissions do. */
  lemma DefaultConfigNeedsPermission(m: Member)
    ensures HasDJPermissions(Some(m), DEFAULT_CONFIG) <==>
              Administrator in m.permissions || ManageGuild in m.permissions || MuteMembers in m.permissions
  {
    DefaultFacts();
  }

  /** Holding the configured DJ role is enough, whatever the permissions. */
  lemma DjRoleSuffices(m: Member, config: Config, role: string)
    requires DJ_ROLE_ID in config && config[DJ_ROLE_ID] == Str(role) && role != "" && role in m.roles
    ensures HasDJPermissions(Some(m), config)
  {
  }

  const DJ_REQUIRED_ERROR: string := "This command requires the DJ role or Manage Guild permission."

  /** `assertDJ(interaction, guildConfig)`: the thrown `CommandError` is `Err`. */
  function AssertDJ(member: Option<Member>, config: Config): (r: Result<(), string>)
    ensures r.Err? <==> !HasDJPermissions(member, config)
    ensures r.Err? ==> r.error == DJ_REQUIRED_ERROR
  {
    if HasDJPermissions(member, config) then Ok(()) else Err(DJ_REQUIRED_ERROR)
  }

  /** The `configStore` file store, held in memory. */
  class ConfigStore {
    var store: map<GuildId, Config>

    constructor (initial: map<GuildId, Config>)
      ensures store == initial
    {
      store := initial;
    }

    /** `getConfig(guildId)`. */
    method GetConfig(g: GuildId) returns (c: Config)
      modifies this
      ensures c == ConfigOf(old(store), g)
      ensures store == StoreAfterGet(old(store), g)
    {
      if g == "" {
        return DEFAULT_CONFIG;
      }
      var stored := if g in store then store[g] else map[];
      var merged := DEFAULT_CONFIG + stored;
      var shouldPersist := false;
      if AFK_TIMEOUT !in stored {
        shouldPersist := true;
      } else if stored[AFK_TIMEOUT] == Num(OLD_DEFAULT_AFK_TIMEOUT) {
        merged := merged[AFK_TIMEOUT := DEFAULT_CONFIG[AFK_TIMEOUT]];
        shouldPersist := true;
      }
      DefaultFacts();
      if shouldPersist {
        store := store[g := stored[AFK_TIMEOUT := merged[AFK_TIMEOUT]]];
      }
      c := merged;
    }

    /** `setConfig(guildId, partial)`; `None` is the `undefined` returned for an
        empty guild id, which changes nothing. */
    method SetConfig(g: GuildId, partial: Config) returns (r: Option<Config>)
      modifies this
      ensures g == "" ==> r == None && store == old(store)
      ensures g != "" ==> (r == Some(Updated(old(store), g, partial))
                           && store == old(store)[g := Updated(old(store), g, partial)])
    {
      if g == "" {
        return None;
      }
      var current := GetConfig(g);
      var updated := current + partial;
      store := store[g := updated];
      r := Some(updated);
    }

    /** `deleteConfig(guildId)`. */
    method DeleteConfig(g: GuildId)
      modifies this
      ensures store == old(store) - {g}
    {
      store := store - {g};
    }

    /** `listConfigs()` over the current store. */
    function List(): (list: map<GuildId, Config>)
      reads this
      ensures list.Keys == store.Keys
    {
      ListConfigs(store)
    }
  }
}
