/** The integration store of src/store/integrationStore.ts: integration
    configurations and the accounts attached to them. */
module Integration {
  import opened Maybe
  import opened Tables

  type Id = string
  type Time = int

  datatype IntegrationType = Analytics | Social | EmailIntegration | Storage | CalendarIntegration | Crm | DocumentIntegration
  datatype IntegrationStatus = Active | Error | ExpiredStatus | PendingStatus
  datatype AccountLink = Connected | Disconnected

  datatype Usage = Usage(requests: int, quota: int, resetDate: Time)

  datatype Credentials = Credentials(accessToken: string, refreshToken: Option<string>, expiresAt: Option<Time>, scopes: seq<string>)

  datatype ConfigMetadata = ConfigMetadata(lastSync: Option<Time>, errorMessage: Option<string>, usage: Option<Usage>)

  /** `IntegrationConfig`; its free-form `settings` record is not modelled. */
  datatype IntegrationConfig = IntegrationConfig(
    id: Id, kind: IntegrationType, provider: string, credentials: Credentials,
    status: IntegrationStatus, metadata: ConfigMetadata)

  datatype ConfigPatch = ConfigPatch(
    id: Option<Id>, kind: Option<IntegrationType>, provider: Option<string>,
    credentials: Option<Credentials>, status: Option<IntegrationStatus>, metadata: Option<ConfigMetadata>)

  /** `IntegrationAccount`; its free-form `metadata` record is not modelled. */
  datatype IntegrationAccount = IntegrationAccount(
    id: Id, integrationId: Id, name: string, kind: string, status: AccountLink, lastSync: Option<Time>)

  datatype AccountPatch = AccountPatch(
    id: Option<Id>, integrationId: Option<Id>, name: Option<string>, kind: Option<string>,
    status: Option<AccountLink>, lastSync: Option<Time>)

  function MergeConfig(c: IntegrationConfig, u: ConfigPatch): IntegrationConfig
  {
    IntegrationConfig(Or(u.id, c.id), Or(u.kind, c.kind), Or(u.provider, c.provider),
                      Or(u.credentials, c.credentials), Or(u.status, c.status), Or(u.metadata, c.metadata))
  }

  function MergeAccount(a: IntegrationAccount, u: AccountPatch): IntegrationAccount
  {
    IntegrationAccount(Or(u.id, a.id), Or(u.integrationId, a.integrationId), Or(u.name, a.name),
                       Or(u.kind, a.kind), Or(u.status, a.status), OrElse(u.lastSync, a.lastSync))
  }

  // ---------------------------------------------------------------------------
  // The initial state

  /** `new Date('2024-03-01')` and the other date literals of the initial state. */
  const March1st2024: Time := 1709251200000
  const April1st2024: Time := 1711929600000
  const June30th2024: Time := 1719705600000
  const December31st2024: Time := 1735603200000

  function InitialConfigurations(): seq<IntegrationConfig>
  {
    [ IntegrationConfig("1", Analytics, "Google Analytics",
        Credentials("sample-token", Some("sample-refresh"), Some(December31st2024), ["analytics.read"]),
        Active, ConfigMetadata(Some(March1st2024), None, Some(Usage(450, 1000, April1st2024)))),
      IntegrationConfig("2", Social, "Facebook",
        Credentials("sample-token", Some("sample-refresh"), Some(June30th2024), ["pages_read", "pages_manage_posts"]),
        Active, ConfigMetadata(Some(March1st2024), None, Some(Usage(250, 500, April1st2024)))) ]
  }

  function InitialAccounts(): seq<IntegrationAccount>
  {
    [ IntegrationAccount("1", "1", "Main Analytics Account", "analytics", Connected, Some(March1st2024)),
      IntegrationAccount("2", "2", "Company Facebook Page", "facebook_page", Connected, Some(March1st2024)) ]
  }

  // ---------------------------------------------------------------------------
  // Referential integrity

  function ConfigIds(configs: seq<IntegrationConfig>): set<Id>
  {
    set c | c in configs :: c.id
  }

  /** Every account's `integrationId` names a stored configuration. */
  predicate AccountsAttached(configs: seq<IntegrationConfig>, accounts: seq<IntegrationAccount>)
  {
    forall a | a in accounts :: a.integrationId in ConfigIds(configs)
  }

  /** The initial state is referentially intact. */
  lemma InitialStateAttached()
    ensures AccountsAttached(InitialConfigurations(), InitialAccounts())
  {
    var cs := InitialConfigurations();
    assert cs[0].id == "1" && cs[1].id == "2";
    assert cs[0] in cs && cs[1] in cs;
  }

  // ---------------------------------------------------------------------------
  // Table transitions

  /** `updateConfiguration`'s new table. */
  function ConfigsUpdated(configs: seq<IntegrationConfig>, id: Id, u: ConfigPatch): (r: seq<IntegrationConfig>)
    ensures |r| == |configs|
    ensures forall i :: 0 <= i < |configs| && configs[i].id == id ==> r[i] == MergeConfig(configs[i], u)
    ensures forall i :: 0 <= i < |configs| && configs[i].id != id ==> r[i] == configs[i]
  {
    MapIf(configs, (c: IntegrationConfig) => c.id == id, (c: IntegrationConfig) => MergeConfig(c, u))
  }

  /** The configurations without this id, in order. */
  function ConfigsWithout(configs: seq<IntegrationConfig>, id: Id): (r: seq<IntegrationConfig>)
    ensures forall c | c in r :: c in configs && c.id != id
    ensures forall c | c in configs && c.id != id :: c in r
  {
    Filter(configs, (c: IntegrationConfig) => c.id != id)
  }

  /** The accounts not attached to this configuration, in order. */
  function AccountsNotOf(accounts: seq<IntegrationAccount>, configId: Id): (r: seq<IntegrationAccount>)
    ensures forall a | a in r :: a in accounts && a.integrationId != configId
    ensures forall a | a in accounts && a.integrationId != configId :: a in r
  {
    Filter(accounts, (a: IntegrationAccount) => a.integrationId != configId)
  }

  /** `updateAccount`'s new table. */
  function AccountsUpdated(accounts: seq<IntegrationAccount>, id: Id, u: AccountPatch): (r: seq<IntegrationAccount>)
    ensures |r| == |accounts|
    ensures forall i :: 0 <= i < |accounts| && accounts[i].id == id ==> r[i] == MergeAccount(accounts[i], u)
    ensures forall i :: 0 <= i < |accounts| && accounts[i].id != id ==> r[i] == accounts[i]
  {
    MapIf(accounts, (a: IntegrationAccount) => a.id == id, (a: IntegrationAccount) => MergeAccount(a, u))
  }

  /** The accounts without this id, in order. */
  function AccountsWithout(accounts: seq<IntegrationAccount>, id: Id): (r: seq<IntegrationAccount>)
    ensures forall a | a in r :: a in accounts && a.id != id
    ensures forall a | a in accounts && a.id != id :: a in r
  {
    Filter(accounts, (a: IntegrationAccount) => a.id != id)
  }

  /** One configuration after `updateIntegrationStatus`: the new status, the given
      error message (none clears it), `lastSync` refreshed to `now` only when the new
      status is active, and everything else kept. */
  function WithStatus(c: IntegrationConfig, status: IntegrationStatus, error: Option<string>, now: Time): (r: IntegrationConfig)
    ensures r.status == status && r.metadata.errorMessage == error
    ensures r.metadata.lastSync == if status == Active then Some(now) else c.metadata.lastSync
    ensures r.metadata.usage == c.metadata.usage
    ensures r.(status := c.status, metadata := c.metadata) == c
  {
    c.(status := status,
       metadata := c.metadata.(errorMessage := error,
                               lastSync := if status == Active then Some(now) else c.metadata.lastSync))
  }

  /** `updateIntegrationStatus`'s new table. */
  function StatusUpdated(configs: seq<IntegrationConfig>, id: Id, status: IntegrationStatus, error: Option<string>, now: Time): (r: seq<IntegrationConfig>)
    ensures |r| == |configs|
    ensures forall i :: 0 <= i < |configs| && configs[i].id == id ==> r[i] == WithStatus(configs[i], status, error, now)
    ensures forall i :: 0 <= i < |configs| && configs[i].id != id ==> r[i] == configs[i]
  {
    MapIf(configs, (c: IntegrationConfig) => c.id == id, (c: IntegrationConfig) => WithStatus(c, status, error, now))
  }

  /** Setting a status keeps the configuration ids, so accounts stay attached. */
  lemma StatusUpdateKeepsAttached(configs: seq<IntegrationConfig>, accounts: seq<IntegrationAccount>, id: Id,
                                  status: IntegrationStatus, error: Option<string>, now: Time)
    requires AccountsAttached(configs, accounts)
    ensures AccountsAttached(StatusUpdated(configs, id, status, error, now), accounts)
  {
    var r := StatusUpdated(configs, id, status, error, now);
    forall a | a in accounts ensures a.integrationId in ConfigIds(r) {
      var i :| 0 <= i < |configs| && configs[i].id == a.integrationId;
      assert r[i].id == configs[i].id && r[i] in r;
    }
  }

  /** The `removeConfiguration` cascade keeps every remaining account attached. */
  lemma RemoveConfigurationKeepsAttached(configs: seq<IntegrationConfig>, accounts: seq<IntegrationAccount>, id: Id)
    requires AccountsAttached(configs, accounts)
    ensures AccountsAttached(ConfigsWithout(configs, id), AccountsNotOf(accounts, id))
  {
    var kept := ConfigsWithout(configs, id);
    forall a | a in AccountsNotOf(accounts, id) ensures a.integrationId in ConfigIds(kept) {
      var c :| c in configs && c.id == a.integrationId;
      assert c in kept;
    }
  }

  /** Removing an account keeps every remaining account attached. */
  lemma RemoveAccountKeepsAttached(configs: seq<IntegrationConfig>, accounts: seq<IntegrationAccount>, id: Id)
    requires AccountsAttached(configs, accounts)
    ensures AccountsAttached(configs, AccountsWithout(accounts, id))
  {
  }

  // ---------------------------------------------------------------------------
  // The store

  class IntegrationStore {
    var configurations: seq<IntegrationConfig>
    var accounts: seq<IntegrationAccount>

    /** The store's initial state: two configurations, each with one account. */
    constructor ()
      ensures configurations == InitialConfigurations() && accounts == InitialAccounts()
      ensures AccountsAttached(configurations, accounts)
    {
      configurations := InitialConfigurations();
      accounts := InitialAccounts();
      InitialStateAttached();
    }

    /** `addConfiguration`: appends; accounts stay attached. */
    method AddConfiguration(config: IntegrationConfig)
      modifies this
      ensures configurations == old(configurations) + [config] && accounts == old(accounts)
      ensures old(AccountsAttached(configurations, accounts)) ==> AccountsAttached(configurations, accounts)
    {
      configurations := configurations + [config];
    }

    /** `updateConfiguration`: merges exactly the configurations with the id. */
    method UpdateConfiguration(configId: Id, updates: ConfigPatch)
      modifies this
      ensures configurations == ConfigsUpdated(old(configurations), configId, updates) && accounts == old(accounts)
    {
      configurations := ConfigsUpdated(configurations, configId, updates);
    }

    /** `removeConfiguration`: removes the configuration and every account attached to it. */
    method RemoveConfiguration(configId: Id)
      modifies this
      ensures configurations == ConfigsWithout(old(configurations), configId)
      ensures accounts == AccountsNotOf(old(accounts), configId)
      ensures old(AccountsAttached(configurations, accounts)) ==> AccountsAttached(configurations, accounts)
    {
      if AccountsAttached(configurations, accounts) {
        RemoveConfigurationKeepsAttached(configurations, accounts, configId);
      }
      configurations := ConfigsWithout(configurations, configId);
      accounts := AccountsNotOf(accounts, configId);
    }

    /** `addAccount`: appends. */
    method AddAccount(account: IntegrationAccount)
      modifies this
      ensures accounts == old(accounts) + [account] && configurations == old(configurations)
    {
      accounts := accounts + [account];
    }

    /** `updateAccount`: merges exactly the accounts with the id. */
    method UpdateAccount(accountId: Id, updates: AccountPatch)
      modifies this
      ensures accounts == AccountsUpdated(old(accounts), accountId, updates) && configurations == old(configurations)
    {
      accounts := AccountsUpdated(accounts, accountId, updates);
    }

    /** `removeAccount`: removes the accounts with the id; the rest stay attached. */
    method RemoveAccount(accountId: Id)
      modifies this
      ensures accounts == AccountsWithout(old(accounts), accountId) && configurations == old(configurations)
      ensures old(AccountsAttached(configurations, accounts)) ==> AccountsAttached(configurations, accounts)
    {
      accounts := AccountsWithout(accounts, accountId);
    }

    /** `updateIntegrationStatus`: sets status, error message and (when active) the
        sync time on exactly the configurations with the id. */
    method UpdateIntegrationStatus(configId: Id, status: IntegrationStatus, error: Option<string>, now: Time)
      modifies this
      ensures configurations == StatusUpdated(old(configurations), configId, status, error, now)
      ensures accounts == old(accounts)
      ensures old(AccountsAttached(configurations, accounts)) ==> AccountsAttached(configurations, accounts)
    {
      if AccountsAttached(configurations, accounts) {
        StatusUpdateKeepsAttached(configurations, accounts, configId, status, error, now);
      }
      configurations := StatusUpdated(configurations, configId, status, error, now);
    }
  }
}
