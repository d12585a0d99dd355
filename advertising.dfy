/** The advertising store of src/store/advertisingStore.ts: the advertising
    accounts linked to clients, their simulated verification, and the selected
    account. */
module Advertising {
  import opened Maybe
  import opened Tables
  import opened AdvertisingSchema

  type Id = string
  type Time = int

  datatype AccountStatus = Active | Inactive | Pending | ErrorStatus

  datatype AccountMetadata = AccountMetadata(
    lastVerified: Option<Time>, errorMessage: Option<string>, spendLimit: Option<real>)

  datatype AdvertisingAccount = AdvertisingAccount(
    id: Id, clientId: Id, platform: Platform, name: string, accountId: string,
    status: AccountStatus, credentials: Credentials, settings: Settings, metadata: AccountMetadata)

  datatype AccountPatch = AccountPatch(
    id: Option<Id>, clientId: Option<Id>, platform: Option<Platform>, name: Option<string>,
    accountId: Option<string>, status: Option<AccountStatus>, credentials: Option<Credentials>,
    settings: Option<Settings>, metadata: Option<AccountMetadata>)

  function MergeAccount(a: AdvertisingAccount, u: AccountPatch): AdvertisingAccount
  {
    AdvertisingAccount(Or(u.id, a.id), Or(u.clientId, a.clientId), Or(u.platform, a.platform),
                       Or(u.name, a.name), Or(u.accountId, a.accountId), Or(u.status, a.status),
                       Or(u.credentials, a.credentials), Or(u.settings, a.settings),
                       Or(u.metadata, a.metadata))
  }

  /** The message a failed verification leaves on the account. */
  const VerificationFailure := "Failed to verify account credentials"

  /** A verification succeeds when the random draw exceeds one tenth. */
  const FailureThreshold: real := 0.1

  // ---------------------------------------------------------------------------
  // Table transitions

  function AccountsUpdated(accounts: seq<AdvertisingAccount>, id: Id, u: AccountPatch): (r: seq<AdvertisingAccount>)
    ensures |r| == |accounts|
    ensures forall i :: 0 <= i < |accounts| && accounts[i].id == id ==> r[i] == MergeAccount(accounts[i], u)
    ensures forall i :: 0 <= i < |accounts| && accounts[i].id != id ==> r[i] == accounts[i]
  {
    MapIf(accounts, (a: AdvertisingAccount) => a.id == id, (a: AdvertisingAccount) => MergeAccount(a, u))
  }

  function AccountsWithout(accounts: seq<AdvertisingAccount>, id: Id): (r: seq<AdvertisingAccount>)
    ensures forall a | a in r :: a in accounts && a.id != id
    ensures forall a | a in accounts && a.id != id :: a in r
  {
    Filter(accounts, (a: AdvertisingAccount) => a.id != id)
  }

  /** One account after a verification with the given outcome at time `now`. */
  function Verified(a: AdvertisingAccount, success: bool, now: Time): (r: AdvertisingAccount)
    ensures r.status == if success then Active else ErrorStatus
    ensures r.metadata.errorMessage == if success then None else Some(VerificationFailure)
    ensures r.metadata.lastVerified == Some(now)
    ensures r.metadata.spendLimit == a.metadata.spendLimit
    ensures r.(status := a.status, metadata := a.metadata) == a
  {
    a.(status := if success then Active else ErrorStatus,
       metadata := a.metadata.(lastVerified := Some(now),
                               errorMessage := if success then None else Some(VerificationFailure)))
  }

  function AccountsVerified(accounts: seq<AdvertisingAccount>, id: Id, success: bool, now: Time): (r: seq<AdvertisingAccount>)
    ensures |r| == |accounts|
    ensures forall i :: 0 <= i < |accounts| && accounts[i].id == id ==> r[i] == Verified(accounts[i], success, now)
    ensures forall i :: 0 <= i < |accounts| && accounts[i].id != id ==> r[i] == accounts[i]
  {
    MapIf(accounts, (a: AdvertisingAccount) => a.id == id, (a: AdvertisingAccount) => Verified(a, success, now))
  }

  /** The client an account form is filed under: the given client when it is
      present and not empty, else `"global"`. */
  function OwningClient(clientId: Option<Id>): (r: Id)
    ensures clientId.Some? && clientId.value != "" ==> r == clientId.value
    ensures clientId.None? || clientId.value == "" ==> r == "global"
  {
    if clientId.Some? && clientId.value != "" then clientId.value else "global"
  }

  /** The account the account modal adds for an accepted form: pending, never
      verified, with no error and no spend limit. */
  function AccountFromForm(f: AccountForm, clientId: Option<Id>, newId: Id): (r: AdvertisingAccount)
    ensures r.id == newId && r.clientId == OwningClient(clientId)
    ensures r.platform == f.platform && r.name == f.name && r.accountId == f.accountId
    ensures r.credentials == f.credentials && r.settings == f.settings
    ensures r.status == Pending && r.metadata == AccountMetadata(None, None, None)
  {
    AdvertisingAccount(newId, OwningClient(clientId), f.platform, f.name, f.accountId, Pending,
                       f.credentials, f.settings, AccountMetadata(None, None, None))
  }

  // ---------------------------------------------------------------------------
  // Properties

  /** A later verification overrides an earlier one completely: only the last
      outcome and time show. */
  lemma {:induction false} LastVerificationWins(accounts: seq<AdvertisingAccount>, id: Id, s1: bool, t1: Time, s2: bool, t2: Time)
    ensures AccountsVerified(AccountsVerified(accounts, id, s1, t1), id, s2, t2) == AccountsVerified(accounts, id, s2, t2)
  {
    var once := AccountsVerified(accounts, id, s1, t1);
    var twice := AccountsVerified(once, id, s2, t2);
    var direct := AccountsVerified(accounts, id, s2, t2);
    forall i | 0 <= i < |accounts| ensures twice[i] == direct[i] {
      if accounts[i].id == id {
        assert once[i].id == id;
      }
    }
  }

  /** Verification never adds, drops or reorders accounts, and keeps every id. */
  lemma VerifyKeepsIds(accounts: seq<AdvertisingAccount>, id: Id, success: bool, now: Time)
    ensures forall i :: 0 <= i < |accounts| ==> AccountsVerified(accounts, id, success, now)[i].id == accounts[i].id
  {
  }

  // ---------------------------------------------------------------------------
  // The store

  class AdvertisingStore {
    var accounts: seq<AdvertisingAccount>
    var selectedAccountId: Option<Id>

    constructor ()
      ensures accounts == [] && selectedAccountId.None?
    {
      accounts, selectedAccountId := [], None;
    }

    /** `addAccount`: appends. */
    method AddAccount(account: AdvertisingAccount)
      modifies this
      ensures accounts == old(accounts) + [account]
      ensures selectedAccountId == old(selectedAccountId)
    {
      accounts := accounts + [account];
    }

    /** `updateAccount`: merges the matching accounts only. */
    method UpdateAccount(accountId: Id, updates: AccountPatch)
      modifies this
      ensures accounts == AccountsUpdated(old(accounts), accountId, updates)
      ensures selectedAccountId == old(selectedAccountId)
    {
      accounts := AccountsUpdated(accounts, accountId, updates);
    }

    /** `removeAccount`: removes the matching accounts only, keeping the order. */
    method RemoveAccount(accountId: Id)
      modifies this
      ensures accounts == AccountsWithout(old(accounts), accountId)
      ensures selectedAccountId == old(selectedAccountId)
    {
      accounts := AccountsWithout(accounts, accountId);
    }

    /** `verifyAccount`: `roll` is the `Math.random()` draw and `now` the clock.
        The outcome is decided once, applied to the matching accounts, and
        returned, even when no account has the id. */
    method VerifyAccount(accountId: Id, roll: real, now: Time) returns (success: bool)
      modifies this
      ensures success <==> roll > FailureThreshold
      ensures accounts == AccountsVerified(old(accounts), accountId, success, now)
      ensures forall a | a in old(accounts) && a.id == accountId :: Verified(a, success, now) in accounts
      ensures selectedAccountId == old(selectedAccountId)
    {
      success := roll > FailureThreshold;
      accounts := AccountsVerified(accounts, accountId, success, now);
      forall a | a in old(accounts) && a.id == accountId ensures Verified(a, success, now) in accounts {
        var k :| 0 <= k < |old(accounts)| && old(accounts)[k] == a;
        assert accounts[k] == Verified(a, success, now);
      }
    }

    /** The submit handler of the account modal: validates the form value and,
        when the schema accepts it, adds the account built from it; when the
        schema rejects it, adds nothing. Reports whether an account was added. */
    method SubmitAccountForm(form: Value, clientId: Option<Id>, newId: Id) returns (added: bool)
      modifies this
      ensures added <==> ValidAccount(form)
      ensures added ==> accounts == old(accounts) + [AccountFromForm(Parse(form).value, clientId, newId)]
      ensures !added ==> accounts == old(accounts)
      ensures selectedAccountId == old(selectedAccountId)
    {
      var parsed := Parse(form);
      if parsed.None? {
        return false;
      }
      AddAccount(AccountFromForm(parsed.value, clientId, newId));
      added := true;
    }

    /** `setSelectedAccount`: changes the selection only. */
    method SetSelectedAccount(accountId: Option<Id>)
      modifies this
      ensures selectedAccountId == accountId && accounts == old(accounts)
    {
      selectedAccountId := accountId;
    }
  }
}
