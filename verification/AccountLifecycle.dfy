/** Accounts from consent to removal: what the daemon keeps in memory, in its database and in the
    keychain, and what it makes of the last two when it starts again. */
module AccountLifecycle {
  import opened Prelude
  import opened Policies

  type ChallengeId = int

  datatype Row = Row(title: string, email: string)

  /** A registered provider: the address it serves and the refresh token its client holds. */
  datatype Provider = Provider(email: string, refresh: string)

  /** What the task behind a challenge comes to: it fails, or brings tokens and an address. */
  datatype Consent = NoConsent | Consented(email: string, refresh: Option<string>)

  datatype Event =
    | Began(challenge: ChallengeId)
    | Consumed(challenge: ChallengeId)
    | Registered(id: AccountId)
    | AccountAdded(id: AccountId)
    | AccountRemoved(id: AccountId)

  datatype Daemon = Daemon(
    rows: map<AccountId, Row>,
    table: PolicyTable,
    secrets: map<AccountId, string>,
    registry: map<AccountId, Provider>,
    challenges: set<ChallengeId>,
    log: seq<Event>)

  const EMPTY := Daemon(map[], map[], map[], map[], {}, [])

  function AddOAuth(d: Daemon, provider: string, begins: bool, c: ChallengeId): Daemon {
    if provider != "gmail" || !begins then d
    else d.(challenges := d.challenges + {c}, log := d.log + [Began(c)])
  }

  function CancelOAuth(d: Daemon, c: ChallengeId): Daemon {
    if c in d.challenges then d.(challenges := d.challenges - {c}, log := d.log + [Consumed(c)]) else d
  }

  /** `id` is the fresh id of the new row; the database may refuse the row, or take only so many of the
      policy upserts, the keychain may refuse the token, and the row may not be read back once the provider
      is registered. Whatever was done before a failure stays. */
  function CompleteOAuth(d: Daemon, c: ChallengeId, title: string, consent: Consent,
                         id: AccountId, rowOk: bool, upserts: nat, keychainOk: bool, readOk: bool): Daemon
  {
    if c !in d.challenges then d
    else if consent.NoConsent? || !rowOk then CancelOAuth(d, c)
    else StoreAccount(CancelOAuth(d, c), title, consent, id, upserts, keychainOk, readOk)
  }

  /** From the new row on. */
  function StoreAccount(d: Daemon, title: string, consent: Consent, id: AccountId, upserts: nat,
                        keychainOk: bool, readOk: bool): Daemon
    requires consent.Consented?
  {
    var d1 := d.(rows := d.rows[id := Row(if title == "" then consent.email else title, consent.email)],
                 table := Seeded(d.table, id, upserts));
    if upserts < |ALL_CATEGORIES| || consent.refresh.None? || !keychainOk then d1
    else
      d1.(secrets := d.secrets[id := consent.refresh.value],
          registry := d.registry[id := Provider(consent.email, consent.refresh.value)],
          log := d.log + [Registered(id)] + if readOk then [AccountAdded(id)] else [])
  }

  function RemoveAccount(d: Daemon, id: AccountId, purges: bool): Daemon {
    if id !in d.rows then d
    else
      Daemon(d.rows - {id},
             Cleared(d.table, id),
             if purges then d.secrets - {id} else d.secrets,
             d.registry - {id},
             d.challenges,
             d.log + [AccountRemoved(id)])
  }

  /** A policy row must belong to an account. */
  function SetPolicy(d: Daemon, id: AccountId, c: Category, p: Policy): Daemon {
    if id in d.rows then d.(table := d.table[(id, c) := p]) else d
  }

  /** The provider's client is given a new refresh token, and calls back. A client outlives its
      entry in the registry for as long as a call is using it. */
  function Rotate(d: Daemon, id: AccountId, token: string, keychainOk: bool): Daemon {
    d.(registry := if id in d.registry then d.registry[id := d.registry[id].(refresh := token)] else d.registry,
       secrets := if keychainOk then d.secrets[id := token] else d.secrets)
  }

  /** What a start makes of the database and the keychain. */
  function Hydrated(rows: map<AccountId, Row>, secrets: map<AccountId, string>): map<AccountId, Provider> {
    map id | id in rows && id in secrets :: Provider(rows[id].email, secrets[id])
  }

  function Restart(d: Daemon): Daemon {
    d.(registry := Hydrated(d.rows, d.secrets), challenges := {})
  }

  // ----- the object -----

  class DaemonHandler {
    var rows: map<AccountId, Row>
    const permissions: PermissionStore
    var secrets: map<AccountId, string>
    var registry: map<AccountId, Provider>
    var pendingOAuth: set<ChallengeId>
    var log: seq<Event>

    ghost function Value(): Daemon
      reads this, permissions
    {
      Daemon(rows, permissions.table, secrets, registry, pendingOAuth, log)
    }

    constructor ()
      ensures Value() == EMPTY && fresh(permissions)
    {
      rows, secrets, registry, pendingOAuth, log := map[], map[], map[], {}, [];
      permissions := new PermissionStore();
    }

    method AddOAuthAccount(provider: string, begins: bool, c: ChallengeId) returns (ok: bool)
      modifies this
      ensures Value() == AddOAuth(old(Value()), provider, begins, c)
      ensures ok <==> provider == "gmail" && begins
      ensures pendingOAuth == (if ok then old(pendingOAuth) + {c} else old(pendingOAuth))
      ensures log == (if ok then old(log) + [Began(c)] else old(log))
    {
      if provider != "gmail" || !begins {
        return false;
      }
      pendingOAuth := pendingOAuth + {c};
      log := log + [Began(c)];
      return true;
    }

    method CompleteOAuthAccount(c: ChallengeId, title: string, consent: Consent,
                                id: AccountId, rowOk: bool, upserts: nat, keychainOk: bool, readOk: bool)
      returns (ok: bool)
      modifies this, permissions
      ensures Value() == CompleteOAuth(old(Value()), c, title, consent, id, rowOk, upserts, keychainOk, readOk)
      ensures ok <==> c in old(pendingOAuth) && consent.Consented? && consent.refresh.Some? &&
                      rowOk && upserts >= |ALL_CATEGORIES| && keychainOk && readOk
      ensures pendingOAuth == old(pendingOAuth) - {c}
      ensures ok ==>
                && rows == old(rows)[id := Row(if title == "" then consent.email else title, consent.email)]
                && secrets == old(secrets)[id := consent.refresh.value]
                && registry == old(registry)[id := Provider(consent.email, consent.refresh.value)]
                && log == old(log) + [Consumed(c), Registered(id), AccountAdded(id)]
    {
      if c !in pendingOAuth {
        return false;
      }
      pendingOAuth := pendingOAuth - {c};
      log := log + [Consumed(c)];
      if consent.NoConsent? || !rowOk {
        return false;
      }
      rows := rows[id := Row(if title == "" then consent.email else title, consent.email)];
      var seeded := permissions.InstallDefaults(id, upserts);
      if !seeded {
        return false;
      }
      if consent.refresh.None? || !keychainOk {
        return false;
      }
      secrets := secrets[id := consent.refresh.value];
      registry := registry[id := Provider(consent.email, consent.refresh.value)];
      log := log + [Registered(id)];
      if !readOk {
        return false;
      }
      log := log + [AccountAdded(id)];
      return true;
    }

    method CancelOAuthAccount(c: ChallengeId)
      modifies this
      ensures Value() == CancelOAuth(old(Value()), c)
      ensures pendingOAuth == old(pendingOAuth) - {c}
      ensures log == if c in old(pendingOAuth) then old(log) + [Consumed(c)] else old(log)
    {
      if c in pendingOAuth {
        pendingOAuth := pendingOAuth - {c};
        log := log + [Consumed(c)];
      }
    }

    method Remove(id: AccountId, purges: bool) returns (ok: bool)
      modifies this, permissions
      ensures Value() == RemoveAccount(old(Value()), id, purges)
      ensures ok <==> id in old(rows)
      ensures !ok ==> Value() == old(Value())
      ensures ok ==> rows == old(rows) - {id} && registry == old(registry) - {id}
      ensures ok ==> (forall k :: k in permissions.table <==> k in old(permissions.table) && k.0 != id)
      ensures ok ==> secrets == if purges then old(secrets) - {id} else old(secrets)
      ensures ok ==> log == old(log) + [AccountRemoved(id)]
    {
      if id !in rows {
        return false;
      }
      rows := rows - {id};
      permissions.table := Cleared(permissions.table, id);
      if purges {
        secrets := secrets - {id};
      }
      registry := registry - {id};
      log := log + [AccountRemoved(id)];
      return true;
    }

    /** At startup, over the account list in whatever order the query gave it. */
    method HydrateProviders(list: seq<AccountId>, unreadable: set<AccountId>) returns (ok: bool)
      requires registry == map[] && forall id :: id in list <==> id in rows
      modifies this`registry
      ensures ok <==> forall id | id in rows :: id !in unreadable
      ensures ok ==> registry == Hydrated(rows, secrets)
      ensures ok ==> (forall id :: id in registry <==> id in rows && id in secrets)
      ensures ok ==> forall id | id in registry ::
                       registry[id].email == rows[id].email && registry[id].refresh == secrets[id]
    {
      for i := 0 to |list|
        invariant forall j | 0 <= j < i :: list[j] !in unreadable
        invariant forall id :: id in registry <==> id in list[..i] && id in secrets
        invariant forall id | id in registry :: id in rows && registry[id] == Provider(rows[id].email, secrets[id])
      {
        var id := list[i];
        if id in unreadable {
          assert id in list;
          return false;
        }
        assert list[..i + 1] == list[..i] + [id];
        if id !in secrets {
          continue;
        }
        assert id in list;
        registry := registry[id := Provider(rows[id].email, secrets[id])];
      }
      assert list[..|list|] == list;
      forall id | id in rows && id in secrets
        ensures id in registry
      {
        assert id in list[..|list|];
      }
      ghost var target := Hydrated(rows, secrets);
      assert forall id :: id in registry <==> id in target;
      assert forall id | id in registry :: registry[id] == target[id];
      assert registry == target;
      return true;
    }
  }
}
