/** The per-(account, category) policy table and the snapshot a tool call takes of it. */
module Policies {
  type AccountId = int

  datatype Category = Read | Modify | Trash | Draft | Send

  datatype Policy = Allow | Confirm | Session | Draftify | Block

  const ALL_CATEGORIES: seq<Category> := [Read, Modify, Trash, Draft, Send]

  lemma AllCategoriesListed(category: Category)
    ensures category in ALL_CATEGORIES
  {
    var i := match category case Read => 0 case Modify => 1 case Trash => 2 case Draft => 3 case Send => 4;
    assert ALL_CATEGORIES[i] == category;
  }

  /** The persisted `permissions` table; its primary key is (account, category). */
  type PolicyTable = map<(AccountId, Category), Policy>

  function DefaultPolicy(category: Category): Policy {
    match category
    case Read => Allow
    case Modify => Allow
    case Trash => Confirm
    case Draft => Allow
    case Send => Draftify
  }

  /** What an account starts with: reading, changing and drafting are free, trashing is asked for, and sending
      is turned into drafting. */
  predicate IsSafe(category: Category, policy: Policy) {
    match category
    case Read => policy == Allow
    case Modify => policy == Allow
    case Draft => policy == Allow
    case Trash => policy == Confirm
    case Send => policy == Draftify
  }

  /** The policy in force for a pair: its row, or the category's default. */
  function Effective(table: PolicyTable, account: AccountId, category: Category): Policy {
    if (account, category) in table then table[(account, category)] else DefaultPolicy(category)
  }

  /** Deleting an account's row deletes its policies. */
  function Cleared(table: PolicyTable, account: AccountId): PolicyTable {
    map k | k in table && k.0 != account :: table[k]
  }

  /** `rows` is some enumeration of the rows `table` holds for `account`. */
  ghost predicate Enumerates(rows: seq<(Category, Policy)>, table: PolicyTable, account: AccountId) {
    && (forall i | 0 <= i < |rows| ::
          (account, rows[i].0) in table && table[(account, rows[i].0)] == rows[i].1)
    && (forall c | (account, c) in table :: (c, table[(account, c)]) in rows)
  }

  /** The in-memory snapshot one dispatch works from. */
  class Permissions {
    var policies: map<Category, Policy>

    ghost predicate Snapshot(table: PolicyTable, account: AccountId)
      reads this
    {
      forall c :: PolicyFor(c) == Effective(table, account, c)
    }

    function PolicyFor(category: Category): Policy
      reads this
    {
      if category in policies then policies[category] else DefaultPolicy(category)
    }

    /** Build the snapshot from the rows a SELECT returned, in whatever order. */
    constructor ForAccount(rows: seq<(Category, Policy)>, ghost table: PolicyTable, ghost account: AccountId)
      requires Enumerates(rows, table, account)
      ensures Snapshot(table, account)
    {
      policies := map[];
      new;
      for i := 0 to |ALL_CATEGORIES|
        invariant forall c :: c in policies <==> c in ALL_CATEGORIES[..i]
        invariant forall c | c in policies :: policies[c] == DefaultPolicy(c)
      {
        policies := policies[ALL_CATEGORIES[i] := DefaultPolicy(ALL_CATEGORIES[i])];
      }
      for i := 0 to |rows|
        invariant forall c :: PolicyFor(c) ==
                              if exists j :: 0 <= j < i && rows[j].0 == c then table[(account, c)]
                              else DefaultPolicy(c)
      {
        policies := policies[rows[i].0 := rows[i].1];
      }
      forall c | (account, c) in table
        ensures exists j :: 0 <= j < |rows| && rows[j].0 == c
      {
        assert (c, table[(account, c)]) in rows;
      }
    }
  }

  /** The table itself, with its upsert and the loop that seeds a new account. */
  class PermissionStore {
    var table: PolicyTable

    constructor ()
      ensures table == map[]
    {
      table := map[];
    }

    method Set(account: AccountId, category: Category, policy: Policy)
      modifies this
      ensures table == old(table)[(account, category) := policy]
    {
      table := table[(account, category) := policy];
    }

    /** The database takes `works` more upserts; false stands for the error of the next one. What
        was written before it stays. */
    method InstallDefaults(account: AccountId, works: nat) returns (ok: bool)
      modifies this
      ensures ok <==> works >= |ALL_CATEGORIES|
      ensures table == Seeded(old(table), account, works)
    {
      for i := 0 to |ALL_CATEGORIES|
        invariant i <= works && table == Installed(old(table), account, ALL_CATEGORIES[..i])
      {
        if i == works {
          return false;
        }
        assert ALL_CATEGORIES[..i + 1][..i] == ALL_CATEGORIES[..i];
        Set(account, ALL_CATEGORIES[i], DefaultPolicy(ALL_CATEGORIES[i]));
      }
      assert ALL_CATEGORIES[..|ALL_CATEGORIES|] == ALL_CATEGORIES;
      return true;
    }
  }

  /** Defaults for these categories of the account, written one after the other. */
  function Installed(table: PolicyTable, account: AccountId, categories: seq<Category>): PolicyTable {
    if categories == [] then table
    else
      var init, c := categories[..|categories| - 1], categories[|categories| - 1];
      Installed(table, account, init)[(account, c) := DefaultPolicy(c)]
  }

  /** Seeding an account when the database takes `works` upserts. */
  function Seeded(table: PolicyTable, account: AccountId, works: nat): PolicyTable {
    Installed(table, account, if works < |ALL_CATEGORIES| then ALL_CATEGORIES[..works] else ALL_CATEGORIES)
  }

  /** What seeding does: each category named has its default, and nothing else moves. */
  lemma {:induction false} InstalledIsDefault(table: PolicyTable, account: AccountId, categories: seq<Category>,
                                              k: (AccountId, Category))
    ensures k in Installed(table, account, categories) <==> k in table || (k.0 == account && k.1 in categories)
    ensures k in Installed(table, account, categories) ==>
              Installed(table, account, categories)[k] ==
                if k.0 == account && k.1 in categories then DefaultPolicy(k.1) else table[k]
  {
    if categories != [] {
      var init, c := categories[..|categories| - 1], categories[|categories| - 1];
      InstalledIsDefault(table, account, init, k);
      assert categories == init + [c];
      assert k == (k.0, k.1);
    }
  }

  /** Seeding all of them leaves an account with every category at its default, which is safe. */
  lemma AllInstalled(table: PolicyTable, account: AccountId, c: Category)
    ensures var t := Installed(table, account, ALL_CATEGORIES);
            (account, c) in t && t[(account, c)] == Effective(t, account, c) && IsSafe(c, t[(account, c)])
    ensures IsSafe(c, Effective(map[], account, c))
  {
    AllCategoriesListed(c);
    InstalledIsDefault(table, account, ALL_CATEGORIES, (account, c));
  }
}
