/** The chart of accounts: account records with a category, a running
    balance and an active flag, and the registry operations on them
    (create with code/name uniqueness, list active, find, update, soft
    remove, and the balance-delta primitive the journal engine calls). */
module Accounts {
  import opened Common

  datatype AccountType = Asset | Liability | Equity | Income | Expense

  datatype Account = Account(
    id: Id,
    code: string,
    name: string,
    kind: AccountType,
    description: Option<string>,
    balance: Money,
    isActive: bool)

  /** The fields a client supplies to create or update an account. */
  datatype AccountInput = AccountInput(
    code: string, name: string, kind: AccountType, description: Option<string>)

  /** Accounts whose balance grows with debits. */
  predicate DebitNormal(kind: AccountType) {
    kind == Asset || kind == Expense
  }

  /** A balance as it enters Assets + Expenses - (Liabilities + Equity + Income). */
  function Signed(kind: AccountType, x: Money): Money {
    if DebitNormal(kind) then x else -x
  }

  predicate UniqueIds(accounts: seq<Account>) {
    forall i, j :: 0 <= i < j < |accounts| ==> accounts[i].id != accounts[j].id
  }

  /** Where the repository finds the account with primary key `id`. */
  function IndexOf(accounts: seq<Account>, id: Id): (r: Option<nat>)
    ensures r.Some? ==> r.value < |accounts| && accounts[r.value].id == id
    ensures r.None? <==> forall k :: 0 <= k < |accounts| ==> accounts[k].id != id
  {
    FirstIndex(accounts, (a: Account) => a.id == id)
  }

  /** `findOne`: the account, or NotFound. */
  function Lookup(accounts: seq<Account>, id: Id): (r: Result<Account>)
    ensures r.Ok? <==> exists k :: 0 <= k < |accounts| && accounts[k].id == id
    ensures r.Ok? ==> r.value in accounts && r.value.id == id
    ensures r.Err? ==> r.error == NotFound("Account")
  {
    match IndexOf(accounts, id)
    case Some(k) => Ok(accounts[k])
    case None => Err(NotFound("Account"))
  }

  /** A new record: balance 0 and active are the column defaults. */
  function NewAccount(id: Id, input: AccountInput): Account {
    Account(id, input.code, input.name, input.kind, input.description, 0.0, true)
  }

  /** The conflict test of `create`: some account, active or not, already
      has the code or the name. */
  predicate Conflicts(accounts: seq<Account>, input: AccountInput) {
    exists k :: 0 <= k < |accounts| && (accounts[k].code == input.code || accounts[k].name == input.name)
  }

  /** `Object.assign(account, dto)`: supplied fields overwrite, an absent
      description keeps the old one, and nothing else changes. */
  function Assign(a: Account, input: AccountInput): Account {
    a.(code := input.code, name := input.name, kind := input.kind,
       description := if input.description.Some? then input.description else a.description)
  }

  /** The active accounts, in table order. */
  function ActiveAccounts(accounts: seq<Account>): (r: seq<Account>)
    ensures |r| <= |accounts|
  {
    if |accounts| == 0 then []
    else
      var rest := ActiveAccounts(accounts[..|accounts| - 1]);
      if accounts[|accounts| - 1].isActive then rest + [accounts[|accounts| - 1]] else rest
  }

  /** The listing holds exactly the active accounts, each as often as it
      is stored. */
  lemma {:induction false} ActiveAccountsMembers(accounts: seq<Account>)
    ensures forall a :: a in ActiveAccounts(accounts) <==> a in accounts && a.isActive
    ensures forall a :: multiset(ActiveAccounts(accounts))[a] == if a.isActive then multiset(accounts)[a] else 0
    decreases |accounts|
  {
    if |accounts| > 0 {
      var n := |accounts| - 1;
      ActiveAccountsMembers(accounts[..n]);
      assert accounts == accounts[..n] + [accounts[n]];
    }
  }

  /** The accounting identity's left-hand side minus its right-hand side. */
  function Identity(accounts: seq<Account>): Money {
    if |accounts| == 0 then 0.0
    else
      var a := accounts[|accounts| - 1];
      Identity(accounts[..|accounts| - 1]) + Signed(a.kind, a.balance)
  }

  /** The same sum over the active accounts only. */
  function ActiveIdentity(accounts: seq<Account>): Money {
    if |accounts| == 0 then 0.0
    else
      var a := accounts[|accounts| - 1];
      ActiveIdentity(accounts[..|accounts| - 1]) + (if a.isActive then Signed(a.kind, a.balance) else 0.0)
  }

  /** The registry's balance primitive applied to row `k`. */
  function AddToBalance(accounts: seq<Account>, k: nat, delta: Money): (r: seq<Account>)
    requires k < |accounts|
  {
    accounts[k := accounts[k].(balance := accounts[k].balance + delta)]
  }

  /** Moving one balance by `delta` moves the identity by the signed delta,
      and moves the active-only identity by it when the account is active. */
  lemma {:induction false} AddToBalanceIdentity(accounts: seq<Account>, k: nat, delta: Money)
    requires k < |accounts|
    ensures Identity(AddToBalance(accounts, k, delta)) == Identity(accounts) + Signed(accounts[k].kind, delta)
    ensures ActiveIdentity(AddToBalance(accounts, k, delta))
         == ActiveIdentity(accounts) + (if accounts[k].isActive then Signed(accounts[k].kind, delta) else 0.0)
    decreases |accounts|
  {
    var r := AddToBalance(accounts, k, delta);
    var n := |accounts| - 1;
    if k < n {
      AddToBalanceIdentity(accounts[..n], k, delta);
      assert r[..n] == AddToBalance(accounts[..n], k, delta);
    } else {
      assert r[..n] == accounts[..n];
    }
  }

  /** The identity over the active accounts is the identity of the listing
      `findAll` returns. */
  lemma {:induction false} ActiveIdentityIsIdentityOfActive(accounts: seq<Account>)
    ensures ActiveIdentity(accounts) == Identity(ActiveAccounts(accounts))
    decreases |accounts|
  {
    if |accounts| > 0 {
      var n := |accounts| - 1;
      ActiveIdentityIsIdentityOfActive(accounts[..n]);
      var rest := ActiveAccounts(accounts[..n]);
      var a := accounts[n];
      if a.isActive {
        var s := rest + [a];
        assert ActiveAccounts(accounts) == s;
        assert s[..|s| - 1] == rest;
        assert Identity(s) == Identity(rest) + Signed(a.kind, a.balance);
      } else {
        assert ActiveAccounts(accounts) == rest;
      }
    }
  }

  /** With every account active, the two identities agree. */
  lemma {:induction false} AllActiveIdentity(accounts: seq<Account>)
    requires forall k :: 0 <= k < |accounts| ==> accounts[k].isActive
    ensures ActiveIdentity(accounts) == Identity(accounts)
    decreases |accounts|
  {
    if |accounts| > 0 {
      AllActiveIdentity(accounts[..|accounts| - 1]);
    }
  }

  /** `update` checks neither code nor name: keeping its own code, an
      account can take the name of another, which `create` refuses. The
      name column has no unique index, so the store accepts it too. */
  lemma UpdateCanDuplicateName()
    ensures var before := [Account("a", "1000", "Cash", Asset, None, 0.0, true),
                           Account("b", "2000", "Bank", Asset, None, 0.0, true)];
            var input := AccountInput("2000", "Cash", Asset, None);
            var after := before[1 := Assign(before[1], input)];
            Conflicts(before, input) && after[0].name == after[1].name && after[0].code != after[1].code
  {
    var before := [Account("a", "1000", "Cash", Asset, None, 0.0, true),
                   Account("b", "2000", "Bank", Asset, None, 0.0, true)];
    assert before[0].name == "Cash";
  }

  /** The account table (`accountsService`), updated in place. */
  class AccountRegistry {
    var accounts: seq<Account>

    ghost predicate Valid()
      reads this
    {
      UniqueIds(accounts)
    }

    constructor ()
      ensures Valid() && accounts == []
    {
      accounts := [];
    }

    /** `create`: a conflict if any account has the code or the name,
        otherwise exactly one new record, with balance 0 and active. */
    method Create(id: Id, input: AccountInput) returns (r: Result<Account>)
      requires Valid()
      requires forall k :: 0 <= k < |accounts| ==> accounts[k].id != id
      modifies this
      ensures Valid()
      ensures r.Err? <==> Conflicts(old(accounts), input)
      ensures r.Err? ==> r.error == Conflict("Account code or name already exists") && accounts == old(accounts)
      ensures r.Ok? ==> r.value == NewAccount(id, input) && accounts == old(accounts) + [r.value]
      ensures r.Ok? ==> r.value.balance == 0.0 && r.value.isActive
    {
      if Conflicts(accounts, input) {
        return Err(Conflict("Account code or name already exists"));
      }
      var account := NewAccount(id, input);
      accounts := accounts + [account];
      return Ok(account);
    }

    /** `findAll`: exactly the active accounts. */
    function FindAll(): (r: seq<Account>)
      reads this
      ensures forall a :: a in r <==> a in accounts && a.isActive
      ensures forall a :: multiset(r)[a] == if a.isActive then multiset(accounts)[a] else 0
    {
      ActiveAccountsMembers(accounts);
      ActiveAccounts(accounts)
    }

    /** `findOne`: the record with the id, unchanged, or NotFound. */
    function FindOne(id: Id): (r: Result<Account>)
      reads this
      ensures r.Ok? <==> exists k :: 0 <= k < |accounts| && accounts[k].id == id
      ensures r.Ok? ==> r.value in accounts && r.value.id == id
      ensures r.Err? ==> r.error == NotFound("Account")
    {
      Lookup(accounts, id)
    }

    /** `update`: overwrite the supplied fields of the one record; no
        uniqueness check; every other account unchanged. */
    method Update(id: Id, input: AccountInput) returns (r: Result<Account>)
      requires Valid()
      modifies this
      ensures Valid()
      ensures match IndexOf(old(accounts), id)
        case None => r == Err(NotFound("Account")) && accounts == old(accounts)
        case Some(k) =>
          r == Ok(Assign(old(accounts)[k], input)) && accounts == old(accounts)[k := r.value]
    {
      var k := IndexOf(accounts, id);
      if k.None? {
        return Err(NotFound("Account"));
      }
      var account := Assign(accounts[k.value], input);
      accounts := accounts[k.value := account];
      return Ok(account);
    }

    /** `remove`: a soft delete; the record, balance included, stays. */
    method Remove(id: Id) returns (r: Result<()>)
      requires Valid()
      modifies this
      ensures Valid()
      ensures match IndexOf(old(accounts), id)
        case None => r == Err(NotFound("Account")) && accounts == old(accounts)
        case Some(k) =>
          r == Ok(()) && accounts == old(accounts)[k := old(accounts)[k].(isActive := false)]
    {
      var k := IndexOf(accounts, id);
      if k.None? {
        return Err(NotFound("Account"));
      }
      accounts := accounts[k.value := accounts[k.value].(isActive := false)];
      return Ok(());
    }

    /** `updateBalance`, the primitive the journal engine calls:
        balance := balance + delta on the one record, NotFound otherwise. */
    method UpdateBalance(id: Id, delta: Money) returns (r: Result<Account>)
      requires Valid()
      modifies this
      ensures Valid()
      ensures match IndexOf(old(accounts), id)
        case None => r == Err(NotFound("Account")) && accounts == old(accounts)
        case Some(k) => accounts == AddToBalance(old(accounts), k, delta) && r == Ok(accounts[k])
    {
      var k := IndexOf(accounts, id);
      if k.None? {
        return Err(NotFound("Account"));
      }
      accounts := AddToBalance(accounts, k.value, delta);
      return Ok(accounts[k.value]);
    }
  }
}
