/** Linked OneDrive accounts and the lookup of one of them by id. */
module Accounts {
  import opened Base

  /** A row of the accounts table: its id and its remaining columns. */
  datatype Account = Account(id: nat, fields: map<string, string>)

  /** Why an account lookup fails: no account carries the id, so the lookup
      yields null and the field access that follows it fails. */
  datatype Failure = NullAccount(id: nat)

  /** `where('id', $id)->first()` over an account list: the first account
      whose id matches, if any. */
  function FindById(accounts: seq<Account>, id: nat): (r: Option<Account>)
    ensures r.Some? ==> r.value in accounts && r.value.id == id
    ensures r.None? <==> forall a :: a in accounts ==> a.id != id
  {
    if accounts == [] then None
    else if accounts[0].id == id then Some(accounts[0])
    else FindById(accounts[1..], id)
  }

  /** The account found is the first one with the id: every earlier account
      carries another id. */
  lemma {:induction false} FindByIdIsFirst(accounts: seq<Account>, id: nat, i: nat)
    requires i < |accounts| && accounts[i].id == id
    requires forall j :: 0 <= j < i ==> accounts[j].id != id
    ensures FindById(accounts, id) == Some(accounts[i])
  {
    if i > 0 {
      FindByIdIsFirst(accounts[1..], id, i - 1);
    }
  }
}
