/**
 * The bank-account list: its seeded accounts, choosing the primary account,
 * removing an account after the confirmation dialog, and the primary account
 * the summary card shows.
 */
module BankAccounts {
  import opened Wrappers
  import Lists

  /** One payout account. `accountNumber` is only present on accounts handed in
      from elsewhere; the seeded ones show the last four digits alone. */
  datatype BankAccount = BankAccount(
    id: string,
    holderName: string,
    bankName: string,
    accountLast4: string,
    ifsc: string,
    isPrimary: bool,
    accountNumber: Option<string>)

  /** The two accounts the screen starts with. */
  function InitialAccounts(): seq<BankAccount> {
    [ BankAccount("acc-1", "Rahul Kumar", "HDFC Bank", "2317", "HDFC0001234", true, None),
      BankAccount("acc-2", "Rahul Kumar", "ICICI Bank", "9081", "ICIC0009876", false, None) ]
  }

  /** No two accounts share an id. */
  predicate DistinctIds(accounts: seq<BankAccount>) {
    forall i, j :: 0 <= i < j < |accounts| ==> accounts[i].id != accounts[j].id
  }

  /** At most one account is primary. */
  predicate AtMostOnePrimary(accounts: seq<BankAccount>) {
    forall i, j :: 0 <= i < j < |accounts| && accounts[i].isPrimary ==> !accounts[j].isPrimary
  }

  /** `setPrimary`: the accounts with that id become primary, every other one
      stops being primary. */
  function SetPrimary(accounts: seq<BankAccount>, accountId: string): (r: seq<BankAccount>)
    ensures |r| == |accounts|
    ensures forall i :: 0 <= i < |r| ==> (r[i].isPrimary <==> accounts[i].id == accountId)
    ensures forall i :: 0 <= i < |r| ==> r[i].(isPrimary := accounts[i].isPrimary) == accounts[i]
  {
    seq(|accounts|, i requires 0 <= i < |accounts| => accounts[i].(isPrimary := accounts[i].id == accountId))
  }

  /** With distinct ids, choosing the account at `k` makes it the one primary
      account. */
  lemma SetPrimaryExactlyOne(accounts: seq<BankAccount>, k: nat)
    requires DistinctIds(accounts) && k < |accounts|
    ensures var r := SetPrimary(accounts, accounts[k].id);
      forall i :: 0 <= i < |r| ==> (r[i].isPrimary <==> i == k)
  {
  }

  /** Choosing an id no account has leaves no primary account. */
  lemma SetPrimaryAbsent(accounts: seq<BankAccount>, accountId: string)
    requires forall i :: 0 <= i < |accounts| ==> accounts[i].id != accountId
    ensures PrimaryAccount(SetPrimary(accounts, accountId)) == None
  {
  }

  /** Choosing the same account twice is choosing it once. */
  lemma SetPrimaryIdempotent(accounts: seq<BankAccount>, accountId: string)
    ensures SetPrimary(SetPrimary(accounts, accountId), accountId) == SetPrimary(accounts, accountId)
  {
  }

  /** Choosing a primary keeps ids distinct and leaves at most one primary. */
  lemma SetPrimaryKeepsInvariant(accounts: seq<BankAccount>, accountId: string)
    requires DistinctIds(accounts)
    ensures DistinctIds(SetPrimary(accounts, accountId))
    ensures AtMostOnePrimary(SetPrimary(accounts, accountId))
  {
  }

  function HasOtherId(accountId: string): BankAccount -> bool {
    (a: BankAccount) => a.id != accountId
  }

  /** The confirmed removal: every account with a different id, in order. */
  function Remove(accounts: seq<BankAccount>, accountId: string): (r: seq<BankAccount>)
    ensures |r| <= |accounts|
    ensures forall i :: 0 <= i < |r| ==> r[i].id != accountId && r[i] in accounts
    ensures forall i :: 0 <= i < |accounts| && accounts[i].id != accountId ==> accounts[i] in r
    ensures Lists.IsSubseq(r, accounts)
    ensures forall a :: multiset(r)[a] == if a.id != accountId then multiset(accounts)[a] else 0
  {
    Lists.FilterIsSubseq(accounts, HasOtherId(accountId));
    Lists.FilterCounts(accounts, HasOtherId(accountId));
    Lists.Filter(accounts, HasOtherId(accountId))
  }

  /** Removal keeps the list's invariant. */
  lemma {:induction false} RemoveKeepsInvariant(accounts: seq<BankAccount>, accountId: string)
    requires DistinctIds(accounts) && AtMostOnePrimary(accounts)
    ensures DistinctIds(Remove(accounts, accountId)) && AtMostOnePrimary(Remove(accounts, accountId))
    decreases |accounts|
  {
    if accounts != [] {
      var tail := Remove(accounts[1..], accountId);
      RemoveKeepsInvariant(accounts[1..], accountId);
      RemoveCons(accounts, accountId);
      if accounts[0].id != accountId {
        forall j | 0 <= j < |tail|
          ensures tail[j].id != accounts[0].id
          ensures accounts[0].isPrimary ==> !tail[j].isPrimary
        {
          assert tail[j] in accounts[1..];
        }
        ConsKeepsInvariant(accounts[0], tail);
      }
    }
  }

  /** An account put in front of a well-formed list whose ids and primary flag
      it does not clash with keeps the list well-formed. */
  lemma ConsKeepsInvariant(x: BankAccount, tail: seq<BankAccount>)
    requires DistinctIds(tail) && AtMostOnePrimary(tail)
    requires forall j :: 0 <= j < |tail| ==> tail[j].id != x.id && (x.isPrimary ==> !tail[j].isPrimary)
    ensures DistinctIds([x] + tail) && AtMostOnePrimary([x] + tail)
  {
    var r := [x] + tail;
    assert forall j :: 1 <= j < |r| ==> r[j] == tail[j - 1];
  }

  lemma RemoveCons(accounts: seq<BankAccount>, accountId: string)
    requires accounts != []
    ensures Remove(accounts, accountId) ==
      (if accounts[0].id != accountId then [accounts[0]] else []) + Remove(accounts[1..], accountId)
  {
  }

  /** Removing the primary account of a well-formed list leaves none; removing
      another account keeps the primary one. */
  lemma RemoveAndPrimary(accounts: seq<BankAccount>, k: nat)
    requires DistinctIds(accounts) && AtMostOnePrimary(accounts) && k < |accounts|
    ensures accounts[k].isPrimary ==> PrimaryAccount(Remove(accounts, accounts[k].id)) == None
    ensures !accounts[k].isPrimary ==> PrimaryAccount(Remove(accounts, accounts[k].id)) == PrimaryAccount(accounts)
  {
    var r := Remove(accounts, accounts[k].id);
    if accounts[k].isPrimary {
      forall i | 0 <= i < |r| ensures !r[i].isPrimary {
        var j :| 0 <= j < |accounts| && accounts[j] == r[i];
        assert j != k;
      }
    } else {
      RemoveKeepsFirstPrimary(accounts, accounts[k].id);
    }
  }

  /** Removing an id that is not the primary account's keeps that account first
      among the primary ones. */
  lemma {:induction false} RemoveKeepsFirstPrimary(accounts: seq<BankAccount>, accountId: string)
    requires forall i :: 0 <= i < |accounts| && accounts[i].isPrimary ==> accounts[i].id != accountId
    ensures PrimaryAccount(Remove(accounts, accountId)) == PrimaryAccount(accounts)
    decreases |accounts|
  {
    if accounts != [] {
      var tail := Remove(accounts[1..], accountId);
      RemoveCons(accounts, accountId);
      if accounts[0].id != accountId {
        var r := [accounts[0]] + tail;
        assert r[0] == accounts[0] && r[1..] == tail;
        if !accounts[0].isPrimary {
          RemoveKeepsFirstPrimary(accounts[1..], accountId);
        }
      } else {
        RemoveKeepsFirstPrimary(accounts[1..], accountId);
        assert Remove(accounts, accountId) == tail;
      }
    }
  }

  /** `primaryAccount`: the first primary account, if any. */
  function PrimaryAccount(accounts: seq<BankAccount>): (r: Option<BankAccount>)
    ensures r.None? <==> forall i :: 0 <= i < |accounts| ==> !accounts[i].isPrimary
    ensures r.Some? ==> r.value in accounts && r.value.isPrimary
    ensures r.Some? && accounts[0].isPrimary ==> r.value == accounts[0]
  {
    if accounts == [] then None
    else if accounts[0].isPrimary then Some(accounts[0])
    else PrimaryAccount(accounts[1..])
  }

  /** The primary account is the first one marked primary. */
  lemma {:induction false} PrimaryAccountIsFirst(accounts: seq<BankAccount>, k: nat)
    requires k < |accounts| && accounts[k].isPrimary
    requires forall j :: 0 <= j < k ==> !accounts[j].isPrimary
    ensures PrimaryAccount(accounts) == Some(accounts[k])
    decreases k
  {
    if k > 0 {
      PrimaryAccountIsFirst(accounts[1..], k - 1);
    }
  }

  /** After choosing the account at `k`, the summary card shows that account. */
  lemma ChosenIsShown(accounts: seq<BankAccount>, k: nat)
    requires DistinctIds(accounts) && k < |accounts|
    ensures PrimaryAccount(SetPrimary(accounts, accounts[k].id)) == Some(accounts[k].(isPrimary := true))
  {
    var r := SetPrimary(accounts, accounts[k].id);
    SetPrimaryExactlyOne(accounts, k);
    PrimaryAccountIsFirst(r, k);
  }

  /** "Set primary" is offered only on accounts that are not primary. */
  predicate OffersSetPrimary(item: BankAccount) {
    !item.isPrimary
  }

  /** The seeded list is well formed: its first account is the one primary
      account, and only the second offers "Set primary". */
  lemma InitialAccountsWellFormed()
    ensures DistinctIds(InitialAccounts()) && AtMostOnePrimary(InitialAccounts())
    ensures PrimaryAccount(InitialAccounts()) == Some(InitialAccounts()[0])
    ensures !OffersSetPrimary(InitialAccounts()[0]) && OffersSetPrimary(InitialAccounts()[1])
  {
    var a := InitialAccounts();
    assert a[0].id[4] == '1' && a[1].id[4] == '2';
  }

  /** The screen's account list. */
  class Screen {
    var accounts: seq<BankAccount>

    constructor()
      ensures accounts == InitialAccounts() && Valid()
    {
      accounts := InitialAccounts();
      InitialAccountsWellFormed();
    }

    predicate Valid()
      reads this
    {
      DistinctIds(accounts) && AtMostOnePrimary(accounts)
    }

    method ChoosePrimary(accountId: string)
      modifies this
      requires Valid()
      ensures Valid()
      ensures accounts == SetPrimary(old(accounts), accountId)
    {
      SetPrimaryKeepsInvariant(accounts, accountId);
      accounts := SetPrimary(accounts, accountId);
    }

    /** `confirmRemove`: the list changes only when the rider presses Remove
        in the dialog. */
    method ConfirmRemove(accountId: string, confirmed: bool)
      modifies this
      requires Valid()
      ensures Valid()
      ensures confirmed ==> accounts == Remove(old(accounts), accountId)
      ensures !confirmed ==> accounts == old(accounts)
    {
      if confirmed {
        RemoveKeepsInvariant(accounts, accountId);
        accounts := Remove(accounts, accountId);
      }
    }
  }

  /** Promoting the second seeded account, then removing it, leaves no primary
      account on the card. */
  method PromoteThenRemove() returns (shown: Option<BankAccount>)
    ensures shown == None
  {
    var s := new Screen();
    s.ChoosePrimary("acc-2");
    assert s.accounts[1].isPrimary && s.accounts[1].id == "acc-2";
    RemoveAndPrimary(s.accounts, 1);
    s.ConfirmRemove("acc-2", true);
    shown := PrimaryAccount(s.accounts);
  }
}
