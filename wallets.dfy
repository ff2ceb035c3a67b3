/** `findWallet` (main.go:112-122): the key store's wallets are searched in
    order for the first one whose first account is the requested account. */
module Wallets {
  import opened Wrappers

  /** A 20-byte account address. */
  type Address = a: seq<bv8> | |a| == 20 witness seq(20, i => 0 as bv8)

  /** The location of an account's key file. */
  datatype Url = Url(scheme: string, path: string)

  /** An account as the key store reports it; Go's `==` on accounts compares
      both the address and the URL. */
  datatype Account = Account(address: Address, url: Url)

  /** A wallet, seen through the list of accounts it reports. */
  type Wallet = seq<Account>

  /** The error returned when no wallet matches; it carries the address. */
  datatype WalletError = WalletNotFound(address: Address)

  /** A wallet matches when it has an account and its first account is `acct`. */
  predicate Matches(w: Wallet, acct: Account)
  {
    |w| > 0 && w[0] == acct
  }

  /** The index of the first matching wallet, if there is one. */
  function FirstMatch(wallets: seq<Wallet>, acct: Account): (r: Option<nat>)
    ensures r.Some? ==> r.value < |wallets| && Matches(wallets[r.value], acct)
    ensures r.Some? ==> forall j :: 0 <= j < r.value ==> !Matches(wallets[j], acct)
    ensures r.None? <==> forall j :: 0 <= j < |wallets| ==> !Matches(wallets[j], acct)
  {
    if wallets == [] then None
    else if Matches(wallets[0], acct) then Some(0)
    else match FirstMatch(wallets[1..], acct)
      case None => None
      case Some(i) => Some(i + 1)
  }

  /** The loop of `findWallet`: the first matching wallet, or the not-found
      error naming the account's address. */
  method FindWallet(wallets: seq<Wallet>, acct: Account) returns (r: Result<Wallet, WalletError>)
    ensures r.Success? ==> Matches(r.value, acct) && r.value in wallets
    ensures r.Failure? <==> forall j :: 0 <= j < |wallets| ==> !Matches(wallets[j], acct)
    ensures r.Failure? ==> r.error == WalletNotFound(acct.address)
    ensures r == match FirstMatch(wallets, acct)
      case Some(i) => Success(wallets[i])
      case None => Failure(WalletNotFound(acct.address))
  {
    var i := 0;
    while i < |wallets|
      invariant 0 <= i <= |wallets|
      invariant forall j :: 0 <= j < i ==> !Matches(wallets[j], acct)
    {
      var accts := wallets[i];
      if |accts| > 0 && accts[0] == acct {
        FirstMatchIsEarliest(wallets, acct, i);
        return Success(wallets[i]);
      }
      i := i + 1;
    }
    return Failure(WalletNotFound(acct.address));
  }

  /** A match with no match before it is the one `FirstMatch` finds. */
  lemma FirstMatchIsEarliest(wallets: seq<Wallet>, acct: Account, i: nat)
    requires i < |wallets| && Matches(wallets[i], acct)
    requires forall j :: 0 <= j < i ==> !Matches(wallets[j], acct)
    ensures FirstMatch(wallets, acct) == Some(i)
  {
  }

  /** Only a wallet's first account decides the search: replacing a wallet by
      one with the same first account (or another empty one) changes nothing,
      whatever the later accounts are. */
  lemma {:induction false} OnlyFirstAccountMatters(wallets: seq<Wallet>, acct: Account, i: nat, w: Wallet)
    requires i < |wallets|
    requires |w| == 0 <==> |wallets[i]| == 0
    requires |w| > 0 ==> w[0] == wallets[i][0]
    ensures FirstMatch(wallets[i := w], acct) == FirstMatch(wallets, acct)
  {
    if i > 0 {
      assert wallets[i := w][1..] == wallets[1..][i - 1 := w];
      OnlyFirstAccountMatters(wallets[1..], acct, i - 1, w);
    }
  }

  /** A wallet that holds `acct` only after its first account is not chosen,
      and neither is one whose first account has the same address but
      another URL. */
  lemma LaterOrLookalikeAccountIgnored(acct: Account, other: Account, u: Url)
    requires other != acct && u != acct.url
    ensures FirstMatch([[other, acct]], acct) == None
    ensures FirstMatch([[Account(acct.address, u)]], acct) == None
  {
  }
}
