/** Accounts and their discovery through the accounts service. */
module Accounts {
  import opened Wrappers
  import opened Json
  import opened Seqs
  import Client

  datatype Product = Harvest | Forecast

  /** A Harvest or Forecast account.  The company data and subdomain are
      optional and never filled in by discovery. */
  datatype Account = Account(
    id: int,
    name: string,
    product: Product,
    companyData: Option<seq<(string, Json)>>,
    subdomain: Option<string>)

  /** The accounts of a listing whose product is Harvest, in their order. */
  function HarvestOnly(accounts: seq<Account>): (r: seq<Account>)
    ensures forall a :: a in r ==> a in accounts && a.product == Harvest
    ensures forall a :: a in accounts && a.product == Harvest ==> a in r
    ensures |r| <= |accounts|
  {
    if accounts == [] then []
    else if accounts[0].product == Harvest then [accounts[0]] + HarvestOnly(accounts[1..])
    else HarvestOnly(accounts[1..])
  }

  /** The filter keeps the relative order of the accounts it keeps. */
  lemma {:induction false} HarvestOnlyKeepsOrder(accounts: seq<Account>)
    ensures IsSubsequence(HarvestOnly(accounts), accounts)
  {
    if accounts != [] {
      HarvestOnlyKeepsOrder(accounts[1..]);
      if accounts[0].product == Harvest {
        assert HarvestOnly(accounts)[1..] == HarvestOnly(accounts[1..]);
      } else {
        SubsequenceOfTail(HarvestOnly(accounts), accounts);
      }
    }
  }

  /** Each Harvest account is kept as often as it occurs, and no other is kept. */
  lemma {:induction false} HarvestOnlyCounts(accounts: seq<Account>, a: Account)
    ensures multiset(HarvestOnly(accounts))[a] == if a.product == Harvest then multiset(accounts)[a] else 0
  {
    if accounts != [] {
      HarvestOnlyCounts(accounts[1..], a);
      assert accounts == [accounts[0]] + accounts[1..];
    }
  }

  /** With no Harvest account in the listing, nothing is kept. */
  lemma {:induction false} NoHarvestAccounts(accounts: seq<Account>)
    requires forall i :: 0 <= i < |accounts| ==> accounts[i].product == Forecast
    ensures HarvestOnly(accounts) == []
  {
    if accounts != [] {
      NoHarvestAccounts(accounts[1..]);
    }
  }

  /** `discover_accounts`: the Harvest accounts of the listing, or the error
      the request ended with. */
  function DiscoverAccounts(listing: Result<seq<Account>, Client.ClientError>): (r: Result<seq<Account>, Client.ClientError>)
    ensures listing.Err? ==> r == Err(listing.error)
    ensures listing.Ok? ==> r.Ok? && forall a :: a in r.value ==> a.product == Harvest && a in listing.value
    ensures listing.Ok? ==> r == Ok(HarvestOnly(listing.value))
  {
    if listing.Err? then Err(listing.error) else Ok(HarvestOnly(listing.value))
  }

  /** Discovery asks the accounts service (no account given), which sends no
      account header. */
  lemma DiscoveryRequest()
    ensures Client.RequestUrl("", None) == Client.AccountsUrl
    ensures Client.AccountHeaders(None) == []
  {
  }
}
