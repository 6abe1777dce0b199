/**
 * `fetchHashTable`: the metadata accounts whose first creator is a given address,
 * each resolved to its full metadata record or to its mint address.
 */
module HashTable {
  import opened Wrappers
  import opened Solana
  import MetadataLayout

  /** The decoded part of a metadata account that the hook hands on. */
  datatype MetadataData = MetadataData(updateAuthority: PublicKey, mint: PublicKey, name: string, symbol: string, uri: string)

  /** A looked-up account: its owner, balance and raw data. */
  datatype AccountInfo = AccountInfo(owner: PublicKey, lamports: nat, data: seq<bv8>)

  /** The `memcmp` filter of a `getProgramAccounts` query. */
  datatype MemcmpFilter = MemcmpFilter(offset: nat, bytes: string)

  /** An element of the result: the whole record, or only the mint address. */
  datatype MintEntry = Full(metadata: MetadataData) | MintOnly(mint: PublicKey)

  /** What one pushed element is, given the decoded record. */
  function EntryOf(metadata: MetadataData, metadataEnabled: bool): MintEntry {
    if metadataEnabled then Full(metadata) else MintOnly(metadata.mint)
  }

  /**
   * The specification of the loop: in account order, one entry for each account
   * whose info lookup returns a value, none for the others.
   */
  function CollectMints(accounts: seq<PublicKey>, lookup: PublicKey -> Option<AccountInfo>,
                        decode: AccountInfo -> MetadataData, metadataEnabled: bool): (r: seq<MintEntry>)
    ensures |r| <= |accounts|
    ensures forall k :: 0 <= k < |r| ==> r[k].Full? == metadataEnabled
    decreases |accounts|
  {
    if accounts == [] then []
    else
      var prev := CollectMints(accounts[..|accounts| - 1], lookup, decode, metadataEnabled);
      var info := lookup(accounts[|accounts| - 1]);
      if info.Some? then prev + [EntryOf(decode(info.value), metadataEnabled)] else prev
  }

  /**
   * `fetchHashTable(hash, metadataEnabled)`. `getProgramAccounts` answers the
   * filtered query (the matching account addresses, in the order the node returns
   * them), `lookup` stands for `getParsedAccountInfo` and `decode` for the
   * `Metadata` constructor.
   */
  method FetchHashTable(hash: string, metadataEnabled: bool,
                        getProgramAccounts: MemcmpFilter -> seq<PublicKey>,
                        lookup: PublicKey -> Option<AccountInfo>,
                        decode: AccountInfo -> MetadataData)
    returns (mintHashes: seq<MintEntry>)
    ensures mintHashes == CollectMints(getProgramAccounts(MemcmpFilter(MetadataLayout.CreatorFilterOffset(), hash)),
                                       lookup, decode, metadataEnabled)
  {
    var metadataAccounts := getProgramAccounts(MemcmpFilter(MetadataLayout.CreatorFilterOffset(), hash));
    mintHashes := [];
    var index := 0;
    while index < |metadataAccounts|
      invariant 0 <= index <= |metadataAccounts|
      invariant mintHashes == CollectMints(metadataAccounts[..index], lookup, decode, metadataEnabled)
    {
      var account := metadataAccounts[index];
      var accountInfo := lookup(account);
      if accountInfo.Some? {
        var metadata := decode(accountInfo.value);
        mintHashes := mintHashes + [if metadataEnabled then Full(metadata) else MintOnly(metadata.mint)];
      }
      assert metadataAccounts[..index + 1][..index] == metadataAccounts[..index];
      index := index + 1;
    }
    assert metadataAccounts[..index] == metadataAccounts;
  }

  /**
   * The result is the accounts with present info, in their original order: there
   * is a strictly increasing choice of account positions, covering every account
   * whose info is present, such that entry `k` is made from account `idx[k]`.
   */
  lemma {:induction false} CollectMintsIsOrderedSelection(accounts: seq<PublicKey>, lookup: PublicKey -> Option<AccountInfo>,
                                                          decode: AccountInfo -> MetadataData, metadataEnabled: bool)
    returns (idx: seq<nat>)
    ensures var r := CollectMints(accounts, lookup, decode, metadataEnabled);
      && |idx| == |r|
      && (forall k :: 0 <= k < |idx| ==>
            && idx[k] < |accounts|
            && lookup(accounts[idx[k]]).Some?
            && r[k] == EntryOf(decode(lookup(accounts[idx[k]]).value), metadataEnabled))
      && (forall k, l :: 0 <= k < l < |idx| ==> idx[k] < idx[l])
      && (forall i :: 0 <= i < |accounts| && lookup(accounts[i]).Some? ==> i in idx)
    decreases |accounts|
  {
    if accounts == [] {
      idx := [];
    } else {
      var n := |accounts|;
      var init := accounts[..n - 1];
      var prevIdx := CollectMintsIsOrderedSelection(init, lookup, decode, metadataEnabled);
      assert forall i :: 0 <= i < n - 1 ==> init[i] == accounts[i];
      if lookup(accounts[n - 1]).Some? {
        idx := prevIdx + [n - 1];
      } else {
        idx := prevIdx;
      }
    }
  }

  /** The result has one entry per account exactly when every lookup returns a value. */
  lemma {:induction false} CollectMintsComplete(accounts: seq<PublicKey>, lookup: PublicKey -> Option<AccountInfo>,
                                                decode: AccountInfo -> MetadataData, metadataEnabled: bool)
    ensures |CollectMints(accounts, lookup, decode, metadataEnabled)| == |accounts|
            <==> forall i :: 0 <= i < |accounts| ==> lookup(accounts[i]).Some?
    decreases |accounts|
  {
    if accounts != [] {
      var n := |accounts|;
      var init := accounts[..n - 1];
      CollectMintsComplete(init, lookup, decode, metadataEnabled);
      assert forall i :: 0 <= i < n - 1 ==> init[i] == accounts[i];
    }
  }

  /** The mint addresses of a list of full entries. */
  function MintsOf(entries: seq<MintEntry>): (r: seq<MintEntry>)
    ensures |r| == |entries|
  {
    seq(|entries|, k requires 0 <= k < |entries| =>
      if entries[k].Full? then MintOnly(entries[k].metadata.mint) else entries[k])
  }

  /** With `metadataEnabled` off the result is the mints of the result with it on. */
  lemma {:induction false} MintOnlyIsMintOfFull(accounts: seq<PublicKey>, lookup: PublicKey -> Option<AccountInfo>,
                                                decode: AccountInfo -> MetadataData)
    ensures CollectMints(accounts, lookup, decode, false) == MintsOf(CollectMints(accounts, lookup, decode, true))
    decreases |accounts|
  {
    if accounts != [] {
      MintOnlyIsMintOfFull(accounts[..|accounts| - 1], lookup, decode);
    }
  }
}
