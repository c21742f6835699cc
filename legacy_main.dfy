/**
 * The stand-alone monitor in the repository root (main.go): its filter over
 * hard-coded token and wallet sets, the branching of `processTransaction`
 * and the record `storeTransaction` inserts.
 *
 * Unlike the token transaction processor, which needs a monitored token AND
 * a monitored destination per balance entry, this filter accepts a
 * transaction when EITHER some pre-token balance has a monitored mint OR
 * some account key (any index) is a monitored wallet.
 *
 * The MongoDB collection is the sequence `transactions` of a `Database`
 * object; the RPC fetch is a parameter describing its outcome, and the
 * insert's outcome is a parameter too.
 */
module LegacyMain {
  import opened Wrappers

  /** The global `monitoredTokens` map; every key maps to true. */
  const MonitoredTokens: set<string> := {"NativeSOLMintAddress", "USDTMintAddress"}
  /** The global `monitoredWallets` map; every key maps to true. */
  const MonitoredWallets: set<string> := {"WalletAddress1", "WalletAddress2"}

  datatype UiTokenAmount = UiTokenAmount(amount: string, decimals: nat)

  datatype TokenBalance = TokenBalance(mint: string, uiTokenAmount: UiTokenAmount)

  /** The parts of the SDK's transaction the monitor reads; account keys as their base58 text. */
  datatype Transaction = Transaction(signatures: seq<string>, accountKeys: seq<string>,
                                     preTokenBalances: seq<TokenBalance>)

  /** The document `storeTransaction` inserts (without its `time.Now()` timestamp). */
  datatype StoredRecord = StoredRecord(hash: string, source: string, destination: string,
                                       amount: UiTokenAmount, tokenMint: string)

  /** What `GetTransaction` answers: an error, nil, or the transaction. */
  datatype Fetched = FetchError(message: string) | NotFound | Found(tx: Transaction)

  /**
   * How `processTransaction` ends: nil, an error with its text, or a run-time
   * panic from indexing an empty slice while building the record.
   */
  datatype Result = Ok | Err(message: string) | IndexPanic

  const FetchErrorPrefix: string := "failed to get transaction details: "
  const InsertErrorPrefix: string := "failed to insert transaction into MongoDB: "

  /** The first loop of `filterTransaction`: some pre-token balance has a monitored mint. */
  function AnyMonitoredMint(balances: seq<TokenBalance>): (r: bool)
    ensures r <==> exists i :: 0 <= i < |balances| && balances[i].mint in MonitoredTokens
  {
    if balances == [] then false
    else if balances[0].mint in MonitoredTokens then true
    else
      var rest := AnyMonitoredMint(balances[1..]);
      assert forall i :: 1 <= i < |balances| ==> balances[i] == balances[1..][i - 1];
      rest
  }

  /** The second loop of `filterTransaction`: some account key, at any index, is a monitored wallet. */
  function AnyMonitoredAccount(keys: seq<string>): (r: bool)
    ensures r <==> exists i :: 0 <= i < |keys| && keys[i] in MonitoredWallets
  {
    if keys == [] then false
    else if keys[0] in MonitoredWallets then true
    else
      var rest := AnyMonitoredAccount(keys[1..]);
      assert forall i :: 1 <= i < |keys| ==> keys[i] == keys[1..][i - 1];
      rest
  }

  /** `filterTransaction`: the token loop first, then the wallet loop. */
  predicate FilterTransaction(tx: Transaction)
  {
    AnyMonitoredMint(tx.preTokenBalances) || AnyMonitoredAccount(tx.accountKeys)
  }

  /** Whether every index `storeTransaction` reads exists. */
  predicate CanStore(tx: Transaction)
  {
    |tx.signatures| >= 1 && |tx.accountKeys| >= 2 && |tx.preTokenBalances| >= 1
  }

  /** The record `storeTransaction` builds from the first signature, accounts and balance. */
  function RecordOf(tx: Transaction): (rec: StoredRecord)
    requires CanStore(tx)
    ensures rec.hash == tx.signatures[0]
    ensures rec.source == tx.accountKeys[0] && rec.destination == tx.accountKeys[1]
    ensures rec.amount == tx.preTokenBalances[0].uiTokenAmount
    ensures rec.tokenMint == tx.preTokenBalances[0].mint
  {
    StoredRecord(tx.signatures[0], tx.accountKeys[0], tx.accountKeys[1],
                 tx.preTokenBalances[0].uiTokenAmount, tx.preTokenBalances[0].mint)
  }

  /** The `transactions` collection of the `solsniffer` database. */
  class Database {
    var transactions: seq<StoredRecord>

    constructor ()
      ensures transactions == []
    {
      transactions := [];
    }

    /**
     * `storeTransaction`: builds the record (panicking on a missing signature,
     * account or balance) and inserts it; `insertError` is the insert's error.
     */
    method StoreTransaction(tx: Transaction, insertError: Option<string>) returns (r: Result)
      modifies this
      ensures !CanStore(tx) ==> r == IndexPanic && transactions == old(transactions)
      ensures CanStore(tx) && insertError == None ==>
        r == Ok && transactions == old(transactions) + [RecordOf(tx)]
      ensures CanStore(tx) && insertError.Some? ==>
        r == Err(InsertErrorPrefix + insertError.value) && transactions == old(transactions)
    {
      if |tx.signatures| == 0 || |tx.accountKeys| < 2 || |tx.preTokenBalances| == 0 {
        return IndexPanic;
      }
      var record := RecordOf(tx);
      match insertError
      case Some(e) =>
        return Err(InsertErrorPrefix + e);
      case None =>
        transactions := transactions + [record];
        return Ok;
    }

    /**
     * `processTransaction`: a fetch error is returned, a missing or
     * non-matching transaction is skipped with nil, and a matching one is
     * stored.
     */
    method ProcessTransaction(fetched: Fetched, insertError: Option<string>) returns (r: Result)
      modifies this
      ensures fetched.FetchError? ==>
        r == Err(FetchErrorPrefix + fetched.message) && transactions == old(transactions)
      ensures fetched == NotFound ==> r == Ok && transactions == old(transactions)
      ensures fetched.Found? && !FilterTransaction(fetched.tx) ==>
        r == Ok && transactions == old(transactions)
      ensures fetched.Found? && FilterTransaction(fetched.tx) && !CanStore(fetched.tx) ==>
        r == IndexPanic && transactions == old(transactions)
      ensures fetched.Found? && FilterTransaction(fetched.tx) && CanStore(fetched.tx) ==>
        if insertError == None then r == Ok && transactions == old(transactions) + [RecordOf(fetched.tx)]
        else r == Err(InsertErrorPrefix + insertError.value) && transactions == old(transactions)
    {
      match fetched
      case FetchError(e) =>
        return Err(FetchErrorPrefix + e);
      case NotFound =>
        return Ok;
      case Found(tx) =>
        if !FilterTransaction(tx) {
          return Ok;
        }
        r := StoreTransaction(tx, insertError);
    }
  }

  // ---- Properties ----

  /**
   * The filter accepts exactly when a balance has a monitored mint or an
   * account key is a monitored wallet; either alone suffices.
   */
  lemma FilterIff(tx: Transaction)
    ensures FilterTransaction(tx) <==>
      (exists i :: 0 <= i < |tx.preTokenBalances| && tx.preTokenBalances[i].mint in MonitoredTokens)
      || (exists j :: 0 <= j < |tx.accountKeys| && tx.accountKeys[j] in MonitoredWallets)
    ensures tx.preTokenBalances == [] && (forall j :: 0 <= j < |tx.accountKeys| ==> tx.accountKeys[j] !in MonitoredWallets)
            ==> !FilterTransaction(tx)
  {
  }

  /**
   * Either condition alone lets a transaction through: a monitored mint with
   * no monitored account, and a monitored wallet at the source index (not the
   * destination) with no balances at all, which the filter accepts although
   * building its record panics.
   */
  lemma EitherConditionSuffices()
    ensures FilterTransaction(Transaction(["s"], ["a", "b"],
                                          [TokenBalance("USDTMintAddress", UiTokenAmount("1", 6))]))
    ensures FilterTransaction(Transaction(["s"], ["WalletAddress1", "b"], []))
    ensures !CanStore(Transaction(["s"], ["WalletAddress1", "b"], []))
    ensures !FilterTransaction(Transaction(["s"], ["a", "b"], []))
  {
    var t1 := Transaction(["s"], ["a", "b"], [TokenBalance("USDTMintAddress", UiTokenAmount("1", 6))]);
    assert t1.preTokenBalances[0].mint in MonitoredTokens;
    var t2 := Transaction(["s"], ["WalletAddress1", "b"], []);
    assert t2.accountKeys[0] in MonitoredWallets;
    var t3 := Transaction(["s"], ["a", "b"], []);
    assert "a" != "WalletAddress1" && "a" != "WalletAddress2";
    assert "b" != "WalletAddress1" && "b" != "WalletAddress2";
    assert forall j :: 0 <= j < |t3.accountKeys| ==> t3.accountKeys[j] in {"a", "b"};
  }
}
