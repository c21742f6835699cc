/**
 * The transaction filter and normaliser
 * (internal/services/tokenTransactionProcessor/token_transaction_processsor.go).
 *
 * A `Service` holds the monitored token mints (always including the native
 * asset's "NativeSOL" sentinel) and the monitored destination wallets, both
 * fixed at construction. `ProcessTransaction` validates a transaction, takes
 * hash, source and destination by position, and calls the repository's
 * `Save` once for every pre-token-balance entry that passes the filters.
 *
 * The repository is modelled as the ghost sequence `saved` of the records
 * handed to `Save`, in call order. `Save`'s error is only logged, so it
 * never changes which entries are forwarded. An amount is kept as its raw
 * text and decimal exponent; whether the text parses as a number is the
 * `parses` oracle given at construction.
 */
module TokenTransactionProcessor {
  import opened Wrappers
  import Hex

  const NativeSolMint: string := "NativeSOL"

  datatype TokenAmount = TokenAmount(amount: string, decimals: nat)
  datatype TokenBalance = TokenBalance(mint: string, uiTokenAmount: TokenAmount)

  /** What the processor reads of a fetched transaction. Accounts are their base58 text. */
  datatype Transaction = Transaction(
    signatures: seq<seq<Hex.byte>>,
    accounts: seq<string>,
    preTokenBalances: seq<TokenBalance>)

  /** The values passed to one `Save` call (the processing-time timestamp is not modelled). */
  datatype Record = Record(hash: string, source: string, destination: string,
                           amount: TokenAmount, tokenMint: string)

  datatype ProcessError = NoSignatures | NotEnoughAccounts

  /** Result of processing one transaction: the returned error and the `Save` calls made. */
  datatype Outcome = Outcome(err: Option<ProcessError>, saves: seq<Record>)

  /** The token filter: the sentinel always passes, any other mint must be monitored. */
  predicate TokenPasses(tokens: set<string>, mint: string)
  {
    mint == NativeSolMint || mint in tokens
  }

  /** Whether one balance entry yields a `Save`: its amount parses and both filters pass. */
  predicate Selected(tokens: set<string>, wallets: set<string>, parses: string -> bool,
                     destination: string, b: TokenBalance)
  {
    parses(b.uiTokenAmount.amount) && TokenPasses(tokens, b.mint) && destination in wallets
  }

  function RecordOf(hash: string, source: string, destination: string, b: TokenBalance): Record
  {
    Record(hash, source, destination, b.uiTokenAmount, b.mint)
  }

  /** The records forwarded for a list of balance entries, in list order. */
  ghost function Forwarded(tokens: set<string>, wallets: set<string>, parses: string -> bool,
                           hash: string, source: string, destination: string,
                           balances: seq<TokenBalance>): seq<Record>
    decreases |balances|
  {
    if balances == [] then []
    else
      var last := balances[|balances| - 1];
      Forwarded(tokens, wallets, parses, hash, source, destination, balances[..|balances| - 1])
      + (if Selected(tokens, wallets, parses, destination, last)
         then [RecordOf(hash, source, destination, last)] else [])
  }

  /** What `ProcessTransaction` returns and forwards for `tx`. */
  ghost function Process(tokens: set<string>, wallets: set<string>, parses: string -> bool,
                         tx: Transaction): Outcome
  {
    if |tx.signatures| == 0 then Outcome(Some(NoSignatures), [])
    else if |tx.accounts| < 2 then Outcome(Some(NotEnoughAccounts), [])
    else Outcome(None, Forwarded(tokens, wallets, parses, Hex.Encode(tx.signatures[0]),
                                 tx.accounts[0], tx.accounts[1], tx.preTokenBalances))
  }

  /** `f(s[0]) + f(s[1]) + ...`: per-element results concatenated in order. */
  ghost function FlatMap<T, U>(f: T -> seq<U>, s: seq<T>): seq<U>
    decreases |s|
  {
    if s == [] then [] else FlatMap(f, s[..|s| - 1]) + f(s[|s| - 1])
  }

  /** The records saved while processing `txs` one after another, in call order. */
  ghost function Saves(tokens: set<string>, wallets: set<string>, parses: string -> bool,
                       txs: seq<Transaction>): seq<Record>
  {
    FlatMap(tx => Process(tokens, wallets, parses, tx).saves, txs)
  }

  /** The monitored mints: the sentinel plus every configured token. */
  method BuildTokenSet(tokens: seq<string>) returns (tokenSet: set<string>)
    ensures forall t :: t in tokenSet <==> t == NativeSolMint || t in tokens
  {
    tokenSet := {NativeSolMint};
    for i := 0 to |tokens|
      invariant forall t :: t in tokenSet <==> t == NativeSolMint || t in tokens[..i]
    {
      tokenSet := tokenSet + {tokens[i]};
    }
    assert tokens[..|tokens|] == tokens;
  }

  /** The monitored destinations: exactly the configured wallets. */
  method BuildWalletSet(wallets: seq<string>) returns (walletSet: set<string>)
    ensures forall w :: w in walletSet <==> w in wallets
  {
    walletSet := {};
    for i := 0 to |wallets|
      invariant forall w :: w in walletSet <==> w in wallets[..i]
    {
      walletSet := walletSet + {wallets[i]};
    }
    assert wallets[..|wallets|] == wallets;
  }

  class Service {
    const monitoredTokens: set<string>
    const monitoredWallets: set<string>
    /** Whether an amount's text parses as a number. */
    const parses: string -> bool
    /** The records handed to the repository's `Save`, oldest first. */
    ghost var saved: seq<Record>
    /** The transactions handed to `ProcessTransaction`, oldest first. */
    ghost var received: seq<Transaction>
    /** The records one `ProcessTransaction` call saves, per transaction (see `Valid`). */
    ghost const saveCalls: Transaction -> seq<Record>

    /** The records this service saves while processing `txs` in order. */
    ghost function SavesOf(txs: seq<Transaction>): seq<Record>
    {
      FlatMap(saveCalls, txs)
    }

    /** `saveCalls` is what `Process` saves. */
    ghost predicate Linked()
    {
      forall tx {:trigger Process(monitoredTokens, monitoredWallets, parses, tx)} ::
        saveCalls(tx) == Process(monitoredTokens, monitoredWallets, parses, tx).saves
    }

    constructor (tokens: seq<string>, wallets: seq<string>, parses: string -> bool)
      ensures forall t :: t in monitoredTokens <==> t == NativeSolMint || t in tokens
      ensures forall w :: w in monitoredWallets <==> w in wallets
      ensures this.parses == parses && saved == [] && received == []
      ensures Linked()
    {
      var tokenSet := BuildTokenSet(tokens);
      var walletSet := BuildWalletSet(wallets);
      monitoredTokens, monitoredWallets := tokenSet, walletSet;
      this.parses := parses;
      saveCalls := tx => Process(tokenSet, walletSet, parses, tx).saves;
      saved, received := [], [];
    }

    /**
     * Rejects a transaction without signatures, then one with fewer than two
     * accounts; otherwise forwards every selected balance entry and
     * succeeds, whatever happens to the individual entries.
     */
    method ProcessTransaction(tx: Transaction) returns (err: Option<ProcessError>)
      modifies this
      ensures err == Process(monitoredTokens, monitoredWallets, parses, tx).err
      ensures saved == old(saved) + Process(monitoredTokens, monitoredWallets, parses, tx).saves
      ensures received == old(received) + [tx]
    {
      received := received + [tx];
      if |tx.signatures| == 0 {
        return Some(NoSignatures);
      }
      var hash := Hex.Encode(tx.signatures[0]);
      if |tx.accounts| < 2 {
        return Some(NotEnoughAccounts);
      }
      var source := tx.accounts[0];
      var destination := tx.accounts[1];
      var balances := tx.preTokenBalances;
      if |balances| == 0 {
        return None;
      }
      for i := 0 to |balances|
        invariant received == old(received) + [tx]
        invariant saved == old(saved) + Forwarded(monitoredTokens, monitoredWallets, parses,
                                                  hash, source, destination, balances[..i])
      {
        var balance := balances[i];
        assert balances[..i + 1][..i] == balances[..i];
        if !parses(balance.uiTokenAmount.amount) {
          continue;
        }
        var token := balance.mint;
        var isNativeSol := token == NativeSolMint;
        if !isNativeSol && token !in monitoredTokens {
          continue;
        }
        if destination !in monitoredWallets {
          continue;
        }
        saved := saved + [RecordOf(hash, source, destination, balance)];
      }
      assert balances[..|balances|] == balances;
      return None;
    }
  }

  // ---- Properties of the specification ----

  /** The filter decomposes over concatenation: entries are handled independently and in order. */
  lemma {:induction false} ForwardedAppend(tokens: set<string>, wallets: set<string>,
                                           parses: string -> bool, hash: string, source: string,
                                           destination: string, a: seq<TokenBalance>,
                                           b: seq<TokenBalance>)
    ensures Forwarded(tokens, wallets, parses, hash, source, destination, a + b)
         == Forwarded(tokens, wallets, parses, hash, source, destination, a)
          + Forwarded(tokens, wallets, parses, hash, source, destination, b)
    decreases |b|
  {
    if b == [] {
      assert a + b == a;
    } else {
      var b' := b[..|b| - 1];
      assert (a + b)[..|a + b| - 1] == a + b';
      assert (a + b)[|a + b| - 1] == b[|b| - 1];
      ForwardedAppend(tokens, wallets, parses, hash, source, destination, a, b');
    }
  }

  lemma {:induction false} FlatMapAppend<T, U>(f: T -> seq<U>, a: seq<T>, b: seq<T>)
    ensures FlatMap(f, a + b) == FlatMap(f, a) + FlatMap(f, b)
    decreases |b|
  {
    if b == [] {
      assert a + b == a;
    } else {
      var b' := b[..|b| - 1];
      assert (a + b)[..|a + b| - 1] == a + b';
      assert (a + b)[|a + b| - 1] == b[|b| - 1];
      FlatMapAppend(f, a, b');
    }
  }

  lemma FlatMapSnoc<T, U>(f: T -> seq<U>, s: seq<T>, x: T)
    ensures FlatMap(f, s + [x]) == FlatMap(f, s) + f(x)
  {
    assert (s + [x])[..|s|] == s;
  }

  lemma {:induction false} FlatMapMembers<T, U>(f: T -> seq<U>, s: seq<T>)
    ensures forall u :: u in FlatMap(f, s) <==> exists j :: 0 <= j < |s| && u in f(s[j])
    decreases |s|
  {
    if s != [] {
      var init := s[..|s| - 1];
      FlatMapMembers(f, init);
      forall u
        ensures u in FlatMap(f, s) <==> exists j :: 0 <= j < |s| && u in f(s[j])
      {
        if exists j :: 0 <= j < |s| && u in f(s[j]) {
          var j :| 0 <= j < |s| && u in f(s[j]);
          if j < |s| - 1 {
            assert init[j] == s[j];
          }
        }
      }
    }
  }

  /** Processing `a` and then `b` saves what processing `a` saves, followed by what `b` saves. */
  lemma SavesAppend(tokens: set<string>, wallets: set<string>, parses: string -> bool,
                    a: seq<Transaction>, b: seq<Transaction>)
    ensures Saves(tokens, wallets, parses, a + b)
         == Saves(tokens, wallets, parses, a) + Saves(tokens, wallets, parses, b)
  {
    FlatMapAppend(tx => Process(tokens, wallets, parses, tx).saves, a, b);
  }

  lemma {:induction false} FlatMapAgree<T, U>(f: T -> seq<U>, g: T -> seq<U>, s: seq<T>)
    requires forall i :: 0 <= i < |s| ==> f(s[i]) == g(s[i])
    ensures FlatMap(f, s) == FlatMap(g, s)
    decreases |s|
  {
    if s != [] {
      FlatMapAgree(f, g, s[..|s| - 1]);
    }
  }

  /** A service saves, for any transactions, what the specification `Saves` prescribes. */
  lemma SavesOfIsSaves(p: Service, txs: seq<Transaction>)
    requires p.Linked()
    ensures p.SavesOf(txs) == Saves(p.monitoredTokens, p.monitoredWallets, p.parses, txs)
  {
    forall i | 0 <= i < |txs|
      ensures p.saveCalls(txs[i]) == Process(p.monitoredTokens, p.monitoredWallets, p.parses, txs[i]).saves
    {
    }
    FlatMapAgree(p.saveCalls, tx => Process(p.monitoredTokens, p.monitoredWallets, p.parses, tx).saves, txs);
  }

  /**
   * Over a sequence of transactions, a record is saved exactly when one of
   * them is well formed and has a balance entry that passes both filters and
   * yields that record.
   */
  lemma SavesExactly(tokens: set<string>, wallets: set<string>, parses: string -> bool,
                     txs: seq<Transaction>)
    ensures forall r :: r in Saves(tokens, wallets, parses, txs) <==>
      exists j, i :: 0 <= j < |txs| && |txs[j].signatures| > 0 && |txs[j].accounts| >= 2
        && 0 <= i < |txs[j].preTokenBalances|
        && Selected(tokens, wallets, parses, txs[j].accounts[1], txs[j].preTokenBalances[i])
        && r == RecordOf(Hex.Encode(txs[j].signatures[0]), txs[j].accounts[0], txs[j].accounts[1],
                         txs[j].preTokenBalances[i])
  {
    FlatMapMembers(tx => Process(tokens, wallets, parses, tx).saves, txs);
    forall j | 0 <= j < |txs| && |txs[j].signatures| > 0 && |txs[j].accounts| >= 2 {
      ForwardedExactly(tokens, wallets, parses, Hex.Encode(txs[j].signatures[0]),
                       txs[j].accounts[0], txs[j].accounts[1], txs[j].preTokenBalances);
    }
  }

  /**
   * The filter's iff-condition: a record is forwarded exactly when some entry
   * is selected and the record is built from that entry, so each entry
   * yields at most one record and there are never more records than entries.
   */
  lemma {:induction false} ForwardedExactly(tokens: set<string>, wallets: set<string>,
                                            parses: string -> bool, hash: string, source: string,
                                            destination: string, balances: seq<TokenBalance>)
    ensures var out := Forwarded(tokens, wallets, parses, hash, source, destination, balances);
      && |out| <= |balances|
      && forall r :: r in out <==>
           exists i :: 0 <= i < |balances| && Selected(tokens, wallets, parses, destination, balances[i])
                       && r == RecordOf(hash, source, destination, balances[i])
    decreases |balances|
  {
    if balances != [] {
      var init := balances[..|balances| - 1];
      ForwardedExactly(tokens, wallets, parses, hash, source, destination, init);
      var out := Forwarded(tokens, wallets, parses, hash, source, destination, balances);
      forall r
        ensures r in out <==>
          exists i :: 0 <= i < |balances| && Selected(tokens, wallets, parses, destination, balances[i])
                      && r == RecordOf(hash, source, destination, balances[i])
      {
        if r in out && r !in Forwarded(tokens, wallets, parses, hash, source, destination, init) {
          var last := |balances| - 1;
          assert Selected(tokens, wallets, parses, destination, balances[last])
              && r == RecordOf(hash, source, destination, balances[last]);
        }
        if exists i :: 0 <= i < |balances| && Selected(tokens, wallets, parses, destination, balances[i])
                       && r == RecordOf(hash, source, destination, balances[i]) {
          var i :| 0 <= i < |balances| && Selected(tokens, wallets, parses, destination, balances[i])
                   && r == RecordOf(hash, source, destination, balances[i]);
          if i < |balances| - 1 {
            assert init[i] == balances[i];
          }
        }
      }
    }
  }

  /** One entry on its own yields its record exactly when it is selected. */
  lemma ForwardedSingle(tokens: set<string>, wallets: set<string>, parses: string -> bool,
                        hash: string, source: string, destination: string, b: TokenBalance)
    ensures Forwarded(tokens, wallets, parses, hash, source, destination, [b])
         == if Selected(tokens, wallets, parses, destination, b)
            then [RecordOf(hash, source, destination, b)] else []
  {
    assert [b][..0] == [];
  }

  /** A destination outside the monitored wallets yields no `Save`, whatever the balances. */
  lemma {:induction false} UnmonitoredDestinationSavesNothing(
    tokens: set<string>, wallets: set<string>, parses: string -> bool,
    hash: string, source: string, destination: string, balances: seq<TokenBalance>)
    requires destination !in wallets
    ensures Forwarded(tokens, wallets, parses, hash, source, destination, balances) == []
    decreases |balances|
  {
    if balances != [] {
      UnmonitoredDestinationSavesNothing(tokens, wallets, parses, hash, source, destination,
                                         balances[..|balances| - 1]);
    }
  }

  /**
   * The structural checks run first and in order (signatures, then accounts),
   * and a rejected transaction is not forwarded; an accepted one always
   * succeeds, its records carry the hex of the first signature and the first
   * two accounts, and an empty balance list forwards nothing.
   */
  lemma ProcessShape(tokens: set<string>, wallets: set<string>, parses: string -> bool,
                     tx: Transaction)
    ensures var o := Process(tokens, wallets, parses, tx);
      && (|tx.signatures| == 0 ==> o == Outcome(Some(NoSignatures), []))
      && (|tx.signatures| > 0 && |tx.accounts| < 2 ==> o == Outcome(Some(NotEnoughAccounts), []))
      && (|tx.signatures| > 0 && |tx.accounts| >= 2 ==> o.err == None)
      && (tx.preTokenBalances == [] ==> o.saves == [])
      && (forall r :: r in o.saves ==>
            && r.hash == Hex.Encode(tx.signatures[0])
            && |r.hash| == 2 * |tx.signatures[0]|
            && r.source == tx.accounts[0] && r.destination == tx.accounts[1])
  {
    var o := Process(tokens, wallets, parses, tx);
    if |tx.signatures| > 0 && |tx.accounts| >= 2 {
      var hash := Hex.Encode(tx.signatures[0]);
      ForwardedExactly(tokens, wallets, parses, hash, tx.accounts[0], tx.accounts[1], tx.preTokenBalances);
      forall r | r in o.saves
        ensures r.hash == hash && r.source == tx.accounts[0] && r.destination == tx.accounts[1]
      {
        var i :| 0 <= i < |tx.preTokenBalances|
          && Selected(tokens, wallets, parses, tx.accounts[1], tx.preTokenBalances[i])
          && r == RecordOf(hash, tx.accounts[0], tx.accounts[1], tx.preTokenBalances[i]);
      }
    }
  }

  /**
   * For a token set built by the constructor the sentinel test is redundant:
   * the token filter is plain membership.
   */
  lemma SentinelTestRedundant(tokens: seq<string>, tokenSet: set<string>, mint: string)
    requires forall t :: t in tokenSet <==> t == NativeSolMint || t in tokens
    ensures TokenPasses(tokenSet, mint) <==> mint in tokenSet
  {
  }
}
