/**
 * The backfill engine (internal/services/backfillTransaction/backfill_transaction.go).
 *
 * `BackfillMissedBlocks` reads the chain height and the stored checkpoint,
 * splits `[checkpoint + 1, height]` into chunks of `chunkSize` blocks, and
 * runs every block of every chunk through up to three attempts of
 * `ProcessBlock`: fetch the block, hand each of its transactions to the
 * token transaction processor (ignoring that processor's errors), then
 * overwrite the checkpoint with the block's height.
 *
 * The Go code runs chunks and blocks in goroutines behind a semaphore; the
 * model runs them one after another in ascending order. The chain is a map
 * from height to an optional block, plus an oracle for transient fetch
 * failures per (height, attempt); checkpoint writes fail per the oracle
 * `writeFails`. The ghost log `attempts` records every `ProcessBlock` call.
 */
module BackfillTransaction {
  import opened Wrappers
  import Hex
  import P = TokenTransactionProcessor

  /** Attempts `retry.Do` makes for one block. */
  const MaxBlockAttempts: nat := 3

  /** One transaction as the block fetch returns it, before conversion. */
  datatype BlockTransaction = BlockTransaction(wire: seq<Hex.byte>)

  datatype Block = Block(parentSlot: int, blockTime: Option<int>, transactions: seq<BlockTransaction>)

  /**
   * The chain client: `blocks[h] == None` (or `h` absent) means the node
   * answers with an error for height `h`; `fetchFails(h, k)` is a transient
   * error on the k-th attempt at `h`.
   */
  datatype Chain = Chain(blocks: map<int, Option<Block>>, fetchFails: (int, int) -> bool)

  /** One call of `ProcessBlock`: which block, which attempt (from 1), whether it returned nil. */
  datatype Attempt = Attempt(block: int, attempt: int, ok: bool)

  datatype BackfillError =
    | HeightUnavailable
    | CheckpointUnavailable
    | FetchFailed(block: int)
    | CheckpointWriteFailed(block: int)

  /**
   * How `BackfillMissedBlocks` ends: `Diverges` stands for a run that never
   * returns, `SemaphorePanic` for the run-time panic of creating the
   * semaphore channel with a negative capacity.
   */
  datatype RunResult = Done | Failed(error: BackfillError) | Diverges | SemaphorePanic

  /** What `GetLastProcessedBlock` reads: 0 when no checkpoint document exists. */
  function StoredHeight(checkpoint: Option<int>): int
  {
    match checkpoint
    case None => 0
    case Some(h) => h
  }

  function FetchBlock(chain: Chain, h: int, k: int): Option<Block>
  {
    if h in chain.blocks && chain.blocks[h].Some? && !chain.fetchFails(h, k) then chain.blocks[h]
    else None
  }

  /** Last block of the chunk that starts at `start`. */
  function CalculateEndBlock(start: int, currentBlock: int, chunkSize: int): (end: int)
    ensures end <= currentBlock && end <= start + chunkSize - 1
    ensures end == currentBlock || end == start + chunkSize - 1
    ensures chunkSize >= 1 && start <= currentBlock ==> start <= end
  {
    var end := start + chunkSize - 1;
    if end > currentBlock then currentBlock else end
  }

  /** The chunks the loop of `BackfillMissedBlocks` schedules from `start` on. */
  function Chunks(start: int, currentBlock: int, chunkSize: int): seq<(int, int)>
    requires chunkSize >= 1
    decreases if start > currentBlock then 0 else currentBlock - start + 1
  {
    if start > currentBlock then []
    else [(start, CalculateEndBlock(start, currentBlock, chunkSize))]
         + Chunks(start + chunkSize, currentBlock, chunkSize)
  }

  // ---- The specification of a run, block by block ----

  /** `run(lo) + run(lo + 1) + ... + run(hi)`: per-unit results concatenated in ascending order. */
  function Concat<T>(run: int -> seq<T>, lo: int, hi: int): seq<T>
    decreases if hi < lo then 0 else hi - lo + 1
  {
    if hi < lo then [] else Concat(run, lo, hi - 1) + run(hi)
  }

  /** Number of entries of `log` that are attempts at block `b`. */
  function AttemptsAtBlock(log: seq<Attempt>, b: int): nat
    decreases |log|
  {
    if log == [] then 0
    else AttemptsAtBlock(log[..|log| - 1], b) + (if log[|log| - 1].block == b then 1 else 0)
  }

  /** The checkpoint after units lo..hi ran in ascending order, each success overwriting it. */
  function LastSuccess(checkpoint: Option<int>, succeeded: int -> bool, lo: int, hi: int): Option<int>
    decreases if hi < lo then 0 else hi - lo + 1
  {
    if hi < lo then checkpoint
    else if succeeded(hi) then Some(hi)
    else LastSuccess(checkpoint, succeeded, lo, hi - 1)
  }

  /** The processor inputs converted from a block's transactions, in block order. */
  function Converted(convert: (BlockTransaction, int, Option<int>) -> P.Transaction, b: Block): (txs: seq<P.Transaction>)
    ensures |txs| == |b.transactions|
    ensures forall i :: 0 <= i < |txs| ==> txs[i] == convert(b.transactions[i], b.parentSlot, b.blockTime)
  {
    seq(|b.transactions|, i requires 0 <= i < |b.transactions| => convert(b.transactions[i], b.parentSlot, b.blockTime))
  }

  /** Whether the k-th attempt at block `h` returns nil: fetched, and checkpoint written. */
  predicate AttemptOk(chain: Chain, writeFails: (int, int) -> bool, h: int, k: int)
  {
    FetchBlock(chain, h, k).Some? && !writeFails(h, k)
  }

  /**
   * The number of attempts `retry.Do` makes at block `h` when it has reached
   * attempt k: it stops at the first success or after the third attempt.
   */
  function AttemptsMade(chain: Chain, writeFails: (int, int) -> bool, h: int, k: nat): (n: nat)
    requires 1 <= k <= MaxBlockAttempts
    ensures k <= n <= MaxBlockAttempts
    ensures n < MaxBlockAttempts ==> AttemptOk(chain, writeFails, h, n)
    ensures forall j :: k <= j < n ==> !AttemptOk(chain, writeFails, h, j)
    decreases MaxBlockAttempts - k
  {
    if AttemptOk(chain, writeFails, h, k) || k == MaxBlockAttempts then k
    else AttemptsMade(chain, writeFails, h, k + 1)
  }

  /** Whether block `h` ends processed: its last attempt succeeded. */
  predicate Succeeds(chain: Chain, writeFails: (int, int) -> bool, h: int)
  {
    AttemptOk(chain, writeFails, h, AttemptsMade(chain, writeFails, h, 1))
  }

  /** The log entry of each attempt at block `h`. */
  function AttemptLog(chain: Chain, writeFails: (int, int) -> bool, h: int): int -> seq<Attempt>
  {
    k => [Attempt(h, k, AttemptOk(chain, writeFails, h, k))]
  }

  /** The transactions each attempt at block `h` hands to the processor: none when the fetch fails. */
  function AttemptTxs(convert: (BlockTransaction, int, Option<int>) -> P.Transaction,
                      chain: Chain, h: int): int -> seq<P.Transaction>
  {
    k => if FetchBlock(chain, h, k).Some? then Converted(convert, FetchBlock(chain, h, k).value) else []
  }

  /** The attempts made at block `h`, one entry per `ProcessBlock` call. */
  function BlockAttemptsAt(chain: Chain, writeFails: (int, int) -> bool, h: int): seq<Attempt>
  {
    Concat(AttemptLog(chain, writeFails, h), 1, AttemptsMade(chain, writeFails, h, 1))
  }

  /** The transactions handed to the processor while processing block `h`, over all its attempts. */
  function BlockTxsAt(convert: (BlockTransaction, int, Option<int>) -> P.Transaction,
                      chain: Chain, writeFails: (int, int) -> bool, h: int): seq<P.Transaction>
  {
    Concat(AttemptTxs(convert, chain, h), 1, AttemptsMade(chain, writeFails, h, 1))
  }

  /** `BlockAttemptsAt` for every block. */
  function BlockAttempts(chain: Chain, writeFails: (int, int) -> bool): int -> seq<Attempt>
  {
    h => BlockAttemptsAt(chain, writeFails, h)
  }

  /** `BlockTxsAt` for every block. */
  function BlockTxs(convert: (BlockTransaction, int, Option<int>) -> P.Transaction,
                    chain: Chain, writeFails: (int, int) -> bool): int -> seq<P.Transaction>
  {
    h => BlockTxsAt(convert, chain, writeFails, h)
  }

  /** Which blocks end processed. */
  function BlockSucceeds(chain: Chain, writeFails: (int, int) -> bool): int -> bool
  {
    h => Succeeds(chain, writeFails, h)
  }

  class Service {
    /** The chain client. */
    const chain: Chain
    /** Whether the metadata store fails the checkpoint write of the k-th attempt at a block. */
    const writeFails: (int, int) -> bool
    const processor: P.Service
    const chunkSize: int
    /** The capacity of the semaphore shared by all block goroutines of a run. */
    const maxConcurrency: int
    /** `utils.ConvertToClientTransaction`, which is not part of this model. */
    const convert: (BlockTransaction, int, Option<int>) -> P.Transaction
    /** The checkpoint document of the metadata store; `None` when none exists. */
    var checkpoint: Option<int>
    /** Every `ProcessBlock` call, oldest first. */
    ghost var attempts: seq<Attempt>
    /** Per block: what the processor receives, the attempts made, and whether it ends processed. */
    ghost const blockTxs: int -> seq<P.Transaction>
    ghost const blockAttempts: int -> seq<Attempt>
    ghost const blockSucceeds: int -> bool

    /** The per-block outcomes are those of the block specification functions. */
    ghost predicate Valid()
    {
      && processor.Linked()
      && forall h {:trigger BlockTxsAt(convert, chain, writeFails, h)} ::
        && blockTxs(h) == BlockTxsAt(convert, chain, writeFails, h)
        && blockAttempts(h) == BlockAttemptsAt(chain, writeFails, h)
        && blockSucceeds(h) == Succeeds(chain, writeFails, h)
    }

    constructor (chain: Chain, writeFails: (int, int) -> bool, processor: P.Service, chunkSize: int,
                 maxConcurrency: int, convert: (BlockTransaction, int, Option<int>) -> P.Transaction,
                 checkpoint: Option<int>)
      requires processor.Linked()
      ensures this.chain == chain && this.writeFails == writeFails
      ensures this.processor == processor && this.chunkSize == chunkSize
      ensures this.maxConcurrency == maxConcurrency && this.convert == convert
      ensures this.checkpoint == checkpoint && attempts == []
      ensures blockTxs == BlockTxs(convert, chain, writeFails)
      ensures blockAttempts == BlockAttempts(chain, writeFails)
      ensures blockSucceeds == BlockSucceeds(chain, writeFails)
      ensures Valid()
    {
      this.chain := chain;
      this.writeFails := writeFails;
      this.processor := processor;
      this.chunkSize := chunkSize;
      this.maxConcurrency := maxConcurrency;
      this.convert := convert;
      this.checkpoint := checkpoint;
      attempts := [];
      blockTxs := BlockTxs(convert, chain, writeFails);
      blockAttempts := BlockAttempts(chain, writeFails);
      blockSucceeds := BlockSucceeds(chain, writeFails);
    }

    /** Reads the checkpoint; a missing document reads as 0, a failing read is an error. */
    method GetLastProcessedBlock(readFails: bool) returns (r: Option<int>)
      ensures readFails <==> r == None
      ensures r.Some? ==> r.value == StoredHeight(checkpoint)
      ensures checkpoint == None && !readFails ==> r == Some(0)
    {
      if readFails {
        return None;
      }
      return Some(StoredHeight(checkpoint));
    }

    /** Overwrites the checkpoint (an upsert with `$set`): idempotent and not monotone. */
    method UpdateLastProcessedBlock(h: int, fails: bool) returns (ok: bool)
      modifies this`checkpoint
      ensures ok == !fails
      ensures checkpoint == if fails then old(checkpoint) else Some(h)
    {
      if fails {
        return false;
      }
      checkpoint := Some(h);
      return true;
    }

    /**
     * One attempt at block `h`: a failed fetch returns an error and touches
     * nothing; otherwise every transaction is processed (errors ignored) and
     * only then is the checkpoint set to `h`, whose failure fails the attempt.
     */
    method ProcessBlock(h: int, k: int)
      returns (err: Option<BackfillError>)
      requires processor.Linked()
      modifies this, processor
      ensures err == None <==> AttemptOk(chain, writeFails, h, k)
      ensures FetchBlock(chain, h, k) == None ==> err == Some(FetchFailed(h))
      ensures FetchBlock(chain, h, k).Some? && writeFails(h, k) ==> err == Some(CheckpointWriteFailed(h))
      ensures checkpoint == if err == None then Some(h) else old(checkpoint)
      ensures processor.received == old(processor.received) + AttemptTxs(convert, chain, h)(k)
      ensures processor.saved == old(processor.saved) + processor.SavesOf(AttemptTxs(convert, chain, h)(k))
      ensures attempts == old(attempts) + [Attempt(h, k, err == None)]
    {
      var fetched := FetchBlock(chain, h, k);
      if fetched == None {
        attempts := attempts + [Attempt(h, k, false)];
        return Some(FetchFailed(h));
      }
      ProcessTransactions(fetched.value);
      var written := UpdateLastProcessedBlock(h, writeFails(h, k));
      if !written {
        attempts := attempts + [Attempt(h, k, false)];
        return Some(CheckpointWriteFailed(h));
      }
      attempts := attempts + [Attempt(h, k, true)];
      return None;
    }

    /**
     * The transaction loop of `ProcessBlock`: every transaction of the block
     * is converted and handed to the processor in block order; its error is
     * only logged.
     */
    method ProcessTransactions(block: Block)
      requires processor.Linked()
      modifies processor
      ensures processor.received == old(processor.received) + Converted(convert, block)
      ensures processor.saved == old(processor.saved) + processor.SavesOf(Converted(convert, block))
    {
      var txs := block.transactions;
      for i := 0 to |txs|
        invariant processor.received
               == old(processor.received) + Converted(convert, block)[..i]
        invariant processor.saved
               == old(processor.saved) + processor.SavesOf(Converted(convert, block)[..i])
      {
        var clientTx := convert(txs[i], block.parentSlot, block.blockTime);
        var _ := processor.ProcessTransaction(clientTx);
        assert Converted(convert, block)[..i + 1] == Converted(convert, block)[..i] + [clientTx];
        P.FlatMapSnoc(processor.saveCalls, Converted(convert, block)[..i], clientTx);
      }
      assert Converted(convert, block)[..|txs|] == Converted(convert, block);
    }

    /** `retry.Do` around `ProcessBlock`: up to three attempts, stopping at the first success. */
    method ProcessBlockWithRetry(h: int) returns (err: Option<BackfillError>)
      requires Valid()
      modifies this, processor
      ensures err == None <==> blockSucceeds(h)
      ensures checkpoint == if err == None then Some(h) else old(checkpoint)
      ensures processor.received == old(processor.received) + blockTxs(h)
      ensures processor.saved == old(processor.saved) + processor.SavesOf(blockTxs(h))
      ensures attempts == old(attempts) + blockAttempts(h)
    {
      // no attempt made yet: the loop runs at least once
      var k := 0;
      err := Some(FetchFailed(h));
      while err != None && k < MaxBlockAttempts
        invariant 0 <= k <= MaxBlockAttempts
        invariant k == 0 ==> err != None && checkpoint == old(checkpoint)
        invariant k >= 1 ==> (err == None <==> AttemptOk(chain, writeFails, h, k))
        invariant forall j :: 1 <= j < k ==> !AttemptOk(chain, writeFails, h, j)
        invariant k >= 1 ==> checkpoint == if err == None then Some(h) else old(checkpoint)
        invariant processor.received == old(processor.received) + Concat(AttemptTxs(convert, chain, h), 1, k)
        invariant processor.saved == old(processor.saved) + processor.SavesOf(Concat(AttemptTxs(convert, chain, h), 1, k))
        invariant attempts == old(attempts) + Concat(AttemptLog(chain, writeFails, h), 1, k)
        decreases MaxBlockAttempts - k
      {
        k := k + 1;
        ghost var received, saved, log := processor.received, processor.saved, attempts;
        err := ProcessBlock(h, k);
        ConcatExtend(old(processor.received), received, processor.received, AttemptTxs(convert, chain, h), 1, k);
        SavesExtend(processor, old(processor.saved), saved, processor.saved, AttemptTxs(convert, chain, h), 1, k);
        ConcatExtend(old(attempts), log, attempts, AttemptLog(chain, writeFails, h), 1, k);
      }
      RetryStops(convert, chain, writeFails, h, k);
    }

    /** Every block of one chunk, in ascending order, each with its own retries. */
    method ProcessBlockRange(start: int, end: int)
      requires Valid()
      modifies this, processor
      ensures checkpoint == LastSuccess(old(checkpoint), blockSucceeds, start, end)
      ensures processor.received == old(processor.received) + Concat(blockTxs, start, end)
      ensures processor.saved == old(processor.saved) + processor.SavesOf(Concat(blockTxs, start, end))
      ensures attempts == old(attempts) + Concat(blockAttempts, start, end)
    {
      var block := start;
      while block <= end
        invariant start <= block && (block <= end + 1 || block == start)
        invariant checkpoint == LastSuccess(old(checkpoint), blockSucceeds, start, block - 1)
        invariant processor.received == old(processor.received) + Concat(blockTxs, start, block - 1)
        invariant processor.saved == old(processor.saved) + processor.SavesOf(Concat(blockTxs, start, block - 1))
        invariant attempts == old(attempts) + Concat(blockAttempts, start, block - 1)
        decreases end - block
      {
        ghost var received, saved, log, cp := processor.received, processor.saved, attempts, checkpoint;
        var _ := ProcessBlockWithRetry(block);
        ConcatExtend(old(processor.received), received, processor.received, blockTxs, start, block);
        SavesExtend(processor, old(processor.saved), saved, processor.saved, blockTxs, start, block);
        ConcatExtend(old(attempts), log, attempts, blockAttempts, start, block);
        LastSuccessExtend(old(checkpoint), cp, checkpoint, blockSucceeds, start, block);
        block := block + 1;
      }
    }

    /**
     * A run: a failing height or checkpoint read is returned before any block
     * is attempted. Then the semaphore is created, which panics for a
     * negative `maxConcurrency`. With nothing to do the run ends at once.
     * With blocks to do, `chunkSize <= 0` makes the chunk loop endless and
     * `maxConcurrency == 0` blocks every chunk on its first acquire, so the
     * run never returns. Otherwise every block of `[checkpoint + 1, height]`
     * is processed chunk by chunk and the run returns nil whatever happened
     * to the blocks.
     */
    method BackfillMissedBlocks(height: Option<int>, checkpointReadFails: bool)
      returns (result: RunResult, ghost chunks: seq<(int, int)>)
      requires Valid()
      modifies this, processor
      ensures height == None ==> result == Failed(HeightUnavailable)
      ensures height.Some? && checkpointReadFails ==> result == Failed(CheckpointUnavailable)
      ensures result.Failed? ==> height == None || checkpointReadFails
      ensures result != Done ==>
        && checkpoint == old(checkpoint) && attempts == old(attempts)
        && processor.received == old(processor.received) && processor.saved == old(processor.saved)
        && chunks == []
      ensures height.Some? && !checkpointReadFails ==>
        var last, current := StoredHeight(old(checkpoint)), height.value;
        && (result == SemaphorePanic <==> maxConcurrency < 0)
        && (result == Diverges <==>
              maxConcurrency >= 0 && last < current && (chunkSize <= 0 || maxConcurrency == 0))
        && (result == Done ==>
              && chunks == (if chunkSize >= 1 then Chunks(last + 1, current, chunkSize) else [])
              && checkpoint == LastSuccess(old(checkpoint), blockSucceeds, last + 1, current)
              && processor.received == old(processor.received)
                                    + Concat(blockTxs, last + 1, current)
              && processor.saved == old(processor.saved)
                                 + processor.SavesOf(Concat(blockTxs, last + 1, current))
              && attempts == old(attempts) + Concat(blockAttempts, last + 1, current))
    {
      chunks := [];
      if height == None {
        return Failed(HeightUnavailable), chunks;
      }
      var currentBlock := height.value;
      var lastProcessed := GetLastProcessedBlock(checkpointReadFails);
      if lastProcessed == None {
        return Failed(CheckpointUnavailable), chunks;
      }
      if maxConcurrency < 0 {
        // `make(chan struct{}, n)` with a negative capacity
        return SemaphorePanic, chunks;
      }
      var first := lastProcessed.value + 1;
      if first <= currentBlock && (chunkSize <= 0 || maxConcurrency == 0) {
        // `start += chunkSize` never passes `currentBlock`, or every send on the
        // unbuffered semaphore waits for a receive that never comes
        return Diverges, chunks;
      }
      assert first == StoredHeight(old(checkpoint)) + 1;
      result := Done;
      if chunkSize >= 1 {
        chunks := ProcessChunks(first, currentBlock);
      }
    }

    /**
     * The chunk loop of `BackfillMissedBlocks`: chunks of `chunkSize` blocks
     * from `first` up to `currentBlock`, the last one cut at `currentBlock`.
     */
    method ProcessChunks(first: int, currentBlock: int) returns (ghost chunks: seq<(int, int)>)
      requires Valid() && chunkSize >= 1
      modifies this, processor
      ensures chunks == Chunks(first, currentBlock, chunkSize)
      ensures checkpoint == LastSuccess(old(checkpoint), blockSucceeds, first, currentBlock)
      ensures processor.received == old(processor.received) + Concat(blockTxs, first, currentBlock)
      ensures processor.saved == old(processor.saved) + processor.SavesOf(Concat(blockTxs, first, currentBlock))
      ensures attempts == old(attempts) + Concat(blockAttempts, first, currentBlock)
    {
      chunks := [];
      var start := first;
      ghost var done := first - 1;
      while start <= currentBlock
        invariant first <= start
        invariant start <= currentBlock ==> done == start - 1
        invariant start > currentBlock ==> done == currentBlock || (start == first && done == first - 1)
        invariant chunks + Chunks(start, currentBlock, chunkSize) == Chunks(first, currentBlock, chunkSize)
        invariant checkpoint == LastSuccess(old(checkpoint), blockSucceeds, first, done)
        invariant processor.received == old(processor.received) + Concat(blockTxs, first, done)
        invariant processor.saved == old(processor.saved) + processor.SavesOf(Concat(blockTxs, first, done))
        invariant attempts == old(attempts) + Concat(blockAttempts, first, done)
        decreases currentBlock - start + 1
      {
        var end := CalculateEndBlock(start, currentBlock, chunkSize);
        ChunksStep(chunks, start, currentBlock, chunkSize);
        chunks := chunks + [(start, end)];
        ghost var received, saved, log, cp := processor.received, processor.saved, attempts, checkpoint;
        ProcessBlockRange(start, end);
        ConcatJoin(old(processor.received), received, processor.received, blockTxs, first, done, end);
        SavesJoin(processor, old(processor.saved), saved, processor.saved, blockTxs, first, done, end);
        ConcatJoin(old(attempts), log, attempts, blockAttempts, first, done, end);
        LastSuccessJoin(old(checkpoint), cp, checkpoint, blockSucceeds, first, done, end);
        start, done := start + chunkSize, end;
      }
    }
  }

  // ---- Properties ----

  /** One more unit appended to a run: the step the block loops take. */
  lemma ConcatExtend<T>(s0: seq<T>, s1: seq<T>, s2: seq<T>, run: int -> seq<T>, lo: int, hi: int)
    requires lo <= hi
    requires s1 == s0 + Concat(run, lo, hi - 1)
    requires s2 == s1 + run(hi)
    ensures s2 == s0 + Concat(run, lo, hi)
  {
  }

  /** One more unit appended to a run, on the records the processor saves. */
  lemma SavesExtend(p: P.Service, s0: seq<P.Record>, s1: seq<P.Record>, s2: seq<P.Record>,
                    run: int -> seq<P.Transaction>, lo: int, hi: int)
    requires lo <= hi
    requires s1 == s0 + p.SavesOf(Concat(run, lo, hi - 1))
    requires s2 == s1 + p.SavesOf(run(hi))
    ensures s2 == s0 + p.SavesOf(Concat(run, lo, hi))
  {
    P.FlatMapAppend(p.saveCalls, Concat(run, lo, hi - 1), run(hi));
  }

  /** A whole chunk appended to a run, on the records the processor saves. */
  lemma SavesJoin(p: P.Service, s0: seq<P.Record>, s1: seq<P.Record>, s2: seq<P.Record>,
                  run: int -> seq<P.Transaction>, lo: int, mid: int, hi: int)
    requires lo - 1 <= mid <= hi
    requires s1 == s0 + p.SavesOf(Concat(run, lo, mid))
    requires s2 == s1 + p.SavesOf(Concat(run, mid + 1, hi))
    ensures s2 == s0 + p.SavesOf(Concat(run, lo, hi))
  {
    ConcatSplit(run, lo, mid, hi);
    P.FlatMapAppend(p.saveCalls, Concat(run, lo, mid), Concat(run, mid + 1, hi));
  }

  /** One more unit on the checkpoint: it moves to that unit exactly when the unit succeeds. */
  lemma LastSuccessExtend(c0: Option<int>, c1: Option<int>, c2: Option<int>, succeeded: int -> bool, lo: int, hi: int)
    requires lo <= hi
    requires c1 == LastSuccess(c0, succeeded, lo, hi - 1)
    requires c2 == if succeeded(hi) then Some(hi) else c1
    ensures c2 == LastSuccess(c0, succeeded, lo, hi)
  {
  }

  /** The chunk loop schedules `[start, end]` and continues at `start + chunkSize`. */
  lemma ChunksStep(done: seq<(int, int)>, start: int, currentBlock: int, chunkSize: int)
    requires chunkSize >= 1 && start <= currentBlock
    ensures done + Chunks(start, currentBlock, chunkSize)
         == (done + [(start, CalculateEndBlock(start, currentBlock, chunkSize))]) + Chunks(start + chunkSize, currentBlock, chunkSize)
  {
  }

  /** A whole chunk appended to a run. */
  lemma ConcatJoin<T>(s0: seq<T>, s1: seq<T>, s2: seq<T>, run: int -> seq<T>, lo: int, mid: int, hi: int)
    requires lo - 1 <= mid <= hi
    requires s1 == s0 + Concat(run, lo, mid)
    requires s2 == s1 + Concat(run, mid + 1, hi)
    ensures s2 == s0 + Concat(run, lo, hi)
  {
    ConcatSplit(run, lo, mid, hi);
  }

  /** A whole chunk on the checkpoint. */
  lemma LastSuccessJoin(c0: Option<int>, c1: Option<int>, c2: Option<int>, succeeded: int -> bool, lo: int, mid: int, hi: int)
    requires lo - 1 <= mid <= hi
    requires c1 == LastSuccess(c0, succeeded, lo, mid)
    requires c2 == LastSuccess(c1, succeeded, mid + 1, hi)
    ensures c2 == LastSuccess(c0, succeeded, lo, hi)
  {
    LastSuccessSplit(c0, succeeded, lo, mid, hi);
  }

  /** Running `lo..mid` and then `mid+1..hi` is running `lo..hi`. */
  lemma {:induction false} ConcatSplit<T>(run: int -> seq<T>, lo: int, mid: int, hi: int)
    requires lo - 1 <= mid <= hi
    ensures Concat(run, lo, hi) == Concat(run, lo, mid) + Concat(run, mid + 1, hi)
    decreases hi - mid
  {
    if mid < hi {
      ConcatSplit(run, lo, mid, hi - 1);
    }
  }

  lemma {:induction false} LastSuccessSplit(checkpoint: Option<int>, succeeded: int -> bool, lo: int, mid: int, hi: int)
    requires lo - 1 <= mid <= hi
    ensures LastSuccess(checkpoint, succeeded, lo, hi)
         == LastSuccess(LastSuccess(checkpoint, succeeded, lo, mid), succeeded, mid + 1, hi)
    decreases hi - mid
  {
    if mid < hi {
      LastSuccessSplit(checkpoint, succeeded, lo, mid, hi - 1);
    }
  }

  /** The attempt at which the retries stop is the first success, or the third attempt. */
  lemma AttemptsMadeIsFirstSuccess(chain: Chain, writeFails: (int, int) -> bool, h: int, n: int)
    requires 1 <= n <= MaxBlockAttempts
    requires n < MaxBlockAttempts ==> AttemptOk(chain, writeFails, h, n)
    requires forall j :: 1 <= j < n ==> !AttemptOk(chain, writeFails, h, j)
    ensures AttemptsMade(chain, writeFails, h, 1) == n
  {
  }

  /** Where the retries at block `h` stop, the per-block specification is met. */
  lemma RetryStops(convert: (BlockTransaction, int, Option<int>) -> P.Transaction,
                   chain: Chain, writeFails: (int, int) -> bool, h: int, k: int)
    requires 1 <= k <= MaxBlockAttempts
    requires AttemptOk(chain, writeFails, h, k) || k == MaxBlockAttempts
    requires forall j :: 1 <= j < k ==> !AttemptOk(chain, writeFails, h, j)
    ensures BlockTxsAt(convert, chain, writeFails, h) == Concat(AttemptTxs(convert, chain, h), 1, k)
    ensures BlockAttemptsAt(chain, writeFails, h) == Concat(AttemptLog(chain, writeFails, h), 1, k)
    ensures Succeeds(chain, writeFails, h) <==> AttemptOk(chain, writeFails, h, k)
  {
    AttemptsMadeIsFirstSuccess(chain, writeFails, h, k);
  }

  /**
   * The chunks of a run partition `[start, currentBlock]`: the first starts
   * at `start`, each starts right after the previous one ends, each holds at
   * least one and at most `chunkSize` blocks, and the last ends at `currentBlock`.
   */
  lemma {:induction false} ChunksPartition(start: int, currentBlock: int, chunkSize: int)
    requires chunkSize >= 1
    ensures var cs := Chunks(start, currentBlock, chunkSize);
      && (cs == [] <==> start > currentBlock)
      && (cs != [] ==> cs[0].0 == start && cs[|cs| - 1].1 == currentBlock)
      && (forall i :: 0 <= i < |cs| ==> cs[i].0 <= cs[i].1 < cs[i].0 + chunkSize)
      && (forall i :: 0 < i < |cs| ==> cs[i].0 == cs[i - 1].1 + 1)
    decreases if start > currentBlock then 0 else currentBlock - start + 1
  {
    if start <= currentBlock {
      ChunksPartition(start + chunkSize, currentBlock, chunkSize);
      var end := CalculateEndBlock(start, currentBlock, chunkSize);
      var rest := Chunks(start + chunkSize, currentBlock, chunkSize);
      assert Chunks(start, currentBlock, chunkSize) == [(start, end)] + rest;
      assert rest != [] ==> rest[0].0 == end + 1;
    }
  }

  /** `Concat` of the per-attempt log over attempts 1..n: one entry per attempt, in order. */
  lemma {:induction false} AttemptLogEntries(chain: Chain, writeFails: (int, int) -> bool, h: int, n: int)
    requires n >= 0
    ensures var log := Concat(AttemptLog(chain, writeFails, h), 1, n);
      && |log| == n
      && forall i :: 0 <= i < n ==> log[i] == Attempt(h, i + 1, AttemptOk(chain, writeFails, h, i + 1))
    decreases n
  {
    if n > 0 {
      AttemptLogEntries(chain, writeFails, h, n - 1);
    }
  }

  /**
   * The attempts at one block: attempts 1, 2, ... in order, at least one and
   * at most three; every attempt but the last failed, the last one succeeded
   * exactly when the block ends processed, and fewer than three attempts means
   * the last one succeeded.
   */
  lemma BlockAttemptsShape(chain: Chain, writeFails: (int, int) -> bool, h: int)
    ensures var log := BlockAttemptsAt(chain, writeFails, h);
      && 1 <= |log| <= MaxBlockAttempts
      && (forall i :: 0 <= i < |log| ==> log[i].block == h && log[i].attempt == i + 1
                                         && log[i].ok == AttemptOk(chain, writeFails, h, i + 1))
      && (forall i :: 0 <= i < |log| - 1 ==> !log[i].ok)
      && (log[|log| - 1].ok <==> Succeeds(chain, writeFails, h))
      && (|log| < MaxBlockAttempts ==> log[|log| - 1].ok)
  {
    AttemptLogEntries(chain, writeFails, h, AttemptsMade(chain, writeFails, h, 1));
  }

  /**
   * The attempts of a run over `[lo, hi]`: every block of the range is
   * attempted at least once and at most three times, and nothing outside
   * it is attempted.
   */
  lemma RunAttempts(chain: Chain, writeFails: (int, int) -> bool, lo: int, hi: int)
    ensures var log := Concat(BlockAttempts(chain, writeFails), lo, hi);
      && (lo <= hi ==> hi - lo + 1 <= |log| <= MaxBlockAttempts * (hi - lo + 1))
      && (hi < lo ==> log == [])
      && (forall i :: 0 <= i < |log| ==> lo <= log[i].block <= hi
                                         && 1 <= log[i].attempt <= MaxBlockAttempts)
      && (forall b :: lo <= b <= hi ==> Attempt(b, 1, AttemptOk(chain, writeFails, b, 1)) in log)
      && (forall b :: lo <= b <= hi ==> 1 <= AttemptsAtBlock(log, b) <= MaxBlockAttempts)
      && (forall b :: b < lo || hi < b ==> AttemptsAtBlock(log, b) == 0)
  {
    var run := BlockAttempts(chain, writeFails);
    forall h
      ensures 1 <= |run(h)| <= MaxBlockAttempts
      ensures run(h)[0] == Attempt(h, 1, AttemptOk(chain, writeFails, h, 1))
      ensures forall i :: 0 <= i < |run(h)| ==> run(h)[i].block == h && 1 <= run(h)[i].attempt <= MaxBlockAttempts
    {
      BlockAttemptsShape(chain, writeFails, h);
    }
    ConcatOfBlockLogs(run, h => AttemptOk(chain, writeFails, h, 1), lo, hi);
  }

  /** `RunAttempts` for any per-block logs of that shape. */
  lemma {:induction false} ConcatOfBlockLogs(run: int -> seq<Attempt>, firstOk: int -> bool, lo: int, hi: int)
    requires forall h :: 1 <= |run(h)| <= MaxBlockAttempts
    requires forall h :: run(h)[0] == Attempt(h, 1, firstOk(h))
    requires forall h, i :: 0 <= i < |run(h)| ==> run(h)[i].block == h && 1 <= run(h)[i].attempt <= MaxBlockAttempts
    ensures var log := Concat(run, lo, hi);
      && (lo <= hi ==> hi - lo + 1 <= |log| <= MaxBlockAttempts * (hi - lo + 1))
      && (hi < lo ==> log == [])
      && (forall i :: 0 <= i < |log| ==> lo <= log[i].block <= hi
                                         && 1 <= log[i].attempt <= MaxBlockAttempts)
      && (forall b :: lo <= b <= hi ==> Attempt(b, 1, firstOk(b)) in log)
      && (forall b :: AttemptsAtBlock(log, b) == if lo <= b <= hi then |run(b)| else 0)
    decreases if hi < lo then 0 else hi - lo + 1
  {
    if lo <= hi {
      ConcatOfBlockLogs(run, firstOk, lo, hi - 1);
      var prefix, last := Concat(run, lo, hi - 1), run(hi);
      assert Concat(run, lo, hi) == prefix + last;
      assert last[0] == Attempt(hi, 1, firstOk(hi));
      forall b | lo <= b <= hi
        ensures Attempt(b, 1, firstOk(b)) in prefix + last
      {
        if b < hi {
          assert Attempt(b, 1, firstOk(b)) in prefix;
        }
      }
      forall b
        ensures AttemptsAtBlock(prefix + last, b) == if lo <= b <= hi then |run(b)| else 0
      {
        AttemptsAtBlockAppend(prefix, last, b);
        AttemptsAtBlockUniform(last, hi, b);
      }
    }
  }

  /** Counting attempts at a block distributes over concatenation. */
  lemma {:induction false} AttemptsAtBlockAppend(a: seq<Attempt>, c: seq<Attempt>, b: int)
    ensures AttemptsAtBlock(a + c, b) == AttemptsAtBlock(a, b) + AttemptsAtBlock(c, b)
    decreases |c|
  {
    if c != [] {
      var c' := c[..|c| - 1];
      assert (a + c)[..|a + c| - 1] == a + c';
      AttemptsAtBlockAppend(a, c', b);
    } else {
      assert a + c == a;
    }
  }

  /** A log whose every entry is an attempt at `h` counts all its entries for `h` and none for other blocks. */
  lemma {:induction false} AttemptsAtBlockUniform(log: seq<Attempt>, h: int, b: int)
    requires forall i :: 0 <= i < |log| ==> log[i].block == h
    ensures AttemptsAtBlock(log, b) == if b == h then |log| else 0
    decreases |log|
  {
    if log != [] {
      AttemptsAtBlockUniform(log[..|log| - 1], h, b);
    }
  }

  /**
   * The checkpoint a run leaves: untouched when no block of the range ends
   * processed, otherwise the highest processed block of the range.
   */
  lemma {:induction false} CheckpointIsLastSuccess(checkpoint: Option<int>, succeeded: int -> bool, lo: int, hi: int)
    ensures var r := LastSuccess(checkpoint, succeeded, lo, hi);
      && ((forall b :: lo <= b <= hi ==> !succeeded(b)) ==> r == checkpoint)
      && (!(forall b :: lo <= b <= hi ==> !succeeded(b)) ==>
            && r.Some? && lo <= r.value <= hi && succeeded(r.value)
            && forall b :: r.value < b <= hi ==> !succeeded(b))
    decreases if hi < lo then 0 else hi - lo + 1
  {
    if lo <= hi && !succeeded(hi) {
      CheckpointIsLastSuccess(checkpoint, succeeded, lo, hi - 1);
    }
  }

  /**
   * Starting past the stored checkpoint, a run never moves the checkpoint
   * backwards.
   */
  lemma CheckpointAdvances(checkpoint: Option<int>, succeeded: int -> bool, hi: int)
    ensures StoredHeight(LastSuccess(checkpoint, succeeded, StoredHeight(checkpoint) + 1, hi)) >= StoredHeight(checkpoint)
  {
    CheckpointIsLastSuccess(checkpoint, succeeded, StoredHeight(checkpoint) + 1, hi);
  }

  /** Anything one unit contributes is in the run. */
  lemma ConcatContains<T>(run: int -> seq<T>, lo: int, b: int, hi: int, x: T)
    requires lo <= b <= hi && x in run(b)
    ensures x in Concat(run, lo, hi)
  {
    ConcatSplit(run, lo, b, hi);
  }

  /** Anything in a run comes from one of its units. */
  lemma {:induction false} ConcatMember<T>(run: int -> seq<T>, lo: int, hi: int, x: T)
    requires x in Concat(run, lo, hi)
    ensures exists b :: lo <= b <= hi && x in run(b)
    decreases if hi < lo then 0 else hi - lo + 1
  {
    if x !in run(hi) {
      ConcatMember(run, lo, hi - 1, x);
    }
  }

  /**
   * Every record the filter forwards from a transaction of a block that ends
   * processed during a run over `[lo, hi]` is saved by that run.
   */
  lemma ProcessedBlocksSaved(p: P.Service, convert: (BlockTransaction, int, Option<int>) -> P.Transaction,
                             chain: Chain, writeFails: (int, int) -> bool, lo: int, hi: int,
                             b: int, tx: P.Transaction, r: P.Record)
    requires p.Linked()
    requires lo <= b <= hi && Succeeds(chain, writeFails, b)
    requires b in chain.blocks && chain.blocks[b].Some? && tx in Converted(convert, chain.blocks[b].value)
    requires r in P.Process(p.monitoredTokens, p.monitoredWallets, p.parses, tx).saves
    ensures r in p.SavesOf(Concat(BlockTxs(convert, chain, writeFails), lo, hi))
  {
    ProcessedBlockHandsOver(convert, chain, writeFails, b, tx);
    var run := BlockTxs(convert, chain, writeFails);
    assert tx in run(b);
    ConcatContains(run, lo, b, hi, tx);
    var txs := Concat(run, lo, hi);
    var j :| 0 <= j < |txs| && txs[j] == tx;
    P.FlatMapMembers(p.saveCalls, txs);
    assert r in p.saveCalls(txs[j]);
  }

  /** A block that ends processed has handed over every one of its converted transactions. */
  lemma ProcessedBlockHandsOver(convert: (BlockTransaction, int, Option<int>) -> P.Transaction,
                                chain: Chain, writeFails: (int, int) -> bool, b: int, tx: P.Transaction)
    requires Succeeds(chain, writeFails, b)
    requires b in chain.blocks && chain.blocks[b].Some? && tx in Converted(convert, chain.blocks[b].value)
    ensures tx in BlockTxsAt(convert, chain, writeFails, b)
  {
    BlockTxsShape(convert, chain, writeFails, b);
    SuffixMember(BlockTxsAt(convert, chain, writeFails, b), Converted(convert, chain.blocks[b].value), tx);
  }

  lemma SuffixMember<T>(s: seq<T>, suffix: seq<T>, x: T)
    requires |suffix| <= |s| && s[|s| - |suffix|..] == suffix && x in suffix
    ensures x in s
  {
    var i :| 0 <= i < |suffix| && suffix[i] == x;
    assert s[|s| - |suffix| + i] == x;
  }

  /**
   * Every record a run over `[lo, hi]` saves is forwarded from a converted
   * transaction of a block of that range.
   */
  lemma RunSavesFromRange(p: P.Service, convert: (BlockTransaction, int, Option<int>) -> P.Transaction,
                          chain: Chain, writeFails: (int, int) -> bool, lo: int, hi: int, r: P.Record)
    requires p.Linked()
    requires r in p.SavesOf(Concat(BlockTxs(convert, chain, writeFails), lo, hi))
    ensures exists b, tx :: lo <= b <= hi && b in chain.blocks && chain.blocks[b].Some?
                            && tx in Converted(convert, chain.blocks[b].value)
                            && r in P.Process(p.monitoredTokens, p.monitoredWallets, p.parses, tx).saves
  {
    var run := BlockTxs(convert, chain, writeFails);
    var txs := Concat(run, lo, hi);
    P.FlatMapMembers(p.saveCalls, txs);
    var j :| 0 <= j < |txs| && r in p.saveCalls(txs[j]);
    var tx := txs[j];
    assert p.saveCalls(tx) == P.Process(p.monitoredTokens, p.monitoredWallets, p.parses, tx).saves;
    ConcatMember(run, lo, hi, tx);
    var b :| lo <= b <= hi && tx in run(b);
    BlockTxsShape(convert, chain, writeFails, b);
    var mine := run(b);
    var i :| 0 <= i < |mine| && mine[i] == tx;
  }

  /**
   * What the processor receives for one block: only converted transactions
   * of that block, nothing at all for a block the chain does not have, and,
   * when the block ends processed, the whole block in order as the last part.
   */
  lemma BlockTxsShape(convert: (BlockTransaction, int, Option<int>) -> P.Transaction,
                      chain: Chain, writeFails: (int, int) -> bool, h: int)
    ensures var txs := BlockTxsAt(convert, chain, writeFails, h);
      && (forall i :: 0 <= i < |txs| ==> h in chain.blocks && chain.blocks[h].Some?
                                         && txs[i] in Converted(convert, chain.blocks[h].value))
      && (h !in chain.blocks || chain.blocks[h] == None ==> txs == [] && !Succeeds(chain, writeFails, h))
      && (Succeeds(chain, writeFails, h) ==>
            h in chain.blocks && chain.blocks[h].Some?
            && var whole := Converted(convert, chain.blocks[h].value);
               |whole| <= |txs| && txs[|txs| - |whole|..] == whole)
  {
    var n := AttemptsMade(chain, writeFails, h, 1);
    AttemptTxsPrefix(convert, chain, h, n);
    if Succeeds(chain, writeFails, h) {
      var f := AttemptTxs(convert, chain, h);
      assert Concat(f, 1, n) == Concat(f, 1, n - 1) + f(n);
    }
  }

  /** Every transaction handed over in attempts 1..n at block `h` is a converted transaction of `h`. */
  lemma {:induction false} AttemptTxsPrefix(convert: (BlockTransaction, int, Option<int>) -> P.Transaction,
                                            chain: Chain, h: int, n: int)
    ensures var txs := Concat(AttemptTxs(convert, chain, h), 1, n);
      && (forall i :: 0 <= i < |txs| ==> h in chain.blocks && chain.blocks[h].Some?
                                         && txs[i] in Converted(convert, chain.blocks[h].value))
      && (h !in chain.blocks || chain.blocks[h] == None ==> txs == [])
    decreases if n < 1 then 0 else n
  {
    if n >= 1 {
      AttemptTxsPrefix(convert, chain, h, n - 1);
      var f := AttemptTxs(convert, chain, h);
      var prev, cur := Concat(f, 1, n - 1), f(n);
      assert Concat(f, 1, n) == prev + cur;
      assert forall i :: 0 <= i < |prev| ==>
        (h in chain.blocks && chain.blocks[h].Some? && prev[i] in Converted(convert, chain.blocks[h].value));
      forall i | 0 <= i < |prev + cur|
        ensures h in chain.blocks && chain.blocks[h].Some?
                && (prev + cur)[i] in Converted(convert, chain.blocks[h].value)
      {
        if i >= |prev| {
          assert (prev + cur)[i] == cur[i - |prev|];
        }
      }
    }
  }
}
