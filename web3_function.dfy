/** One invocation of the Web3 Function: recover the cursor from storage, query the
    chain, write the cursor back in the order the bot does, and return the decision.
    The chain is an input; storage is an object the run updates in place. */
module Web3Function {
  import opened Wrappers
  import opened JsArray
  import opened Encoding
  import opened WatchList

  /** What the chain answers during one run. None stands for a rejected promise.
      The event queries are functions of their start block: `queryFilter(filter, fromBlock)`. */
  datatype Ledger = Ledger(
    blockNumber: Option<nat>,                                  // provider.getBlockNumber()
    settledFrom: int -> Option<seq<SettledEvent>>,             // controller VaultSettled events
    liquidatedFrom: int -> Option<seq<LiquidatedEvent>>,       // controller VaultLiquidated events
    vaultCount: Option<nat>,                                   // optionRegistry.vaultCount()
    checkVaults: seq<nat> -> Option<seq<nat>>)                 // multicall.checkVaults(ids)

  /** The call whose rejection aborted the run. */
  datatype Failure = BlockNumberFailed | SettledQueryFailed | LiquidatedQueryFailed
                   | VaultCountFailed | CheckVaultsFailed

  /** How the run ends: an exception out of `onRun`, or a returned decision. */
  datatype Outcome = Rejected(failure: Failure) | Returned(decision: Decision)

  /** One `storage.set(key, value)`. */
  datatype Write = Write(key: StorageKey, value: string)

  /** The storage map after a sequence of writes, applied in order. */
  function ApplyWrites(entries: map<StorageKey, string>, writes: seq<Write>): map<StorageKey, string> {
    if writes == [] then entries
    else
      var last := writes[|writes| - 1];
      ApplyWrites(entries, writes[..|writes| - 1])[last.key := last.value]
  }

  /** The outcome of a run together with the storage writes it made before ending. */
  datatype RunResult = RunResult(outcome: Outcome, writes: seq<Write>)

  /** The watch list the run stores, from the recovered cursor and the chain's answers. */
  function NewWatchList(c: Cursor, settled: seq<SettledEvent>, liquidated: seq<LiquidatedEvent>, vaultCount: nat): seq<nat> {
    Reconcile(c.activeVaultIds, AdditionalVaultIds(vaultCount, c.previousVaultCount),
              RetiredIds(settled, liquidated, OptionRegistryAddress))
  }

  /** Specification of one run: the calls in source order, each possibly rejected,
      with the writes done up to that point. */
  function Run(entries: map<StorageKey, string>, ledger: Ledger, p: Parsers): RunResult {
    var c := Recover(entries, p);
    match ledger.blockNumber
    case None => RunResult(Rejected(BlockNumberFailed), [])
    case Some(currentBlock) =>
      match ledger.settledFrom(c.lastQueryBlock)
      case None => RunResult(Rejected(SettledQueryFailed), [])
      case Some(settled) =>
        match ledger.liquidatedFrom(c.lastQueryBlock)
        case None => RunResult(Rejected(LiquidatedQueryFailed), [])
        case Some(liquidated) => RunAfterQueries(c, currentBlock, settled, liquidated, ledger)
  }

  /** The rest of the run once the block number and both event lists are known. */
  function RunAfterQueries(c: Cursor, currentBlock: nat, settled: seq<SettledEvent>,
                           liquidated: seq<LiquidatedEvent>, ledger: Ledger): RunResult {
    var first := [Write(LastQueryBlock, NatToDecimal(currentBlock))];
    match ledger.vaultCount
    case None => RunResult(Rejected(VaultCountFailed), first)
    case Some(vaultCount) =>
      var ids := NewWatchList(c, settled, liquidated, vaultCount);
      var writes := first + [Write(PreviousVaultCount, NatToDecimal(vaultCount)),
                             Write(ActiveVaultIds, IdsToJson(ids))];
      RunResult(Conclude(ids, ledger.checkVaults), writes)
  }

  /** How the run ends once the watch list is stored: the health check, then the decision. */
  function Conclude(ids: seq<nat>, checkVaults: seq<nat> -> Option<seq<nat>>): Outcome {
    match VaultsToAdjust(ids, checkVaults)
    case None => Rejected(CheckVaultsFailed)
    case Some(vaults) => Returned(Decide(vaults))
  }

  /** An unfolding step for `OnRun`'s proof: `RunAfterQueries` written out for each
      answer of `vaultCount()`, with the write list as a display. */
  lemma RunAfterQueriesCases(c: Cursor, currentBlock: nat, settled: seq<SettledEvent>,
                             liquidated: seq<LiquidatedEvent>, ledger: Ledger)
    ensures var r := RunAfterQueries(c, currentBlock, settled, liquidated, ledger);
            var first := Write(LastQueryBlock, NatToDecimal(currentBlock));
            && (ledger.vaultCount.None? ==> r == RunResult(Rejected(VaultCountFailed), [first]))
            && (ledger.vaultCount.Some? ==>
                  var ids := NewWatchList(c, settled, liquidated, ledger.vaultCount.value);
                  r == RunResult(Conclude(ids, ledger.checkVaults),
                                 [first, Write(PreviousVaultCount, NatToDecimal(ledger.vaultCount.value)),
                                  Write(ActiveVaultIds, IdsToJson(ids))]))
  {
  }

  /** Applying one write, or three, is the corresponding chain of map updates. */
  lemma ApplyWritesUpdates(entries: map<StorageKey, string>, a: Write, b: Write, c: Write)
    ensures ApplyWrites(entries, [a]) == entries[a.key := a.value]
    ensures ApplyWrites(entries, [a, b, c]) == entries[a.key := a.value][b.key := b.value][c.key := c.value]
  {
    assert [a, b, c][..2] == [a, b];
    assert [a, b][..1] == [a];
    assert [a][..0] == [];
  }

  /** When every chain read succeeds, the run writes the block, the count and the
      reconciled watch list, in that order, and its outcome is decided by the health
      check alone. */
  lemma RunAllReadsSucceed(entries: map<StorageKey, string>, ledger: Ledger, p: Parsers)
    requires ledger.blockNumber.Some? && ledger.vaultCount.Some?
    requires ledger.settledFrom(Recover(entries, p).lastQueryBlock).Some?
    requires ledger.liquidatedFrom(Recover(entries, p).lastQueryBlock).Some?
    ensures var c := Recover(entries, p);
            var ids := NewWatchList(c, ledger.settledFrom(c.lastQueryBlock).value,
                                    ledger.liquidatedFrom(c.lastQueryBlock).value, ledger.vaultCount.value);
            && Run(entries, ledger, p).writes ==
                 [Write(LastQueryBlock, NatToDecimal(ledger.blockNumber.value)),
                  Write(PreviousVaultCount, NatToDecimal(ledger.vaultCount.value)),
                  Write(ActiveVaultIds, IdsToJson(ids))]
            && Run(entries, ledger, p).outcome == Conclude(ids, ledger.checkVaults)
  {
    var c := Recover(entries, p);
    RunAfterQueriesCases(c, ledger.blockNumber.value, ledger.settledFrom(c.lastQueryBlock).value,
                         ledger.liquidatedFrom(c.lastQueryBlock).value, ledger);
  }

  /** Which writes a run makes, by how it ends. A rejected `getBlockNumber` or event
      query writes nothing. A rejected `vaultCount()` call leaves storage untouched
      except for `lastQueryBlock`: the cursor has advanced past events whose
      retirements were never applied. */
  lemma RunWriteOrder(entries: map<StorageKey, string>, ledger: Ledger, p: Parsers)
    ensures var r := Run(entries, ledger, p);
            && (r.outcome in {Rejected(BlockNumberFailed), Rejected(SettledQueryFailed), Rejected(LiquidatedQueryFailed)} ==>
                  r.writes == [])
            && (r.outcome == Rejected(VaultCountFailed) ==>
                  ledger.blockNumber.Some? &&
                  ApplyWrites(entries, r.writes) == entries[LastQueryBlock := NatToDecimal(ledger.blockNumber.value)])
            && (r.outcome.Returned? || r.outcome == Rejected(CheckVaultsFailed) ==>
                  |r.writes| == 3 && r.writes[0].key == LastQueryBlock &&
                  r.writes[1].key == PreviousVaultCount && r.writes[2].key == ActiveVaultIds)
  {
    var c := Recover(entries, p);
    if ledger.blockNumber.Some? && ledger.settledFrom(c.lastQueryBlock).Some? &&
       ledger.liquidatedFrom(c.lastQueryBlock).Some? {
      var first := Write(LastQueryBlock, NatToDecimal(ledger.blockNumber.value));
      RunAfterQueriesCases(c, ledger.blockNumber.value, ledger.settledFrom(c.lastQueryBlock).value,
                           ledger.liquidatedFrom(c.lastQueryBlock).value, ledger);
      ApplyWritesUpdates(entries, first, first, first);
      if ledger.vaultCount.Some? {
        assert Run(entries, ledger, p).outcome != Rejected(VaultCountFailed) by {
          var ids := NewWatchList(c, ledger.settledFrom(c.lastQueryBlock).value,
                                  ledger.liquidatedFrom(c.lastQueryBlock).value, ledger.vaultCount.value);
          assert Run(entries, ledger, p).outcome == Conclude(ids, ledger.checkVaults);
        }
      }
    }
  }

  /** A returned decision signals the executor exactly when its call data is non-empty,
      and the call data never holds the 0 sentinel. */
  lemma RunDecision(entries: map<StorageKey, string>, ledger: Ledger, p: Parsers)
    ensures var r := Run(entries, ledger, p);
            r.outcome.Returned? ==>
              && (r.outcome.decision.canExec <==> r.outcome.decision.callData != [])
              && 0 !in r.outcome.decision.callData
  {
    var c := Recover(entries, p);
    if ledger.blockNumber.Some? && ledger.vaultCount.Some? &&
       ledger.settledFrom(c.lastQueryBlock).Some? && ledger.liquidatedFrom(c.lastQueryBlock).Some? {
      var ids := NewWatchList(c, ledger.settledFrom(c.lastQueryBlock).value,
                              ledger.liquidatedFrom(c.lastQueryBlock).value, ledger.vaultCount.value);
      if ids != [] && ledger.checkVaults(ids).Some? {
        StripZerosSpec(ledger.checkVaults(ids).value);
      }
    }
  }

  /** With every read successful, the call data is the check result with its zeros
      removed and nothing else removed, in the order `checkVaults` returned it; an
      empty watch list yields `canExec: false` with empty call data. */
  lemma RunCallData(entries: map<StorageKey, string>, ledger: Ledger, p: Parsers)
    requires ledger.blockNumber.Some? && ledger.vaultCount.Some?
    requires ledger.settledFrom(Recover(entries, p).lastQueryBlock).Some?
    requires ledger.liquidatedFrom(Recover(entries, p).lastQueryBlock).Some?
    ensures var c := Recover(entries, p);
            var ids := NewWatchList(c, ledger.settledFrom(c.lastQueryBlock).value,
                                    ledger.liquidatedFrom(c.lastQueryBlock).value, ledger.vaultCount.value);
            var r := Run(entries, ledger, p);
            && (ids == [] ==> r.outcome == Returned(Decision(false, [])))
            && (ids != [] && ledger.checkVaults(ids).None? ==> r.outcome == Rejected(CheckVaultsFailed))
            && (ids != [] && ledger.checkVaults(ids).Some? ==>
                  && r.outcome.Returned?
                  && IsSubsequence(r.outcome.decision.callData, ledger.checkVaults(ids).value)
                  && (forall x: nat :: x in r.outcome.decision.callData <==> x in ledger.checkVaults(ids).value && x != 0)
                  && multiset(r.outcome.decision.callData) == multiset(ledger.checkVaults(ids).value)[0 := 0])
  {
    var c := Recover(entries, p);
    var ids := NewWatchList(c, ledger.settledFrom(c.lastQueryBlock).value,
                            ledger.liquidatedFrom(c.lastQueryBlock).value, ledger.vaultCount.value);
    if ids != [] && ledger.checkVaults(ids).Some? {
      StripZerosSpec(ledger.checkVaults(ids).value);
    }
  }

  /** An empty watch list never reaches the multicall: the run is the same whatever
      `checkVaults` would have answered. */
  lemma EmptyWatchListSkipsCheck(entries: map<StorageKey, string>, ledger: Ledger, p: Parsers,
                                 other: seq<nat> -> Option<seq<nat>>)
    requires ledger.vaultCount.Some?
    requires NewWatchList(Recover(entries, p), ledger.settledFrom(Recover(entries, p).lastQueryBlock).GetOr([]),
                          ledger.liquidatedFrom(Recover(entries, p).lastQueryBlock).GetOr([]), ledger.vaultCount.value) == []
    ensures Run(entries, ledger, p) == Run(entries, ledger.(checkVaults := other), p)
  {
    EmptyListNotChecked(ledger.checkVaults, other);
  }

  /** What one successful run stores, the next run reads back, provided the parsers
      invert what was written. Because of the truthiness rule, a current block or a
      vault count of 0 sends the next run back to the initial cursor. */
  lemma NextRunRecovers(entries: map<StorageKey, string>, ledger: Ledger, p: Parsers)
    requires ledger.blockNumber.Some? && ledger.vaultCount.Some?
    requires ledger.settledFrom(Recover(entries, p).lastQueryBlock).Some?
    requires ledger.liquidatedFrom(Recover(entries, p).lastQueryBlock).Some?
    requires p.parseInt(NatToDecimal(ledger.blockNumber.value)) == Some(ledger.blockNumber.value as int)
    requires p.parseInt(NatToDecimal(ledger.vaultCount.value)) == Some(ledger.vaultCount.value as int)
    requires var c := Recover(entries, p);
             var ids := NewWatchList(c, ledger.settledFrom(c.lastQueryBlock).value,
                                     ledger.liquidatedFrom(c.lastQueryBlock).value, ledger.vaultCount.value);
             p.parseJson(IdsToJson(ids)) == Some(ids)
    ensures var c := Recover(entries, p);
            var ids := NewWatchList(c, ledger.settledFrom(c.lastQueryBlock).value,
                                    ledger.liquidatedFrom(c.lastQueryBlock).value, ledger.vaultCount.value);
            var block, count := ledger.blockNumber.value, ledger.vaultCount.value;
            Recover(ApplyWrites(entries, Run(entries, ledger, p).writes), p) ==
              if block == 0 || count == 0 then InitialCursor() else Cursor(block, ids, count)
  {
    var c := Recover(entries, p);
    var ids := NewWatchList(c, ledger.settledFrom(c.lastQueryBlock).value,
                            ledger.liquidatedFrom(c.lastQueryBlock).value, ledger.vaultCount.value);
    var block, count := ledger.blockNumber.value, ledger.vaultCount.value;
    RunAllReadsSucceed(entries, ledger, p);
    ApplyWritesUpdates(entries, Write(LastQueryBlock, NatToDecimal(block)),
                       Write(PreviousVaultCount, NatToDecimal(count)), Write(ActiveVaultIds, IdsToJson(ids)));
    RecoverAfterWrites(entries, block, count, ids, p);
  }

  /** A store holding the three values the run writes reads back as those values,
      unless the block or the count is zero. */
  lemma RecoverAfterWrites(entries: map<StorageKey, string>, block: nat, count: nat, ids: seq<nat>, p: Parsers)
    requires p.parseInt(NatToDecimal(block)) == Some(block as int)
    requires p.parseInt(NatToDecimal(count)) == Some(count as int)
    requires p.parseJson(IdsToJson(ids)) == Some(ids)
    ensures var after := entries[LastQueryBlock := NatToDecimal(block)]
                                [PreviousVaultCount := NatToDecimal(count)]
                                [ActiveVaultIds := IdsToJson(ids)];
            Recover(after, p) == if block == 0 || count == 0 then InitialCursor() else Cursor(block, ids, count)
  {
    var after := entries[LastQueryBlock := NatToDecimal(block)]
                        [PreviousVaultCount := NatToDecimal(count)]
                        [ActiveVaultIds := IdsToJson(ids)];
    assert after[LastQueryBlock] == NatToDecimal(block);
    assert after[PreviousVaultCount] == NatToDecimal(count);
    assert after[ActiveVaultIds] == IdsToJson(ids);
  }

  /** A vault settled in a successful run is never watched again by the next run,
      whatever the chain answers then: it is removed now, and the next run's new IDs lie
      above the count this run stored, which the next run recovers. */
  lemma SettledVaultNotReadded(entries: map<StorageKey, string>, ledger: Ledger, p: Parsers,
                               nextSettled: seq<SettledEvent>, nextLiquidated: seq<LiquidatedEvent>,
                               nextVaultCount: nat, x: nat)
    requires ledger.blockNumber.Some? && ledger.vaultCount.Some?
    requires ledger.blockNumber.value != 0 && ledger.vaultCount.value != 0
    requires ledger.settledFrom(Recover(entries, p).lastQueryBlock).Some?
    requires ledger.liquidatedFrom(Recover(entries, p).lastQueryBlock).Some?
    requires p.parseInt(NatToDecimal(ledger.blockNumber.value)) == Some(ledger.blockNumber.value as int)
    requires p.parseInt(NatToDecimal(ledger.vaultCount.value)) == Some(ledger.vaultCount.value as int)
    requires var c := Recover(entries, p);
             var ids := NewWatchList(c, ledger.settledFrom(c.lastQueryBlock).value,
                                     ledger.liquidatedFrom(c.lastQueryBlock).value, ledger.vaultCount.value);
             p.parseJson(IdsToJson(ids)) == Some(ids)
    requires x <= ledger.vaultCount.value
    requires x in SettledIds(ledger.settledFrom(Recover(entries, p).lastQueryBlock).value, OptionRegistryAddress)
    ensures var next := Recover(ApplyWrites(entries, Run(entries, ledger, p).writes), p);
            x !in NewWatchList(next, nextSettled, nextLiquidated, nextVaultCount)
  {
    var c := Recover(entries, p);
    var settled := ledger.settledFrom(c.lastQueryBlock).value;
    var liquidated := ledger.liquidatedFrom(c.lastQueryBlock).value;
    var count := ledger.vaultCount.value;
    var ids := NewWatchList(c, settled, liquidated, count);
    NextRunRecovers(entries, ledger, p);
    var next := Recover(ApplyWrites(entries, Run(entries, ledger, p).writes), p);
    assert next == Cursor(ledger.blockNumber.value, ids, count);
    var retired := RetiredIds(settled, liquidated, OptionRegistryAddress);
    RetiredIdsSpec(settled, liquidated, OptionRegistryAddress);
    ReconcileMembers(c.activeVaultIds, AdditionalVaultIds(count, c.previousVaultCount), retired, x);
    assert x !in ids;
    NoResurrection(count, nextVaultCount, x);
    ReconcileMembers(ids, AdditionalVaultIds(nextVaultCount, count),
                     RetiredIds(nextSettled, nextLiquidated, OptionRegistryAddress), x);
  }

  /** The function's key-value store. `writes` records every `set`, in order. */
  class Storage {
    var entries: map<StorageKey, string>
    ghost var writes: seq<Write>

    constructor (initial: map<StorageKey, string>)
      ensures entries == initial && writes == []
    {
      entries := initial;
      writes := [];
    }

    /** `storage.get(key)`: the stored string, or None (undefined) when absent. */
    function Get(key: StorageKey): Option<string>
      reads this
    {
      StoredValue(entries, key)
    }

    /** `storage.set(key, value)`. */
    method Set(key: StorageKey, value: string)
      modifies this
      ensures entries == old(entries)[key := value]
      ensures writes == old(writes) + [Write(key, value)]
    {
      entries := entries[key := value];
      writes := writes + [Write(key, value)];
    }
  }

  /** State recovery as the bot performs it: three reads, then the truthiness reset. */
  method RecoverCursor(storage: Storage, p: Parsers) returns (c: Cursor)
    ensures c == Recover(storage.entries, p)
  {
    var lastQueryBlock := p.parseInt(storage.Get(LastQueryBlock).GetOr("0"));
    var activeVaultIds := p.parseJson(storage.Get(ActiveVaultIds).GetOr("[]"));
    var previousVaultCount := p.parseInt(storage.Get(PreviousVaultCount).GetOr("0"));
    if activeVaultIds.None? || !Truthy(lastQueryBlock) || !Truthy(previousVaultCount) {
      c := InitialCursor();
    } else {
      c := Cursor(lastQueryBlock.value, activeVaultIds.value, previousVaultCount.value);
    }
  }

  /** `settledEventIds` built as the bot builds it: the settled IDs, then one `push`
      of the whole liquidated-ID array. */
  method CollectRetired(settleEvents: seq<SettledEvent>, liquidationEvents: seq<LiquidatedEvent>)
    returns (settledEventIds: seq<Retired>)
    ensures settledEventIds == RetiredIds(settleEvents, liquidationEvents, OptionRegistryAddress)
  {
    settledEventIds := [];
    if |settleEvents| > 0 {
      settledEventIds := Map(SettledIds(settleEvents, OptionRegistryAddress), (id: nat) => Num(id));
    }
    if |liquidationEvents| > 0 {
      settledEventIds := settledEventIds + [Nested(LiquidatedIds(liquidationEvents, OptionRegistryAddress))];
    }
  }

  /** The body of `onRun`: reads the cursor, queries the chain, then hands over to
      the write-back. */
  method OnRun(storage: Storage, ledger: Ledger, p: Parsers) returns (outcome: Outcome)
    modifies storage
    ensures outcome == Run(old(storage.entries), ledger, p).outcome
    ensures storage.writes == old(storage.writes) + Run(old(storage.entries), ledger, p).writes
    ensures storage.entries == ApplyWrites(old(storage.entries), Run(old(storage.entries), ledger, p).writes)
  {
    var cursor := RecoverCursor(storage, p);
    if ledger.blockNumber.None? {
      return Rejected(BlockNumberFailed);
    }
    var currentBlock := ledger.blockNumber.value;
    var settleEvents := ledger.settledFrom(cursor.lastQueryBlock);
    if settleEvents.None? {
      return Rejected(SettledQueryFailed);
    }
    var liquidationEvents := ledger.liquidatedFrom(cursor.lastQueryBlock);
    if liquidationEvents.None? {
      return Rejected(LiquidatedQueryFailed);
    }
    ghost var before := storage.entries;
    outcome := WriteBackAndDecide(storage, ledger, cursor, currentBlock, settleEvents.value, liquidationEvents.value);
    RunAfterQueriesCases(cursor, currentBlock, settleEvents.value, liquidationEvents.value, ledger);
    var first := Write(LastQueryBlock, NatToDecimal(currentBlock));
    if ledger.vaultCount.Some? {
      var ids := NewWatchList(cursor, settleEvents.value, liquidationEvents.value, ledger.vaultCount.value);
      ApplyWritesUpdates(before, first, Write(PreviousVaultCount, NatToDecimal(ledger.vaultCount.value)),
                         Write(ActiveVaultIds, IdsToJson(ids)));
    } else {
      ApplyWritesUpdates(before, first, first, first);
    }
  }

  /** Everything after the event queries: write `lastQueryBlock`, harvest the retired IDs, read the
      vault count, write `previousVaultCount`, reconcile and write `activeVaultIds`;
      then check the vaults and decide. */
  method WriteBackAndDecide(storage: Storage, ledger: Ledger, cursor: Cursor, currentBlock: nat,
                            settleEvents: seq<SettledEvent>, liquidationEvents: seq<LiquidatedEvent>)
    returns (outcome: Outcome)
    modifies storage
    ensures var first := Write(LastQueryBlock, NatToDecimal(currentBlock));
            ledger.vaultCount.None? ==>
              && outcome == Rejected(VaultCountFailed)
              && storage.writes == old(storage.writes) + [first]
              && storage.entries == old(storage.entries)[first.key := first.value]
    ensures var first := Write(LastQueryBlock, NatToDecimal(currentBlock));
            ledger.vaultCount.Some? ==>
              var ids := NewWatchList(cursor, settleEvents, liquidationEvents, ledger.vaultCount.value);
              var second := Write(PreviousVaultCount, NatToDecimal(ledger.vaultCount.value));
              var third := Write(ActiveVaultIds, IdsToJson(ids));
              && outcome == Conclude(ids, ledger.checkVaults)
              && storage.writes == old(storage.writes) + [first, second, third]
              && storage.entries == old(storage.entries)[first.key := first.value][second.key := second.value][third.key := third.value]
  {
    storage.Set(LastQueryBlock, NatToDecimal(currentBlock));

    var settledEventIds := CollectRetired(settleEvents, liquidationEvents);

    if ledger.vaultCount.None? {
      return Rejected(VaultCountFailed);
    }
    var vaultCount := ledger.vaultCount.value;
    var additionalVaultIds := AdditionalVaultIds(vaultCount, cursor.previousVaultCount);

    storage.Set(PreviousVaultCount, NatToDecimal(vaultCount));

    var activeVaultIds := cursor.activeVaultIds + additionalVaultIds;
    activeVaultIds := RemoveRetired(activeVaultIds, settledEventIds);
    assert activeVaultIds == NewWatchList(cursor, settleEvents, liquidationEvents, vaultCount);

    storage.Set(ActiveVaultIds, IdsToJson(activeVaultIds));

    outcome := CheckAndDecide(activeVaultIds, ledger.checkVaults);
  }

  /** The health check and the decision: call `checkVaults` on a non-empty list only, strip the
      zeros, and return the decision. */
  method CheckAndDecide(activeVaultIds: seq<nat>, checkVaults: seq<nat> -> Option<seq<nat>>)
    returns (outcome: Outcome)
    ensures outcome == Conclude(activeVaultIds, checkVaults)
  {
    var vaultsToAdjust: seq<nat> := [];
    if |activeVaultIds| > 0 {
      var results := checkVaults(activeVaultIds);
      if results.None? {
        return Rejected(CheckVaultsFailed);
      }
      vaultsToAdjust := StripZeros(results.value);
    }
    if |vaultsToAdjust| > 0 {
      outcome := Returned(Decision(true, vaultsToAdjust));
    } else {
      outcome := Returned(Decision(false, vaultsToAdjust));
    }
  }
}
