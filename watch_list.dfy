/** The pure steps of one run of the vault-watching function: recovering the
    persisted cursor, harvesting retired vault IDs from controller events,
    computing the IDs created since the last run, reconciling the watch list and
    reducing the health-check result to the vaults that need adjusting. */
module WatchList {
  import opened Wrappers
  import opened JsArray

  /** Block in which the option registry was deployed: where history starts. */
  const OptionRegistryDeployBlock: nat := 25976032

  /** Address of the option registry whose vaults are watched. */
  const OptionRegistryAddress: string := "0x04706DE6cE851a284b569EBaE2e258225D952368"

  /** The three values kept in storage between runs. A parsed number may be negative. */
  datatype Cursor = Cursor(lastQueryBlock: int, activeVaultIds: seq<nat>, previousVaultCount: int)

  /** The state a first run (or a run over corrupted storage) starts from. */
  function InitialCursor(): Cursor {
    Cursor(OptionRegistryDeployBlock, [], 0)
  }

  /** The two parsers state recovery uses, left abstract.
      `parseInt` yields None for NaN. `parseJson` yields None when `JSON.parse` throws
      or produces a falsy value (`null`, `0`, `false`, `""`); otherwise the array of
      vault IDs it produces. */
  datatype Parsers = Parsers(parseInt: string -> Option<int>, parseJson: string -> Option<seq<nat>>)

  /** JavaScript truthiness of a number returned by `parseInt`: NaN and 0 are falsy. */
  predicate Truthy(n: Option<int>) {
    n.Some? && n.value != 0
  }

  /** The three storage keys the bot uses: "lastQueryBlock", "activeVaultIds" and
      "previousVaultCount". */
  datatype StorageKey = LastQueryBlock | ActiveVaultIds | PreviousVaultCount

  /** `storage.get(key)`: the stored string, or None (undefined) when absent. */
  function StoredValue(entries: map<StorageKey, string>, key: StorageKey): Option<string> {
    if key in entries then Some(entries[key]) else None
  }

  function StoredLastQueryBlock(entries: map<StorageKey, string>, p: Parsers): Option<int> {
    p.parseInt(StoredValue(entries, LastQueryBlock).GetOr("0"))
  }

  function StoredActiveVaultIds(entries: map<StorageKey, string>, p: Parsers): Option<seq<nat>> {
    p.parseJson(StoredValue(entries, ActiveVaultIds).GetOr("[]"))
  }

  function StoredPreviousVaultCount(entries: map<StorageKey, string>, p: Parsers): Option<int> {
    p.parseInt(StoredValue(entries, PreviousVaultCount).GetOr("0"))
  }

  /** State recovery: the stored cursor, unless any of its three values is falsy, in
      which case all three are reset. */
  function Recover(entries: map<StorageKey, string>, p: Parsers): Cursor {
    var block := StoredLastQueryBlock(entries, p);
    var ids := StoredActiveVaultIds(entries, p);
    var count := StoredPreviousVaultCount(entries, p);
    if ids.None? || !Truthy(block) || !Truthy(count) then InitialCursor()
    else Cursor(block.value, ids.value, count.value)
  }

  /** Recovery resets exactly when some stored value is falsy, and otherwise keeps the
      parsed values. A reset is recognisable by a zero count, because a count of zero
      is itself falsy and never survives recovery. */
  lemma RecoverCases(entries: map<StorageKey, string>, p: Parsers)
    ensures var c := Recover(entries, p);
            var block, ids, count :=
              StoredLastQueryBlock(entries, p), StoredActiveVaultIds(entries, p), StoredPreviousVaultCount(entries, p);
            && (c.previousVaultCount == 0 <==> !Truthy(block) || ids.None? || !Truthy(count))
            && (c.previousVaultCount == 0 ==> c == InitialCursor())
            && (c.previousVaultCount != 0 ==>
                  c.lastQueryBlock != 0 && c == Cursor(block.value, ids.value, count.value))
  {
  }

  /** With no stored block number or no stored count, the `?? "0"` default parses
      to the falsy 0 and the run starts from scratch. */
  lemma MissingNumberResets(entries: map<StorageKey, string>, p: Parsers)
    requires p.parseInt("0") == Some(0)
    requires LastQueryBlock !in entries || PreviousVaultCount !in entries
    ensures Recover(entries, p) == InitialCursor()
  {
  }

  /** A missing watch list alone does not reset: `?? "[]"` yields the truthy empty
      array, and the stored block and count are kept. */
  lemma MissingListKeepsNumbers(entries: map<StorageKey, string>, p: Parsers)
    requires p.parseJson("[]") == Some([])
    requires ActiveVaultIds !in entries
    requires Truthy(StoredLastQueryBlock(entries, p)) && Truthy(StoredPreviousVaultCount(entries, p))
    ensures Recover(entries, p) ==
              Cursor(StoredLastQueryBlock(entries, p).value, [], StoredPreviousVaultCount(entries, p).value)
  {
  }

  // ----- retirement harvesting -----

  /** A `VaultSettled` event of the controller, reduced to the arguments the bot reads. */
  datatype SettledEvent = SettledEvent(accountOwner: string, vaultId: nat)

  /** A `VaultLiquidated` event of the controller, reduced to the arguments the bot reads. */
  datatype LiquidatedEvent = LiquidatedEvent(vaultOwner: string, vaultId: nat)

  /** An element of `settledEventIds`: a vault ID, or the whole array of liquidated
      IDs pushed as one element. */
  datatype Retired = Num(id: nat) | Nested(ids: seq<nat>)

  /** The vault IDs of the settled events owned by `registry`, in event order. */
  function SettledIds(events: seq<SettledEvent>, registry: string): seq<nat> {
    Map(Filter(events, (e: SettledEvent) => e.accountOwner == registry), (e: SettledEvent) => e.vaultId)
  }

  /** The vault IDs of the liquidation events whose vault owner is `registry`, in event order. */
  function LiquidatedIds(events: seq<LiquidatedEvent>, registry: string): seq<nat> {
    Map(Filter(events, (e: LiquidatedEvent) => e.vaultOwner == registry), (e: LiquidatedEvent) => e.vaultId)
  }

  /** An ID is settled exactly when some settled event owned by `registry` carries it. */
  lemma SettledIdsMembers(events: seq<SettledEvent>, registry: string, x: nat)
    ensures x in SettledIds(events, registry) <==>
              exists i :: 0 <= i < |events| && events[i].accountOwner == registry && events[i].vaultId == x
  {
    var keep := (e: SettledEvent) => e.accountOwner == registry;
    var kept := Filter(events, keep);
    if x in SettledIds(events, registry) {
      var j :| 0 <= j < |kept| && kept[j].vaultId == x;
      FilterMembers(events, keep, kept[j]);
      var i :| 0 <= i < |events| && events[i] == kept[j];
    }
    if i :| 0 <= i < |events| && events[i].accountOwner == registry && events[i].vaultId == x {
      FilterMembers(events, keep, events[i]);
      var j :| 0 <= j < |kept| && kept[j] == events[i];
      assert SettledIds(events, registry)[j] == x;
    }
  }

  /** Settled IDs of consecutive event batches are concatenated in event order. */
  lemma SettledIdsAppend(a: seq<SettledEvent>, b: seq<SettledEvent>, registry: string)
    ensures SettledIds(a + b, registry) == SettledIds(a, registry) + SettledIds(b, registry)
  {
    var keep := (e: SettledEvent) => e.accountOwner == registry;
    FilterAppend(a, b, keep);
    MapAppend(Filter(a, keep), Filter(b, keep), (e: SettledEvent) => e.vaultId);
  }

  /** An event owned by another registry contributes nothing; one owned by `registry`
      contributes its vault ID. */
  lemma SettledIdsSingle(e: SettledEvent, registry: string)
    ensures SettledIds([e], registry) == if e.accountOwner == registry then [e.vaultId] else []
  {
    assert [e][1..] == [];
  }

  /** `settledEventIds`, built once the events are in: the settled IDs as numbers, followed,
      when there is any liquidation event at all, by ONE nested element holding the
      liquidated IDs. */
  function RetiredIds(settled: seq<SettledEvent>, liquidated: seq<LiquidatedEvent>, registry: string): seq<Retired> {
    var ids := if |settled| > 0 then Map(SettledIds(settled, registry), (id: nat) => Num(id)) else [];
    if |liquidated| > 0 then ids + [Nested(LiquidatedIds(liquidated, registry))] else ids
  }

  /** `settledEventIds` begins with the registry's settled IDs as numbers, in event order,
      so a number is in it exactly when it is a settled ID of the registry; a liquidation
      batch adds one element, the nested array of its IDs, at the end. */
  lemma RetiredIdsSpec(settled: seq<SettledEvent>, liquidated: seq<LiquidatedEvent>, registry: string)
    ensures var r := RetiredIds(settled, liquidated, registry);
            && |r| == |SettledIds(settled, registry)| + (if |liquidated| > 0 then 1 else 0)
            && (forall i :: 0 <= i < |SettledIds(settled, registry)| ==> r[i] == Num(SettledIds(settled, registry)[i]))
            && (forall x: nat :: Num(x) in r <==> x in SettledIds(settled, registry))
            && (|liquidated| > 0 ==> r[|r| - 1] == Nested(LiquidatedIds(liquidated, registry)))
  {
    var ids := if |settled| > 0 then Map(SettledIds(settled, registry), (id: nat) => Num(id)) else [];
    forall x: nat ensures Num(x) in ids <==> x in SettledIds(settled, registry) {
      if x in SettledIds(settled, registry) {
        var k :| 0 <= k < |SettledIds(settled, registry)| && SettledIds(settled, registry)[k] == x;
        assert ids[k] == Num(x);
      }
    }
  }

  // ----- new vault IDs -----

  /** `Array.from(Array(vaultCount + 1).keys()).slice(previousVaultCount + 1)`: the IDs
      created since the last run. For a non-negative previous count they are exactly
      previousVaultCount + 1, ..., vaultCount in ascending order, and none when the
      count did not grow. A negative stored count makes the slice count from the end. */
  function AdditionalVaultIds(vaultCount: nat, previousVaultCount: int): seq<nat> {
    SliceFrom(Keys(vaultCount + 1), previousVaultCount + 1)
  }

  /** For a non-negative previous count the new IDs are exactly previousVaultCount + 1,
      ..., vaultCount in ascending order, and there are none when the count did not grow.
      A negative stored count makes the slice count from the end: -1 keeps the whole
      range 0 .. vaultCount, ID 0 included. */
  lemma AdditionalVaultIdsRange(vaultCount: nat, previousVaultCount: int)
    ensures var r := AdditionalVaultIds(vaultCount, previousVaultCount);
            && (0 <= previousVaultCount ==>
                  && |r| == (if vaultCount <= previousVaultCount then 0 else vaultCount - previousVaultCount)
                  && (forall i :: 0 <= i < |r| ==> r[i] == previousVaultCount + 1 + i))
            && (previousVaultCount == -1 ==>
                  |r| == vaultCount + 1 && forall i :: 0 <= i < |r| ==> r[i] == i)
            && (previousVaultCount < -1 ==>
                  var first := if vaultCount + previousVaultCount + 2 < 0 then 0 else vaultCount + previousVaultCount + 2;
                  && |r| == vaultCount + 1 - first
                  && (forall i :: 0 <= i < |r| ==> r[i] == first + i))
            && StrictlyIncreasing(r)
  {
    var r := AdditionalVaultIds(vaultCount, previousVaultCount);
    assert forall i :: 0 <= i < |r| ==> r[i] == SliceStart(vaultCount + 1, previousVaultCount + 1) + i;
  }

  /** For a non-negative previous count, an ID is new exactly when it lies above the
      previous count and at most the current one. */
  lemma AdditionalVaultIdsMembers(vaultCount: nat, previousVaultCount: int, x: nat)
    requires 0 <= previousVaultCount
    ensures x in AdditionalVaultIds(vaultCount, previousVaultCount) <==> previousVaultCount < x <= vaultCount
  {
    var r := AdditionalVaultIds(vaultCount, previousVaultCount);
    AdditionalVaultIdsRange(vaultCount, previousVaultCount);
    if previousVaultCount < x <= vaultCount {
      assert r[x - previousVaultCount - 1] == x;
    }
  }

  // ----- reconciliation -----

  /** `ids.filter(id => !settledEventIds.includes(id))`. `includes` compares by value,
      so a number never matches a nested array. */
  function RemoveRetired(ids: seq<nat>, retired: seq<Retired>): seq<nat> {
    Filter(ids, (id: nat) => Num(id) !in retired)
  }

  /** The new watch list: the new IDs are appended to the old list first, and only
      then are the retired IDs removed. */
  function Reconcile(active: seq<nat>, additional: seq<nat>, retired: seq<Retired>): seq<nat> {
    RemoveRetired(active + additional, retired)
  }

  /** Exactly the old and new IDs that are not retired as numbers survive, each with
      as many copies as it had in the old list and the new IDs together. */
  lemma ReconcileMembers(active: seq<nat>, additional: seq<nat>, retired: seq<Retired>, x: nat)
    ensures x in Reconcile(active, additional, retired) <==>
              (x in active || x in additional) && Num(x) !in retired
    ensures multiset(Reconcile(active, additional, retired))[x] ==
              if Num(x) in retired then 0 else multiset(active + additional)[x]
  {
    FilterMembers(active + additional, (id: nat) => Num(id) !in retired, x);
    FilterMultiset(active + additional, (id: nat) => Num(id) !in retired, x);
  }

  /** Reconciliation keeps relative order: the surviving old IDs come first, in their
      order, followed by the surviving new IDs; the result is a subsequence of the union. */
  lemma ReconcileOrder(active: seq<nat>, additional: seq<nat>, retired: seq<Retired>)
    ensures Reconcile(active, additional, retired) ==
              RemoveRetired(active, retired) + RemoveRetired(additional, retired)
    ensures IsSubsequence(Reconcile(active, additional, retired), active + additional)
  {
    FilterAppend(active, additional, (id: nat) => Num(id) !in retired);
    FilterIsSubsequence(active + additional, (id: nat) => Num(id) !in retired);
  }

  /** An ID created and settled within the same window is not watched: the union
      happens before the subtraction. */
  lemma NewAndSettledExcluded(active: seq<nat>, additional: seq<nat>, settled: seq<SettledEvent>,
                              liquidated: seq<LiquidatedEvent>, registry: string, x: nat)
    requires x in additional && x in SettledIds(settled, registry)
    ensures x !in Reconcile(active, additional, RetiredIds(settled, liquidated, registry))
  {
    RetiredIdsSpec(settled, liquidated, registry);
    ReconcileMembers(active, additional, RetiredIds(settled, liquidated, registry), x);
  }

  /** Liquidation events never change the watch list: their IDs are pushed as one
      nested element, which no vault ID equals. */
  lemma LiquidationsIgnored(active: seq<nat>, additional: seq<nat>, settled: seq<SettledEvent>,
                            liquidated: seq<LiquidatedEvent>, registry: string)
    ensures Reconcile(active, additional, RetiredIds(settled, liquidated, registry)) ==
              Reconcile(active, additional, RetiredIds(settled, [], registry))
  {
    var withLiq, without := RetiredIds(settled, liquidated, registry), RetiredIds(settled, [], registry);
    RetiredIdsSpec(settled, liquidated, registry);
    RetiredIdsSpec(settled, [], registry);
    var s := active + additional;
    forall i | 0 <= i < |s|
      ensures ((id: nat) => Num(id) !in withLiq)(s[i]) == ((id: nat) => Num(id) !in without)(s[i])
    {
      assert Num(s[i]) in withLiq <==> s[i] in SettledIds(settled, registry);
      assert Num(s[i]) in without <==> s[i] in SettledIds(settled, registry);
    }
    FilterCongruent(s, (id: nat) => Num(id) !in withLiq, (id: nat) => Num(id) !in without);
  }

  /** Consequently a watched vault that has not been settled stays watched, whatever the
      liquidation events say about it. */
  lemma LiquidatedIdStaysWatched(active: seq<nat>, additional: seq<nat>, settled: seq<SettledEvent>,
                                 liquidated: seq<LiquidatedEvent>, registry: string, x: nat)
    requires x in active
    requires x !in SettledIds(settled, registry)
    ensures x in Reconcile(active, additional, RetiredIds(settled, liquidated, registry))
  {
    RetiredIdsSpec(settled, liquidated, registry);
    ReconcileMembers(active, additional, RetiredIds(settled, liquidated, registry), x);
  }

  /** The shape the stored watch list keeps across runs: strictly increasing IDs,
      each between 1 and the known vault count. */
  predicate WellFormed(ids: seq<nat>, count: int) {
    StrictlyIncreasing(ids) && forall i :: 0 <= i < |ids| ==> 1 <= ids[i] <= count
  }

  /** A stored watch list of that shape stays of that shape after a run's reconciliation,
      bounded by the larger of the previous and the current vault count. */
  lemma ReconcileKeepsWellFormed(active: seq<nat>, previousVaultCount: int, vaultCount: nat, retired: seq<Retired>)
    requires 0 <= previousVaultCount
    requires WellFormed(active, previousVaultCount)
    ensures var bound := if vaultCount < previousVaultCount then previousVaultCount else vaultCount;
            WellFormed(Reconcile(active, AdditionalVaultIds(vaultCount, previousVaultCount), retired), bound)
  {
    var additional := AdditionalVaultIds(vaultCount, previousVaultCount);
    AdditionalVaultIdsRange(vaultCount, previousVaultCount);
    var bound := if vaultCount < previousVaultCount then previousVaultCount else vaultCount;
    var s := active + additional;
    assert StrictlyIncreasing(s) by {
      forall i, j | 0 <= i < j < |s| ensures s[i] < s[j] {
        if j < |active| {
          assert s[i] == active[i] && s[j] == active[j];
        } else if i < |active| {
          assert s[i] == active[i] && s[j] == additional[j - |active|];
        } else {
          assert s[i] == additional[i - |active|] && s[j] == additional[j - |active|];
        }
      }
    }
    assert forall x :: x in s ==> 1 <= x <= bound;
    ReconcileOrder(active, additional, retired);
    var r := Reconcile(active, additional, retired);
    SubsequenceOfIncreasing(r, s);
    assert forall i :: 0 <= i < |r| ==> r[i] in s;
  }

  /** An ID retired in one run is not re-created by the next: the next run's new IDs
      all lie above the count this run stored. */
  lemma NoResurrection(vaultCount: nat, nextVaultCount: nat, x: nat)
    requires x <= vaultCount
    ensures x !in AdditionalVaultIds(nextVaultCount, vaultCount)
  {
    AdditionalVaultIdsMembers(nextVaultCount, vaultCount, x);
  }

  // ----- health check and decision -----

  /** `.filter(id => id != 0)`: drop the 0 sentinels `checkVaults` returns for vaults
      that need no adjustment. */
  function StripZeros(results: seq<nat>): seq<nat> {
    Filter(results, (id: nat) => id != 0)
  }

  /** The vaults to adjust are the non-zero entries of the check result, in order and
      with their multiplicities. */
  lemma StripZerosSpec(results: seq<nat>)
    ensures 0 !in StripZeros(results)
    ensures forall x: nat :: x in StripZeros(results) <==> x in results && x != 0
    ensures IsSubsequence(StripZeros(results), results)
    ensures multiset(StripZeros(results)) == multiset(results)[0 := 0]
  {
    forall x: nat ensures x in StripZeros(results) <==> x in results && x != 0 {
      FilterMembers(results, (id: nat) => id != 0, x);
    }
    forall x: nat ensures multiset(StripZeros(results))[x] == multiset(results)[0 := 0][x] {
      FilterMultiset(results, (id: nat) => id != 0, x);
    }
    FilterIsSubsequence(results, (id: nat) => id != 0);
  }

  /** `vaultsToAdjust`: `checkVaults` is called only for a non-empty watch list; None
      when that call fails. */
  function VaultsToAdjust(ids: seq<nat>, checkVaults: seq<nat> -> Option<seq<nat>>): (r: Option<seq<nat>>)
    ensures ids == [] ==> r == Some([])
    ensures ids != [] ==> (r.None? <==> checkVaults(ids).None?)
    ensures ids != [] && r.Some? ==> r.value == StripZeros(checkVaults(ids).value)
  {
    if |ids| > 0 then
      match checkVaults(ids)
      case None => None
      case Some(results) => Some(StripZeros(results))
    else Some([])
  }

  /** An empty watch list never reaches `checkVaults`: any checker gives the same answer. */
  lemma EmptyListNotChecked(f: seq<nat> -> Option<seq<nat>>, g: seq<nat> -> Option<seq<nat>>)
    ensures VaultsToAdjust([], f) == VaultsToAdjust([], g) == Some([])
  {
  }

  /** What the function returns to the executor. */
  datatype Decision = Decision(canExec: bool, callData: seq<nat>)

  /** Both branches of the final `if` return the vaults to adjust as call data; the
      executor is signalled exactly when there is at least one. */
  function Decide(vaultsToAdjust: seq<nat>): (d: Decision)
    ensures d.callData == vaultsToAdjust
    ensures d.canExec <==> vaultsToAdjust != []
  {
    if |vaultsToAdjust| > 0 then Decision(true, vaultsToAdjust) else Decision(false, vaultsToAdjust)
  }
}
