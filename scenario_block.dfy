/** The base scenario block of lib/scenario_block.js: a node of a flow graph
    whose exits are two id lists (taken when its value is truthy or falsy),
    with a boot-once / evaluate-per-trigger lifecycle, a stored result and
    access to the scenario's variables. */
module ScenarioBlock {

  import opened Js
  import opened Lists
  import opened BlockIds

  /** The block's document data (`this.data`); fields the source does not read
      are left out. A missing field is `None`. */
  datatype BlockData = BlockData(
    id: Option<string>,
    settings: Option<map<string, JsValue>>,
    outOnTrue: Option<seq<JsValue>>,
    outOnFalse: Option<seq<JsValue>>)

  /** `{}`: the data a block gets when it is constructed without any. */
  const NoData := BlockData(None, None, None, None)

  /** Class-level properties that each block type sets for itself. */
  datatype BlockType = BlockType(
    title: string,
    staticDescription: string,
    forceDescriptionCallback: bool,
    hasSettings: bool)

  /** An entry of the scenario's variable table: `{value, type}`. */
  datatype Variable = Variable(value: JsValue, varType: JsValue)

  /** A persisted result object: a fresh `{}` or the stored value and error. */
  datatype Record = Empty | Persisted(value: JsValue, err: JsValue)

  /** The once-only guards that wrap one evaluation's two callbacks. */
  datatype Guard = Guard(callbackDone: bool, specialDone: bool)

  /** What a block has done that its callers can observe: a result stored (and
      persisted), the caller's callback invoked, or its special callback invoked.
      `ticket` is the number of the `startEvaluation` call the callback belongs to. */
  datatype Event =
    | Stored(err: JsValue, value: JsValue, silent: bool)
    | CalledBack(ticket: nat, err: JsValue, value: JsValue)
    | Commanded(ticket: nat, command: JsValue, silentValue: JsValue)

  /** Where the boot procedure stands: `startBoot` has not run, it waits for the
      `booting` listeners, it waits for the `boot` hook, it failed, or `booted`
      has been emitted. */
  datatype BootStage = Idle | AwaitingListeners | AwaitingBootHook | Failed(err: JsValue) | Done

  /** The three outcomes of `doGetDescription`. */
  datatype Description = Static(text: string) | FromHook | Unconfigured(text: string)

  /** `String(id)`: the key under which a block id is looked up or listed. */
  function KeyOf(id: Option<string>): string {
    if id.Some? then id.value else "undefined"
  }

  /** The ids a branch list yields: `[]` when the list is missing, otherwise its
      truthy entries. */
  function TrueIds(d: BlockData): seq<JsValue> {
    if d.outOnTrue.Some? then TruthyOnly(d.outOnTrue.value) else []
  }

  function FalseIds(d: BlockData): seq<JsValue> {
    if d.outOnFalse.Some? then TruthyOnly(d.outOnFalse.value) else []
  }

  /** `exit_block_ids`: the true exits followed by the false exits. */
  function ExitIds(d: BlockData): (r: seq<JsValue>)
    ensures forall i :: 0 <= i < |r| ==> Truthy(r[i])
  {
    TrueIds(d) + FalseIds(d)
  }

  /** Does the exit `e` lead to the block whose id is `target`? Falsy exits
      lead nowhere. */
  predicate LeadsTo(e: JsValue, target: Option<string>) {
    Truthy(e) && target == Some(ToString(e))
  }

  /** Some exit in `exits` leads to `target`. */
  predicate HitsIn(exits: seq<JsValue>, target: Option<string>)
    decreases |exits|
  {
    exits != [] && (HitsIn(exits[..|exits| - 1], target) || LeadsTo(exits[|exits| - 1], target))
  }

  lemma {:induction false} HitsInMeans(exits: seq<JsValue>, target: Option<string>)
    ensures HitsIn(exits, target) <==> exists k :: 0 <= k < |exits| && LeadsTo(exits[k], target)
    decreases |exits|
  {
    if exits != [] {
      var n := |exits| - 1;
      HitsInMeans(exits[..n], target);
      if exists k :: 0 <= k < |exits| && LeadsTo(exits[k], target) {
        var k :| 0 <= k < |exits| && LeadsTo(exits[k], target);
        if k < n {
          assert exits[..n][k] == exits[k];
        }
      }
      if HitsIn(exits[..n], target) {
        var k :| 0 <= k < n && LeadsTo(exits[..n][k], target);
        assert exits[k] == exits[..n][k];
      }
    }
  }

  /** Extending the exits by one element. */
  lemma HitsInStep(exits: seq<JsValue>, j: nat, target: Option<string>)
    requires j < |exits|
    ensures HitsIn(exits[..j + 1], target) <==> HitsIn(exits[..j], target) || LeadsTo(exits[j], target)
  {
    assert exits[..j + 1][..j] == exits[..j];
  }

  /** Every key of `keys` names a block of `all`. */
  predicate AllKnown(keys: seq<string>, all: map<string, Block>)
  {
    forall k :: k in keys ==> k in all
  }

  /** The ids of the blocks, visited in key order, that exit towards `target`
      (one entry per referring block, repeated ids possible). */
  function Referrers(keys: seq<string>, all: map<string, Block>, target: Option<string>): seq<string>
    requires AllKnown(keys, all)
    decreases |keys|
  {
    if keys == [] then []
    else
      var n := |keys| - 1;
      Referrers(keys[..n], all, target) + Contribution(all[keys[n]], target)
  }

  /** What scanning one block adds to the referrers: its id, when one of its
      exits leads to `target`. */
  function Contribution(b: Block, target: Option<string>): seq<string> {
    if HitsIn(ExitIds(b.data), target) then [KeyOf(b.id)] else []
  }

  /** Scanning one more key adds that block's contribution at the end. */
  lemma ReferrersSnoc(keys: seq<string>, k: string, all: map<string, Block>, target: Option<string>)
    requires AllKnown(keys, all) && k in all
    ensures AllKnown(keys + [k], all)
    ensures Referrers(keys + [k], all, target) == Referrers(keys, all, target) + Contribution(all[k], target)
  {
    var ks := keys + [k];
    assert ks[..|keys|] == keys;
    assert ks[|keys|] == k;
  }

  /** `entrance_block_ids`: the referring block ids without repeats. */
  function EntranceIds(keys: seq<string>, all: map<string, Block>, target: Option<string>): seq<string>
    requires AllKnown(keys, all)
  {
    Dedup(Referrers(keys, all, target))
  }

  /** One more key scanned: the deduplicated referrers gain that block's id
      once, if it points at `target`. */
  lemma ReferrersStep(keys: seq<string>, i: nat, all: map<string, Block>, target: Option<string>)
    requires i < |keys| && AllKnown(keys, all)
    ensures var b := all[keys[i]];
            Dedup(Referrers(keys[..i + 1], all, target)) ==
            if HitsIn(ExitIds(b.data), target) then AddOnce(Dedup(Referrers(keys[..i], all, target)), KeyOf(b.id))
            else Dedup(Referrers(keys[..i], all, target))
  {
    var b := all[keys[i]];
    assert keys[..i + 1] == keys[..i] + [keys[i]];
    ReferrersSnoc(keys[..i], keys[i], all, target);
    var refs := Referrers(keys[..i], all, target);
    if HitsIn(ExitIds(b.data), target) {
      DedupSnoc(refs, KeyOf(b.id));
    } else {
      assert refs + Contribution(b, target) == refs;
    }
  }

  /** The scan is compositional: referrers come out in key order. */
  lemma {:induction false} ReferrersAppend(a: seq<string>, b: seq<string>, all: map<string, Block>, target: Option<string>)
    requires AllKnown(a, all) && AllKnown(b, all)
    ensures AllKnown(a + b, all)
    ensures Referrers(a + b, all, target) == Referrers(a, all, target) + Referrers(b, all, target)
    decreases |b|
  {
    if b == [] {
      assert a + b == a;
    } else {
      var n := |b| - 1;
      assert b == b[..n] + [b[n]];
      assert a + b == (a + b[..n]) + [b[n]];
      ReferrersAppend(a, b[..n], all, target);
      ReferrersSnoc(a + b[..n], b[n], all, target);
      ReferrersSnoc(b[..n], b[n], all, target);
    }
  }

  lemma {:induction false} ReferrersMembers(keys: seq<string>, all: map<string, Block>, target: Option<string>, x: string)
    requires AllKnown(keys, all)
    ensures x in Referrers(keys, all, target) <==>
            exists k :: k in keys && HitsIn(ExitIds(all[k].data), target) && x == KeyOf(all[k].id)
    decreases |keys|
  {
    if keys != [] {
      var n := |keys| - 1;
      assert keys == keys[..n] + [keys[n]];
      ReferrersSnoc(keys[..n], keys[n], all, target);
      ReferrersMembers(keys[..n], all, target, x);
      if exists k :: k in keys && HitsIn(ExitIds(all[k].data), target) && x == KeyOf(all[k].id) {
        var k :| k in keys && HitsIn(ExitIds(all[k].data), target) && x == KeyOf(all[k].id);
        if k !in keys[..n] {
          assert k == keys[n];
        }
      }
    }
  }

  /** A block id is an entrance id exactly when that block has a truthy exit
      whose string form is `target`; each id is listed once. */
  lemma EntranceIdsMembers(keys: seq<string>, all: map<string, Block>, target: Option<string>, x: string)
    requires AllKnown(keys, all)
    ensures NoDuplicates(EntranceIds(keys, all, target))
    ensures x in EntranceIds(keys, all, target) <==>
            exists k :: k in keys && HitsIn(ExitIds(all[k].data), target) && x == KeyOf(all[k].id)
  {
    ReferrersMembers(keys, all, target, x);
  }

  /** Entrance ids are listed in the order in which the scan first meets them. */
  lemma EntranceIdsDiscoveryOrder(keys: seq<string>, all: map<string, Block>, target: Option<string>, i: nat, j: nat)
    requires AllKnown(keys, all)
    requires i < j < |EntranceIds(keys, all, target)|
    ensures var e, s := EntranceIds(keys, all, target), Referrers(keys, all, target);
            e[i] in s && e[j] in s && FirstIndex(s, e[i]) < FirstIndex(s, e[j])
  {
    DedupFirstOccurrenceOrder(Referrers(keys, all, target), i, j);
  }

  /** The persisted record of `key` in `scope`, or `{}` when there is none. */
  function StoredAt(store: map<string, map<string, Record>>, scope: string, key: string): Record {
    if scope in store && key in store[scope] then store[scope][key] else Empty
  }

  /** `store[scope][key] = record`, creating the scope when it is missing. */
  function Stash(store: map<string, map<string, Record>>, scope: string, key: string, record: Record): (r: map<string, map<string, Record>>)
    ensures StoredAt(r, scope, key) == record
    ensures forall s, k :: (s != scope || k != key) ==> StoredAt(r, s, k) == StoredAt(store, s, k)
  {
    store[scope := (if scope in store then store[scope] else map[])[key := record]]
  }

  /** A scope name argument falls back to the default when it is falsy. */
  function ScopeOr(scope: string, default: string): string {
    if scope != "" then scope else default
  }

  /** The numbers lo, lo + 1, ..., hi - 1. */
  function Range(lo: nat, hi: nat): (r: seq<nat>)
    requires lo <= hi
    ensures |r| == hi - lo && forall i :: 0 <= i < |r| ==> r[i] == lo + i
  {
    seq(hi - lo, i requires 0 <= i < hi - lo => lo + i)
  }

  /** How many times the callback of evaluation `t` appears in `trace`. */
  function CallbackCount(trace: seq<Event>, t: nat): nat
    decreases |trace|
  {
    if trace == [] then 0
    else
      var e := trace[|trace| - 1];
      CallbackCount(trace[..|trace| - 1], t) + if e.CalledBack? && e.ticket == t then 1 else 0
  }

  /** How many times the special callback of evaluation `t` appears in `trace`. */
  function CommandCount(trace: seq<Event>, t: nat): nat
    decreases |trace|
  {
    if trace == [] then 0
    else
      var e := trace[|trace| - 1];
      CommandCount(trace[..|trace| - 1], t) + if e.Commanded? && e.ticket == t then 1 else 0
  }

  lemma CountsAppend(trace: seq<Event>, e: Event)
    ensures forall t: nat :: CallbackCount(trace + [e], t) == CallbackCount(trace, t) + if e.CalledBack? && e.ticket == t then 1 else 0
    ensures forall t: nat :: CommandCount(trace + [e], t) == CommandCount(trace, t) + if e.Commanded? && e.ticket == t then 1 else 0
  {
    assert (trace + [e])[..|trace|] == trace;
  }

  /** An evaluation that no event mentions has had no callback. */
  lemma {:induction false} CountsOfUnmentioned(trace: seq<Event>, t: nat)
    requires forall i :: 0 <= i < |trace| && !trace[i].Stored? ==> trace[i].ticket != t
    ensures CallbackCount(trace, t) == 0 && CommandCount(trace, t) == 0
    decreases |trace|
  {
    if trace != [] {
      CountsOfUnmentioned(trace[..|trace| - 1], t);
    }
  }

  /** Every evaluation's callback and special callback have fired exactly as
      often as its guards say: once when spent, never otherwise. */
  ghost predicate Tallied(trace: seq<Event>, guards: seq<Guard>) {
    && (forall t :: 0 <= t < |guards| ==> CallbackCount(trace, t) == if guards[t].callbackDone then 1 else 0)
    && (forall t :: 0 <= t < |guards| ==> CommandCount(trace, t) == if guards[t].specialDone then 1 else 0)
  }

  /** Every callback in `trace` belongs to one of the first `n` evaluations and
      fired after boot. */
  ghost predicate Ticketed(trace: seq<Event>, booted: bool, n: nat) {
    forall i :: 0 <= i < |trace| && !trace[i].Stored? ==> booted && trace[i].ticket < n
  }

  /** Storing a result fires no callback. */
  lemma TallyStored(trace: seq<Event>, guards: seq<Guard>, booted: bool, e: Event)
    requires Tallied(trace, guards) && Ticketed(trace, booted, |guards|) && e.Stored?
    ensures Tallied(trace + [e], guards) && Ticketed(trace + [e], booted, |guards|)
  {
    CountsAppend(trace, e);
  }

  /** Firing the unspent callback of evaluation `t` spends its guard. */
  lemma TallyCalledBack(trace: seq<Event>, guards: seq<Guard>, t: nat, err: JsValue, value: JsValue)
    requires Tallied(trace, guards) && Ticketed(trace, true, |guards|)
    requires t < |guards| && !guards[t].callbackDone
    ensures var guards' := guards[t := guards[t].(callbackDone := true)];
            Tallied(trace + [CalledBack(t, err, value)], guards') &&
            Ticketed(trace + [CalledBack(t, err, value)], true, |guards'|)
  {
    CountsAppend(trace, CalledBack(t, err, value));
  }

  /** Firing the unspent special callback of evaluation `t` spends its guard. */
  lemma TallyCommanded(trace: seq<Event>, guards: seq<Guard>, t: nat, command: JsValue, silentValue: JsValue)
    requires Tallied(trace, guards) && Ticketed(trace, true, |guards|)
    requires t < |guards| && !guards[t].specialDone
    ensures var guards' := guards[t := guards[t].(specialDone := true)];
            Tallied(trace + [Commanded(t, command, silentValue)], guards') &&
            Ticketed(trace + [Commanded(t, command, silentValue)], true, |guards'|)
  {
    CountsAppend(trace, Commanded(t, command, silentValue));
  }

  /** A new evaluation starts with unspent guards and no callbacks. */
  lemma TallyArmed(trace: seq<Event>, guards: seq<Guard>, booted: bool)
    requires Tallied(trace, guards) && Ticketed(trace, booted, |guards|)
    ensures Tallied(trace, guards + [Guard(false, false)]) && Ticketed(trace, booted, |guards| + 1)
  {
    CountsOfUnmentioned(trace, |guards|);
  }

  /** The run-context a block belongs to (the scenario document), reduced to
      what the block reads and writes: its blocks in key order, its variable
      table, its active scope, and the persisted results of this run and of
      the previous one. */
  class Scenario {
    var order: seq<string>
    var all: map<string, Block>
    var variables: Option<map<string, Variable>>
    var scopeName: string
    var values: map<string, map<string, Record>>
    var previousResultClone: Option<map<string, map<string, Record>>>

    /** `order` lists the keys of `all` (`getSortedBlocks().all`), once each. */
    ghost predicate Valid()
      reads this
    {
      && (forall i, j :: 0 <= i < j < |order| ==> order[i] != order[j])
      && (forall k :: k in all <==> k in order)
    }

    constructor (variables: Option<map<string, Variable>>, scopeName: string,
                 previousResultClone: Option<map<string, map<string, Record>>>)
      ensures Valid() && order == [] && all == map[] && values == map[]
      ensures this.variables == variables && this.scopeName == scopeName
      ensures this.previousResultClone == previousResultClone
    {
      order, all, values := [], map[], map[];
      this.variables := variables;
      this.scopeName := scopeName;
      this.previousResultClone := previousResultClone;
    }

    /** Adds a block to the graph under `key` (the run-context's loading step). */
    method AddBlock(key: string, b: Block)
      requires Valid()
      modifies this`order, this`all
      ensures Valid() && all == old(all)[key := b]
      ensures order == if key in old(all) then old(order) else old(order) + [key]
    {
      if key !in all {
        order := order + [key];
      }
      all := all[key := b];
    }

    /** `persistBlockValue(block)`: record the block's result under its id in
        the active scope. */
    method PersistBlockValue(b: Block)
      modifies this`values
      ensures values == Stash(old(values), scopeName, b.Key(), Persisted(b.resultValue, b.resultErr))
    {
      values := Stash(values, scopeName, b.Key(), Persisted(b.resultValue, b.resultErr));
    }

    /** `touchPersistedBlockValue(block, scope)`: the block's record in the
        given (or active) scope, created empty when missing. */
    method TouchPersistedBlockValue(b: Block, scope: string) returns (r: Record)
      modifies this`values
      ensures var s := ScopeOr(scope, scopeName);
              && r == StoredAt(old(values), s, b.Key())
              && values == if s in old(values) && b.Key() in old(values)[s] then old(values)
                           else Stash(old(values), s, b.Key(), Empty)
    {
      var s := ScopeOr(scope, scopeName);
      r := StoredAt(values, s, b.Key());
      if !(s in values && b.Key() in values[s]) {
        values := Stash(values, s, b.Key(), Empty);
      }
    }
  }

  class Block {
    const scenario: Scenario
    const data: BlockData
    const settings: map<string, JsValue>
    const id: Option<string>
    const kind: BlockType

    /** The blocks that triggered an evaluation, one entry per `startEvaluation`. */
    var seenBlocks: seq<Block?>
    var evaluationCount: nat
    var booting: bool
    /** `booted` has been emitted. */
    var booted: bool
    var bootStage: BootStage
    /** Evaluations waiting for `booted`, by their number. */
    var pending: seq<nat>
    /** The once-only guards of each evaluation, by its number. */
    var guards: seq<Guard>
    var trace: seq<Event>
    var hasResultValue: bool
    var hasSilentValue: bool
    var resultValue: JsValue
    var resultErr: JsValue
    /** `_entrance_block_ids` and `_entrance_blocks` */
    var entranceIdsCache: Option<seq<string>>
    var entranceBlocksCache: Option<seq<Block>>

    /** The lifecycle invariant:
        - boot is under way exactly when it has left `Idle`, and has finished
          exactly when `booted` was emitted;
        - before boot no evaluation has started, afterwards every one has, so
          `evaluation_count` counts the triggers once booted and is 0 before;
        - every evaluation's callback and special callback fired at most once,
          and exactly when its guard is spent;
        - no callback fires before boot. */
    ghost predicate Valid()
      reads this
    {
      && |guards| == |seenBlocks|
      && (booting <==> !bootStage.Idle?)
      && (booted <==> bootStage.Done?)
      && evaluationCount == (if booted then |seenBlocks| else 0)
      && pending == (if booted then [] else Range(0, |seenBlocks|))
      && Ticketed(trace, booted, |guards|)
      && Tallied(trace, guards)
    }

    /** `String(this.id)` */
    function Key(): string {
      KeyOf(id)
    }

    constructor (scenario: Scenario, data: BlockData, kind: BlockType)
      ensures this.scenario == scenario && this.data == data && this.kind == kind
      ensures id == data.id
      ensures settings == if data.settings.Some? then data.settings.value else map[]
      ensures seenBlocks == [] && evaluationCount == 0 && !booting && !booted
      ensures !hasResultValue && trace == []
      ensures entranceIdsCache.None? && entranceBlocksCache.None?
      ensures Valid()
    {
      this.scenario := scenario;
      this.data := data;
      this.kind := kind;
      settings := if data.settings.Some? then data.settings.value else map[];
      id := data.id;
      seenBlocks, evaluationCount := [], 0;
      booting, booted, bootStage, pending, guards, trace := false, false, Idle, [], [], [];
      hasResultValue, hasSilentValue, resultValue, resultErr := false, false, Undefined, Undefined;
      entranceIdsCache, entranceBlocksCache := None, None;
    }

    /** `new Block(scenario, data)`: throws without a scenario; missing data is `{}`. */
    static method Create(scenario: Scenario?, data: Option<BlockData>, kind: BlockType) returns (r: Result<Block>)
      ensures r.Err? <==> scenario == null
      ensures r.Err? ==> r.message == "Scenario blocks require a scenario document"
      ensures r.Ok? ==> && fresh(r.value) && r.value.Valid()
                        && r.value.scenario == scenario
                        && r.value.data == (if data.Some? then data.value else NoData)
                        && r.value.seenBlocks == [] && r.value.evaluationCount == 0
                        && !r.value.booting
    {
      if scenario == null {
        return Err("Scenario blocks require a scenario document");
      }
      var b := new Block(scenario, if data.Some? then data.value else NoData, kind);
      return Ok(b);
    }

    // ---- exits and entrances ------------------------------------------------

    /** `block_ids_when_true` */
    method BlockIdsWhenTrue() returns (r: seq<JsValue>)
      ensures r == TrueIds(data)
    {
      r := CollectTruthy(data.outOnTrue);
    }

    /** `block_ids_when_false` */
    method BlockIdsWhenFalse() returns (r: seq<JsValue>)
      ensures r == FalseIds(data)
    {
      r := CollectTruthy(data.outOnFalse);
    }

    /** `exit_block_ids`: every id is truthy, true exits come first. */
    method ExitBlockIds() returns (r: seq<JsValue>)
      ensures r == ExitIds(data)
      ensures r[..|TrueIds(data)|] == TrueIds(data)
      ensures forall i :: 0 <= i < |r| ==> Truthy(r[i])
    {
      var t := BlockIdsWhenTrue();
      var f := BlockIdsWhenFalse();
      r := t + f;
    }

    /** The scan behind `entrance_block_ids`: every block of the scenario, in
        key order, and each of its exits. */
    method ScanEntranceIds() returns (r: seq<string>)
      requires scenario.Valid()
      ensures r == EntranceIds(scenario.order, scenario.all, id)
    {
      var keys := scenario.order;
      var all := scenario.all;
      r := [];
      var i := 0;
      while i < |keys|
        invariant 0 <= i <= |keys|
        invariant r == Dedup(Referrers(keys[..i], all, id))
      {
        var block := all[keys[i]];
        var whenTrue := block.BlockIdsWhenTrue();
        var whenFalse := block.BlockIdsWhenFalse();
        r := AddIfReferrer(r, whenTrue + whenFalse, KeyOf(block.id), id);
        ReferrersStep(keys, i, all, id);
        i := i + 1;
      }
      assert keys[..|keys|] == keys;
    }

    /** The inner loop of the scan: adds `source` to `r` once if some exit of
        the block points at `target`. */
    static method AddIfReferrer(r: seq<string>, exits: seq<JsValue>, source: string, target: Option<string>)
      returns (r': seq<string>)
      ensures r' == if HitsIn(exits, target) then AddOnce(r, source) else r
    {
      r' := r;
      var j := 0;
      while j < |exits|
        invariant 0 <= j <= |exits|
        invariant r' == if HitsIn(exits[..j], target) then AddOnce(r, source) else r
      {
        HitsInStep(exits, j, target);
        if LeadsTo(exits[j], target) && source !in r' {
          r' := r' + [source];
        }
        j := j + 1;
      }
      assert exits[..|exits|] == exits;
    }

    /** `entrance_block_ids`: computed on first read, then the stored list is
        returned whatever happened to the graph since. */
    method EntranceBlockIds() returns (r: seq<string>)
      requires scenario.Valid()
      modifies this`entranceIdsCache
      ensures old(entranceIdsCache).Some? ==> r == old(entranceIdsCache).value
      ensures old(entranceIdsCache).None? ==> r == EntranceIds(scenario.order, scenario.all, id)
      ensures entranceIdsCache == Some(r)
    {
      if entranceIdsCache.Some? {
        return entranceIdsCache.value;
      }
      r := ScanEntranceIds();
      entranceIdsCache := Some(r);
    }

    /** `getEntranceBlocks`: reads `entrance_block_ids` first (filling its
        cache), then returns its own stored list or resolves the ids, dropping
        those without a live block. */
    method GetEntranceBlocks() returns (r: seq<Block>)
      requires scenario.Valid()
      modifies this`entranceIdsCache, this`entranceBlocksCache
      ensures entranceIdsCache == Some(if old(entranceIdsCache).Some? then old(entranceIdsCache).value
                                      else EntranceIds(scenario.order, scenario.all, id))
      ensures old(entranceBlocksCache).Some? ==> r == old(entranceBlocksCache).value
      ensures old(entranceBlocksCache).None? ==> r == Resolve(entranceIdsCache.value, scenario.all)
      ensures entranceBlocksCache == Some(r)
    {
      var ids := EntranceBlockIds();
      if entranceBlocksCache.Some? {
        return entranceBlocksCache.value;
      }
      var all := scenario.all;
      r := ResolveKeys(ids, all);
      entranceBlocksCache := Some(r);
    }

    /** `getNextBlocks(value)`: the live blocks of the true exits when `value`
        is truthy, of the false exits otherwise, in exit order. */
    method GetNextBlocks(value: JsValue) returns (r: seq<Block>)
      ensures r == Resolve(PropertyKeys(if Truthy(value) then TrueIds(data) else FalseIds(data)), scenario.all)
      ensures |r| <= |if Truthy(value) then TrueIds(data) else FalseIds(data)|
    {
      var ids;
      if Truthy(value) {
        ids := BlockIdsWhenTrue();
      } else {
        ids := BlockIdsWhenFalse();
      }
      r := [];
      if |ids| > 0 {
        var all := scenario.all;
        r := ResolveKeys(PropertyKeys(ids), all);
      }
    }

    // ---- description -----------------------------------------------------------

    /** `doGetDescription`: a static description wins unless the callback is
        forced; the type's own `getDescription` runs when forced, when the type
        has no settings, or when some setting is present; otherwise the title
        is marked unconfigured. */
    function DoGetDescription(): (d: Description)
      ensures d.Static? <==> kind.staticDescription != "" && !kind.forceDescriptionCallback
      ensures d.Static? ==> d.text == kind.staticDescription
      ensures d.FromHook? <==> kind.forceDescriptionCallback ||
                               (kind.staticDescription == "" && (!kind.hasSettings || |settings| > 0))
      ensures d.Unconfigured? ==> kind.hasSettings && |settings| == 0 && d.text == kind.title + " (unconfigured)"
    {
      if kind.staticDescription != "" && !kind.forceDescriptionCallback then Static(kind.staticDescription)
      else if !kind.hasSettings || kind.forceDescriptionCallback || |settings| != 0 then FromHook
      else Unconfigured(kind.title + " (unconfigured)")
    }

    // ---- boot ------------------------------------------------------------------

    /** `startBoot`: only the first call does anything; it marks the block as
        booting and emits `booting`. The flag is never reset. */
    method StartBoot()
      requires Valid()
      modifies this`booting, this`bootStage
      ensures Valid() && booting
      ensures old(booting) ==> bootStage == old(bootStage)
      ensures !old(booting) ==> bootStage == AwaitingListeners
    {
      if booting {
        return;
      }
      booting := true;
      bootStage := AwaitingListeners;
    }

    /** The `booting` listeners have finished (`afterBooting(err)`): an error
        goes to the boot callback, otherwise the type's `boot` hook runs.
        Returns the error the boot callback is called with, if any. */
    method AfterBooting(err: JsValue) returns (callbackErr: Option<JsValue>)
      requires Valid() && bootStage == AwaitingListeners
      modifies this`bootStage
      ensures Valid()
      ensures Truthy(err) ==> callbackErr == Some(err) && bootStage == Failed(err)
      ensures !Truthy(err) ==> callbackErr == None && bootStage == AwaitingBootHook
    {
      if Truthy(err) {
        bootStage := Failed(err);
        return Some(err);
      }
      bootStage := AwaitingBootHook;
      return None;
    }

    /** The `boot` hook has called back (`booted(err)`): an error goes to the
        boot callback and the block never boots; otherwise `booted` is emitted,
        which starts every evaluation waiting for it, in the order they came. */
    method Booted(err: JsValue) returns (callbackErr: Option<JsValue>)
      requires Valid() && bootStage == AwaitingBootHook
      modifies this`bootStage, this`booted, this`evaluationCount, this`pending
      ensures Valid()
      ensures Truthy(err) ==> callbackErr == Some(err) && bootStage == Failed(err) && !booted
      ensures Truthy(err) ==> evaluationCount == old(evaluationCount) && pending == old(pending)
      ensures !Truthy(err) ==> callbackErr == None && booted
      ensures !Truthy(err) ==> evaluationCount == old(evaluationCount) + |old(pending)| && pending == []
    {
      if Truthy(err) {
        bootStage := Failed(err);
        return Some(err);
      }
      bootStage := Done;
      booted := true;
      while pending != []
        invariant booted && bootStage == Done
        invariant evaluationCount <= |seenBlocks|
        invariant pending == Range(evaluationCount, |seenBlocks|)
        invariant evaluationCount + |pending| == old(evaluationCount) + |old(pending)|
        decreases |pending|
      {
        pending := pending[1..];
        evaluationCount := evaluationCount + 1;
      }
      return None;
    }

    // ---- evaluation -----------------------------------------------------------

    /** `startEvaluation(from_block, ...)`: records the trigger at once, arms a
        fresh pair of once-only guards, and starts the evaluation (counting it)
        if the block has booted, or queues it until `booted` otherwise.
        Returns the number of this evaluation. */
    method StartEvaluation(from: Block?) returns (ticket: nat)
      requires Valid()
      modifies this`seenBlocks, this`guards, this`evaluationCount, this`pending
      ensures Valid()
      ensures ticket == |old(seenBlocks)|
      ensures seenBlocks == old(seenBlocks) + [from]
      ensures guards == old(guards) + [Guard(false, false)]
      ensures booted ==> evaluationCount == old(evaluationCount) + 1 && pending == old(pending)
      ensures !booted ==> evaluationCount == old(evaluationCount) && pending == old(pending) + [ticket]
    {
      ticket := |seenBlocks|;
      TallyArmed(trace, guards, booted);
      guards := guards + [Guard(false, false)];
      seenBlocks := seenBlocks + [from];
      if booted {
        evaluationCount := evaluationCount + 1;
      } else {
        pending := pending + [ticket];
      }
    }

    /** `setResultValue(err, value, silently)`: stores the result on the block
        and persists it once; nothing else changes. */
    method SetResultValue(err: JsValue, value: JsValue, silently: JsValue)
      requires Valid()
      modifies this`hasResultValue, this`hasSilentValue, this`resultValue, this`resultErr, this`trace
      modifies scenario`values
      ensures Valid()
      ensures hasResultValue && hasSilentValue == Truthy(silently)
      ensures resultValue == value && resultErr == err
      ensures trace == old(trace) + [Stored(err, value, Truthy(silently))]
      ensures scenario.values == Stash(old(scenario.values), scenario.scopeName, Key(), Persisted(value, err))
    {
      StoreResult(err, value, Truthy(silently));
      scenario.PersistBlockValue(this);
    }

    /** The part of `setResultValue` that writes the block's own fields. */
    method StoreResult(err: JsValue, value: JsValue, silent: bool)
      requires Valid()
      modifies this`hasResultValue, this`hasSilentValue, this`resultValue, this`resultErr, this`trace
      ensures Valid()
      ensures hasResultValue && hasSilentValue == silent
      ensures resultValue == value && resultErr == err
      ensures trace == old(trace) + [Stored(err, value, silent)]
    {
      hasResultValue, hasSilentValue, resultValue, resultErr := true, silent, value, err;
      TallyStored(trace, guards, booted, Stored(err, value, silent));
      trace := trace + [Stored(err, value, silent)];
    }

    /** The `evaluated(err, value)` callback the `evaluate` hook of evaluation
        `ticket` receives: the result is stored first, every time; the caller's
        callback then runs unless it already has. */
    method Evaluated(ticket: nat, err: JsValue, value: JsValue)
      requires Valid() && booted && ticket < |guards|
      modifies this`hasResultValue, this`hasSilentValue, this`resultValue, this`resultErr, this`trace
      modifies this`guards, scenario`values
      ensures Valid()
      ensures hasResultValue && !hasSilentValue && resultValue == value && resultErr == err
      ensures scenario.values == Stash(old(scenario.values), scenario.scopeName, Key(), Persisted(value, err))
      ensures guards == old(guards)[ticket := old(guards[ticket]).(callbackDone := true)]
      ensures trace == old(trace) + [Stored(err, value, false)] +
                       if old(guards[ticket]).callbackDone then [] else [CalledBack(ticket, err, value)]
    {
      SetResultValue(err, value, Undefined);
      FireCallback(ticket, err, value);
    }

    /** The `specialised(command, silent_value)` callback: a defined silent value
        is stored silently, then the special callback runs unless it already has. */
    method Specialised(ticket: nat, command: JsValue, silentValue: JsValue)
      requires Valid() && booted && ticket < |guards|
      modifies this`hasResultValue, this`hasSilentValue, this`resultValue, this`resultErr, this`trace
      modifies this`guards, scenario`values
      ensures Valid()
      ensures silentValue != Undefined ==> hasResultValue && hasSilentValue && resultValue == silentValue && resultErr == Null
      ensures silentValue != Undefined ==>
              scenario.values == Stash(old(scenario.values), scenario.scopeName, Key(), Persisted(silentValue, Null))
      ensures silentValue == Undefined ==>
              && hasResultValue == old(hasResultValue) && hasSilentValue == old(hasSilentValue)
              && resultValue == old(resultValue) && resultErr == old(resultErr)
              && scenario.values == old(scenario.values)
      ensures guards == old(guards)[ticket := old(guards[ticket]).(specialDone := true)]
      ensures trace == old(trace) + (if silentValue != Undefined then [Stored(Null, silentValue, true)] else []) +
                       if old(guards[ticket]).specialDone then [] else [Commanded(ticket, command, silentValue)]
    {
      if silentValue != Undefined {
        SetResultValue(Null, silentValue, Bool(true));
      }
      if !guards[ticket].specialDone {
        TallyCommanded(trace, guards, ticket, command, silentValue);
        guards := guards[ticket := guards[ticket].(specialDone := true)];
        trace := trace + [Commanded(ticket, command, silentValue)];
      }
    }

    /** The `evaluate` hook of evaluation `ticket` threw `err`: the error goes to
        the caller's callback (unless it already ran); no result is stored. */
    method Threw(ticket: nat, err: JsValue)
      requires Valid() && booted && ticket < |guards|
      modifies this`guards, this`trace
      ensures Valid()
      ensures guards == old(guards)[ticket := old(guards[ticket]).(callbackDone := true)]
      ensures trace == old(trace) + if old(guards[ticket]).callbackDone then [] else [CalledBack(ticket, err, Undefined)]
    {
      FireCallback(ticket, err, Undefined);
    }

    /** The once-only wrapper around the caller's callback. */
    method FireCallback(ticket: nat, err: JsValue, value: JsValue)
      requires Valid() && booted && ticket < |guards|
      modifies this`guards, this`trace
      ensures Valid()
      ensures guards == old(guards)[ticket := old(guards[ticket]).(callbackDone := true)]
      ensures trace == old(trace) + if old(guards[ticket]).callbackDone then [] else [CalledBack(ticket, err, value)]
    {
      if !guards[ticket].callbackDone {
        TallyCalledBack(trace, guards, ticket, err, value);
        guards := guards[ticket := guards[ticket].(callbackDone := true)];
        trace := trace + [CalledBack(ticket, err, value)];
      }
    }

    // ---- results -------------------------------------------------------------

    /** `getCurrentResult(scope_name)` */
    method GetCurrentResult(scope: string) returns (r: Record)
      modifies scenario`values
      ensures var s := ScopeOr(scope, scenario.scopeName);
              && r == StoredAt(old(scenario.values), s, Key())
              && scenario.values == if s in old(scenario.values) && Key() in old(scenario.values)[s] then old(scenario.values)
                                    else Stash(old(scenario.values), s, Key(), Empty)
    {
      r := scenario.TouchPersistedBlockValue(this, scope);
    }

    /** `getPreviousResult(scope_name)`: without a snapshot of the previous run
        this is the current result; otherwise the snapshot's record for this
        block, or `{}`, creating the scope in the snapshot when it is missing. */
    method GetPreviousResult(scope: string) returns (r: Record)
      modifies scenario`values, scenario`previousResultClone
      ensures var s := ScopeOr(scope, scenario.scopeName);
              var clone := old(scenario.previousResultClone);
              && (clone.None? ==>
                    && r == StoredAt(old(scenario.values), s, Key())
                    && scenario.previousResultClone == clone
                    && scenario.values == if s in old(scenario.values) && Key() in old(scenario.values)[s] then old(scenario.values)
                                          else Stash(old(scenario.values), s, Key(), Empty))
              && (clone.Some? ==>
                    && r == StoredAt(clone.value, s, Key())
                    && scenario.previousResultClone == Some(if s in clone.value then clone.value else clone.value[s := map[]])
                    && scenario.values == old(scenario.values))
    {
      var s := ScopeOr(scope, scenario.scopeName);
      if scenario.previousResultClone.None? {
        r := GetCurrentResult(s);
      } else {
        var clone := scenario.previousResultClone.value;
        if s !in clone {
          clone := clone[s := map[]];
          scenario.previousResultClone := Some(clone);
        }
        var values := clone[s];
        r := if Key() in values then values[Key()] else Empty;
      }
    }

    // ---- variables -----------------------------------------------------------

    /** `get(name)`: `null` without a variable table, `undefined` for an unknown
        name, otherwise the stored value. */
    function Get(name: string): (v: JsValue)
      reads scenario
      ensures scenario.variables.None? ==> v == Null
      ensures scenario.variables.Some? && name !in scenario.variables.value ==> v == Undefined
      ensures scenario.variables.Some? && name in scenario.variables.value ==> v == scenario.variables.value[name].value
    {
      if scenario.variables.None? then Null
      else if name in scenario.variables.value then scenario.variables.value[name].value
      else Undefined
    }

    /** `set(name, value, type)`: fails without a variable table; otherwise
        stores `{value, type}` so that `get(name)` gives `value` back and
        every other name keeps its value. */
    method Set(name: string, value: JsValue, varType: JsValue) returns (ok: bool)
      modifies scenario`variables
      ensures ok <==> old(scenario.variables).Some?
      ensures !ok ==> scenario.variables == old(scenario.variables)
      ensures ok ==> scenario.variables == Some(old(scenario.variables).value[name := Variable(value, varType)])
      ensures ok ==> Get(name) == value
      ensures forall other :: other != name ==> Get(other) == old(Get(other))
    {
      if scenario.variables.None? {
        return false;
      }
      scenario.variables := Some(scenario.variables.value[name := Variable(value, varType)]);
      return true;
    }
  }

  /** Every callback of every evaluation fires at most once, and none fires for
      an evaluation that was never started. */
  lemma CallbacksFireAtMostOnce(b: Block, t: nat)
    requires b.Valid()
    ensures CallbackCount(b.trace, t) <= 1 && CommandCount(b.trace, t) <= 1
    ensures t >= |b.seenBlocks| ==> CallbackCount(b.trace, t) == 0 && CommandCount(b.trace, t) == 0
  {
    if t >= |b.guards| {
      CountsOfUnmentioned(b.trace, t);
    }
  }

  /** Storing a result and then reading the current result of the same scope
      gives the stored value back; without a snapshot of the previous run, the
      previous result is that same record. */
  method ResultRoundTrip(b: Block, err: JsValue, value: JsValue) returns (current: Record, previous: Record)
    requires b.Valid() && b.scenario.previousResultClone.None?
    modifies b, b.scenario
    ensures current == Persisted(value, err) && previous == current
  {
    b.SetResultValue(err, value, Undefined);
    current := b.GetCurrentResult("");
    previous := b.GetPreviousResult("");
  }
}
