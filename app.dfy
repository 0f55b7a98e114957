/** App start-up: opening the persistent container, with one recovery
    attempt that throws the store file away. The file system and the
    container are abstract: an open attempt and a removal are given as
    functions of the disk's state. */
module App {
  import opened Basics

  /** The persisted record kinds. */
  datatype ModelKind = BudgetKind | TransactionKind | CategoryKind | BadgeKind | StoreKind

  datatype Configuration = Configuration(schema: seq<ModelKind>, isStoredInMemoryOnly: bool)

  /** Every persisted kind, in the order the app lists them. */
  const AppSchema: seq<ModelKind> := [BudgetKind, TransactionKind, CategoryKind, BadgeKind, StoreKind]

  /** The one configuration: the app schema, kept on disk. */
  const StoreConfig: Configuration := Configuration(AppSchema, false)

  /** An effect on the outside world, in the order performed. */
  datatype Step = Open(schema: seq<ModelKind>, config: Configuration) | RemoveStoreFile

  /** How start-up ends: with a running container, or with a trap. */
  datatype Launch<C> = Running(container: C) | Fatal

  /** The number of open attempts in a run of steps. */
  function Opens(steps: seq<Step>): (n: nat)
    ensures n <= |steps|
  {
    if steps == [] then 0 else (if steps[0].Open? then 1 else 0) + Opens(steps[1..])
  }

  /** `makeContainer`: try to open; if that succeeds, use that container
      and touch nothing else. Otherwise try to remove the store file (a
      failed removal, `remove` giving None, is ignored and leaves the disk
      as it was) and open once more; a second failure traps. Both opens
      use the same schema and configuration. `open` also receives the
      attempt's number (1, then 2), so the retry may succeed on an
      unchanged disk where the first attempt failed. */
  method MakeContainer<C, D>(disk: D, open: (seq<ModelKind>, Configuration, D, nat) -> Option<C>, remove: D -> Option<D>)
    returns (launch: Launch<C>, steps: seq<Step>, diskAfter: D)
    ensures open(AppSchema, StoreConfig, disk, 1).Some? ==>
              && launch == Running(open(AppSchema, StoreConfig, disk, 1).value)
              && steps == [Open(AppSchema, StoreConfig)] && diskAfter == disk
    ensures open(AppSchema, StoreConfig, disk, 1).None? ==>
              && steps == [Open(AppSchema, StoreConfig), RemoveStoreFile, Open(AppSchema, StoreConfig)]
              && diskAfter == (if remove(disk).Some? then remove(disk).value else disk)
              && launch == (if open(AppSchema, StoreConfig, diskAfter, 2).Some?
                            then Running(open(AppSchema, StoreConfig, diskAfter, 2).value) else Fatal)
    ensures forall st <- steps :: st.Open? ==> st == Open(AppSchema, StoreConfig)
    ensures 1 <= Opens(steps) <= 2
    ensures RemoveStoreFile in steps <==> Opens(steps) == 2
  {
    var schema := AppSchema;
    var config := Configuration(schema, false);
    diskAfter := disk;
    steps := [Open(schema, config)];
    var first := open(schema, config, diskAfter, 1);
    if first.Some? {
      launch := Running(first.value);
      assert steps[1..] == [] && Opens(steps) == 1 + Opens([]) == 1;
      return;
    }
    steps := steps + [RemoveStoreFile];
    var removed := remove(diskAfter);
    if removed.Some? {
      diskAfter := removed.value;
    }
    steps := steps + [Open(schema, config)];
    var second := open(schema, config, diskAfter, 2);
    if second.Some? {
      launch := Running(second.value);
    } else {
      launch := Fatal;
    }
    var rest := steps[1..];
    assert rest == [RemoveStoreFile, Open(schema, config)] && rest[1..] == [Open(schema, config)];
    assert rest[1..][1..] == [] && Opens(rest[1..]) == 1 + Opens([]) == 1;
    assert Opens(rest) == 0 + Opens(rest[1..]) == 1;
    assert Opens(steps) == 1 + Opens(rest) == 2;
  }
}
