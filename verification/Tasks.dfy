/** Parsed input rows, and the table of compiled task forms. */
module TaskTables {
  import opened Collections
  import opened Timing

  datatype Class = NETWORK | COMPUTE | TIMER | GATE

  datatype Batch = PREFILL | DECODE | NEITHER

  /** The stages the compiler distinguishes. */
  datatype Stage = PREFIX_READ | PREFIX_STORE_WRITE | STORAGE_TO_D | DECODE_WRITE
                 | P_BATCH_BEGIN | PREFILL_LAYER | P_DONE | D_BATCH_BEGIN | DECODE_LAYER | DECODE_STEP_COMPUTE
                 | OTHER_STAGE

  /** One DAG row; `request` is None for batch-owned work, `logical` is set on expanded rows. */
  datatype Task = Task(id: nat, class_: Class, stage: Stage, batch: Batch, batchId: nat, layer: nat,
                       request: Option<nat>, logical: Option<nat>, wave: string, bytes: nat, duration: nat,
                       release: nat, readLatency: nat, deps: seq<nat>)

  datatype Policy = MaxPhase | Conservative | Error

  predicate Transfers(stage: Stage) {
    stage in {PREFIX_READ, PREFIX_STORE_WRITE, STORAGE_TO_D, DECODE_WRITE}
  }

  predicate Reads(stage: Stage) {
    stage in {PREFIX_READ, STORAGE_TO_D}
  }

  /** Prefill and Decode stages carry their batch type; only then are rows streamed. */
  predicate Validated(t: Task) {
    && (t.stage in {PREFIX_READ, PREFIX_STORE_WRITE, P_BATCH_BEGIN, PREFILL_LAYER, P_DONE} ==> t.batch.PREFILL?)
    && (t.stage in {STORAGE_TO_D, DECODE_WRITE, D_BATCH_BEGIN, DECODE_LAYER, DECODE_STEP_COMPUTE} ==> t.batch.DECODE?)
  }

  const FORM_CACHE := 8192

  /** Forms live in the table for ever; the recent ones are also cached. */
  class FormTable {
    var table: map<nat, Form>
    var cache: Lru<nat, Form>

    ghost predicate Valid()
      reads this
    {
      cache.Valid() && forall t | t in cache.entries :: t in table && table[t] == cache.entries[t]
    }

    constructor ()
      ensures Valid() && table == map[]
    {
      table, cache := map[], EmptyLru();
    }

    method Remember(t: nat, form: Form)
      requires Valid() && t in table && table[t] == form
      modifies `cache
      ensures Valid()
    {
      cache.PutValid(t, form);
      cache := cache.Put(t, form);
      if |cache.order| > FORM_CACHE {
        cache.PopValid();
        cache := cache.PopOldest();
      }
    }

    method Insert(t: nat, form: Form)
      requires Valid() && t !in table
      modifies this
      ensures Valid() && table == old(table)[t := form]
    {
      table := table[t := form];
      Remember(t, form);
    }

    /** The stored form, whether or not it is still cached. */
    method Find(t: nat) returns (form: Option<Form>)
      requires Valid()
      modifies `cache
      ensures Valid() && form == if t in table then Some(table[t]) else None
    {
      if t in cache.entries {
        form := Some(cache.entries[t]);
        Remember(t, cache.entries[t]);
      } else if t in table {
        form := Some(table[t]);
        Remember(t, table[t]);
      } else {
        form := None;
      }
    }
  }
}
