/**
 * The versioned task-persistence layer: a key-value store holding the task
 * list under one key, the shape-sniffing decode behind `loadTasks`, the
 * envelope write of `saveTasks` and the legacy rewrite of `migrateIfNeeded`.
 *
 * `JSON.parse` and `JSON.stringify` are abstracted away: the store holds the
 * parsed value of each stored string, and parsing what was stringified gives
 * back the same value.
 */
module Storage {
  import opened Wrappers
  import opened JsonValue

  /** The one key the task list is stored under. */
  const StorageKey: string := "tasks"

  /** A task's `image?: string | null`: the field left out, `null`, or a URI. */
  datatype ImageField = Missing | NullImage | Uri(uri: string) {

    /** `image ?? null` */
    function OrNull(): Option<string> {
      if Uri? then Some(uri) else None
    }
  }

  /** One to-do item. */
  datatype Task = Task(id: int, title: string, category: string, done: bool, image: ImageField)

  /**
   * What the store holds under a key, seen through `JSON.parse`: the empty
   * string, text that does not parse, or the value it parses to.
   */
  datatype Text = Blank | Malformed | Parsed(value: Json)

  /**
   * A task as the JSON object `JSON.stringify` writes for it: the four
   * required fields, and `image` only when the task has that field.
   */
  function TaskJson(t: Task): (j: Json)
    ensures j.Obj?
    ensures j.fields.Keys == {"id", "title", "category", "done"} + (if t.image.Missing? then {} else {"image"})
    ensures j.fields["title"] == Str(t.title) && j.fields["category"] == Str(t.category)
  {
    var fields := map["id" := Num(t.id as real), "title" := Str(t.title),
                      "category" := Str(t.category), "done" := Bool(t.done)];
    match t.image
    case Missing => Obj(fields)
    case NullImage => Obj(fields["image" := Null])
    case Uri(u) => Obj(fields["image" := Str(u)])
  }

  function TasksJson(ts: seq<Task>): (js: seq<Json>)
    ensures |js| == |ts|
    ensures forall i :: 0 <= i < |ts| ==> js[i] == TaskJson(ts[i])
  {
    if ts == [] then [] else [TaskJson(ts[0])] + TasksJson(ts[1..])
  }

  /** The `StoredV2` shape `{version: 2, data: [...]}`. */
  function Envelope(data: seq<Json>): Json {
    Obj(map["version" := Num(2.0), "data" := Arr(data)])
  }

  // ---------------------------------------------------------------------
  // JavaScript's view of a parsed value
  // ---------------------------------------------------------------------

  /** The result of reading a property `v.key`. */
  datatype Access = Throws | Undefined | Defined(value: Json)

  /**
   * `v.key` for the keys this layer reads (`version`, `data`, `tasks`, none
   * of which an array, a string or a prototype provides): reading a property
   * of `null` throws a TypeError, an object yields its own field, anything
   * else yields `undefined`.
   */
  function Get(v: Json, key: string): (a: Access)
    ensures a.Throws? <==> v.Null?
    ensures a.Defined? <==> v.Obj? && key in v.fields
    ensures a.Defined? ==> a.value == v.fields[key]
  {
    match v
    case Null => Throws
    case Obj(fields) => if key in fields then Defined(fields[key]) else Undefined
    case _ => Undefined
  }

  predicate Truthy(v: Json) {
    match v
    case Null => false
    case Bool(b) => b
    case Num(n) => n != 0.0
    case Str(s) => s != ""
    case _ => true
  }

  /** `typeof v === 'object'` */
  predicate TypeofObject(v: Json) {
    v.Null? || v.Arr? || v.Obj?
  }

  /** `Array.isArray(a)` for a property read that did not throw. */
  predicate IsArray(a: Access) {
    a.Defined? && a.value.Arr?
  }

  /** The v2 test of `loadTasks`, in the order the code evaluates it. */
  predicate IsCurrentEnvelope(v: Json) {
    Truthy(v) && TypeofObject(v) && Get(v, "version") == Defined(Num(2.0)) && IsArray(Get(v, "data"))
  }

  // ---------------------------------------------------------------------
  // loadTasks
  // ---------------------------------------------------------------------

  /** How the body of the `try` in `loadTasks` ends. */
  datatype Attempt = Returned(tasks: seq<Json>) | Raised

  /** The body of the `try` in `loadTasks`, applied to what `getItem` gave. */
  function LoadAttempt(raw: Option<Text>): (a: Attempt)
    ensures a.Raised? <==> raw == Some(Malformed) || raw == Some(Parsed(Null))
  {
    match raw
    case None => Returned([])
    case Some(Blank) => Returned([])
    case Some(Malformed) => Raised
    case Some(Parsed(v)) =>
      if IsCurrentEnvelope(v) then Returned(v.fields["data"].items)
      else if v.Arr? then Returned(v.items)
      else match Get(v, "tasks")
        case Throws => Raised
        case Defined(Arr(ts)) => Returned(ts)
        case _ => Returned([])
  }

  /** `loadTasks`: the attempt, with every exception caught and turned into `[]`. */
  function Decode(raw: Option<Text>): (ts: seq<Json>)
    ensures ts != [] ==> raw.Some? && raw.value.Parsed? && (raw.value.value.Arr? || raw.value.value.Obj?)
    ensures LoadAttempt(raw).Raised? ==> ts == []
  {
    match LoadAttempt(raw)
    case Returned(ts) => ts
    case Raised => []
  }

  // ---------------------------------------------------------------------
  // saveTasks and migrateIfNeeded, as values
  // ---------------------------------------------------------------------

  /**
   * What `saveTasks(tasks)` leaves under the key. The source's `Task[]` is
   * a type the code never checks, so any array of JSON values can be saved,
   * notably one `loadTasks` returned.
   */
  function Saved(tasks: seq<Json>): (t: Text)
    ensures t.Parsed? && IsCurrentEnvelope(t.value)
  {
    var v := Envelope(tasks);
    assert Get(v, "version") == Defined(Num(2.0));
    Parsed(v)
  }

  /** What a `migrateIfNeeded` whose read and write both succeed leaves under the key. */
  function Migrated(raw: Option<Text>): (r: Option<Text>)
    ensures r.None? <==> raw.None?
    ensures r != raw ==> ShapeOf(raw) == Legacy && ShapeOf(r) == Current
  {
    match raw
    case Some(Parsed(Arr(items))) => Some(Parsed(Envelope(items)))
    case _ => raw
  }

  /** The stored shape, for the state machine Absent -> Legacy -> V2. */
  datatype Shape = NoValue | Legacy | Current | Unrecognised

  function ShapeOf(raw: Option<Text>): Shape {
    match raw
    case None => NoValue
    case Some(Parsed(v)) =>
      if IsCurrentEnvelope(v) then Current else if v.Arr? then Legacy else Unrecognised
    case _ => Unrecognised
  }

  /** Why a write was rejected. */
  datatype StoreError = WriteFailed

  // ---------------------------------------------------------------------
  // The store
  // ---------------------------------------------------------------------

  /**
   * The device's key-value store. Whether the host's `getItem` or `setItem`
   * succeeds is not known to this layer, so each operation takes it as a
   * parameter (`readOk`, `writeOk`).
   */
  class Store {
    var entries: map<string, Text>

    constructor (entries: map<string, Text>)
      ensures this.entries == entries
    {
      this.entries := entries;
    }

    /** `getItem(STORAGE_KEY)` */
    function Stored(): Option<Text>
      reads this
    {
      if StorageKey in entries then Some(entries[StorageKey]) else None
    }

    /** `loadTasks()`: never raises; a failed read gives `[]` like any other failure. */
    method LoadTasks(readOk: bool) returns (tasks: seq<Json>)
      ensures tasks == if readOk then Decode(Stored()) else []
    {
      if !readOk {
        return [];
      }
      tasks := Decode(Stored());
    }

    /**
     * `saveTasks(tasks)`: overwrites the key with the v2 envelope whatever
     * was there; a failed write is passed back to the caller.
     */
    method SaveTasks(tasks: seq<Json>, writeOk: bool) returns (outcome: Outcome<StoreError>)
      modifies this
      ensures outcome == if writeOk then Pass else Fail(WriteFailed)
      ensures writeOk ==> entries == old(entries)[StorageKey := Saved(tasks)]
      ensures !writeOk ==> entries == old(entries)
    {
      var payload := Envelope(tasks);
      if writeOk {
        entries := entries[StorageKey := Parsed(payload)];
        outcome := Pass;
      } else {
        outcome := Fail(WriteFailed);
      }
    }

    /**
     * `migrateIfNeeded()`: rewrites a bare legacy array as the v2 envelope and
     * leaves every other stored value alone; every failure is swallowed.
     */
    method MigrateIfNeeded(readOk: bool, writeOk: bool)
      modifies this
      ensures readOk && writeOk && ShapeOf(old(Stored())) == Legacy ==>
                entries == old(entries)[StorageKey := Migrated(old(Stored())).value]
      ensures !(readOk && writeOk && ShapeOf(old(Stored())) == Legacy) ==> entries == old(entries)
    {
      if !readOk {
        return;
      }
      var raw := Stored();
      match raw
      case None =>
      case Some(Blank) =>
      case Some(Malformed) =>
      case Some(Parsed(v)) =>
        if v.Arr? && writeOk {
          entries := entries[StorageKey := Parsed(Envelope(v.items))];
        }
    }

    /**
     * One call of `op` on this store: the value under the key becomes
     * `After(old(Stored()), op)`, and no other key changes.
     */
    method Apply(op: Op)
      modifies this
      ensures Stored() == After(old(Stored()), op)
      ensures entries - {StorageKey} == old(entries) - {StorageKey}
    {
      match op
      case Load(readOk) =>
        var loaded := LoadTasks(readOk);
      case Save(tasks, writeOk) =>
        var outcome := SaveTasks(tasks, writeOk);
      case Migrate(readOk, writeOk) =>
        MigratedCases(Stored());
        MigrateIfNeeded(readOk, writeOk);
    }
  }

  // ---------------------------------------------------------------------
  // Properties of a single call
  // ---------------------------------------------------------------------

  /** Nothing stored, or the empty string, loads as `[]`; so does text that does not parse. */
  lemma LoadEmptyOrMalformed()
    ensures Decode(None) == [] && Decode(Some(Blank)) == []
    ensures LoadAttempt(Some(Malformed)) == Raised && Decode(Some(Malformed)) == []
  {
  }

  /** A parsed `null` makes `parsed.tasks` throw; the exception is caught and `[]` returned. */
  lemma LoadNull()
    ensures LoadAttempt(Some(Parsed(Null))) == Raised
    ensures Decode(Some(Parsed(Null))) == []
  {
  }

  /** The v2 test holds exactly of an object whose `version` is 2 and whose `data` is an array. */
  lemma CurrentEnvelopeShape(v: Json)
    ensures IsCurrentEnvelope(v) <==>
              v.Obj? && "version" in v.fields && v.fields["version"] == Num(2.0)
              && "data" in v.fields && v.fields["data"].Arr?
  {
  }

  /**
   * The decode tries the shapes in a fixed order: the v2 envelope, then a
   * bare array, then an array-valued `tasks` field, then `[]`.
   */
  lemma DecodePrecedence(v: Json)
    ensures IsCurrentEnvelope(v) ==> Decode(Some(Parsed(v))) == v.fields["data"].items
    ensures v.Arr? ==> Decode(Some(Parsed(v))) == v.items
    ensures !IsCurrentEnvelope(v) && v.Obj? && "tasks" in v.fields && v.fields["tasks"].Arr? ==>
              Decode(Some(Parsed(v))) == v.fields["tasks"].items
    ensures !IsCurrentEnvelope(v) && !v.Arr? && !(v.Obj? && "tasks" in v.fields && v.fields["tasks"].Arr?) ==>
              Decode(Some(Parsed(v))) == []
  {
  }

  /**
   * An object whose `version` is not 2 or whose `data` is not an array never
   * yields its `data`: it yields its array-valued `tasks` or `[]`.
   */
  lemma DecodeFallsThrough(fields: map<string, Json>)
    requires !("version" in fields && fields["version"] == Num(2.0) && "data" in fields && fields["data"].Arr?)
    ensures Decode(Some(Parsed(Obj(fields)))) ==
              if "tasks" in fields && fields["tasks"].Arr? then fields["tasks"].items else []
  {
  }

  /** An object carrying both a v2 envelope and a `tasks` array yields `data`. */
  lemma DecodeEnvelopeBeatsTasks(data: seq<Json>, tasks: seq<Json>)
    ensures Decode(Some(Parsed(Obj(map["version" := Num(2.0), "data" := Arr(data), "tasks" := Arr(tasks)])))) == data
  {
    var v := Obj(map["version" := Num(2.0), "data" := Arr(data), "tasks" := Arr(tasks)]);
    assert Get(v, "version") == Defined(Num(2.0));
    assert Get(v, "data") == Defined(Arr(data));
  }

  /** Round trip: loading after a save gives back exactly the saved array. */
  lemma LoadAfterSave(tasks: seq<Json>)
    ensures Decode(Some(Saved(tasks))) == tasks
    ensures ShapeOf(Some(Saved(tasks))) == Current
  {
  }

  /**
   * The callers' load-modify-save path: saving what was loaded, whatever
   * shape it came from, writes the v2 envelope, which loads the same again.
   */
  lemma SaveWhatWasLoaded(raw: Option<Text>)
    ensures ShapeOf(Some(Saved(Decode(raw)))) == Current
    ensures Decode(Some(Saved(Decode(raw)))) == Decode(raw)
  {
    LoadAfterSave(Decode(raw));
  }

  /** Distinct tasks are written as distinct JSON objects. */
  lemma TaskJsonInjective(a: Task, b: Task)
    requires TaskJson(a) == TaskJson(b)
    ensures a == b
  {
    var fa, fb := TaskJson(a).fields, TaskJson(b).fields;
    assert fa["id"] == Num(a.id as real) && fb["id"] == Num(b.id as real);
    assert fa["title"] == Str(a.title) && fb["title"] == Str(b.title);
    assert fa["category"] == Str(a.category) && fb["category"] == Str(b.category);
    assert fa["done"] == Bool(a.done) && fb["done"] == Bool(b.done);
    assert "image" in fa <==> !a.image.Missing?;
    assert "image" in fb <==> !b.image.Missing?;
  }

  /** So the loaded list determines the saved one: `ts` is recovered exactly. */
  lemma TasksJsonInjective(a: seq<Task>, b: seq<Task>)
    requires TasksJson(a) == TasksJson(b)
    ensures a == b
  {
    forall i | 0 <= i < |a| ensures a[i] == b[i] {
      TaskJsonInjective(a[i], b[i]);
    }
  }

  /** The typed round trip: loading after saving the tasks `ts` gives back exactly `ts`. */
  lemma TypedRoundTrip(ts: seq<Task>, us: seq<Task>)
    requires Decode(Some(Saved(TasksJson(ts)))) == TasksJson(us)
    ensures us == ts
  {
    LoadAfterSave(TasksJson(ts));
    TasksJsonInjective(ts, us);
  }

  /**
   * A bare array written straight to the key, bypassing `saveTasks`, is the
   * legacy shape again, whatever was stored before; `loadTasks` still
   * returns the array.
   */
  lemma BareArrayWriteIsLegacy(items: seq<Json>)
    ensures ShapeOf(Some(Parsed(Arr(items)))) == Legacy
    ensures Decode(Some(Parsed(Arr(items)))) == items
  {
  }

  /**
   * `saveTasks` does not look at what was stored before: a successful save
   * leaves the same value whatever was there, so saving twice equals saving
   * once, and a failed save leaves the old value.
   */
  lemma SaveOverwrites(tasks: seq<Json>, before: Option<Text>, other: Option<Text>)
    ensures After(before, Save(tasks, true)) == After(other, Save(tasks, true))
    ensures After(After(before, Save(tasks, true)), Save(tasks, true)) == After(before, Save(tasks, true))
    ensures After(before, Save(tasks, false)) == before
  {
  }

  /**
   * `migrateIfNeeded` with a working store: an absent value stays absent, a
   * bare array `A` becomes `{version: 2, data: A}`, anything else is kept.
   */
  lemma MigratedCases(raw: Option<Text>)
    ensures raw.None? ==> Migrated(raw).None?
    ensures ShapeOf(raw) == Legacy ==> Migrated(raw) == Some(Parsed(Envelope(raw.value.value.items)))
    ensures ShapeOf(raw) != Legacy ==> Migrated(raw) == raw
  {
  }

  /** A second migration writes nothing. */
  lemma MigrateIdempotent(raw: Option<Text>)
    ensures Migrated(Migrated(raw)) == Migrated(raw)
    ensures ShapeOf(Migrated(raw)) != Legacy
  {
    if ShapeOf(raw) == Legacy {
      var v := Envelope(raw.value.value.items);
      assert Get(v, "version") == Defined(Num(2.0));
      assert Get(v, "data") == Defined(Arr(raw.value.value.items));
    }
  }

  /** Migration never changes what `loadTasks` returns. */
  lemma MigratePreservesLoad(raw: Option<Text>)
    ensures Decode(Migrated(raw)) == Decode(raw)
  {
    if ShapeOf(raw) == Legacy {
      var v := Envelope(raw.value.value.items);
      assert Get(v, "version") == Defined(Num(2.0));
      assert Get(v, "data") == Defined(Arr(raw.value.value.items));
    }
  }

  // ---------------------------------------------------------------------
  // Properties of runs of operations
  // ---------------------------------------------------------------------

  /** One call against the store, with the host's success or failure for it. */
  datatype Op =
    | Load(readOk: bool)
    | Save(tasks: seq<Json>, writeOk: bool)
    | Migrate(readOk: bool, writeOk: bool)

  /** The value under the key after `op`; `Store.Apply` shows the methods of `Store` leave it so. */
  function After(raw: Option<Text>, op: Op): Option<Text> {
    match op
    case Load(_) => raw
    case Save(ts, writeOk) => if writeOk then Some(Saved(ts)) else raw
    case Migrate(readOk, writeOk) => if readOk && writeOk then Migrated(raw) else raw
  }

  /** The value under the key after the calls `ops`, oldest first. */
  function Run(raw: Option<Text>, ops: seq<Op>): Option<Text>
    decreases |ops|
  {
    if ops == [] then raw else After(Run(raw, ops[..|ops| - 1]), ops[|ops| - 1])
  }

  /** The tasks of the last save in `ops` that was written, if any. */
  function LastSaved(ops: seq<Op>): Option<seq<Json>>
    decreases |ops|
  {
    if ops == [] then None
    else match ops[|ops| - 1]
      case Save(ts, true) => Some(ts)
      case _ => LastSaved(ops[..|ops| - 1])
  }

  /** Whether some call in `ops` actually rewrote the key as a v2 envelope. */
  predicate Rewrites(op: Op) {
    (op.Save? && op.writeOk) || (op.Migrate? && op.readOk && op.writeOk)
  }

  /**
   * After any run of calls, `loadTasks` returns the tasks of the last
   * successful save; with none, what it returned before the run. Loads and
   * migrations in between change nothing it sees.
   */
  lemma {:induction false} LoadReturnsLastSave(raw: Option<Text>, ops: seq<Op>)
    ensures Decode(Run(raw, ops)) ==
              if LastSaved(ops).Some? then LastSaved(ops).value else Decode(raw)
    decreases |ops|
  {
    if ops != [] {
      var init, op := ops[..|ops| - 1], ops[|ops| - 1];
      LoadReturnsLastSave(raw, init);
      match op
      case Load(_) =>
      case Save(ts, writeOk) =>
        if writeOk { LoadAfterSave(ts); }
      case Migrate(readOk, writeOk) =>
        if readOk && writeOk { MigratePreservesLoad(Run(raw, init)); }
    }
  }

  /** Once the store holds the v2 envelope, no call ever takes it out of that shape. */
  lemma {:induction false} CurrentIsTerminal(raw: Option<Text>, ops: seq<Op>)
    requires ShapeOf(raw) == Current
    ensures ShapeOf(Run(raw, ops)) == Current
    decreases |ops|
  {
    if ops != [] {
      var init, op := ops[..|ops| - 1], ops[|ops| - 1];
      CurrentIsTerminal(raw, init);
      if op.Save? && op.writeOk { LoadAfterSave(op.tasks); }
    }
  }

  /**
   * The store never returns to the legacy shape: a legacy array is still
   * there after a run only if it was there before it and nothing in the run
   * rewrote the key.
   */
  lemma {:induction false} LegacyOnlyUntilRewritten(raw: Option<Text>, ops: seq<Op>)
    ensures ShapeOf(Run(raw, ops)) == Legacy ==>
              ShapeOf(raw) == Legacy && Run(raw, ops) == raw
              && forall i :: 0 <= i < |ops| ==> !Rewrites(ops[i])
    decreases |ops|
  {
    if ops != [] {
      var init, op := ops[..|ops| - 1], ops[|ops| - 1];
      LegacyOnlyUntilRewritten(raw, init);
      var before := Run(raw, init);
      if op.Save? && op.writeOk { LoadAfterSave(op.tasks); }
      if op.Migrate? && op.readOk && op.writeOk { MigrateIdempotent(before); }
      if ShapeOf(Run(raw, ops)) == Legacy {
        assert Run(raw, ops) == before;
        assert !Rewrites(op);
        forall i | 0 <= i < |ops| ensures !Rewrites(ops[i]) {
          if i < |init| { assert ops[i] == init[i]; }
        }
      }
    }
  }
}
