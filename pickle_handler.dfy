/**
 * `PickleHandler`: keeps one snapshot per logger, a dict from field name to
 * a list of entries, in the file `{log_dir}/{stem}.pkl` where the stem is
 * the logger name with every `.` replaced by `_`.
 *
 * `emit` loads the logger's snapshot (or starts from `{}`), appends to it
 * in place according to the message, and writes the whole snapshot back.
 * Every error is raised before anything is written.
 *
 * The directory is modelled as a map from file stem to the snapshot its
 * pickle file holds; pickling itself is not modelled.
 */
module Pickle {
  import opened Records
  import opened Names

  /**
   * One element of a snapshot list: a logged string, or the dict
   * `{step, value, time}` recorded for one metric. Both kinds can share
   * one list, because a dict message may use the key "text".
   */
  datatype Entry =
    | TextEntry(text: string)
    | Scalar(step: Value, value: Value, time: Time)

  /** The contents of one pickle file: field name to list of entries. */
  type Snapshot = map<string, seq<Entry>>

  /** The pickle files of `log_dir`, by file stem. */
  type Store = map<string, Snapshot>

  /** The list under `k`, or the empty list where there is none. */
  function Field(data: Snapshot, k: string): seq<Entry> {
    if k in data then data[k] else []
  }

  /** `data[k].append(e)` if `k` is a field, `data[k] = [e]` otherwise. */
  function AppendField(data: Snapshot, k: string, e: Entry): (r: Snapshot)
    ensures r.Keys == data.Keys + {k}
    ensures r[k] == Field(data, k) + [e]
    ensures forall j :: j in data && j != k ==> r[j] == data[j]
  {
    if k in data then data[k := data[k] + [e]] else data[k := [e]]
  }

  // ---------------------------------------------------------------------
  // Loading and saving: `_maybe_load` and `_save`, the files abstracted.
  // ---------------------------------------------------------------------

  /** `_maybe_load`: the snapshot stored for the logger, or `{}` when there is no file. */
  function Load(files: Store, name: string): (data: Snapshot)
    ensures StorageKey(name) !in files ==> data == map[]
    ensures StorageKey(name) in files ==> data == files[StorageKey(name)]
  {
    if StorageKey(name) in files then files[StorageKey(name)] else map[]
  }

  /** `_save`: the directory after the logger's file is overwritten with `data`. */
  function Saved(files: Store, name: string, data: Snapshot): (r: Store)
    ensures r.Keys == files.Keys + {StorageKey(name)}
    ensures Load(r, name) == data
    ensures forall k :: k in files && k != StorageKey(name) ==> r[k] == files[k]
  {
    files[StorageKey(name) := data]
  }

  /** Loggers with the same storage key read and write the same file. */
  lemma SameKeySameFile(files: Store, a: string, b: string, data: Snapshot)
    requires StorageKey(a) == StorageKey(b)
    ensures Load(files, a) == Load(files, b)
    ensures Load(Saved(files, a, data), b) == data
  {
  }

  // ---------------------------------------------------------------------
  // The in-place updates of `data`: `_add_text` and `_add_scalars`.
  // ---------------------------------------------------------------------

  /** `_add_text`: `data` after the string `s` is appended under "text". */
  function AddedText(data: Snapshot, s: string): (r: Snapshot)
    ensures r.Keys == data.Keys + {"text"}
    ensures "text" !in data ==> r["text"] == [TextEntry(s)]
    ensures "text" in data ==> r["text"] == data["text"] + [TextEntry(s)]
    ensures forall k :: k in data && k != "text" ==> r[k] == data[k]
  {
    AppendField(data, "text", TextEntry(s))
  }

  /**
   * The loop of `_add_scalars` over the dict's items: every key other than
   * "step" gets `{step, value, time}` appended to its list.
   */
  function AddedScalars(data: Snapshot, items: seq<(string, Value)>, step: Value, time: Time): (r: Snapshot)
    ensures data.Keys <= r.Keys
  {
    if |items| == 0 then data
    else
      var before := AddedScalars(data, items[..|items| - 1], step, time);
      var (k, v) := items[|items| - 1];
      if k != "step" then AppendField(before, k, Scalar(step, v, time)) else before
  }

  /** The fields after `_add_scalars` are the old ones and the dict's keys other than "step". */
  lemma {:induction false} AddedScalarsKeys(data: Snapshot, items: seq<(string, Value)>, step: Value, time: Time)
    ensures AddedScalars(data, items, step, time).Keys == data.Keys + (KeysOf(items) - {"step"})
  {
    if |items| > 0 {
      var prefix := items[..|items| - 1];
      AddedScalarsKeys(data, prefix, step, time);
      KeysOfLast(items);
    }
  }

  /**
   * A field that is not a key of the dict, and the field "step", keeps
   * exactly the list it had: `_add_scalars` adds nothing under "step".
   */
  lemma {:induction false} AddedScalarsUnchanged(data: Snapshot, items: seq<(string, Value)>, step: Value, time: Time, k: string)
    requires k !in KeysOf(items) || k == "step"
    ensures k in AddedScalars(data, items, step, time) <==> k in data
    ensures Field(AddedScalars(data, items, step, time), k) == Field(data, k)
  {
    if |items| > 0 {
      var prefix := items[..|items| - 1];
      KeysOfLast(items);
      AddedScalarsUnchanged(data, prefix, step, time, k);
    }
  }

  /**
   * Every key `k` of the dict other than "step" gets exactly one new entry,
   * `{step, value: msg[k], time}`, at the end of its list (a new list when
   * `k` was not a field).
   */
  lemma {:induction false} AddedScalarsAppends(data: Snapshot, items: seq<(string, Value)>, step: Value, time: Time, i: nat)
    requires KeysDistinct(items)
    requires i < |items| && items[i].0 != "step"
    ensures items[i].0 in AddedScalars(data, items, step, time)
    ensures AddedScalars(data, items, step, time)[items[i].0]
         == Field(data, items[i].0) + [Scalar(step, items[i].1, time)]
  {
    var n := |items|;
    var prefix := items[..n - 1];
    if i == n - 1 {
      assert items[i].0 !in KeysOf(prefix) by {
        forall j | 0 <= j < |prefix| ensures prefix[j].0 != items[i].0 {
          assert prefix[j] == items[j];
        }
      }
      AddedScalarsUnchanged(data, prefix, step, time, items[i].0);
    } else {
      assert items[n - 1].0 != items[i].0;
      AddedScalarsAppends(data, prefix, step, time, i);
    }
  }

  // ---------------------------------------------------------------------
  // `emit`, as a function of the directory before the call.
  // ---------------------------------------------------------------------

  /** What `emit` does to the loaded `data` before saving, or the error it raises. */
  function Updated(data: Snapshot, record: Record): (r: Result<Snapshot>)
    ensures r.Err? <==> Check(record.msg).Fail?
    ensures r.Err? ==> r.error == Check(record.msg).error
    ensures r.Ok? ==> data.Keys <= r.value.Keys
  {
    match record.msg
    case Text(s) => Ok(AddedText(data, s))
    case Mapping(items) =>
      (match StepOf(items)
       case None => Err(AttributeError)
       case Some(step) => Ok(AddedScalars(data, items, step, record.created)))
    case Other => Err(TypeError)
  }

  /** The directory after `emit(record)`, or the error it raises. */
  function Emitted(files: Store, record: Record): (r: Result<Store>)
    ensures r.Err? <==> Check(record.msg).Fail?
    ensures r.Ok? ==> r.value.Keys == files.Keys + {StorageKey(record.name)}
    ensures r.Ok? ==> Load(files, record.name).Keys <= Load(r.value, record.name).Keys
  {
    match Updated(Load(files, record.name), record)
    case Ok(data) => Ok(Saved(files, record.name, data))
    case Err(e) => Err(e)
  }

  /**
   * `emit` raises exactly when the message check fails, with the same
   * error; the directory is then not written at all.
   */
  lemma EmitFailsIffCheckFails(files: Store, record: Record)
    ensures Emitted(files, record).Err? <==> Check(record.msg).Fail?
    ensures Emitted(files, record).Err? ==> Emitted(files, record).error == Check(record.msg).error
  {
  }

  /**
   * A successful `emit` overwrites only the logger's own file, with the
   * snapshot read from it (or `{}`) and then updated; every other file is
   * untouched.
   */
  lemma EmitWritesOneFile(files: Store, record: Record)
    requires Emitted(files, record).Ok?
    ensures Updated(Load(files, record.name), record).Ok?
    ensures Load(Emitted(files, record).value, record.name) == Updated(Load(files, record.name), record).value
    ensures Emitted(files, record).value.Keys == files.Keys + {StorageKey(record.name)}
    ensures forall k :: k in files && k != StorageKey(record.name) ==> Emitted(files, record).value[k] == files[k]
  {
  }

  /**
   * A dict message with "step" appends `{step, value: msg[k], time: created}`
   * to the logger's list `k` for every other key `k`. A key "text" is not
   * special: its entry joins the list that string messages append to.
   */
  lemma EmitDictAppends(files: Store, record: Record, i: nat)
    requires record.msg.Mapping? && "step" in KeysOf(record.msg.items)
    requires i < |record.msg.items| && record.msg.items[i].0 != "step"
    ensures Emitted(files, record).Ok?
    ensures Field(Load(Emitted(files, record).value, record.name), record.msg.items[i].0)
         == Field(Load(files, record.name), record.msg.items[i].0)
            + [Scalar(StepOf(record.msg.items).value, record.msg.items[i].1, record.created)]
  {
    AddedScalarsAppends(Load(files, record.name), record.msg.items, StepOf(record.msg.items).value, record.created, i);
  }

  /**
   * A dict message leaves every field of the logger's snapshot that is not
   * one of its keys, and the field "step", as it was.
   */
  lemma EmitDictLeavesOtherFields(files: Store, record: Record, k: string)
    requires record.msg.Mapping? && "step" in KeysOf(record.msg.items)
    requires k !in KeysOf(record.msg.items) || k == "step"
    ensures Emitted(files, record).Ok?
    ensures k in Load(Emitted(files, record).value, record.name) <==> k in Load(files, record.name)
    ensures Field(Load(Emitted(files, record).value, record.name), k) == Field(Load(files, record.name), k)
  {
    AddedScalarsUnchanged(Load(files, record.name), record.msg.items, StepOf(record.msg.items).value, record.created, k);
  }

  /**
   * The dict `{"step": s, "a": v}` logged by logger `x` without a file
   * creates the file `x` holding only the field "a", with one entry, and no
   * field "step".
   */
  lemma OneMetricFromNoFile(files: Store, s: Value, v: Value, t: Time)
    requires "x" !in files
    ensures Emitted(files, Record("x", Mapping([("step", s), ("a", v)]), t))
         == Ok(files["x" := map["a" := [Scalar(s, v, t)]]])
  {
    var key := StorageKey("x");
    assert key[0] == 'x';
    assert key == "x";
    var items: PyDict := [("step", s), ("a", v)];
    assert StepOf(items) == Some(s);
    assert items[..1] == [("step", s)] && items[..1][..0] == [];
    assert AddedScalars(map[], items[..1], s, t) == map[];
    assert AddedScalars(map[], items, s, t) == map["a" := [Scalar(s, v, t)]];
    assert Load(files, "x") == map[];
  }

  /** The directory after successive `emit` calls; a call that raises leaves it as it was. */
  function EmittedAll(files: Store, records: seq<Record>): (r: Store)
    ensures files.Keys <= r.Keys
  {
    if |records| == 0 then files
    else
      var before := EmittedAll(files, records[..|records| - 1]);
      match Emitted(before, records[|records| - 1])
      case Ok(after) => after
      case Err(_) => before
  }

  /** The entries the string messages among `records` contribute, in order. */
  function TextEntries(records: seq<Record>): seq<Entry> {
    if |records| == 0 then []
    else
      var last := records[|records| - 1];
      TextEntries(records[..|records| - 1]) + (if last.msg.Text? then [TextEntry(last.msg.text)] else [])
  }

  /** When every message is a string, there is one entry per record, in the records' order. */
  lemma {:induction false} TextEntriesAt(records: seq<Record>)
    requires forall i :: 0 <= i < |records| ==> records[i].msg.Text?
    ensures |TextEntries(records)| == |records|
    ensures forall i :: 0 <= i < |records| ==> TextEntries(records)[i] == TextEntry(records[i].msg.text)
  {
    if |records| > 0 {
      var prefix := records[..|records| - 1];
      TextEntriesAt(prefix);
      forall i | 0 <= i < |records| - 1 ensures TextEntries(records)[i] == TextEntry(records[i].msg.text) {
        assert prefix[i] == records[i];
      }
    }
  }

  /** Successive `emit` calls from one logger write no file but that logger's. */
  lemma {:induction false} EmittedAllTouchesOneFile(files: Store, name: string, records: seq<Record>)
    requires forall i :: 0 <= i < |records| ==> records[i].name == name
    ensures forall k :: k != StorageKey(name) ==>
      (k in EmittedAll(files, records) <==> k in files) &&
      (k in files ==> EmittedAll(files, records)[k] == files[k])
  {
    if |records| > 0 {
      var prefix := records[..|records| - 1];
      assert forall i :: 0 <= i < |prefix| ==> prefix[i] == records[i];
      EmittedAllTouchesOneFile(files, name, prefix);
    }
  }

  /**
   * String messages `m1, ..., mn` logged in that order by one logger are
   * appended to its "text" list in that order.
   */
  lemma {:induction false} TextsAccumulateInOrder(files: Store, name: string, records: seq<Record>)
    requires forall i :: 0 <= i < |records| ==> records[i].name == name && records[i].msg.Text?
    ensures Field(Load(EmittedAll(files, records), name), "text")
         == Field(Load(files, name), "text") + TextEntries(records)
  {
    if |records| > 0 {
      var n := |records|;
      var prefix := records[..n - 1];
      assert forall i :: 0 <= i < |prefix| ==> prefix[i] == records[i];
      TextsAccumulateInOrder(files, name, prefix);
      var before := EmittedAll(files, prefix);
      var last := records[n - 1];
      assert Emitted(before, last) == Ok(Saved(before, name, AddedText(Load(before, name), last.msg.text)));
    }
  }

  /** Starting without a file, n string messages leave exactly `[m1, ..., mn]` under "text". */
  lemma TextsFromNoFile(files: Store, name: string, records: seq<Record>)
    requires StorageKey(name) !in files
    requires forall i :: 0 <= i < |records| ==> records[i].name == name && records[i].msg.Text?
    ensures |Field(Load(EmittedAll(files, records), name), "text")| == |records|
    ensures forall i :: 0 <= i < |records| ==>
      Field(Load(EmittedAll(files, records), name), "text")[i] == TextEntry(records[i].msg.text)
  {
    TextsAccumulateInOrder(files, name, records);
    TextEntriesAt(records);
  }

  // ---------------------------------------------------------------------
  // The handler itself.
  // ---------------------------------------------------------------------

  /** The directory `log_dir`: the pickle file of every storage key it holds. */
  class Directory {
    var files: Store

    constructor (files: Store)
      ensures this.files == files
    {
      this.files := files;
    }
  }

  /** The dict `data` that `emit` loads and that `_add_text` and `_add_scalars` mutate. */
  class SnapshotData {
    var fields: Snapshot

    constructor (fields: Snapshot)
      ensures this.fields == fields
    {
      this.fields := fields;
    }
  }

  class PickleHandler {
    const logDir: Directory

    constructor (logDir: Directory)
      ensures this.logDir == logDir
    {
      this.logDir := logDir;
    }

    /**
     * `emit`: load, update in place, save. An error is raised before the
     * save, so the directory is then unchanged.
     */
    method Emit(record: Record) returns (outcome: Outcome)
      modifies logDir
      ensures outcome == Check(record.msg)
      ensures Emitted(old(logDir.files), record).Ok? ==> logDir.files == Emitted(old(logDir.files), record).value
      ensures Emitted(old(logDir.files), record).Err? ==> logDir.files == old(logDir.files)
    {
      var data := MaybeLoad(record.name);
      match record.msg {
        case Text(_) =>
          AddText(record, data);
        case Mapping(_) =>
          outcome := AddScalars(record, data);
          if outcome.Fail? {
            return;
          }
        case Other =>
          return Fail(TypeError);
      }
      Save(record.name, data);
      outcome := Pass;
    }

    /** `_maybe_load`: a fresh dict holding the logger's snapshot, or `{}` when it has no file. */
    method MaybeLoad(name: string) returns (data: SnapshotData)
      ensures fresh(data)
      ensures data.fields == Load(logDir.files, name)
    {
      var key := StorageKey(name);
      if key in logDir.files {
        data := new SnapshotData(logDir.files[key]);
      } else {
        data := new SnapshotData(map[]);
      }
    }

    /** `_save`: overwrite the logger's file with the whole of `data`. */
    method Save(name: string, data: SnapshotData)
      modifies logDir
      ensures logDir.files == Saved(old(logDir.files), name, data.fields)
    {
      var key := StorageKey(name);
      logDir.files := logDir.files[key := data.fields];
    }

    /** `_add_text`: append the string message to `data["text"]`, creating the list if needed. */
    method AddText(record: Record, data: SnapshotData)
      requires record.msg.Text?
      modifies data
      ensures data.fields == AddedText(old(data.fields), record.msg.text)
    {
      if "text" in data.fields {
        data.fields := data.fields["text" := data.fields["text"] + [TextEntry(record.msg.text)]];
      } else {
        data.fields := data.fields["text" := [TextEntry(record.msg.text)]];
      }
    }

    /**
     * `_add_scalars`: read `msg["step"]` (raising before anything changes
     * when it is missing), then append one entry per other key, in the
     * dict's order.
     */
    method AddScalars(record: Record, data: SnapshotData) returns (outcome: Outcome)
      requires record.msg.Mapping?
      modifies data
      ensures outcome == Check(record.msg)
      ensures outcome.Fail? ==> data.fields == old(data.fields)
      ensures outcome.Pass? ==>
        data.fields == AddedScalars(old(data.fields), record.msg.items, StepOf(record.msg.items).value, record.created)
    {
      var items := record.msg.items;
      var step := StepOf(items);
      if step.None? {
        return Fail(AttributeError);
      }
      for i := 0 to |items|
        invariant data.fields == AddedScalars(old(data.fields), items[..i], step.value, record.created)
      {
        var (k, v) := items[i];
        assert items[..i + 1][..i] == items[..i];
        if k != "step" {
          var entry := Scalar(step.value, v, record.created);
          if k in data.fields {
            data.fields := data.fields[k := data.fields[k] + [entry]];
          } else {
            data.fields := data.fields[k := [entry]];
          }
        }
      }
      assert items[..|items|] == items;
      outcome := Pass;
    }
  }

  /**
   * A handler created later on the same directory loads what an earlier
   * one's `emit` saved: the snapshot survives the handler.
   */
  method ReopenedHandlerSeesSnapshot(dir: Directory, record: Record) returns (data: SnapshotData)
    modifies dir
    ensures Emitted(old(dir.files), record).Ok? ==>
      data.fields == Updated(Load(old(dir.files), record.name), record).value
    ensures Emitted(old(dir.files), record).Err? ==>
      data.fields == Load(old(dir.files), record.name)
  {
    var first := new PickleHandler(dir);
    var outcome := first.Emit(record);
    var second := new PickleHandler(dir);
    data := second.MaybeLoad(record.name);
    if Emitted(old(dir.files), record).Ok? {
      EmitWritesOneFile(old(dir.files), record);
    }
  }
}
