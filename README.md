# rlog handlers in Dafny

A model of the two structured-logging handlers of `rlog/handlers.py`, with
proofs of what each `emit` does to its external state.

- **`PickleHandler`** keeps one snapshot per logger in `{log_dir}/{stem}.pkl`,
  where the stem is the logger name with every `.` replaced by `_`. A snapshot
  is a dict from field name to a list of entries. `emit` loads the logger's
  snapshot (or `{}` when it has no file), mutates it in place and writes the
  whole snapshot back:
  - a string message is appended to the list `"text"`;
  - a dict message must have `"step"`; every other key `k` gets
    `{step, value: msg[k], time: record.created}` appended to list `k`;
  - any other message raises `TypeError`, and a dict without `"step"` raises
    `AttributeError`. Both are raised before the save, so no file changes.
- **`TensorboardHandler`** forwards each record to a `SummaryWriter` under the
  logger name with every `.` replaced by `/`. A string message becomes one
  `add_text`. A dict message with `"step"` becomes one `add_scalar` per other
  key, tagged `{tag}/{k}`, in the dict's order, all with `global_step = step`.
  It raises the same errors as the pickle handler and then calls nothing.

Layout:

| file | module | contents |
|---|---|---|
| `names.dfy` | `Names` | `str.replace` for one character; storage key and Tensorboard tag |
| `records.dfy` | `Records` | log records, messages (str, dict as ordered items, other), errors, `msg["step"]`, the shared message check |
| `pickle_handler.dfy` | `Pickle` | entries, snapshots and the directory; pure specifications of load, save, `_add_text`, `_add_scalars` and `emit`; the `Directory`, `SnapshotData` and `PickleHandler` classes |
| `tensorboard_handler.dfy` | `Tensorboard` | the writer as a call log; the calls one record produces; the `SummaryWriter` and `TensorboardHandler` classes |
| `agreement.dfy` | `Agreement` | both handlers raise on the same records |

Modelling choices:

- The pickle directory is a `Directory` object whose field `files` maps a file
  stem to the snapshot that file holds. A handler keeps a reference to it
  (`log_dir`), so a second handler on the same directory sees what the first
  saved.
- The dict `data` that `emit` loads and that `_add_text` and `_add_scalars`
  mutate is a `SnapshotData` object. The helpers change its field in place.
- The `SummaryWriter` is an object whose only state is the sequence of calls
  made to it.
- A Python dict message is its sequence of items in insertion order, with
  distinct keys (the subset type `PyDict`). This keeps the order
  `dict.items()` yields, which fixes the order of the `add_scalar` calls.
- An entry is `TextEntry(s)` or `Scalar(step, value, time)`. Both kinds can sit
  in one list: a dict message with the key `"text"` appends a `Scalar` to the
  list that string messages append to. `"text"` is not reserved for strings.
- Metric values, steps and `record.created` are `real`s that are only passed
  through.
- Each stateful method is proved against a pure function of the state before
  the call: `Pickle.Emitted` for `PickleHandler.Emit` and `Tensorboard.Calls`
  for `TensorboardHandler.Emit`. The lemmas are proved about those functions.
- A dict without `"step"` raises `AttributeError`, as the code does. The
  error is not a separate missing-field kind.
- The file suffix is `.pkl`. `Names.StorageKey` gives the stem before it.
  The stem does not determine the logger: `train.loss` and `train_loss` share
  one file (`Names.StorageKeyCollides`).
- A snapshot may already hold a field `"step"`. The model leaves that field
  unchanged (`Pickle.AddedScalarsUnchanged`), so after a dict message a
  snapshot has no `"step"` field only if it had none before.

## Model

| member | source | states |
|---|---|---|
| `Names.ReplaceChar` | rlog/handlers.py:42 | `s.replace(from, to)` for one character: same length, each `from` becomes `to`, every other character is kept |
| `Names.StorageKey` | rlog/handlers.py:42-43 | the file stem has the name's length, contains no `.`, keeps every non-dot character and has `_` wherever the name has `.` |
| `Names.TagOf` | rlog/handlers.py:109 | the tag has the name's length, contains no `.`, keeps every non-dot character and has `/` wherever the name has `.` |
| `Names.DotFreeNameIsFixed` | rlog/handlers.py:42 | a name without dots is its own storage key and its own tag |
| `Names.StorageKeyIdempotent` | rlog/handlers.py:52 | deriving the storage key from a storage key changes nothing |
| `Names.KeyAndTagAgreeOffDots` | rlog/handlers.py:113 | the storage key and the tag of a name agree at a position exactly when the name has no dot there |
| `Names.TrainLossKey` | rlog/handlers.py:42-43 | logger `train.loss` is stored under `train_loss` |
| `Names.StorageKeyCollides` | rlog/handlers.py:52-53 | the distinct loggers `train.loss` and `train_loss` share one file |
| `Names.TrainLossTag` | rlog/handlers.py:113 | logger `train.loss` is tagged `train/loss` |
| `Records.StepOf` | rlog/handlers.py:66 | `msg["step"]` fails exactly when `"step"` is not a key, and otherwise gives the value stored under `"step"` |
| `Records.Check` | rlog/handlers.py:29-34 | a message is rejected with `TypeError` exactly when it is neither str nor dict, with `AttributeError` exactly when it is a dict without `"step"`, and accepted otherwise |
| `Pickle.AppendField` | rlog/handlers.py:78-81 | appending under `k` adds `k` to the fields, puts the entry at the end of `k`'s list (a one-element list if `k` was absent), and leaves every other field unchanged |
| `Pickle.Load` | rlog/handlers.py:38-49 | the snapshot of a logger with no file is `{}`; otherwise it is the one stored under the logger's storage key |
| `Pickle.Saved` | rlog/handlers.py:51-56 | saving adds the logger's file, loading it then gives back exactly what was saved, and every other file is unchanged |
| `Pickle.SameKeySameFile` | rlog/handlers.py:42-53 | two loggers with the same storage key load the same snapshot, and one reads what the other saved |
| `Pickle.AddedText` | rlog/handlers.py:58-62 | `_add_text` creates `"text"` as a one-element list when it is absent, otherwise appends exactly one element at its end, and leaves every other field unchanged |
| `Pickle.AddedScalars` | rlog/handlers.py:75-81 | the loop of `_add_scalars`: no field is lost; what it appends is specified by `AddedScalarsKeys`, `AddedScalarsUnchanged` and `AddedScalarsAppends` |
| `Pickle.AddedScalarsKeys` | rlog/handlers.py:75-81 | after `_add_scalars` the fields are the old fields plus the dict's keys other than `"step"` |
| `Pickle.AddedScalarsUnchanged` | rlog/handlers.py:75-81 | a field that is not a key of the dict, and the field `"step"`, keeps its list and its presence |
| `Pickle.AddedScalarsAppends` | rlog/handlers.py:75-81 | every key `k` other than `"step"` gets exactly one entry `{step, value: msg[k], time}` at the end of its old list (or a new one-element list) |
| `Pickle.Updated` | rlog/handlers.py:29-34 | the dispatch of `emit` on the loaded `data`: fails exactly when the message check fails, with its error, and otherwise loses no field; the updates themselves are specified by `AddedText` and the `AddedScalars` lemmas |
| `Pickle.Emitted` | rlog/handlers.py:25-36 | `emit` as a function of the directory: fails exactly when the message check fails; on success adds or overwrites only the logger's file and loses none of its fields; further specified by `EmitWritesOneFile`, `EmitDictAppends` and `EmitDictLeavesOtherFields` |
| `Pickle.EmitFailsIffCheckFails` | rlog/handlers.py:25-36 | `emit` raises exactly when the message check fails, with the same error |
| `Pickle.EmitWritesOneFile` | rlog/handlers.py:25-36 | a successful `emit` writes the logger's file with the loaded-or-empty snapshot after its update, and leaves every other file unchanged |
| `Pickle.EmitDictAppends` | rlog/handlers.py:64-81 | a dict message with `"step"` succeeds and appends `{step, value, created}` to the logger's list of every other key, `"text"` included |
| `Pickle.EmitDictLeavesOtherFields` | rlog/handlers.py:64-81 | a dict message with `"step"` leaves every field that is not one of its keys, and `"step"`, as it was |
| `Pickle.OneMetricFromNoFile` | rlog/handlers.py:25-81 | `{"step": s, "a": v}` from logger `x` with no file creates file `x` with only the field `"a"` holding `[{s, v, t}]` |
| `Pickle.EmittedAll` | rlog/handlers.py:25-36 | successive `emit` calls: no file is ever removed; further specified by `EmittedAllTouchesOneFile` and `TextsAccumulateInOrder` |
| `Pickle.TextEntriesAt` | rlog/handlers.py:58-62 | when every message is a string, the text entries they contribute are one per record, in the records' order |
| `Pickle.EmittedAllTouchesOneFile` | rlog/handlers.py:25-56 | successive `emit` calls from one logger change no file but that logger's |
| `Pickle.TextsAccumulateInOrder` | rlog/handlers.py:58-62 | string messages logged in order by one logger are appended to its `"text"` list in that order |
| `Pickle.TextsFromNoFile` | rlog/handlers.py:45-62 | starting with no file, string messages `m1, ..., mn` leave exactly `[m1, ..., mn]` under `"text"` |
| `Pickle.PickleHandler.constructor` | rlog/handlers.py:21-23 | the handler keeps the directory it is given |
| `Pickle.PickleHandler.Emit` | rlog/handlers.py:25-36 | returns the message check's outcome; on success the directory becomes `Emitted(old directory, record)`, on error it is unchanged |
| `Pickle.PickleHandler.MaybeLoad` | rlog/handlers.py:38-49 | returns a fresh dict holding the logger's stored snapshot, or `{}` when there is no file |
| `Pickle.PickleHandler.Save` | rlog/handlers.py:51-56 | overwrites the logger's file with the whole of `data` and changes no other file |
| `Pickle.PickleHandler.AddText` | rlog/handlers.py:58-62 | mutates `data` in place into `AddedText(old data, msg)` |
| `Pickle.PickleHandler.AddScalars` | rlog/handlers.py:64-81 | without `"step"`, fails with `AttributeError` and leaves `data` unchanged; otherwise mutates it into `AddedScalars(old data, items, step, created)` through its loop |
| `Pickle.ReopenedHandlerSeesSnapshot` | rlog/handlers.py:21-56 | for any record, a second handler on the same directory loads the snapshot the first one's `emit` saved, or the unchanged one when that `emit` raised |
| `Tensorboard.NonStep` | rlog/handlers.py:124-125 | the items the loop acts on: at most the dict's items, none with key `"step"`; specified by `NonStepWithoutStep`, `NonStepRemovesStep` and `NonStepKeys` |
| `Tensorboard.NonStepWithoutStep` | rlog/handlers.py:124-125 | a dict without `"step"` keeps all its items in the loop |
| `Tensorboard.NonStepRemovesStep` | rlog/handlers.py:124-125 | a dict with `"step"` at position `j` loses exactly that item and keeps the others in order |
| `Tensorboard.NonStepKeys` | rlog/handlers.py:124-125 | the items the loop keeps have for keys exactly the dict's keys other than `"step"`, each once |
| `Tensorboard.ScalarCalls` | rlog/handlers.py:124-126 | the calls of the loop of `_add_scalars`: all `add_scalar`, all with `global_step = step`; their order and tags are specified by `ScalarCallsInOrder` |
| `Tensorboard.ScalarCallsInOrder` | rlog/handlers.py:124-126 | the loop makes one `add_scalar` per kept item, in order, the i-th with tag `{tag}/{k}`, the item's value and `global_step = step` |
| `Tensorboard.Calls` | rlog/handlers.py:98-126 | the calls `emit` makes: fails exactly when the message check fails, with its error; a string makes one `add_text`, a dict only `add_scalar`s; specified in full by `EmitText` and `EmitDict` |
| `Tensorboard.EmitFailsIffCheckFails` | rlog/handlers.py:98-106 | `emit` raises exactly when the message check fails, with the same error, and then makes no call |
| `Tensorboard.EmitText` | rlog/handlers.py:108-110 | a string message makes exactly one `add_text`, with the logger's tag and the message |
| `Tensorboard.EmitDict` | rlog/handlers.py:112-126 | a dict message with `"step"` makes exactly one `add_scalar` per key other than `"step"`, in the dict's order, tagged `name.replace(".", "/") + "/" + k`, each with `global_step = step` |
| `Tensorboard.SummaryWriter.AddText` | rlog/handlers.py:110 | the writer's log gains exactly this `add_text` call at its end |
| `Tensorboard.SummaryWriter.AddScalar` | rlog/handlers.py:126 | the writer's log gains exactly this `add_scalar` call at its end |
| `Tensorboard.TensorboardHandler.constructor` | rlog/handlers.py:87-91 | the handler keeps `log_dir` and opens a fresh writer with no calls |
| `Tensorboard.TensorboardHandler.Emit` | rlog/handlers.py:98-106 | returns the message check's outcome; the writer's log gains exactly `Calls(record)` on success and nothing on error |
| `Tensorboard.TensorboardHandler.AddText` | rlog/handlers.py:108-110 | the writer's log gains the one `add_text` for the record |
| `Tensorboard.TensorboardHandler.AddScalars` | rlog/handlers.py:112-126 | without `"step"`, fails with `AttributeError` before any call; otherwise its loop appends exactly `ScalarCalls(tag, items, step)` to the writer's log |
| `Agreement.HandlersRaiseAlike` | rlog/handlers.py:29-34 | the pickle handler and the Tensorboard handler raise on exactly the same records, with the same error |

## Left out

- Pickle serialization and file I/O (`open`, `pickle.load`, `pickle.dump`, `Path`): the directory is a map from file stem to snapshot. A file that exists but cannot be read or unpickled, and a failing write, are not modelled.
- Path resolution by `Path(self.log_dir, f"{file_name}.pkl")` (lines 43, 53): a `/` in a logger name is a path separator, so `a/b` and `a//b` share one file, and a name starting with `/` is resolved outside `log_dir`. The model treats every stem as its own file, so `Pickle.EmittedAllTouchesOneFile` and `Pickle.EmitWritesOneFile` hold only under that abstraction.
- The order of a snapshot's fields: the pickled dict keeps insertion order (a new field goes last, line 81), while `Snapshot` is a `map` and records only which lists the fields hold.
- `SummaryWriter` internals and `TensorboardHandler.close` (lines 128-129): the writer belongs to a foreign library and is modelled only as a log of calls.
- The optional import of `SummaryWriter` and the `NameError` re-raise in `TensorboardHandler.__init__` (lines 7-10, 90-96): an environment check, not logic.
- The `logging.Handler` machinery (`handle`, locking, formatting, `handleError`).
- The numeric meaning of metric values, steps and `record.created`: they are opaque values passed through.
- Concurrent writers to one pickle file (lost updates): the model is sequential.
- Dict keys that are not strings: keys are strings.
- Dict subclasses for which `msg["step"]` raises although the key is present, or returns although it is absent (`collections.Counter` returns 0, `defaultdict` returns its default and inserts `"step"`): the model assumes `msg["step"]` raises exactly when `"step"` is absent. Any exception it raises becomes `AttributeError` (`except Exception`, lines 67, 116), as in the model.
- The text of the exception messages: only the exception class is modelled.

