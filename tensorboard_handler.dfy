/**
 * `TensorboardHandler`: forwards each record to a Tensorboard
 * `SummaryWriter`, under the logger name with every `.` replaced by `/`.
 * A string becomes one `add_text`; a dict with "step" becomes one
 * `add_scalar` per other key, in the dict's order, all at that step.
 *
 * The writer is modelled as the log of the calls made to it.
 */
module Tensorboard {
  import opened Records
  import opened Names

  /** One call made to the `SummaryWriter`. */
  datatype WriterCall =
    | AddTextCall(tag: string, text: string)
    | AddScalarCall(tag: string, value: Value, globalStep: Value)

  /** The items of a dict other than "step", in the dict's order. */
  function NonStep(items: seq<(string, Value)>): (r: seq<(string, Value)>)
    ensures |r| <= |items|
    ensures forall i :: 0 <= i < |r| ==> r[i].0 != "step" && r[i] in items
  {
    if |items| == 0 then []
    else
      var last := items[|items| - 1];
      NonStep(items[..|items| - 1]) + (if last.0 != "step" then [last] else [])
  }

  /** A dict without "step" loses nothing. */
  lemma {:induction false} NonStepWithoutStep(items: seq<(string, Value)>)
    requires "step" !in KeysOf(items)
    ensures NonStep(items) == items
  {
    if |items| > 0 {
      var prefix := items[..|items| - 1];
      KeysOfLast(items);
      NonStepWithoutStep(prefix);
      assert prefix + [items[|items| - 1]] == items;
    }
  }

  /** A dict with "step" at position `j` loses exactly that item. */
  lemma {:induction false} NonStepRemovesStep(items: seq<(string, Value)>, j: nat)
    requires KeysDistinct(items)
    requires j < |items| && items[j].0 == "step"
    ensures NonStep(items) == items[..j] + items[j + 1..]
  {
    var n := |items|;
    var prefix := items[..n - 1];
    if j == n - 1 {
      assert "step" !in KeysOf(prefix) by {
        forall i | 0 <= i < |prefix| ensures prefix[i].0 != "step" {
          assert prefix[i] == items[i];
        }
      }
      NonStepWithoutStep(prefix);
    } else {
      NonStepRemovesStep(prefix, j);
      assert items[n - 1].0 != "step";
      assert prefix[..j] == items[..j];
      assert prefix[j + 1..] + [items[n - 1]] == items[j + 1..];
    }
  }

  /** The keys that remain are the dict's keys other than "step", each once. */
  lemma {:induction false} NonStepKeys(items: seq<(string, Value)>)
    requires KeysDistinct(items)
    ensures KeysOf(NonStep(items)) == KeysOf(items) - {"step"}
    ensures KeysDistinct(NonStep(items))
  {
    if |items| > 0 {
      var prefix := items[..|items| - 1];
      var last := items[|items| - 1];
      NonStepKeys(prefix);
      KeysOfLast(items);
      if last.0 != "step" {
        KeysOfLast(NonStep(items));
        assert NonStep(items)[..|NonStep(items)| - 1] == NonStep(prefix);
        assert last.0 !in KeysOf(prefix) by {
          forall i | 0 <= i < |prefix| ensures prefix[i].0 != last.0 {
            assert prefix[i] == items[i];
          }
        }
      } else {
        assert NonStep(items) == NonStep(prefix);
      }
    }
  }

  /** The calls the loop of `_add_scalars` makes for `items`, tagged under `tag`. */
  function ScalarCalls(tag: string, items: seq<(string, Value)>, step: Value): (r: seq<WriterCall>)
    ensures |r| <= |items|
    ensures forall i :: 0 <= i < |r| ==> r[i].AddScalarCall? && r[i].globalStep == step
  {
    if |items| == 0 then []
    else
      var (k, v) := items[|items| - 1];
      ScalarCalls(tag, items[..|items| - 1], step)
        + (if k != "step" then [AddScalarCall(tag + "/" + k, v, step)] else [])
  }

  /**
   * The loop makes one `add_scalar` per item other than "step", in order:
   * the i-th has tag `{tag}/{k}`, the item's value, and `global_step=step`.
   */
  lemma {:induction false} ScalarCallsInOrder(tag: string, items: seq<(string, Value)>, step: Value)
    ensures |ScalarCalls(tag, items, step)| == |NonStep(items)|
    ensures forall i :: 0 <= i < |NonStep(items)| ==>
      ScalarCalls(tag, items, step)[i] == AddScalarCall(tag + "/" + NonStep(items)[i].0, NonStep(items)[i].1, step)
  {
    if |items| > 0 {
      ScalarCallsInOrder(tag, items[..|items| - 1], step);
    }
  }

  /** The calls `emit(record)` makes, or the error it raises. */
  function Calls(record: Record): (r: Result<seq<WriterCall>>)
    ensures r.Err? <==> Check(record.msg).Fail?
    ensures r.Err? ==> r.error == Check(record.msg).error
    ensures r.Ok? && record.msg.Text? ==> |r.value| == 1 && r.value[0].AddTextCall?
    ensures r.Ok? && record.msg.Mapping? ==> forall i :: 0 <= i < |r.value| ==> r.value[i].AddScalarCall?
  {
    match record.msg
    case Text(s) => Ok([AddTextCall(TagOf(record.name), s)])
    case Mapping(items) =>
      (match StepOf(items)
       case None => Err(AttributeError)
       case Some(step) => Ok(ScalarCalls(TagOf(record.name), items, step)))
    case Other => Err(TypeError)
  }

  /** `emit` raises exactly when the message check fails, and then makes no call. */
  lemma EmitFailsIffCheckFails(record: Record)
    ensures Calls(record).Err? <==> Check(record.msg).Fail?
    ensures Calls(record).Err? ==> Calls(record).error == Check(record.msg).error
  {
  }

  /** A string message makes exactly one `add_text`, tagged with the logger's tag. */
  lemma EmitText(record: Record)
    requires record.msg.Text?
    ensures Calls(record) == Ok([AddTextCall(TagOf(record.name), record.msg.text)])
  {
  }

  /**
   * A dict message with "step" makes exactly one `add_scalar` per other
   * key, in the dict's order, tagged `{tag}/{k}`, all with
   * `global_step = msg["step"]`.
   */
  lemma EmitDict(record: Record)
    requires record.msg.Mapping? && "step" in KeysOf(record.msg.items)
    ensures Calls(record).Ok?
    ensures var keys := NonStep(record.msg.items);
      && KeysOf(keys) == KeysOf(record.msg.items) - {"step"}
      && KeysDistinct(keys)
      && |Calls(record).value| == |keys|
      && forall i :: 0 <= i < |keys| ==>
           Calls(record).value[i]
           == AddScalarCall(TagOf(record.name) + "/" + keys[i].0, keys[i].1, StepOf(record.msg.items).value)
  {
    NonStepKeys(record.msg.items);
    ScalarCallsInOrder(TagOf(record.name), record.msg.items, StepOf(record.msg.items).value);
  }

  /** The `SummaryWriter`, as the log of the calls made to it. */
  class SummaryWriter {
    var calls: seq<WriterCall>

    constructor (logDir: string)
      ensures calls == []
    {
      calls := [];
    }

    method AddText(tag: string, text: string)
      modifies this
      ensures calls == old(calls) + [AddTextCall(tag, text)]
    {
      calls := calls + [AddTextCall(tag, text)];
    }

    method AddScalar(tag: string, value: Value, globalStep: Value)
      modifies this
      ensures calls == old(calls) + [AddScalarCall(tag, value, globalStep)]
    {
      calls := calls + [AddScalarCall(tag, value, globalStep)];
    }
  }

  class TensorboardHandler {
    const logDir: string
    const writer: SummaryWriter

    constructor (logDir: string)
      ensures this.logDir == logDir
      ensures fresh(writer) && writer.calls == []
    {
      this.logDir := logDir;
      writer := new SummaryWriter(logDir);
    }

    /** `emit`: dispatch on the message; the writer receives exactly `Calls(record)`. */
    method Emit(record: Record) returns (outcome: Outcome)
      modifies writer
      ensures outcome == Check(record.msg)
      ensures Calls(record).Ok? ==> writer.calls == old(writer.calls) + Calls(record).value
      ensures Calls(record).Err? ==> writer.calls == old(writer.calls)
    {
      match record.msg {
        case Text(_) =>
          AddText(record);
          outcome := Pass;
        case Mapping(_) =>
          outcome := AddScalars(record);
        case Other =>
          outcome := Fail(TypeError);
      }
    }

    /** `_add_text`: one `add_text` under the logger's tag. */
    method AddText(record: Record)
      requires record.msg.Text?
      modifies writer
      ensures writer.calls == old(writer.calls) + [AddTextCall(TagOf(record.name), record.msg.text)]
    {
      var recName := TagOf(record.name);
      writer.AddText(recName, record.msg.text);
    }

    /**
     * `_add_scalars`: read `msg["step"]` (raising before any call when it
     * is missing), then one `add_scalar` per other key.
     */
    method AddScalars(record: Record) returns (outcome: Outcome)
      requires record.msg.Mapping?
      modifies writer
      ensures outcome == Check(record.msg)
      ensures outcome.Fail? ==> writer.calls == old(writer.calls)
      ensures outcome.Pass? ==>
        writer.calls == old(writer.calls) + ScalarCalls(TagOf(record.name), record.msg.items, StepOf(record.msg.items).value)
    {
      var recName := TagOf(record.name);
      var items := record.msg.items;
      var step := StepOf(items);
      if step.None? {
        return Fail(AttributeError);
      }
      for i := 0 to |items|
        invariant writer.calls == old(writer.calls) + ScalarCalls(recName, items[..i], step.value)
      {
        var (k, v) := items[i];
        assert items[..i + 1][..i] == items[..i];
        if k != "step" {
          writer.AddScalar(recName + "/" + k, v, step.value);
        }
      }
      assert items[..|items|] == items;
      outcome := Pass;
    }
  }
}
