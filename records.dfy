/**
 * The structured log records both handlers receive, and the errors their
 * `emit` raises.
 *
 * A record carries the logger's dotted `name`, a message `msg` and the
 * creation time `created`. The message is a string, a dict, or any other
 * Python object. A dict is kept as its items in insertion order (the order
 * `dict.items()` yields them); its keys are distinct.
 */
module Records {

  /** A metric value or a step: passed through, never interpreted. */
  type Value = real

  /** `record.created`, a timestamp: passed through, never interpreted. */
  type Time = real

  datatype Option<T> = None | Some(value: T)

  /** The two exceptions `emit` raises. */
  datatype Error =
    | TypeError       // the message is neither a str nor a dict
    | AttributeError  // a dict message has no "step" key

  /** Whether `emit` returned normally or raised. */
  datatype Outcome = Pass | Fail(error: Error)

  datatype Result<T> = Ok(value: T) | Err(error: Error)

  /** No key occurs twice among the items. */
  predicate KeysDistinct(items: seq<(string, Value)>) {
    forall i, j :: 0 <= i < j < |items| ==> items[i].0 != items[j].0
  }

  /** The items of a Python dict, in insertion order. */
  type PyDict = items: seq<(string, Value)> | KeysDistinct(items)

  datatype Message =
    | Text(text: string)
    | Mapping(items: PyDict)
    | Other  // an int, a list, None, ...: neither a str nor a dict

  datatype Record = Record(name: string, msg: Message, created: Time)

  /** The keys of a dict. */
  function KeysOf(items: seq<(string, Value)>): set<string> {
    set i | 0 <= i < |items| :: items[i].0
  }

  /** The keys of a non-empty dict are those before its last item and the last item's. */
  lemma KeysOfLast(items: seq<(string, Value)>)
    requires |items| > 0
    ensures KeysOf(items) == KeysOf(items[..|items| - 1]) + {items[|items| - 1].0}
  {
    var prefix := items[..|items| - 1];
    forall k | k in KeysOf(items) ensures k in KeysOf(prefix) + {items[|items| - 1].0} {
      var i :| 0 <= i < |items| && items[i].0 == k;
      if i < |items| - 1 { assert prefix[i].0 == k; }
    }
    forall k | k in KeysOf(prefix) ensures k in KeysOf(items) {
      var i :| 0 <= i < |prefix| && prefix[i].0 == k;
      assert items[i].0 == k;
    }
  }

  /** `msg["step"]`: the value under the first "step" key, or None (a KeyError). */
  function StepOf(items: seq<(string, Value)>): (r: Option<Value>)
    ensures r.None? <==> "step" !in KeysOf(items)
    ensures forall i :: 0 <= i < |items| && items[i].0 == "step" && KeysDistinct(items) ==>
                          r == Some(items[i].1)
  {
    if |items| == 0 then None
    else if items[0].0 == "step" then Some(items[0].1)
    else
      assert KeysOf(items) == {items[0].0} + KeysOf(items[1..]) by {
        forall k | k in KeysOf(items) ensures k in {items[0].0} + KeysOf(items[1..]) {
          var i :| 0 <= i < |items| && items[i].0 == k;
          if i > 0 { assert items[1..][i - 1].0 == k; }
        }
      }
      StepOf(items[1..])
  }

  /**
   * Both handlers check the message the same way before they touch
   * anything: a str is accepted, a dict must have "step", anything else is
   * a TypeError.
   */
  function Check(msg: Message): (o: Outcome)
    ensures o == Fail(TypeError) <==> msg.Other?
    ensures o == Fail(AttributeError) <==> msg.Mapping? && "step" !in KeysOf(msg.items)
    ensures o == Pass <==> msg.Text? || (msg.Mapping? && "step" in KeysOf(msg.items))
  {
    match msg
    case Text(_) => Pass
    case Mapping(items) => if StepOf(items).Some? then Pass else Fail(AttributeError)
    case Other => Fail(TypeError)
  }
}
