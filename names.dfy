/**
 * Names derived from a logger's dotted name: the stem of its pickle file
 * (every `.` becomes `_`) and its Tensorboard tag (every `.` becomes `/`).
 * Both are Python's `name.replace(".", c)` for a one-character pattern,
 * which replaces every occurrence and nothing else.
 */
module Names {

  /** `s.replace(from, to)` for single characters `from` and `to`. */
  function ReplaceChar(s: string, from: char, to: char): (r: string)
    ensures |r| == |s|
    ensures forall i :: 0 <= i < |s| ==> r[i] == (if s[i] == from then to else s[i])
  {
    if |s| == 0 then []
    else [if s[0] == from then to else s[0]] + ReplaceChar(s[1..], from, to)
  }

  /** The pickle file stem of a logger: `logger_name.replace(".", "_")`. */
  function StorageKey(name: string): (key: string)
    ensures |key| == |name|
    ensures forall i :: 0 <= i < |key| ==> key[i] != '.'
    ensures forall i :: 0 <= i < |name| && name[i] != '.' ==> key[i] == name[i]
    ensures forall i :: 0 <= i < |name| && name[i] == '.' ==> key[i] == '_'
  {
    ReplaceChar(name, '.', '_')
  }

  /** The Tensorboard tag of a logger: `record.name.replace(".", "/")`. */
  function TagOf(name: string): (tag: string)
    ensures |tag| == |name|
    ensures forall i :: 0 <= i < |tag| ==> tag[i] != '.'
    ensures forall i :: 0 <= i < |name| && name[i] != '.' ==> tag[i] == name[i]
    ensures forall i :: 0 <= i < |name| && name[i] == '.' ==> tag[i] == '/'
  {
    ReplaceChar(name, '.', '/')
  }

  /** A name without dots is its own storage key and its own tag. */
  lemma DotFreeNameIsFixed(name: string)
    requires forall i :: 0 <= i < |name| ==> name[i] != '.'
    ensures StorageKey(name) == name
    ensures TagOf(name) == name
  {
  }

  /** Deriving the storage key twice changes nothing more. */
  lemma StorageKeyIdempotent(name: string)
    ensures StorageKey(StorageKey(name)) == StorageKey(name)
  {
    DotFreeNameIsFixed(StorageKey(name));
  }

  /** The storage key and the tag of a name differ exactly where the name has a dot. */
  lemma KeyAndTagAgreeOffDots(name: string)
    ensures |StorageKey(name)| == |TagOf(name)|
    ensures forall i :: 0 <= i < |name| ==> (StorageKey(name)[i] == TagOf(name)[i] <==> name[i] != '.')
  {
  }

  /** The end-to-end example: logger `train.loss` is stored as `train_loss`. */
  lemma TrainLossKey()
    ensures StorageKey("train.loss") == "train_loss"
  {
    var k := StorageKey("train.loss");
    assert k[0] == 't' && k[1] == 'r' && k[2] == 'a' && k[3] == 'i' && k[4] == 'n' && k[5] == '_';
    assert k[6] == 'l' && k[7] == 'o' && k[8] == 's' && k[9] == 's';
  }

  /**
   * Two loggers whose names differ only by `.` against `_` share one
   * pickle file: the storage key does not determine the logger.
   */
  lemma StorageKeyCollides()
    ensures "train.loss" != "train_loss"
    ensures StorageKey("train.loss") == StorageKey("train_loss")
  {
    TrainLossKey();
    var k := StorageKey("train_loss");
    assert k[0] == 't' && k[1] == 'r' && k[2] == 'a' && k[3] == 'i' && k[4] == 'n' && k[5] == '_';
    assert k[6] == 'l' && k[7] == 'o' && k[8] == 's' && k[9] == 's';
  }

  /** The end-to-end example: logger `train.loss` is tagged `train/loss`. */
  lemma TrainLossTag()
    ensures TagOf("train.loss") == "train/loss"
  {
    var t := TagOf("train.loss");
    assert t[0] == 't' && t[1] == 'r' && t[2] == 'a' && t[3] == 'i' && t[4] == 'n' && t[5] == '/';
    assert t[6] == 'l' && t[7] == 'o' && t[8] == 's' && t[9] == 's';
  }
}
