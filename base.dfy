/** Shared vocabulary of the demo-data model: optional values, the Python
    exceptions the generators can raise, and results that carry them. */
module Base {

  /** A persistent identifier value, as handed out by the PID provider. */
  type Pid = string

  datatype Option<+T> = None | Some(value: T)

  /** The Python exceptions the generators raise on their own inputs:
      `ValueError` for `randint` on an empty range and for a sample larger
      than its population, `IndexError` for `random.choice` on an empty
      list and for `split()[0]` on a blank string, `RecursionError` when
      `_get_item_can_circulate` exhausts the interpreter stack, `KeyError`
      when the location has not been generated yet. */
  datatype Error = ValueError | IndexError | RecursionError | KeyError

  datatype Result<+T> = Ok(value: T) | Err(error: Error) {
    predicate IsFailure() { Err? }

    function PropagateFailure<U>(): Result<U>
      requires Err?
    {
      Err(error)
    }

    function Extract(): T
      requires Ok?
    {
      value
    }
  }

  /** No element occurs twice. */
  predicate Distinct<T(==)>(s: seq<T>) {
    forall i, j :: 0 <= i < j < |s| ==> s[i] != s[j]
  }

  /** Appending an element that is not there yet keeps a sequence
      duplicate-free. */
  lemma DistinctAppend<T>(s: seq<T>, x: T)
    requires Distinct(s) && x !in s
    ensures Distinct(s + [x])
  {
    var t := s + [x];
    forall i, j | 0 <= i < j < |t| ensures t[i] != t[j] {
      if j == |s| {
        assert t[i] == s[i];
      } else {
        assert t[i] == s[i] && t[j] == s[j];
      }
    }
  }

  /** Removing one position keeps a duplicate-free sequence duplicate-free
      and removes the element for good. */
  lemma DistinctRemove<T>(s: seq<T>, k: nat)
    requires Distinct(s) && k < |s|
    ensures Distinct(s[..k] + s[k + 1..])
    ensures s[k] !in s[..k] + s[k + 1..]
  {
    var t := s[..k] + s[k + 1..];
    forall i | 0 <= i < |t|
      ensures t[i] == s[if i < k then i else i + 1]
    {
    }
  }
}
