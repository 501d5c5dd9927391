/**
 * What `BufRead::lines` yields: each item is a decoded line (without its
 * line terminator) or the I/O error that ended the read. Decoding itself is
 * not modelled; a stream is the sequence of items it yields.
 */
module Lines {
  import opened Wrappers

  /** An `std::io::Error`, reduced to a description of what went wrong. */
  datatype IoError = IoError(message: string)

  type Item = Result<string, IoError>

  predicate AllOk(items: seq<Item>) {
    forall k :: 0 <= k < |items| ==> items[k].Ok?
  }

  /** The lines carried by a stream that holds no error, in stream order. */
  function Values(items: seq<Item>): (r: seq<string>)
    requires AllOk(items)
  {
    seq(|items|, k requires 0 <= k < |items| => items[k].value)
  }

  /** The index of the first error in `items`, if there is one. */
  function FirstErr(items: seq<Item>): (r: Option<nat>)
    ensures r.None? <==> AllOk(items)
    ensures r.Some? ==> r.value < |items| && items[r.value].Err? && AllOk(items[..r.value])
  {
    if items == [] then None
    else if items[0].Err? then Some(0)
    else match FirstErr(items[1..])
      case None => None
      case Some(i) =>
        assert items[..i + 1] == [items[0]] + items[1..][..i];
        Some(i + 1)
  }

  /** An error preceded only by lines is the first error. */
  lemma FirstErrAt(items: seq<Item>, i: nat)
    requires i < |items| && items[i].Err? && AllOk(items[..i])
    ensures FirstErr(items) == Some(i)
  {
    assert !AllOk(items);
    var r := FirstErr(items).value;
    assert forall k :: 0 <= k < i ==> items[..i][k] == items[k];
    assert forall k :: 0 <= k < r ==> items[..r][k] == items[k];
  }

  /** No line of a stream holds the line terminator, as `BufRead::lines` strips it. */
  predicate NoTerminators(items: seq<Item>) {
    forall k :: 0 <= k < |items| && items[k].Ok? ==> '\n' !in items[k].value
  }
}
