/** Python values as they flow through the wrapper: statement ids,
    statement texts, bind parameters and the items of a batch. */
module Values {

  datatype Option<+T> = None | Some(value: T)

  datatype Value =
    | Null                   // Python's None
    | Bool(b: bool)
    | Int(i: int)
    | Str(s: string)
    | Tuple(items: seq<Value>)
    | List(items: seq<Value>)

  /** `isinstance(v, (tuple, list))` */
  predicate IsSequence(v: Value) {
    v.Tuple? || v.List?
  }

  /** The values a `for` loop can walk over: tuples, lists and strings. */
  predicate Iterable(v: Value) {
    v.Tuple? || v.List? || v.Str?
  }

  /** The items a `for` loop visits, in order; a string yields its
      characters as one-character strings. */
  function Items(v: Value): (r: seq<Value>)
    requires Iterable(v)
    ensures IsSequence(v) ==> r == v.items
    ensures v.Str? ==> |r| == |v.s| && forall i :: 0 <= i < |r| ==> r[i] == Str([v.s[i]])
  {
    if v.Str? then CharStrings(v.s) else v.items
  }

  function CharStrings(s: string): (r: seq<Value>)
    ensures |r| == |s|
    ensures forall i :: 0 <= i < |s| ==> r[i] == Str([s[i]])
  {
    if s == [] then [] else [Str([s[0]])] + CharStrings(s[1..])
  }

  /** The parameters one batch item is bound with: a tuple or list is
      bound as it is, any other value becomes the one-element tuple `(item,)`. */
  function Bind(item: Value): (r: Value)
    ensures IsSequence(r)
    ensures IsSequence(item) ==> r == item
    ensures !IsSequence(item) ==> r == Tuple([item])
    ensures r.items == if IsSequence(item) then item.items else [item]
  {
    if IsSequence(item) then item else Tuple([item])
  }
}
