/** The dictionary tree that `xml_to_dict` turns the carrier's XML reply
    into, and the Python operations the decoder applies to it. */
module ResponseTree {
  import opened Wrappers
  import opened PyStr

  /** A leaf element's text, an element with named children, or a list of
      same-named siblings. */
  datatype Node = Text(text: string) | Obj(fields: map<string, Node>) | Arr(items: seq<Node>)

  /** The exceptions decoding can end in. */
  datatype DecodeError =
    | TrackFailed(description: Node)  // the carrier reported an error
    | MissingKey(key: string)         // KeyError: a dict has no such key
    | WrongType(key: string)          // TypeError: indexing a non-dict, or a non-string where a string is needed
    | BadDate(text: string)           // ValueError: `strptime` rejected the text

  /** `n[key]` */
  function Get(n: Node, key: string): (r: Result<Node, DecodeError>)
    ensures r.Success? <==> n.Obj? && key in n.fields
    ensures r.Success? ==> r.value == n.fields[key]
    ensures r.Failure? ==> r.error == (if n.Obj? then MissingKey(key) else WrongType(key))
  {
    if !n.Obj? then Failure(WrongType(key))
    else if key !in n.fields then Failure(MissingKey(key))
    else Success(n.fields[key])
  }

  /** `key in n`: a dict key, a substring of a string, or an element of a list. */
  predicate PyContains(n: Node, key: string)
    ensures n.Obj? ==> (PyContains(n, key) <==> key in n.fields)
    ensures n.Text? && PyContains(n, key) ==> |key| <= |n.text|
  {
    match n
    case Obj(fields) => key in fields
    case Text(s) => Contains(s, key)
    case Arr(items) => Text(key) in items
  }

  /** Python truthiness: empty strings, dicts and lists are false. */
  predicate Truthy(n: Node)
    ensures !Truthy(n) <==> n == Text("") || n == Obj(map[]) || n == Arr([])
  {
    match n
    case Text(s) => s != ""
    case Obj(fields) => |fields| != 0
    case Arr(items) => items != []
  }
}
