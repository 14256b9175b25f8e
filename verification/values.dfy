/** JSON-like values, as they are stored by the host, handed to the board builder
    and embedded in the page for the browser. PHP arrays and JavaScript objects
    both keep insertion order, so an object is an ordered list of fields. */
module Values {
  import opened Wrappers

  datatype Value =
    | Null
    | Bool(b: bool)
    | Num(n: int)
    | Str(s: string)
    | Arr(elems: seq<Value>)
    | Obj(fields: seq<Field>)

  datatype Field = Field(name: string, val: Value)

  /** The value of the first field called `name`, if there is one. */
  function Lookup(fields: seq<Field>, name: string): (r: Option<Value>)
    ensures r.Some? <==> exists i :: 0 <= i < |fields| && fields[i].name == name
    ensures r.Some? ==>
      exists i :: 0 <= i < |fields| && fields[i].name == name && fields[i].val == r.value
        && forall j :: 0 <= j < i ==> fields[j].name != name
  {
    if |fields| == 0 then None
    else if fields[0].name == name then Some(fields[0].val)
    else
      var rest := Lookup(fields[1..], name);
      assert rest.Some? ==> exists i :: 1 <= i < |fields| && fields[i].name == name;
      rest
  }
}
