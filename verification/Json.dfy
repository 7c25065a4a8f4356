/** Decoded JSON, structurally. How numbers and strings are written down is not modelled. */
module Json {
  datatype Value =
    | Null
    | Bool(flag: bool)
    | Num(number: int)
    | Str(text: string)
    | Arr(items: seq<Value>)
    | Obj(fields: Object)

  type Object = map<string, Value>

  function Strings(texts: seq<string>): (items: seq<Value>)
    ensures |items| == |texts| && forall i :: 0 <= i < |texts| ==> items[i] == Str(texts[i])
  {
    seq(|texts|, i requires 0 <= i < |texts| => Str(texts[i]))
  }

  lemma StringsIsInjective(a: seq<string>, b: seq<string>)
    requires Strings(a) == Strings(b)
    ensures a == b
  {
    assert forall i :: 0 <= i < |a| ==> Strings(a)[i] == Str(a[i]);
    assert forall i :: 0 <= i < |b| ==> Strings(b)[i] == Str(b[i]);
  }

  /** An optional text member: absent when the text is empty. */
  function Field(key: string, text: string): Object {
    if text == "" then map[] else map[key := Str(text)]
  }

  lemma UpdateIsUnion(o: Object, key: string, value: Value)
    ensures o[key := value] == o + map[key := value]
  {
  }
}
