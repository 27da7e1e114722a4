/** JSON values, as far as the request rewriters look at them. */
module Json {
  datatype Value =
    | Null
    | Bool(b: bool)
    | Int(i: int)
    | Real(r: real)
    | NonFinite
    | Str(s: string)
    | List(id: nat)
    | Obj(fields: map<string, Value>)

  type Fields = map<string, Value>

  function Get(fields: Fields, key: string): Value {
    if key in fields then fields[key] else Null
  }

  predicate Any(fields: Fields, keys: seq<string>) {
    exists i :: 0 <= i < |keys| && keys[i] in fields
  }

  /** The value of the first key that is present, an explicit null included. */
  function First(fields: Fields, keys: seq<string>): Value {
    if keys == [] then Null
    else if keys[0] in fields then fields[keys[0]]
    else First(fields, keys[1..])
  }

  lemma {:induction false} FirstSame(a: Fields, b: Fields, keys: seq<string>)
    requires forall i :: 0 <= i < |keys| ==> (keys[i] in a <==> keys[i] in b)
    requires forall i :: 0 <= i < |keys| && keys[i] in a && keys[i] in b ==> a[keys[i]] == b[keys[i]]
    ensures First(a, keys) == First(b, keys)
  {
    if keys != [] && keys[0] !in a {
      FirstSame(a, b, keys[1..]);
    }
  }

  lemma TwoNames(p: Fields, a: string, b: string)
    ensures First(p, [a, b]) == if a in p then p[a] else if b in p then p[b] else Null
    ensures Any(p, [a, b]) <==> a in p || b in p
  {
    OneName(p, b);
    var keys := [a, b];
    assert keys[1..] == [b] && keys[0] == a && keys[1] == b;
  }

  lemma OneName(p: Fields, a: string)
    ensures First(p, [a]) == if a in p then p[a] else Null
    ensures Any(p, [a]) <==> a in p
  {
    var keys := [a];
    assert keys[1..] == [] && keys[0] == a;
  }

  lemma ThreeNames(p: Fields, a: string, b: string, c: string)
    ensures First(p, [a, b, c]) == if a in p then p[a] else if b in p then p[b] else if c in p then p[c] else Null
    ensures Any(p, [a, b, c]) <==> a in p || b in p || c in p
  {
    var keys := [a, b, c];
    assert keys[1..] == [b, c];
    TwoNames(p, b, c);
    assert keys[0] == a && keys[1] == b && keys[2] == c;
  }
}
