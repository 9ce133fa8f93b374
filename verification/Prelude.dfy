/** Small vocabulary shared by the models: optional values, bytes, and
    concatenations of sequences. */
module Prelude {

  datatype Option<+T> = None | Some(value: T)

  newtype Byte = x: int | 0 <= x < 256

  type Bytes = seq<Byte>

  function Flatten<T>(s: seq<seq<T>>): seq<T>
  {
    if s == [] then [] else Flatten(s[..|s| - 1]) + s[|s| - 1]
  }

  lemma {:induction false} FlattenAppend<T>(a: seq<seq<T>>, b: seq<seq<T>>)
    ensures Flatten(a + b) == Flatten(a) + Flatten(b)
  {
    if b == [] {
      assert a + b == a;
      assert Flatten(a) + [] == Flatten(a);
    } else {
      assert (a + b)[..|a + b| - 1] == a + b[..|b| - 1];
      FlattenAppend(a, b[..|b| - 1]);
      assert Flatten(a) + (Flatten(b[..|b| - 1]) + b[|b| - 1]) == Flatten(a) + Flatten(b[..|b| - 1]) + b[|b| - 1];
    }
  }

  lemma FlattenPushFront<T>(x: seq<T>, s: seq<seq<T>>)
    ensures Flatten([x] + s) == x + Flatten(s)
  {
    FlattenAppend([x], s);
    assert [x][..0] == [];
    assert Flatten([x]) == [] + x;
  }
}
