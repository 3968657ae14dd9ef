/** Small vocabulary shared by the models: options, bytes and counting. */
module Prelude {

  datatype Option<+T> = None | Some(value: T)

  newtype Byte = i: int | 0 <= i < 0x100

  const TWO_32: int := 0x1_0000_0000

  function Where<T>(m: map<nat, T>, p: T -> bool): set<nat> {
    set k | k in m && p(m[k])
  }

  /** How many entries of a table satisfy `p`. */
  function Count<T>(m: map<nat, T>, p: T -> bool): nat {
    |Where(m, p)|
  }

  function One(b: bool): nat {
    if b then 1 else 0
  }

  lemma WhereParts<T>(m: map<nat, T>, k: nat, p: T -> bool)
    ensures Count(m, p) == |Where(m, p) - {k}| + One(k in m && p(m[k]))
  {
    if k in m && p(m[k]) {
      assert Where(m, p) == (Where(m, p) - {k}) + {k};
    } else {
      assert Where(m, p) == Where(m, p) - {k};
    }
  }

  lemma WhereOthers<T>(m: map<nat, T>, k: nat, v: T, p: T -> bool)
    ensures Where(m[k := v], p) - {k} == Where(m, p) - {k}
  {
  }

  lemma CountUpdate<T>(m: map<nat, T>, k: nat, v: T, p: T -> bool)
    ensures Count(m[k := v], p) == Count(m, p) + One(p(v)) - One(k in m && p(m[k]))
  {
    WhereOthers(m, k, v, p);
    WhereParts(m, k, p);
    WhereParts(m[k := v], k, p);
  }

  lemma CountPositive<T>(m: map<nat, T>, k: nat, p: T -> bool)
    requires k in m && p(m[k])
    ensures Count(m, p) > 0
  {
    assert k in Where(m, p);
  }
}
