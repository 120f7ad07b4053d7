/** Cell values of the transaction ledger, the order in which pandas and
    scikit-learn sort them, and the sorted list of distinct keys that a
    group-by or an encoder fit produces from a column. */
module Cells {

  datatype Option<+T> = None | Some(value: T)

  /** One cell of a column: text (CustomerId, ProductCategory, ChannelId,
      TransactionId) or an integer (PricingStrategy). A column holds cells of
      one kind only. */
  datatype Cell = Text(s: string) | Int(n: int)

  /** Python's order on str: lexicographic by code point, a proper prefix first. */
  predicate StrLt(a: string, b: string)
    decreases |a|
  {
    if a == [] then b != []
    else if b == [] then false
    else if a[0] != b[0] then a[0] < b[0]
    else StrLt(a[1..], b[1..])
  }

  lemma {:induction false} StrLtIrreflexive(a: string)
    ensures !StrLt(a, a)
    decreases |a|
  {
    if a != [] {
      StrLtIrreflexive(a[1..]);
    }
  }

  lemma {:induction false} StrLtTransitive(a: string, b: string, c: string)
    requires StrLt(a, b) && StrLt(b, c)
    ensures StrLt(a, c)
    decreases |a|
  {
    if a != [] && a[0] == b[0] && b[0] == c[0] {
      StrLtTransitive(a[1..], b[1..], c[1..]);
    }
  }

  lemma {:induction false} StrLtTotal(a: string, b: string)
    ensures a == b || StrLt(a, b) || StrLt(b, a)
    decreases |a|
  {
    if a != [] && b != [] && a[0] == b[0] {
      StrLtTotal(a[1..], b[1..]);
      assert a == [a[0]] + a[1..] && b == [b[0]] + b[1..];
    }
  }

  /** The order of cells within one column: numeric for integers, Python's
      string order for text. (Integers are put before text; a column never
      mixes the two.) */
  predicate Lt(a: Cell, b: Cell)
  {
    if a.Int? && b.Int? then a.n < b.n
    else if a.Text? && b.Text? then StrLt(a.s, b.s)
    else a.Int?
  }

  predicate Le(a: Cell, b: Cell)
  {
    a == b || Lt(a, b)
  }

  lemma LtIrreflexive(a: Cell)
    ensures !Lt(a, a)
  {
    if a.Text? {
      StrLtIrreflexive(a.s);
    }
  }

  lemma LtTransitive(a: Cell, b: Cell, c: Cell)
    requires Lt(a, b) && Lt(b, c)
    ensures Lt(a, c)
  {
    if a.Text? && b.Text? && c.Text? {
      StrLtTransitive(a.s, b.s, c.s);
    }
  }

  lemma LtTotal(a: Cell, b: Cell)
    ensures a == b || Lt(a, b) || Lt(b, a)
  {
    if a.Text? && b.Text? {
      StrLtTotal(a.s, b.s);
    }
  }

  /** Ascending without repetition: the shape of a group-by's keys. */
  predicate StrictlySorted(s: seq<Cell>)
  {
    forall i, j :: 0 <= i < j < |s| ==> Lt(s[i], s[j])
  }

  /** How often `v` occurs in `s`. */
  function Occurrences(s: seq<Cell>, v: Cell): nat
  {
    if s == [] then 0 else (if s[0] == v then 1 else 0) + Occurrences(s[1..], v)
  }

  lemma HeadNotInTail(s: seq<Cell>)
    requires StrictlySorted(s) && s != []
    ensures s[0] !in s[1..]
  {
    LtIrreflexive(s[0]);
  }

  lemma BelowAll(x: Cell, s: seq<Cell>)
    requires StrictlySorted(s) && s != [] && Lt(x, s[0])
    ensures forall y :: y in s ==> Lt(x, y)
  {
    forall j | 0 <= j < |s|
      ensures Lt(x, s[j])
    {
      if j > 0 {
        LtTransitive(x, s[0], s[j]);
      }
    }
  }

  /** Adds `x` to an ascending list of distinct keys. */
  function Insert(x: Cell, s: seq<Cell>): (r: seq<Cell>)
    requires StrictlySorted(s)
    ensures StrictlySorted(r)
    ensures forall y :: y in r <==> y == x || y in s
    decreases |s|
  {
    if s == [] then [x]
    else if x == s[0] then s
    else if Lt(x, s[0]) then
      BelowAll(x, s);
      [x] + s
    else
      LtTotal(x, s[0]);
      var rest := Insert(x, s[1..]);
      assert forall y :: y in rest ==> Lt(s[0], y);
      [s[0]] + rest
  }

  /** The distinct values of a column in ascending order: the index a pandas
      group-by produces, and the categories a one-hot encoder learns. */
  function SortedKeys(keys: seq<Cell>): (r: seq<Cell>)
    ensures StrictlySorted(r)
    ensures forall k :: k in r <==> k in keys
  {
    if keys == [] then [] else Insert(keys[0], SortedKeys(keys[1..]))
  }

  /** A strictly sorted list has as many entries as distinct values. */
  lemma {:induction false} DistinctCount(s: seq<Cell>)
    requires StrictlySorted(s)
    ensures |(set x | x in s)| == |s|
  {
    if s != [] {
      DistinctCount(s[1..]);
      HeadNotInTail(s);
      assert (set x | x in s) == {s[0]} + (set x | x in s[1..]);
    }
  }

  /** The keys list has one entry per distinct value of the column. */
  lemma SortedKeysCount(keys: seq<Cell>)
    ensures |SortedKeys(keys)| == |(set k | k in keys)|
  {
    DistinctCount(SortedKeys(keys));
    assert (set k | k in keys) == (set k | k in SortedKeys(keys));
  }
}
