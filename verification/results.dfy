/** Query results as the formatter receives them, and the pandas operations
    the formatter applies to them: the frame's shape checks, column lookup by
    name, numeric coercion with a NaN-skipping sum, and a row read back as an
    insertion-ordered dictionary. */
module Results {
  import opened Wrappers
  import opened Text

  /** A value in one cell of a result row: sqlite's INTEGER, TEXT and NULL. */
  datatype Cell = IntCell(n: int) | TextCell(s: string) | NullCell

  type Row = seq<Cell>

  /** What the formatter is handed: nothing, the text of a database error, or
      the fetched rows with the column names of the cursor. */
  datatype QueryResult = NoResult | DbError(message: string) | Rows(rows: seq<Row>, columns: seq<string>)

  /** Every row has one cell per column: the only shape the DataFrame
      constructor accepts together with a list of column names. */
  predicate Rectangular(rows: seq<Row>, columns: seq<string>) {
    forall i :: 0 <= i < |rows| ==> |rows[i]| == |columns|
  }

  /** A frame is empty when either of its axes has length zero. */
  predicate EmptyFrame(rows: seq<Row>, columns: seq<string>) {
    |rows| == 0 || |columns| == 0
  }

  // ---------------------------------------------------------------------
  // Column lookup by name (`df[name]`).

  /** The positions of every column called `name`, in column order. */
  function IndicesOf(names: seq<string>, name: string): (ks: seq<nat>)
    ensures forall j :: 0 <= j < |ks| ==> ks[j] < |names| && names[ks[j]] == name
    ensures forall k :: 0 <= k < |names| && names[k] == name ==> k in ks
    ensures forall j, j' :: 0 <= j < j' < |ks| ==> ks[j] < ks[j']
  {
    if names == [] then []
    else
      var ks := IndicesOf(names[..|names| - 1], name);
      if names[|names| - 1] == name then ks + [|names| - 1] else ks
  }

  /** `name` labels exactly one column, the one at `k`. */
  predicate OnlyAt(names: seq<string>, name: string, k: nat) {
    k < |names| && names[k] == name && forall j :: 0 <= j < |names| && names[j] == name ==> j == k
  }

  /** A name that labels one column is found at that column and nowhere else. */
  lemma {:induction false} IndicesOfUnique(names: seq<string>, name: string, k: nat)
    requires OnlyAt(names, name, k)
    ensures IndicesOf(names, name) == [k]
  {
    var init := names[..|names| - 1];
    if k == |names| - 1 {
      assert name !in init;
      IndicesOfAbsent(init, name);
    } else {
      assert OnlyAt(init, name, k);
      IndicesOfUnique(init, name, k);
    }
  }

  /** A name found at exactly one position labels that column only. */
  lemma {:induction false} IndicesOfSingle(names: seq<string>, name: string)
    ensures |IndicesOf(names, name)| == 1 ==> OnlyAt(names, name, IndicesOf(names, name)[0])
  {
  }

  /** A name that labels no column is not found. */
  lemma {:induction false} IndicesOfAbsent(names: seq<string>, name: string)
    requires name !in names
    ensures IndicesOf(names, name) == []
  {
    if names != [] {
      IndicesOfAbsent(names[..|names| - 1], name);
    }
  }

  /** The cells of column `k`, top to bottom. */
  function Column(rows: seq<Row>, k: nat): (cells: seq<Cell>)
    requires forall i :: 0 <= i < |rows| ==> k < |rows[i]|
    ensures |cells| == |rows|
    ensures forall i :: 0 <= i < |rows| ==> cells[i] == rows[i][k]
  {
    seq(|rows|, i requires 0 <= i < |rows| => rows[i][k])
  }

  // ---------------------------------------------------------------------
  // Numeric coercion and the sum that skips what does not coerce.

  /** `pd.to_numeric(..., errors='coerce')` on one cell; None stands for NaN. */
  function Numeric(c: Cell): Option<int> {
    match c
    case IntCell(n) => Some(n)
    case TextCell(s) => ParseInt(s)
    case NullCell => None
  }

  /** The coerced column that replaces the original one. */
  function Coerced(cells: seq<Cell>): (xs: seq<Option<int>>)
    ensures |xs| == |cells|
  {
    if cells == [] then [] else Coerced(cells[..|cells| - 1]) + [Numeric(cells[|cells| - 1])]
  }

  /** A column sum that skips NaN entries (zero for a column of NaN). */
  function SumSkippingNaN(xs: seq<Option<int>>): int {
    if xs == [] then 0
    else SumSkippingNaN(xs[..|xs| - 1]) + (if xs[|xs| - 1].Some? then xs[|xs| - 1].value else 0)
  }

  /** The total a salary query reports for a column of salary cells. */
  function SalaryTotal(cells: seq<Cell>): int {
    SumSkippingNaN(Coerced(cells))
  }

  /** What one cell adds to the total: its numeric value, or nothing. */
  function Contribution(c: Cell): int {
    if Numeric(c).Some? then Numeric(c).value else 0
  }

  lemma {:induction false} CoercedAppend(a: seq<Cell>, b: seq<Cell>)
    ensures Coerced(a + b) == Coerced(a) + Coerced(b)
  {
    if b != [] {
      CoercedAppend(a, b[..|b| - 1]);
      assert (a + b)[..|a + b| - 1] == a + b[..|b| - 1];
    } else {
      assert a + b == a;
    }
  }

  lemma {:induction false} SumAppend(xs: seq<Option<int>>, ys: seq<Option<int>>)
    ensures SumSkippingNaN(xs + ys) == SumSkippingNaN(xs) + SumSkippingNaN(ys)
  {
    if ys != [] {
      SumAppend(xs, ys[..|ys| - 1]);
      assert (xs + ys)[..|xs + ys| - 1] == xs + ys[..|ys| - 1];
    } else {
      assert xs + ys == xs;
    }
  }

  /** The total over two groups of rows is the sum of their totals. */
  lemma {:induction false} SalaryTotalAppend(a: seq<Cell>, b: seq<Cell>)
    ensures SalaryTotal(a + b) == SalaryTotal(a) + SalaryTotal(b)
  {
    CoercedAppend(a, b);
    SumAppend(Coerced(a), Coerced(b));
  }

  /** Each cell, wherever it stands, adds its numeric value to the total,
      and a cell that does not coerce adds nothing (it is excluded, not an
      error). */
  lemma {:induction false} SalaryTotalOneCell(a: seq<Cell>, c: Cell, b: seq<Cell>)
    ensures SalaryTotal(a + [c] + b) == SalaryTotal(a + b) + Contribution(c)
    ensures Numeric(c).None? ==> SalaryTotal(a + [c] + b) == SalaryTotal(a + b)
  {
    SalaryTotalAppend(a + [c], b);
    SalaryTotalAppend(a, [c]);
    SalaryTotalAppend(a, b);
    assert Coerced([c]) == Coerced([]) + [Numeric(c)];
  }

  /** The plain sum of a list of integers. */
  function Sum(ns: seq<int>): int {
    if ns == [] then 0 else Sum(ns[..|ns| - 1]) + ns[|ns| - 1]
  }

  /** On a column of integer cells the total is the ordinary sum. */
  lemma {:induction false} SalaryTotalOfIntegers(ns: seq<int>)
    ensures SalaryTotal(seq(|ns|, i requires 0 <= i < |ns| => IntCell(ns[i]))) == Sum(ns)
  {
    var cells := seq(|ns|, i requires 0 <= i < |ns| => IntCell(ns[i]));
    if ns != [] {
      var init := ns[..|ns| - 1];
      SalaryTotalOfIntegers(init);
      assert cells == seq(|init|, i requires 0 <= i < |init| => IntCell(init[i])) + [IntCell(ns[|ns| - 1])];
      SalaryTotalAppend(seq(|init|, i requires 0 <= i < |init| => IntCell(init[i])), [IntCell(ns[|ns| - 1])]);
      assert Coerced([IntCell(ns[|ns| - 1])]) == Coerced([]) + [Some(ns[|ns| - 1])];
    }
  }

  /** A salary stored as the text of an integer counts as that integer. */
  lemma {:induction false} TextSalaryCounts(n: int)
    ensures Numeric(TextCell(ShowInt(n))) == Some(n)
  {
    ParseShowInt(n);
  }

  // ---------------------------------------------------------------------
  // A row read back as a dictionary (`df.iloc[0].to_dict()`): Python
  // dictionaries keep the position where a key was first inserted and the
  // value it was last given.

  type Item = (string, Cell)

  function Keys(d: seq<Item>): (ks: seq<string>)
    ensures |ks| == |d|
  {
    seq(|d|, i requires 0 <= i < |d| => d[i].0)
  }

  predicate Distinct(names: seq<string>) {
    forall i, j :: 0 <= i < j < |names| ==> names[i] != names[j]
  }

  /** `d[key] = value` on an insertion-ordered dictionary. */
  function Put(d: seq<Item>, key: string, value: Cell): seq<Item> {
    if d == [] then [(key, value)]
    else if d[0].0 == key then [(key, value)] + d[1..]
    else [d[0]] + Put(d[1..], key, value)
  }

  /** `dict(pairs)`: the pairs inserted in order. */
  function ToDict(pairs: seq<Item>): seq<Item> {
    if pairs == [] then []
    else Put(ToDict(pairs[..|pairs| - 1]), pairs[|pairs| - 1].0, pairs[|pairs| - 1].1)
  }

  /** The (column, value) pairs of a row, in column order. */
  function Zip(columns: seq<string>, row: Row): (items: seq<Item>)
    requires |columns| == |row|
    ensures Keys(items) == columns
  {
    seq(|row|, i requires 0 <= i < |row| => (columns[i], row[i]))
  }

  /** The value a dictionary holds for `key`, if any. */
  function Get(d: seq<Item>, key: string): Option<Cell> {
    if d == [] then None else if d[0].0 == key then Some(d[0].1) else Get(d[1..], key)
  }

  /** The value last paired with `key`, if any. */
  function LastValue(pairs: seq<Item>, key: string): Option<Cell> {
    if pairs == [] then None
    else if pairs[|pairs| - 1].0 == key then Some(pairs[|pairs| - 1].1)
    else LastValue(pairs[..|pairs| - 1], key)
  }

  lemma {:induction false} PutFreshKey(d: seq<Item>, key: string, value: Cell)
    requires key !in Keys(d)
    ensures Put(d, key, value) == d + [(key, value)]
  {
    if d != [] {
      assert Keys(d)[0] == d[0].0;
      assert Keys(d[1..]) == Keys(d)[1..];
      PutFreshKey(d[1..], key, value);
      assert d == [d[0]] + d[1..];
    }
  }

  lemma DistinctCons(x: string, xs: seq<string>)
    requires x !in xs && Distinct(xs)
    ensures Distinct([x] + xs)
  {
    forall i, j | 0 <= i < j < |[x] + xs|
      ensures ([x] + xs)[i] != ([x] + xs)[j]
    {
      if i == 0 {
        assert ([x] + xs)[j] == xs[j - 1];
      }
    }
  }

  /** Distinct keys after the first are not the first. */
  lemma FirstKeyNotLater(d: seq<Item>)
    requires d != [] && Distinct(Keys(d))
    ensures Keys(d[1..]) == Keys(d)[1..]
    ensures d[0].0 !in Keys(d[1..]) && Distinct(Keys(d[1..]))
  {
    assert Keys(d[1..]) == Keys(d)[1..];
    forall j | 0 <= j < |d| - 1
      ensures Keys(d[1..])[j] != d[0].0
    {
      assert Keys(d)[0] != Keys(d)[j + 1];
    }
  }

  lemma {:induction false} PutKeys(d: seq<Item>, key: string, value: Cell)
    requires Distinct(Keys(d))
    ensures Distinct(Keys(Put(d, key, value)))
    ensures forall k :: k in Keys(Put(d, key, value)) <==> k in Keys(d) || k == key
  {
    if d != [] {
      FirstKeyNotLater(d);
      assert Keys(d) == [d[0].0] + Keys(d[1..]);
      PutKeys(d[1..], key, value);
      if d[0].0 == key {
        assert Keys(Put(d, key, value)) == Keys(d);
      } else {
        assert Keys(Put(d, key, value)) == [d[0].0] + Keys(Put(d[1..], key, value));
        DistinctCons(d[0].0, Keys(Put(d[1..], key, value)));
      }
    } else {
      assert Keys(Put(d, key, value)) == [key];
    }
  }

  lemma {:induction false} GetPut(d: seq<Item>, key: string, value: Cell, k: string)
    ensures Get(Put(d, key, value), k) == if k == key then Some(value) else Get(d, k)
  {
    if d != [] && d[0].0 != key {
      GetPut(d[1..], key, value, k);
    }
  }

  /** In a dictionary whose keys are distinct, each entry is what `Get`
      finds for its key. */
  lemma {:induction false} GetAt(d: seq<Item>, j: nat)
    requires j < |d| && Distinct(Keys(d))
    ensures Get(d, d[j].0) == Some(d[j].1)
  {
    if j > 0 {
      FirstKeyNotLater(d);
      assert Keys(d)[j] == d[j].0;
      GetAt(d[1..], j - 1);
    }
  }

  /** The names in order of first appearance, each kept once. */
  function FirstKeys(names: seq<string>): seq<string> {
    if names == [] then []
    else
      var init := names[..|names| - 1];
      if names[|names| - 1] in init then FirstKeys(init) else FirstKeys(init) + [names[|names| - 1]]
  }

  /** Assigning to an existing key keeps the key order; a new key goes last. */
  lemma {:induction false} KeysPut(d: seq<Item>, key: string, value: Cell)
    ensures Keys(Put(d, key, value)) == if key in Keys(d) then Keys(d) else Keys(d) + [key]
  {
    if d != [] {
      KeysPut(d[1..], key, value);
      assert Keys(d) == [d[0].0] + Keys(d[1..]);
      if d[0].0 == key {
        assert Keys(Put(d, key, value)) == [key] + Keys(d[1..]);
      } else {
        assert Keys(Put(d, key, value)) == [d[0].0] + Keys(Put(d[1..], key, value));
      }
    }
  }

  /** The dictionary of any pairs has each key once, in order of first
      appearance, and holds for each key the value paired with it last. */
  lemma {:induction false} ToDictShape(pairs: seq<Item>)
    ensures Keys(ToDict(pairs)) == FirstKeys(Keys(pairs))
    ensures Distinct(Keys(ToDict(pairs)))
    ensures forall k :: k in Keys(ToDict(pairs)) <==> k in Keys(pairs)
    ensures forall k :: Get(ToDict(pairs), k) == LastValue(pairs, k)
  {
    if pairs != [] {
      var init, last := pairs[..|pairs| - 1], pairs[|pairs| - 1];
      ToDictShape(init);
      PutKeys(ToDict(init), last.0, last.1);
      KeysPut(ToDict(init), last.0, last.1);
      assert Keys(pairs) == Keys(init) + [last.0];
      assert Keys(pairs)[..|pairs| - 1] == Keys(init);
      forall k
        ensures Get(ToDict(pairs), k) == LastValue(pairs, k)
      {
        GetPut(ToDict(init), last.0, last.1, k);
      }
    }
  }

  /** When no key repeats, the dictionary is the pairs themselves. */
  lemma {:induction false} ToDictOfDistinct(pairs: seq<Item>)
    requires Distinct(Keys(pairs))
    ensures ToDict(pairs) == pairs
  {
    if pairs != [] {
      var init, last := pairs[..|pairs| - 1], pairs[|pairs| - 1];
      assert Keys(init) == Keys(pairs)[..|pairs| - 1];
      ToDictOfDistinct(init);
      forall j | 0 <= j < |init|
        ensures Keys(init)[j] != last.0
      {
        assert Keys(pairs)[j] != Keys(pairs)[|pairs| - 1];
      }
      PutFreshKey(init, last.0, last.1);
    }
  }
}
