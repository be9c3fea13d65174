/** The sortable market table (src/components/CryptoTable/index.tsx): the
    sort-column state machine, the comparator, the copy-then-sort of the
    rows (a stable sort, as `Array.prototype.sort` is), and the header
    icon. `localeCompare` is modelled as lexicographic order on character
    codes. */
module CryptoTable {
  import opened Common
  import opened Types

  datatype SortState = SortState(key: SortKey, direction: SortDirection)

  /** The state the table starts in: by rank, ascending. */
  const InitialSort := SortState(Rank, Asc)

  /** `handleSort`: clicking the current column flips the direction;
      clicking another column sorts by it ascending. */
  function HandleSort(st: SortState, key: SortKey): (r: SortState)
    ensures r.key == key
    ensures st.key == key ==> r.direction != st.direction
    ensures st.key != key ==> r.direction == Asc
  {
    if st.key == key then
      SortState(key, if st.direction.Asc? then Desc else Asc)
    else
      SortState(key, Asc)
  }

  /** Clicking the current column twice restores the state. */
  lemma HandleSortTwice(st: SortState)
    ensures HandleSort(HandleSort(st, st.key), st.key) == st
  {
  }

  /** Clicking a new column twice sorts by it descending. */
  lemma HandleSortNewColumnTwice(st: SortState, key: SortKey)
    requires st.key != key
    ensures HandleSort(HandleSort(st, key), key) == SortState(key, Desc)
  {
  }

  datatype SortIcon = Inactive | ArrowUp | ArrowDown

  /** `SortIcon`: the header icon of `column`. */
  function SortIconFor(st: SortState, column: SortKey): (icon: SortIcon)
    ensures icon.Inactive? <==> st.key != column
    ensures icon.ArrowUp? <==> st.key == column && st.direction.Asc?
    ensures icon.ArrowDown? <==> st.key == column && st.direction.Desc?
  {
    if st.key != column then Inactive
    else if st.direction.Asc? then ArrowUp
    else ArrowDown
  }

  /** The table opens sorted by rank, ascending: the rank header shows the
      up arrow and every other header the neutral icon. */
  lemma InitialIcons(column: SortKey)
    ensures SortIconFor(InitialSort, column).ArrowUp? <==> column == Rank
    ensures SortIconFor(InitialSort, column).Inactive? <==> column != Rank
  {
  }

  // ----- the comparator -----

  /** Three-way lexicographic comparison of character codes, standing in for
      `localeCompare`. */
  function LexCompare(a: string, b: string): (r: int)
    ensures -1 <= r <= 1
    ensures r == 0 <==> a == b
  {
    if |a| == 0 && |b| == 0 then 0
    else if |a| == 0 then -1
    else if |b| == 0 then 1
    else if a[0] < b[0] then -1
    else if a[0] > b[0] then 1
    else
      assert a == [a[0]] + a[1..] && b == [b[0]] + b[1..];
      LexCompare(a[1..], b[1..])
  }

  /** Swapping the arguments negates the comparison. */
  lemma {:induction false} LexAntisymmetric(a: string, b: string)
    ensures LexCompare(b, a) == -LexCompare(a, b)
  {
    if |a| > 0 && |b| > 0 && a[0] == b[0] {
      LexAntisymmetric(a[1..], b[1..]);
    }
  }

  /** "At most" in lexicographic order is transitive. */
  lemma {:induction false} LexTransitive(a: string, b: string, c: string)
    requires LexCompare(a, b) <= 0 && LexCompare(b, c) <= 0
    ensures LexCompare(a, c) <= 0
  {
    if |a| > 0 && |b| > 0 && |c| > 0 && a[0] == b[0] && b[0] == c[0] {
      LexTransitive(a[1..], b[1..], c[1..]);
    }
  }

  /** The numeric column of a sort key other than `Name`. */
  function Field(c: CryptoData, key: SortKey): real
    requires key != Name
  {
    match key
    case Rank => c.rank
    case Price => c.price
    case Change24h => c.change24h
    case MarketCap => c.marketCap
  }

  /** The comparator passed to `sort`: negative when `a` goes first,
      positive when `b` does, zero for a tie. Every key other than `Name`
      is numeric, so the comparator's final `return 0` is never reached. */
  function Compare(st: SortState, a: CryptoData, b: CryptoData): (r: real)
    ensures st.key == Name ==> (r == 0.0 <==> a.name == b.name)
    ensures st.key != Name && st.direction.Asc? ==> (r <= 0.0 <==> Field(a, st.key) <= Field(b, st.key))
    ensures st.key != Name && st.direction.Desc? ==> (r <= 0.0 <==> Field(b, st.key) <= Field(a, st.key))
  {
    if st.key == Name then
      (if st.direction == Asc then LexCompare(a.name, b.name) else LexCompare(b.name, a.name)) as real
    else if st.direction == Asc then Field(a, st.key) - Field(b, st.key)
    else Field(b, st.key) - Field(a, st.key)
  }

  /** The comparator is antisymmetric. */
  lemma CompareAntisymmetric(st: SortState, a: CryptoData, b: CryptoData)
    ensures Compare(st, b, a) == -Compare(st, a, b)
  {
    if st.key == Name {
      LexAntisymmetric(a.name, b.name);
    }
  }

  /** "May go first" is transitive. */
  lemma CompareTransitive(st: SortState, a: CryptoData, b: CryptoData, c: CryptoData)
    requires Compare(st, a, b) <= 0.0 && Compare(st, b, c) <= 0.0
    ensures Compare(st, a, c) <= 0.0
  {
    if st.key == Name {
      if st.direction == Asc {
        LexTransitive(a.name, b.name, c.name);
      } else {
        LexTransitive(c.name, b.name, a.name);
      }
    }
  }

  /** Ties are an equivalence: two rows tied with a third are tied. */
  lemma TieTransitive(st: SortState, k: CryptoData, a: CryptoData, b: CryptoData)
    requires Compare(st, k, a) == 0.0 && Compare(st, k, b) == 0.0
    ensures Compare(st, a, b) == 0.0
  {
  }

  /** Rows in comparator order: no row is placed after one that must
      follow it. */
  predicate SortedBy(s: seq<CryptoData>, st: SortState)
  {
    forall i, j :: 0 <= i < j < |s| ==> Compare(st, s[i], s[j]) <= 0.0
  }

  /** The rows the comparator ties with `x`. */
  function TiedWith(st: SortState, x: CryptoData): CryptoData -> bool
  {
    y => Compare(st, x, y) == 0.0
  }

  // ----- the stable sort -----

  /** Inserts `x` into a sorted sequence after every row it does not have to
      precede: behind its ties, so earlier rows stay first. */
  function Insert(sorted: seq<CryptoData>, x: CryptoData, st: SortState): seq<CryptoData>
  {
    if |sorted| == 0 then [x]
    else if Compare(st, sorted[|sorted| - 1], x) <= 0.0 then sorted + [x]
    else Insert(sorted[..|sorted| - 1], x, st) + [sorted[|sorted| - 1]]
  }

  /** Insertion adds exactly `x`. */
  lemma {:induction false} InsertPermutes(sorted: seq<CryptoData>, x: CryptoData, st: SortState)
    ensures multiset(Insert(sorted, x, st)) == multiset(sorted) + multiset{x}
  {
    if |sorted| > 0 && Compare(st, sorted[|sorted| - 1], x) > 0.0 {
      var n := |sorted| - 1;
      assert sorted == sorted[..n] + [sorted[n]];
      InsertPermutes(sorted[..n], x, st);
    }
  }

  /** Every row of an insertion result was already there or is `x`. */
  lemma {:induction false} InsertMembers(sorted: seq<CryptoData>, x: CryptoData, st: SortState)
    ensures forall y :: y in Insert(sorted, x, st) ==> y in sorted || y == x
  {
    if |sorted| > 0 && Compare(st, sorted[|sorted| - 1], x) > 0.0 {
      var n := |sorted| - 1;
      InsertMembers(sorted[..n], x, st);
      assert forall y :: y in sorted[..n] ==> y in sorted;
    }
  }

  /** Insertion into a sorted sequence keeps it sorted. */
  lemma {:induction false} InsertSorted(sorted: seq<CryptoData>, x: CryptoData, st: SortState)
    requires SortedBy(sorted, st)
    ensures SortedBy(Insert(sorted, x, st), st)
  {
    if |sorted| > 0 {
      var n := |sorted| - 1;
      var last := sorted[n];
      var r := Insert(sorted, x, st);
      if Compare(st, last, x) <= 0.0 {
        forall i | 0 <= i < n
          ensures Compare(st, r[i], x) <= 0.0
        {
          CompareTransitive(st, r[i], last, x);
        }
      } else {
        var init := sorted[..n];
        var front := Insert(init, x, st);
        InsertSorted(init, x, st);
        InsertMembers(init, x, st);
        CompareAntisymmetric(st, last, x);
        forall i | 0 <= i < |front|
          ensures Compare(st, front[i], last) <= 0.0
        {
          if front[i] != x {
            assert front[i] in front;
            assert front[i] in init;
            var j :| 0 <= j < n && init[j] == front[i];
            assert sorted[j] == front[i];
          }
        }
        assert r == front + [last];
      }
    }
  }

  /** Insertion is stable: among the rows tied with any `k`, `x` comes after
      the ones already there. */
  lemma {:induction false} InsertStable(sorted: seq<CryptoData>, x: CryptoData, st: SortState, k: CryptoData)
    ensures Filter(Insert(sorted, x, st), TiedWith(st, k)) == Filter(sorted + [x], TiedWith(st, k))
  {
    if |sorted| > 0 && Compare(st, sorted[|sorted| - 1], x) > 0.0 {
      var n := |sorted| - 1;
      var last := sorted[n];
      var init := sorted[..n];
      var front := Insert(init, x, st);
      var t := TiedWith(st, k);
      InsertStable(init, x, st, k);
      FilterSingleton(x, t);
      FilterSingleton(last, t);
      assert Filter([x], t) == [] || Filter([last], t) == [] by {
        if t(x) && t(last) {
          TieTransitive(st, k, last, x);
        }
      }
      calc {
        Filter(Insert(sorted, x, st), t);
        Filter(front + [last], t);
        { FilterAppend(front, [last], t); }
        Filter(front, t) + Filter([last], t);
        Filter(init + [x], t) + Filter([last], t);
        { FilterAppend(init, [x], t); }
        Filter(init, t) + Filter([x], t) + Filter([last], t);
        Filter(init, t) + Filter([last], t) + Filter([x], t);
        { FilterAppend(init, [last], t); }
        Filter(init + [last], t) + Filter([x], t);
        { FilterAppend(init + [last], [x], t); }
        Filter(init + [last] + [x], t);
        { assert init + [last] == sorted; }
        Filter(sorted + [x], t);
      }
    }
  }

  /** The rows of `s` in comparator order, ties in input order. */
  function SortBy(s: seq<CryptoData>, st: SortState): (r: seq<CryptoData>)
    ensures SortedBy(r, st)
    ensures multiset(r) == multiset(s)
    ensures forall k :: Filter(r, TiedWith(st, k)) == Filter(s, TiedWith(st, k))
  {
    if |s| == 0 then []
    else
      var n := |s| - 1;
      assert s == s[..n] + [s[n]];
      var front := SortBy(s[..n], st);
      var r := Insert(front, s[n], st);
      InsertPermutes(front, s[n], st);
      InsertSorted(front, s[n], st);
      forall k
        ensures Filter(r, TiedWith(st, k)) == Filter(s, TiedWith(st, k))
      {
        InsertStable(front, s[n], st, k);
        FilterAppend(front, [s[n]], TiedWith(st, k));
        FilterAppend(s[..n], [s[n]], TiedWith(st, k));
      }
      r
  }

  /** `sortedData`: a sorted copy of the rows under the current state;
      rows the comparator ties keep their input order. */
  function SortedData(cryptoData: seq<CryptoData>, st: SortState): (r: seq<CryptoData>)
    ensures multiset(r) == multiset(cryptoData)
    ensures SortedBy(r, st)
    ensures forall k :: Filter(r, TiedWith(st, k)) == Filter(cryptoData, TiedWith(st, k))
  {
    SortBy(cryptoData, st)
  }

  /** A numeric column sorts non-decreasing ascending and non-increasing
      descending. */
  lemma NumericOrder(cryptoData: seq<CryptoData>, st: SortState)
    requires st.key != Name
    ensures var r := SortedData(cryptoData, st);
      forall i, j :: 0 <= i < j < |r| ==>
        if st.direction == Asc then Field(r[i], st.key) <= Field(r[j], st.key)
        else Field(r[i], st.key) >= Field(r[j], st.key)
  {
  }

  /** The name column sorts by the name comparison, reversed when
      descending. */
  lemma NameOrder(cryptoData: seq<CryptoData>, st: SortState)
    requires st.key == Name
    ensures var r := SortedData(cryptoData, st);
      forall i, j :: 0 <= i < j < |r| ==>
        if st.direction == Asc then LexCompare(r[i].name, r[j].name) <= 0
        else LexCompare(r[j].name, r[i].name) <= 0
  {
  }
}
