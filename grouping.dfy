/**
  The group-and-count loop shared by the summary and daily reports: walk the records
  once, create an entry the first time a key is seen (titled from that record), add 1
  to its impressions and, for a clicked record, 1 to its clicks, and return the entries
  in first-seen order (the insertion order `Object.values` follows).
*/
module Grouping {
  import opened Common

  /** One group: its key, the title taken from its first record, and its two counters. */
  datatype Tally<K, L> = Tally(key: K, title: L, impressions: nat, clicks: nat)

  /** The distinct keys of `xs`, in the order they first occur. */
  function DistinctKeys<T(!new), K(==,!new)>(xs: seq<T>, key: T -> K): (ks: seq<K>)
    ensures forall k :: k in ks <==> exists x :: x in xs && key(x) == k
    decreases |xs|
  {
    if xs == [] then []
    else
      var ks := DistinctKeys(xs[..|xs| - 1], key);
      assert forall x :: x in xs <==> x in xs[..|xs| - 1] || x == xs[|xs| - 1];
      if key(xs[|xs| - 1]) in ks then ks else ks + [key(xs[|xs| - 1])]
  }

  predicate NoDuplicates<K(==)>(ks: seq<K>) {
    forall i, j :: 0 <= i < j < |ks| ==> ks[i] != ks[j]
  }

  lemma {:induction false} DistinctKeysUnique<T(!new), K(!new)>(xs: seq<T>, key: T -> K)
    ensures NoDuplicates(DistinctKeys(xs, key))
    decreases |xs|
  {
    if xs != [] {
      DistinctKeysUnique(xs[..|xs| - 1], key);
    }
  }

  /** How many records have key `k`. */
  function Occurrences<T(!new), K(==,!new)>(xs: seq<T>, key: T -> K, k: K): nat
    decreases |xs|
  {
    if xs == [] then 0
    else Occurrences(xs[..|xs| - 1], key, k) + (if key(xs[|xs| - 1]) == k then 1 else 0)
  }

  /** How many records have key `k` and are clicked. */
  function ClickOccurrences<T(!new), K(==,!new)>(xs: seq<T>, key: T -> K, clicked: T -> bool, k: K): nat
    decreases |xs|
  {
    if xs == [] then 0
    else ClickOccurrences(xs[..|xs| - 1], key, clicked, k) + (if key(xs[|xs| - 1]) == k && clicked(xs[|xs| - 1]) then 1 else 0)
  }

  /** How many records are clicked. */
  function ClickedCount<T>(xs: seq<T>, clicked: T -> bool): nat
    decreases |xs|
  {
    if xs == [] then 0 else ClickedCount(xs[..|xs| - 1], clicked) + (if clicked(xs[|xs| - 1]) then 1 else 0)
  }

  lemma {:induction false} ClicksAtMostOccurrences<T(!new), K(!new)>(xs: seq<T>, key: T -> K, clicked: T -> bool, k: K)
    ensures ClickOccurrences(xs, key, clicked, k) <= Occurrences(xs, key, k)
    decreases |xs|
  {
    if xs != [] {
      ClicksAtMostOccurrences(xs[..|xs| - 1], key, clicked, k);
    }
  }

  /** The title of the first record with key `k`. */
  function FirstLabel<T(!new), K(==,!new), L>(xs: seq<T>, key: T -> K, title: T -> L, k: K): L
    requires exists x :: x in xs && key(x) == k
    decreases |xs|
  {
    if key(xs[0]) == k then title(xs[0])
    else
      assert exists x :: x in xs[1..] && key(x) == k by {
        var x :| x in xs && key(x) == k;
        assert x != xs[0];
      }
      FirstLabel(xs[1..], key, title, k)
  }

  lemma {:induction false} FirstLabelSnoc<T(!new), K(!new), L>(xs: seq<T>, x: T, key: T -> K, title: T -> L, k: K)
    requires exists y :: y in xs && key(y) == k
    ensures exists y :: y in xs + [x] && key(y) == k
    ensures FirstLabel(xs + [x], key, title, k) == FirstLabel(xs, key, title, k)
    decreases |xs|
  {
    var y :| y in xs && key(y) == k;
    assert y in xs + [x];
    if key(xs[0]) != k {
      assert (xs + [x])[1..] == xs[1..] + [x];
      assert y in xs[1..];
      FirstLabelSnoc(xs[1..], x, key, title, k);
    }
  }

  lemma {:induction false} FirstLabelFresh<T(!new), K(!new), L>(xs: seq<T>, x: T, key: T -> K, title: T -> L)
    requires forall y :: y in xs ==> key(y) != key(x)
    ensures exists y :: y in xs + [x] && key(y) == key(x)
    ensures FirstLabel(xs + [x], key, title, key(x)) == title(x)
    decreases |xs|
  {
    assert x in xs + [x];
    if xs != [] {
      assert (xs + [x])[1..] == xs[1..] + [x];
      FirstLabelFresh(xs[1..], x, key, title);
    }
  }

  /** The entry the counting loop holds for key `k` once it has seen all of `xs`. */
  ghost function TallyOf<T(!new), K(!new), L>(xs: seq<T>, key: T -> K, title: T -> L, clicked: T -> bool, k: K): Tally<K, L>
    requires exists x :: x in xs && key(x) == k
  {
    Tally(k, FirstLabel(xs, key, title, k), Occurrences(xs, key, k), ClickOccurrences(xs, key, clicked, k))
  }

  function EntryImpressions<K, L>(e: Tally<K, L>): nat { e.impressions }
  function EntryClicks<K, L>(e: Tally<K, L>): nat { e.clicks }

  /** What the counting loop holds after the records `xs`: the keys seen in order, and their entries. */
  ghost predicate TableHolds<T(!new), K(!new), L>(xs: seq<T>, key: T -> K, title: T -> L, clicked: T -> bool,
                                                 order: seq<K>, table: map<K, Tally<K, L>>) {
    && order == DistinctKeys(xs, key)
    && table.Keys == (set k | k in order)
    && forall k :: k in table ==>
         (exists x :: x in xs && key(x) == k) && table[k] == TallyOf(xs, key, title, clicked, k)
  }

  /** One record counted into the table. */
  function CountInto<T, K(==), L>(table: map<K, Tally<K, L>>, x: T, key: T -> K, title: T -> L, clicked: T -> bool)
    : map<K, Tally<K, L>>
  {
    var k := key(x);
    var entry := if k in table then table[k] else Tally(k, title(x), 0, 0);
    table[k := entry.(impressions := entry.impressions + 1, clicks := entry.clicks + if clicked(x) then 1 else 0)]
  }

  /** The entry of the record's own key after counting it. */
  lemma CountIntoKey<T(!new), K(!new), L>(xs: seq<T>, x: T, key: T -> K, title: T -> L,
                                         clicked: T -> bool, order: seq<K>, table: map<K, Tally<K, L>>)
    requires TableHolds(xs, key, title, clicked, order, table)
    ensures exists y :: y in xs + [x] && key(y) == key(x)
    ensures CountInto(table, x, key, title, clicked)[key(x)] == TallyOf(xs + [x], key, title, clicked, key(x))
  {
    var k := key(x);
    var xs' := xs + [x];
    assert xs'[..|xs'| - 1] == xs;
    if k !in table {
      OccurrencesAbsent(xs, key, k);
      ClicksAtMostOccurrences(xs, key, clicked, k);
      FirstLabelFresh(xs, x, key, title);
    } else {
      FirstLabelSnoc(xs, x, key, title, k);
    }
  }

  /** The entries of the other keys after counting a record. */
  lemma CountIntoOthers<T(!new), K(!new), L>(xs: seq<T>, x: T, key: T -> K, title: T -> L,
                                            clicked: T -> bool, order: seq<K>, table: map<K, Tally<K, L>>)
    requires TableHolds(xs, key, title, clicked, order, table)
    ensures forall j :: j in table && j != key(x) ==>
      (exists y :: y in xs + [x] && key(y) == j) && table[j] == TallyOf(xs + [x], key, title, clicked, j)
  {
    var xs' := xs + [x];
    assert xs'[..|xs'| - 1] == xs;
    forall j | j in table && j != key(x)
      ensures (exists y :: y in xs' && key(y) == j)
      ensures table[j] == TallyOf(xs', key, title, clicked, j)
    {
      FirstLabelSnoc(xs, x, key, title, j);
    }
  }

  lemma CountIntoHolds<T(!new), K(!new), L>(xs: seq<T>, x: T, key: T -> K, title: T -> L,
                                           clicked: T -> bool, order: seq<K>,
                                           table: map<K, Tally<K, L>>)
    requires TableHolds(xs, key, title, clicked, order, table)
    ensures TableHolds(xs + [x], key, title, clicked,
                       if key(x) in table then order else order + [key(x)],
                       CountInto(table, x, key, title, clicked))
  {
    var xs' := xs + [x];
    assert xs'[..|xs'| - 1] == xs;
    CountIntoKey(xs, x, key, title, clicked, order, table);
    CountIntoOthers(xs, x, key, title, clicked, order, table);
  }

  /**
    The loop body: the record's key gets an entry titled from this record if it has none yet
    (and joins the insertion order); the entry's impressions go up by one, its clicks by one
    for a clicked record.
  */
  method CountRecord<T, K(==), L>(x: T, key: T -> K, title: T -> L, clicked: T -> bool,
                                  order: seq<K>, table: map<K, Tally<K, L>>)
    returns (order': seq<K>, table': map<K, Tally<K, L>>)
    ensures order' == if key(x) in table then order else order + [key(x)]
    ensures table' == CountInto(table, x, key, title, clicked)
  {
    var k := key(x);
    var entry := if k in table then table[k] else Tally(k, title(x), 0, 0);
    order' := if k in table then order else order + [k];
    entry := entry.(impressions := entry.impressions + 1);
    if clicked(x) {
      entry := entry.(clicks := entry.clicks + 1);
    }
    table' := table[k := entry];
  }

  /** The table's entries listed in insertion order. */
  function ListInOrder<K, L>(order: seq<K>, table: map<K, Tally<K, L>>): (entries: seq<Tally<K, L>>)
    requires forall i :: 0 <= i < |order| ==> order[i] in table
    ensures |entries| == |order|
    ensures forall i :: 0 <= i < |order| ==> entries[i] == table[order[i]]
  {
    seq(|order|, i requires 0 <= i < |order| => table[order[i]])
  }

  /** Once every record is counted, the table listed in insertion order is the grouping. */
  lemma TableGivesGrouping<T(!new), K(!new), L>(xs: seq<T>, key: T -> K, title: T -> L, clicked: T -> bool,
                                               order: seq<K>, table: map<K, Tally<K, L>>)
    requires TableHolds(xs, key, title, clicked, order, table)
    ensures forall i :: 0 <= i < |order| ==> order[i] in table
    ensures IsGrouping(xs, key, title, clicked, ListInOrder(order, table))
  {
    assert forall i :: 0 <= i < |order| ==> order[i] in order;
  }

  /**
    The group-by loop: one entry per distinct key in first-seen order, each counting the records
    with that key and the clicked ones among them, titled from the first such record.
  */
  method GroupCount<T(!new), K(==,!new), L>(xs: seq<T>, key: T -> K, title: T -> L, clicked: T -> bool)
    returns (entries: seq<Tally<K, L>>)
    ensures IsGrouping(xs, key, title, clicked, entries)
  {
    var table: map<K, Tally<K, L>> := map[];
    var order: seq<K> := [];
    for n := 0 to |xs|
      invariant TableHolds(xs[..n], key, title, clicked, order, table)
    {
      assert xs[..n + 1] == xs[..n] + [xs[n]];
      CountIntoHolds(xs[..n], xs[n], key, title, clicked, order, table);
      order, table := CountRecord(xs[n], key, title, clicked, order, table);
    }
    assert xs[..|xs|] == xs;
    TableGivesGrouping(xs, key, title, clicked, order, table);
    entries := ListInOrder(order, table);
  }

  /** Summing pointwise equal terms of two equally long sequences gives the same total. */
  lemma {:induction false} SumNatPointwise<A, B>(xs: seq<A>, ys: seq<B>, f: A -> nat, g: B -> nat)
    requires |xs| == |ys|
    requires forall i :: 0 <= i < |xs| ==> f(xs[i]) == g(ys[i])
    ensures SumNat(xs, f) == SumNat(ys, g)
    decreases |xs|
  {
    if xs != [] {
      SumNatPointwise(xs[..|xs| - 1], ys[..|ys| - 1], f, g);
    }
  }

  /** Raising one term of a sum over distinct keys by `d` raises the sum by `d`. */
  lemma {:induction false} SumNatBump<K(!new)>(ks: seq<K>, f: K -> nat, g: K -> nat, k0: K, d: nat)
    requires NoDuplicates(ks)
    requires forall k :: k in ks && k != k0 ==> g(k) == f(k)
    requires k0 in ks ==> g(k0) == f(k0) + d
    ensures SumNat(ks, g) == SumNat(ks, f) + (if k0 in ks then d else 0)
    decreases |ks|
  {
    if ks != [] {
      var init := ks[..|ks| - 1];
      assert forall k :: k in init ==> k in ks;
      assert k0 == ks[|ks| - 1] ==> k0 !in init;
      assert k0 in ks <==> k0 in init || k0 == ks[|ks| - 1];
      SumNatBump(init, f, g, k0, d);
    }
  }

  function OccurrencesOf<T(!new), K(==,!new)>(xs: seq<T>, key: T -> K): K -> nat {
    (k: K) => Occurrences(xs, key, k)
  }

  function ClickOccurrencesOf<T(!new), K(==,!new)>(xs: seq<T>, key: T -> K, clicked: T -> bool): K -> nat {
    (k: K) => ClickOccurrences(xs, key, clicked, k)
  }

  /** Conservation: the groups' counts add up to the number of records, and of clicked records. */
  lemma {:induction false} GroupSums<T(!new), K(!new)>(xs: seq<T>, key: T -> K, clicked: T -> bool)
    ensures SumNat(DistinctKeys(xs, key), OccurrencesOf(xs, key)) == |xs|
    ensures SumNat(DistinctKeys(xs, key), ClickOccurrencesOf(xs, key, clicked)) == ClickedCount(xs, clicked)
    decreases |xs|
  {
    if xs != [] {
      var init := xs[..|xs| - 1];
      var x := xs[|xs| - 1];
      var k0 := key(x);
      var ks0 := DistinctKeys(init, key);
      GroupSums(init, key, clicked);
      DistinctKeysUnique(init, key);
      SumNatBump(ks0, OccurrencesOf(init, key), OccurrencesOf(xs, key), k0, 1);
      SumNatBump(ks0, ClickOccurrencesOf(init, key, clicked), ClickOccurrencesOf(xs, key, clicked), k0,
                 if clicked(x) then 1 else 0);
      if k0 !in ks0 {
        var ks := ks0 + [k0];
        assert ks[..|ks| - 1] == ks0;
        assert Occurrences(init, key, k0) == 0 by { OccurrencesAbsent(init, key, k0); }
        assert ClickOccurrences(init, key, clicked, k0) == 0 by {
          ClicksAtMostOccurrences(init, key, clicked, k0);
          OccurrencesAbsent(init, key, k0);
        }
      }
    }
  }

  lemma {:induction false} OccurrencesAbsent<T(!new), K(!new)>(xs: seq<T>, key: T -> K, k: K)
    requires k !in DistinctKeys(xs, key)
    ensures Occurrences(xs, key, k) == 0
    decreases |xs|
  {
    if xs != [] {
      assert xs[|xs| - 1] in xs;
      OccurrencesAbsent(xs[..|xs| - 1], key, k);
    }
  }

  /** The shape `GroupCount` guarantees: entry `i` is the tally of the `i`-th distinct key. */
  ghost predicate IsGrouping<T(!new), K(!new), L>(xs: seq<T>, key: T -> K, title: T -> L, clicked: T -> bool,
                                                 entries: seq<Tally<K, L>>) {
    && |entries| == |DistinctKeys(xs, key)|
    && forall i :: 0 <= i < |entries| ==>
         && entries[i].key == DistinctKeys(xs, key)[i]
         && (exists x :: x in xs && key(x) == entries[i].key)
         && entries[i] == TallyOf(xs, key, title, clicked, entries[i].key)
  }

  /** A grouping has one entry per distinct key: keys are pairwise different and cover every record. */
  lemma GroupingKeys<T(!new), K(!new), L>(xs: seq<T>, key: T -> K, title: T -> L, clicked: T -> bool,
                                          entries: seq<Tally<K, L>>)
    requires IsGrouping(xs, key, title, clicked, entries)
    ensures forall i, j :: 0 <= i < j < |entries| ==> entries[i].key != entries[j].key
    ensures forall x :: x in xs ==> exists i :: 0 <= i < |entries| && entries[i].key == key(x)
  {
    var ks := DistinctKeys(xs, key);
    DistinctKeysUnique(xs, key);
    forall x | x in xs
      ensures exists i :: 0 <= i < |entries| && entries[i].key == key(x)
    {
      assert key(x) in ks;
      var i :| 0 <= i < |ks| && ks[i] == key(x);
      assert entries[i].key == key(x);
    }
  }

  /** Each group has clicks ≤ impressions. */
  lemma GroupingBounded<T(!new), K(!new), L>(xs: seq<T>, key: T -> K, title: T -> L, clicked: T -> bool,
                                             entries: seq<Tally<K, L>>)
    requires IsGrouping(xs, key, title, clicked, entries)
    ensures forall i :: 0 <= i < |entries| ==> entries[i].clicks <= entries[i].impressions
  {
    forall i | 0 <= i < |entries|
      ensures entries[i].clicks <= entries[i].impressions
    {
      ClicksAtMostOccurrences(xs, key, clicked, entries[i].key);
    }
  }

  /** The groups' impressions add up to the number of records, their clicks to the clicked records. */
  lemma GroupingConserves<T(!new), K(!new), L>(xs: seq<T>, key: T -> K, title: T -> L, clicked: T -> bool,
                                               entries: seq<Tally<K, L>>)
    requires IsGrouping(xs, key, title, clicked, entries)
    ensures SumNat(entries, EntryImpressions) == |xs|
    ensures SumNat(entries, EntryClicks) == ClickedCount(xs, clicked)
  {
    var ks := DistinctKeys(xs, key);
    GroupSums(xs, key, clicked);
    SumNatPointwise(entries, ks, EntryImpressions, OccurrencesOf(xs, key));
    SumNatPointwise(entries, ks, EntryClicks, ClickOccurrencesOf(xs, key, clicked));
  }
}
