/** Array.prototype.sort and find, and the multisets behind sums and groupings. */
module Sorting {
  import opened Common

  function Filter<T>(items: seq<T>, p: T -> bool): seq<T> {
    if items == [] then [] else (if p(items[0]) then [items[0]] else []) + Filter(items[1..], p)
  }

  function Mapped<A, B>(items: seq<A>, f: A -> B): (mapped: seq<B>)
    ensures |mapped| == |items| && forall i | 0 <= i < |items| :: mapped[i] == f(items[i])
  {
    if items == [] then [] else Mapped(items[..|items| - 1], f) + [f(items[|items| - 1])]
  }

  lemma {:induction false} MappedSame<A, B>(items: seq<A>, f: A -> B, g: A -> B)
    requires forall x | x in items :: f(x) == g(x)
    ensures Mapped(items, f) == Mapped(items, g)
  {
    if items == [] {
    } else {
      assert items[|items| - 1] in items;
      MappedSame(items[..|items| - 1], f, g);
    }
  }

  /** What `pick` makes of the items it does not skip. */
  function Picked<A, B>(items: seq<A>, pick: A -> Option<B>): seq<B> {
    if items == [] then []
    else
      var last := pick(items[|items| - 1]);
      Picked(items[..|items| - 1], pick) + if last.Some? then [last.value] else []
  }

  lemma PickedGrows<A, B>(items: seq<A>, x: A, pick: A -> Option<B>)
    ensures Picked(items + [x], pick) == Picked(items, pick) + if pick(x).Some? then [pick(x).value] else []
  {
    assert (items + [x])[..|items|] == items;
  }

  ghost predicate PicksApart<A(!new), B>(pick: A -> Option<B>) {
    forall x, y :: pick(x).Some? && pick(x) == pick(y) ==> x == y
  }

  lemma {:induction false} PickedMembers<A(!new), B(!new)>(items: seq<A>, pick: A -> Option<B>)
    requires Distinct(items) && PicksApart(pick)
    ensures forall y :: y in Picked(items, pick) <==> exists x :: x in items && pick(x) == Some(y)
    ensures Distinct(Picked(items, pick))
  {
    if items == [] {
    } else {
      var front, last := items[..|items| - 1], items[|items| - 1];
      assert items == front + [last];
      PickedMembers(front, pick);
      assert last !in front;
    }
  }

  lemma {:induction false} FilterCount<T>(items: seq<T>, p: T -> bool, x: T)
    ensures multiset(Filter(items, p))[x] == if p(x) then multiset(items)[x] else 0
  {
    if items == [] {
    } else {
      FilterCount(items[1..], p, x);
      assert items == [items[0]] + items[1..];
    }
  }

  lemma FilterMembers<T>(items: seq<T>, p: T -> bool)
    ensures forall x :: x in Filter(items, p) <==> x in items && p(x)
  {
  }

  lemma {:induction false} FilterSame<T>(items: seq<T>, p: T -> bool, p': T -> bool)
    requires forall x | x in items :: p(x) == p'(x)
    ensures Filter(items, p) == Filter(items, p')
  {
    if items == [] {
    } else {
      assert items[0] in items;
      FilterSame(items[1..], p, p');
    }
  }

  lemma {:induction false} FilterNone<T>(items: seq<T>, p: T -> bool)
    requires forall x | x in items :: !p(x)
    ensures Filter(items, p) == []
  {
    if items == [] {
    } else {
      FilterNone(items[1..], p);
    }
  }

  predicate Ordered<T>(items: seq<T>, leq: (T, T) -> bool) {
    forall i, j | 0 <= i < j < |items| :: leq(items[i], items[j])
  }

  lemma OrderedTail<T>(items: seq<T>, leq: (T, T) -> bool)
    requires items != [] && Ordered(items, leq)
    ensures Ordered(items[1..], leq)
  {
    forall i, j | 0 <= i < j < |items| - 1
      ensures leq(items[1..][i], items[1..][j])
    {
      assert leq(items[i + 1], items[j + 1]);
    }
  }

  ghost predicate TotalPreorder<T(!new)>(leq: (T, T) -> bool) {
    && (forall a, b :: leq(a, b) || leq(b, a))
    && (forall a, b, c :: leq(a, b) && leq(b, c) ==> leq(a, c))
  }

  /** Before everything it is not above: an element inserted ahead of its equals keeps a sort stable. */
  function Insert<T>(x: T, items: seq<T>, leq: (T, T) -> bool): seq<T> {
    if items == [] || leq(x, items[0]) then [x] + items else [items[0]] + Insert(x, items[1..], leq)
  }

  function Sort<T>(items: seq<T>, leq: (T, T) -> bool): seq<T> {
    if items == [] then [] else Insert(items[0], Sort(items[1..], leq), leq)
  }

  lemma {:induction false} InsertCount<T>(x: T, items: seq<T>, leq: (T, T) -> bool)
    ensures multiset(Insert(x, items, leq)) == multiset{x} + multiset(items)
  {
    if items != [] && !leq(x, items[0]) {
      InsertCount(x, items[1..], leq);
      assert items == [items[0]] + items[1..];
    }
  }

  lemma {:induction false} InsertKeeps<T(!new)>(x: T, items: seq<T>, leq: (T, T) -> bool)
    requires TotalPreorder(leq) && Ordered(items, leq)
    ensures Ordered(Insert(x, items, leq), leq)
  {
    if items != [] && !leq(x, items[0]) {
      OrderedTail(items, leq);
      InsertKeeps(x, items[1..], leq);
      InsertCount(x, items[1..], leq);
      var rest := Insert(x, items[1..], leq);
      forall y | y in rest ensures leq(items[0], y) {
        assert y in multiset(rest);
      }
    } else if items != [] {
      assert forall i | 0 <= i < |items| :: leq(items[0], items[i]) || i == 0;
    }
  }

  lemma {:induction false} SortSorts<T(!new)>(items: seq<T>, leq: (T, T) -> bool)
    requires TotalPreorder(leq)
    ensures Ordered(Sort(items, leq), leq) && multiset(Sort(items, leq)) == multiset(items)
  {
    if items == [] {
    } else {
      SortSorts(items[1..], leq);
      InsertKeeps(items[0], Sort(items[1..], leq), leq);
      InsertCount(items[0], Sort(items[1..], leq), leq);
      assert items == [items[0]] + items[1..];
    }
  }

  /** Sorting what is already in order changes nothing. */
  lemma {:induction false} SortOfOrdered<T>(items: seq<T>, leq: (T, T) -> bool)
    requires Ordered(items, leq)
    ensures Sort(items, leq) == items
  {
    if items == [] {
    } else {
      SortOfOrdered(items[1..], leq);
    }
  }

  /** The first element that satisfies `p`. */
  function Find<T>(items: seq<T>, p: T -> bool): Option<T> {
    if items == [] then None else if p(items[0]) then Some(items[0]) else Find(items[1..], p)
  }

  /** Among the elements that satisfy `p`, the least, and the first of those. */
  function FirstLeast<T>(items: seq<T>, leq: (T, T) -> bool, p: T -> bool): Option<T> {
    if items == [] then None
    else
      var rest := FirstLeast(items[1..], leq, p);
      if p(items[0]) && (rest.None? || leq(items[0], rest.value)) then Some(items[0]) else rest
  }

  /** Whatever is above a match is a match. */
  ghost predicate Upward<T(!new)>(leq: (T, T) -> bool, p: T -> bool) { forall a, b | p(a) && leq(a, b) :: p(b) }

  lemma {:induction false} FindAfterInsert<T(!new)>(x: T, items: seq<T>, leq: (T, T) -> bool, p: T -> bool)
    requires TotalPreorder(leq) && Ordered(items, leq)
    requires Upward(leq, p)
    ensures Find(Insert(x, items, leq), p) ==
      var rest := Find(items, p); if p(x) && (rest.None? || leq(x, rest.value)) then Some(x) else rest
  {
    if items == [] {
    } else if leq(x, items[0]) {
      assert ([x] + items)[1..] == items;
      if Find(items, p).Some? {
        FindIsMember(items, p);
      }
    } else {
      OrderedTail(items, leq);
      FindAfterInsert(x, items[1..], leq, p);
      var tail := Insert(x, items[1..], leq);
      assert ([items[0]] + tail)[1..] == tail;
    }
  }

  lemma {:induction false} FindIsMember<T>(items: seq<T>, p: T -> bool)
    requires Find(items, p).Some?
    ensures p(Find(items, p).value) && exists i :: 0 <= i < |items| && items[i] == Find(items, p).value
  {
    if !p(items[0]) {
      FindIsMember(items[1..], p);
      var i :| 0 <= i < |items[1..]| && items[1..][i] == Find(items, p).value;
      assert items[i + 1] == Find(items, p).value;
    } else {
      assert items[0] == Find(items, p).value;
    }
  }

  /** Taking the first match of a sorted list is taking the first least match of the list itself. */
  lemma {:induction false} FindInSorted<T(!new)>(items: seq<T>, leq: (T, T) -> bool, p: T -> bool)
    requires TotalPreorder(leq)
    requires Upward(leq, p)
    ensures Find(Sort(items, leq), p) == FirstLeast(items, leq, p)
  {
    if items == [] {
    } else {
      FindInSorted(items[1..], leq, p);
      SortSorts(items[1..], leq);
      FindAfterInsert(items[0], Sort(items[1..], leq), leq, p);
    }
  }

  /** `items[k]` satisfies `p`, and every other match is above it, or equal and later. */
  predicate IsFirstLeast<T>(items: seq<T>, leq: (T, T) -> bool, p: T -> bool, k: nat) {
    && k < |items| && p(items[k])
    && (forall i | 0 <= i < |items| && p(items[i]) :: leq(items[k], items[i]) && (leq(items[i], items[k]) ==> k <= i))
  }

  lemma {:induction false} FirstLeastIs<T(!new)>(items: seq<T>, leq: (T, T) -> bool, p: T -> bool)
    requires TotalPreorder(leq)
    ensures FirstLeast(items, leq, p).None? <==> forall i | 0 <= i < |items| :: !p(items[i])
    ensures FirstLeast(items, leq, p).Some? ==>
      exists k: nat :: IsFirstLeast(items, leq, p, k) && items[k] == FirstLeast(items, leq, p).value
  {
    if items == [] {
    } else {
      var rest := items[1..];
      FirstLeastIs(rest, leq, p);
      assert forall i | 0 < i < |items| :: items[i] == rest[i - 1];
      var found := FirstLeast(rest, leq, p);
      if found.Some? {
        var k: nat :| IsFirstLeast(rest, leq, p, k) && rest[k] == found.value;
        if p(items[0]) && leq(items[0], found.value) {
          assert IsFirstLeast(items, leq, p, 0);
        } else {
          assert p(items[0]) ==> !leq(items[0], items[k + 1]);
          assert IsFirstLeast(items, leq, p, k + 1);
        }
      } else if p(items[0]) {
        assert IsFirstLeast(items, leq, p, 0);
      }
    }
  }

  lemma {:induction false} FilterJoin<T>(a: seq<T>, b: seq<T>, p: T -> bool)
    ensures Filter(a + b, p) == Filter(a, p) + Filter(b, p)
  {
    if a == [] {
      assert a + b == b;
    } else {
      FilterJoin(a[1..], b, p);
      var head := if p(a[0]) then [a[0]] else [];
      assert (a + b)[0] == a[0] && (a + b)[1..] == a[1..] + b;
      assert head + (Filter(a[1..], p) + Filter(b, p)) == head + Filter(a[1..], p) + Filter(b, p);
    }
  }

  lemma {:induction false} FilterAppend<T>(items: seq<T>, x: T, p: T -> bool)
    ensures Filter(items + [x], p) == Filter(items, p) + if p(x) then [x] else []
  {
    if items == [] {
      assert [x][1..] == [];
    } else {
      FilterAppend(items[1..], x, p);
      assert (items + [x])[1..] == items[1..] + [x];
    }
  }

  // ----- Grouping -----

  predicate Distinct<K(==)>(keys: seq<K>) {
    forall i, j | 0 <= i < j < |keys| :: keys[i] != keys[j]
  }

  /** The items of each group in turn. */
  function Gather<T, K>(items: seq<T>, member: K -> T -> bool, groups: seq<K>): seq<T> {
    if groups == [] then [] else Filter(items, member(groups[0])) + Gather(items, member, groups[1..])
  }

  ghost predicate InSome<T, K>(member: K -> T -> bool, groups: seq<K>, x: T) {
    exists k :: k in groups && member(k)(x)
  }

  ghost predicate Exclusive<T(!new), K(!new)>(member: K -> T -> bool) {
    forall x, k, k' :: member(k)(x) && member(k')(x) ==> k == k'
  }

  lemma {:induction false} GatherCount<T(!new), K(!new)>(items: seq<T>, member: K -> T -> bool, groups: seq<K>, x: T)
    requires Distinct(groups) && Exclusive(member)
    ensures multiset(Gather(items, member, groups))[x] == if InSome(member, groups, x) then multiset(items)[x] else 0
  {
    if groups == [] {
    } else {
      GatherCount(items, member, groups[1..], x);
      FilterCount(items, member(groups[0]), x);
      assert groups[0] in groups && groups[0] !in groups[1..];
      assert forall k | k in groups :: k == groups[0] || k in groups[1..];
    }
  }

  /** Every item lands in exactly one place: its one group, or the ungrouped rest. */
  lemma Partition<T(!new), K(!new)>(items: seq<T>, member: K -> T -> bool, groups: seq<K>, rest: T -> bool)
    requires Distinct(groups) && Exclusive(member)
    requires forall x | x in items :: rest(x) <==> !InSome(member, groups, x)
    ensures multiset(items) == multiset(Gather(items, member, groups)) + multiset(Filter(items, rest))
  {
    forall x
      ensures multiset(items)[x] == multiset(Gather(items, member, groups))[x] + multiset(Filter(items, rest))[x]
    {
      GatherCount(items, member, groups, x);
      FilterCount(items, rest, x);
      assert x in items <==> multiset(items)[x] > 0;
    }
  }

  // ----- Adding up -----

  function SumOf<T>(items: seq<T>, worth: T -> real): real {
    if items == [] then 0.0 else worth(items[0]) + SumOf(items[1..], worth)
  }

  lemma {:induction false} SumOfJoin<T>(a: seq<T>, b: seq<T>, worth: T -> real)
    ensures SumOf(a + b, worth) == SumOf(a, worth) + SumOf(b, worth)
  {
    if a == [] {
      assert a + b == b;
    } else {
      SumOfJoin(a[1..], b, worth);
      assert (a + b)[1..] == a[1..] + b;
    }
  }

  lemma TakeOut<T>(b: seq<T>, j: nat)
    requires j < |b|
    ensures multiset(b) == multiset{b[j]} + multiset(b[..j] + b[j + 1..])
  {
    assert b == b[..j] + [b[j]] + b[j + 1..];
  }

  lemma {:induction false} SumWithout<T>(b: seq<T>, j: nat, worth: T -> real)
    requires j < |b|
    ensures SumOf(b, worth) == worth(b[j]) + SumOf(b[..j] + b[j + 1..], worth)
  {
    if j == 0 {
      assert b[..0] + b[1..] == b[1..];
    } else {
      SumWithout(b[1..], j - 1, worth);
      assert (b[..j] + b[j + 1..])[1..] == b[1..][..j - 1] + b[1..][j..];
    }
  }

  /** A sum does not depend on the order. */
  lemma {:induction false} SumOfSame<T>(a: seq<T>, b: seq<T>, worth: T -> real)
    requires multiset(a) == multiset(b)
    ensures SumOf(a, worth) == SumOf(b, worth)
  {
    if a == [] {
      assert |multiset(a)| == 0 && |multiset(b)| == |b|;
    } else {
      assert a == [a[0]] + a[1..];
      assert a[0] in multiset(b);
      var j :| 0 <= j < |b| && b[j] == a[0];
      TakeOut(b, j);
      SumWithout(b, j, worth);
      assert multiset(a[1..]) == multiset(a) - multiset{a[0]};
      assert multiset(b[..j] + b[j + 1..]) == multiset(b) - multiset{a[0]};
      SumOfSame(a[1..], b[..j] + b[j + 1..], worth);
    }
  }

  /** Two lists without repetition and with the same members are the same up to order. */
  lemma {:induction false} SameMembers<T>(a: seq<T>, b: seq<T>)
    requires Distinct(a) && Distinct(b) && forall x :: x in a <==> x in b
    ensures multiset(a) == multiset(b)
  {
    forall x
      ensures multiset(a)[x] == multiset(b)[x]
    {
      DistinctCount(a, x);
      DistinctCount(b, x);
    }
  }

  lemma {:induction false} DistinctCount<T>(a: seq<T>, x: T)
    requires Distinct(a)
    ensures multiset(a)[x] == if x in a then 1 else 0
  {
    if a == [] {
    } else {
      DistinctCount(a[1..], x);
      assert a == [a[0]] + a[1..];
    }
  }

  lemma DistinctSame<T>(a: seq<T>, b: seq<T>)
    requires Distinct(a) && multiset(a) == multiset(b)
    ensures Distinct(b)
  {
    forall i, j | 0 <= i < j < |b|
      ensures b[i] != b[j]
    {
      DistinctCount(a, b[j]);
      assert b == b[..j] + [b[j]] + b[j + 1..];
      assert b[..j][i] == b[i] && b[i] in multiset(b[..j]);
      assert multiset(b)[b[j]] == multiset(b[..j])[b[j]] + 1 + multiset(b[j + 1..])[b[j]];
    }
  }
}
