/** The home-page testimonial carousel: the testimonials cut into groups of
    three, and a current-group index moved by next, previous and the dots. */
module Testimonials {

  /** The groups laid end to end. */
  function Flatten<T>(groups: seq<seq<T>>): seq<T>
  {
    if groups == [] then [] else groups[0] + Flatten(groups[1..])
  }

  /** Every group but the last holds exactly `size` items; the last holds
      between 1 and `size`. */
  predicate WellCut<T>(groups: seq<seq<T>>, size: nat)
  {
    (forall k :: 0 <= k < |groups| - 1 ==> |groups[k]| == size)
    && (groups != [] ==> 1 <= |groups[|groups| - 1]| <= size)
  }

  /** The cut `createGroups` makes, written front to back: the first `size`
      items, then the cut of the rest. */
  function Chunks<T>(items: seq<T>, size: nat): seq<seq<T>>
    requires size > 0
    decreases |items|
  {
    if items == [] then []
    else if |items| <= size then [items]
    else [items[..size]] + Chunks(items[size..], size)
  }

  /** The groups hold the items, in order, and nothing else. */
  lemma {:induction false} ChunksFlatten<T>(items: seq<T>, size: nat)
    requires size > 0
    ensures Flatten(Chunks(items, size)) == items
    decreases |items|
  {
    if items != [] && |items| > size {
      ChunksFlatten(items[size..], size);
      var c := Chunks(items, size);
      assert c[1..] == Chunks(items[size..], size);
      assert items == items[..size] + items[size..];
    }
  }

  /** Only the last group may be short, and no group is empty. */
  lemma {:induction false} ChunksWellCut<T>(items: seq<T>, size: nat)
    requires size > 0
    ensures WellCut(Chunks(items, size), size)
    decreases |items|
  {
    if items != [] && |items| > size {
      ChunksWellCut(items[size..], size);
      var c := Chunks(items, size);
      var rest := Chunks(items[size..], size);
      assert c == [items[..size]] + rest;
      forall k | 0 <= k < |c| - 1
        ensures |c[k]| == size
      {
        if k > 0 {
          assert c[k] == rest[k - 1];
        }
      }
    }
  }

  /** There are as many groups as `size` fits into the count, rounded up. */
  lemma {:induction false} ChunksCount<T>(items: seq<T>, size: nat)
    requires size > 0
    ensures |Chunks(items, size)| == (|items| + size - 1) / size
    decreases |items|
  {
    if items == [] {
      DivUnique(size - 1, size, 0, size - 1);
    } else if |items| <= size {
      DivUnique(|items| + size - 1, size, 1, |items| - 1);
    } else {
      ChunksCount(items[size..], size);
      DivStep(|items| - 1, size);
    }
  }

  lemma {:induction false} MulAtLeast(size: int, d: int)
    requires size > 0 && d >= 1
    ensures size * d >= size
    decreases d
  {
    if d > 1 {
      MulAtLeast(size, d - 1);
      assert size * d == size * (d - 1) + size;
    }
  }

  lemma DivUnique(x: int, size: int, q: int, r: int)
    requires size > 0 && x == size * q + r && 0 <= r < size
    ensures x / size == q
  {
    var q0, r0 := x / size, x % size;
    assert x == size * q0 + r0;
    if q > q0 {
      MulAtLeast(size, q - q0);
    } else if q < q0 {
      MulAtLeast(size, q0 - q);
    }
  }

  lemma DivStep(a: int, size: int)
    requires a >= 0 && size > 0
    ensures (a + size) / size == a / size + 1
  {
    var q, r := a / size, a % size;
    assert a == size * q + r;
    assert a + size == size * (q + 1) + r;
    DivUnique(a + size, size, q + 1, r);
  }

  /** `createGroups(items, size)`: consecutive slices of `size` items, the
      last one shorter when `size` does not divide the count. */
  method CreateGroups<T>(items: seq<T>, size: nat) returns (groups: seq<seq<T>>)
    requires size > 0
    ensures groups == Chunks(items, size)
    ensures Flatten(groups) == items
    ensures WellCut(groups, size)
    ensures |groups| == (|items| + size - 1) / size
  {
    groups := [];
    var i := 0;
    while i < |items|
      invariant i <= |items|
      invariant groups + Chunks(items[i..], size) == Chunks(items, size)
      decreases |items| - i
    {
      var end := if i + size <= |items| then i + size else |items|;
      var slice := items[i..end];
      if end == |items| {
        assert slice == items[i..];
        groups := groups + [slice];
        i := |items|;
      } else {
        assert items[i..][size..] == items[end..];
        assert items[i..][..size] == slice;
        assert Chunks(items[i..], size) == [slice] + Chunks(items[end..], size);
        groups := groups + [slice];
        i := i + size;
      }
    }
    assert items[i..] == [];
    ChunksFlatten(items, size);
    ChunksWellCut(items, size);
    ChunksCount(items, size);
  }

  /** `goToNextGroup` on `count` groups: the last group wraps to the first. */
  function NextIndex(current: int, count: int): (r: int)
    ensures 0 <= current < count ==> 0 <= r < count
    ensures 0 <= current < count - 1 ==> r == current + 1
    ensures current == count - 1 ==> r == 0
  {
    if current == count - 1 then 0 else current + 1
  }

  /** `goToPrevGroup` on `count` groups: the first group wraps to the last. */
  function PrevIndex(current: int, count: int): (r: int)
    ensures 0 <= current < count ==> 0 <= r < count
    ensures 0 < current < count ==> r == current - 1
    ensures current == 0 ==> r == count - 1
  {
    if current == 0 then count - 1 else current - 1
  }

  /** Next and previous undo each other on every valid index. */
  lemma NextPrevInverse(current: int, count: int)
    requires 0 <= current < count
    ensures PrevIndex(NextIndex(current, count), count) == current
    ensures NextIndex(PrevIndex(current, count), count) == current
  {
  }

  /** A testimonial as the carousel shows it. */
  datatype Testimonial = Testimonial(id: nat, name: string, rating: nat)

  /** The six testimonials of the home page (their texts and avatars are not
      part of this model). */
  function HomeTestimonials(): seq<Testimonial>
  {
    [Testimonial(1, "Paulo M.", 5), Testimonial(2, "Carlos T.", 5), Testimonial(3, "Luciana G.", 5),
     Testimonial(4, "Renata S.", 5), Testimonial(5, "Roberto G.", 5), Testimonial(6, "Mariana L.", 5)]
  }

  class Carousel {
    const groups: seq<seq<Testimonial>>
    var currentGroup: int

    ghost predicate Valid()
      reads this
    {
      0 <= currentGroup < |groups|
    }

    /** The home page's carousel: the six testimonials in two groups of
        three, showing the first. */
    constructor ()
      ensures Valid() && currentGroup == 0
      ensures |groups| == 2 && Flatten(groups) == HomeTestimonials()
      ensures |groups[0]| == 3 && |groups[1]| == 3
    {
      var g := CreateGroups(HomeTestimonials(), 3);
      groups := g;
      currentGroup := 0;
    }

    method Next()
      requires Valid()
      modifies this
      ensures Valid() && currentGroup == NextIndex(old(currentGroup), |groups|)
    {
      currentGroup := NextIndex(currentGroup, |groups|);
    }

    method Prev()
      requires Valid()
      modifies this
      ensures Valid() && currentGroup == PrevIndex(old(currentGroup), |groups|)
    {
      currentGroup := PrevIndex(currentGroup, |groups|);
    }

    /** A click on the dot of group `index`. */
    method GoTo(index: int)
      requires Valid() && 0 <= index < |groups|
      modifies this
      ensures Valid() && currentGroup == index
    {
      currentGroup := index;
    }
  }
}
