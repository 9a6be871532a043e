/** Searching line arrays: `Array#index`, and the lines between two marker lines.
    Everything here is generic in the element type, so the proofs never need to
    compare the lines themselves. */
module Lines {
  import opened Wrappers

  /** `lines.index(h)`. */
  function IndexOf<T(==)>(lines: seq<T>, h: T): (r: Option<nat>)
    ensures r.None? <==> h !in lines
    ensures r.Some? ==> r.value < |lines| && lines[r.value] == h && h !in lines[..r.value]
  {
    if lines == [] then None
    else if lines[0] == h then Some(0)
    else match IndexOf(lines[1..], h)
      case None => None
      case Some(i) =>
        assert lines[..i + 1] == [lines[0]] + lines[1..][..i];
        Some(i + 1)
  }

  /** The lines strictly between the first `header` and the first `next`. */
  function Section<T(==)>(lines: seq<T>, header: T, next: T): Option<seq<T>> {
    var i, j := IndexOf(lines, header), IndexOf(lines, next);
    if i.Some? && j.Some? && i.value < j.value then Some(lines[i.value + 1..j.value]) else None
  }

  /** The lines after the first `header`. */
  function LastSection<T(==)>(lines: seq<T>, header: T): Option<seq<T>> {
    var i := IndexOf(lines, header);
    if i.Some? then Some(lines[i.value + 1..]) else None
  }

  /** The first occurrence of `h` is at `i` when `lines[i]` is `h` and no earlier line is. */
  lemma IndexOfFirst<T>(lines: seq<T>, h: T, i: nat)
    requires i < |lines| && lines[i] == h && h !in lines[..i]
    ensures IndexOf(lines, h) == Some(i)
  {
    var r := IndexOf(lines, h);
    assert forall k | 0 <= k < i :: lines[..i][k] == lines[k];
    assert h in lines[..r.value + 1] by {
      assert lines[..r.value + 1][r.value] == h;
    }
    assert r.value <= i ==> lines[..r.value] == lines[..i][..r.value];
  }

  lemma SectionBetween<T>(lines: seq<T>, header: T, next: T, i: nat, j: nat)
    requires i < j < |lines|
    requires lines[i] == header && header !in lines[..i]
    requires lines[j] == next && next !in lines[..j]
    ensures Section(lines, header, next) == Some(lines[i + 1..j])
  {
    IndexOfFirst(lines, header, i);
    IndexOfFirst(lines, next, j);
  }

  lemma LastSectionAfter<T>(lines: seq<T>, header: T, i: nat)
    requires i < |lines| && lines[i] == header && header !in lines[..i]
    ensures LastSection(lines, header) == Some(lines[i + 1..])
  {
    IndexOfFirst(lines, header, i);
  }

  // ---------------------------------------------------------------------------
  // Four bodies, each opened by its own marker
  // ---------------------------------------------------------------------------

  function Framed<T>(h0: T, b0: seq<T>, h1: T, b1: seq<T>, h2: T, b2: seq<T>, h3: T, b3: seq<T>): seq<T> {
    [h0] + b0 + [h1] + b1 + [h2] + b2 + [h3] + b3
  }

  predicate Distinct4<T(==)>(h0: T, h1: T, h2: T, h3: T) {
    h0 != h1 && h0 != h2 && h0 != h3 && h1 != h2 && h1 != h3 && h2 != h3
  }

  /** None of the four markers occurs in `b`. */
  predicate FreeOf<T(==)>(b: seq<T>, h0: T, h1: T, h2: T, h3: T) {
    h0 !in b && h1 !in b && h2 !in b && h3 !in b
  }

  /** Each marker of a framed sequence occurs once, where it was put, with its body
      after it. */
  lemma FramedLayout<T>(h0: T, b0: seq<T>, h1: T, b1: seq<T>, h2: T, b2: seq<T>, h3: T, b3: seq<T>)
    requires Distinct4(h0, h1, h2, h3)
    requires FreeOf(b0, h0, h1, h2, h3) && FreeOf(b1, h0, h1, h2, h3)
    requires FreeOf(b2, h0, h1, h2, h3) && FreeOf(b3, h0, h1, h2, h3)
    ensures var lines := Framed(h0, b0, h1, b1, h2, b2, h3, b3);
      var i1, i2, i3 := 1 + |b0|, 2 + |b0| + |b1|, 3 + |b0| + |b1| + |b2|;
      && |lines| == 4 + |b0| + |b1| + |b2| + |b3|
      && lines[0] == h0 && lines[i1] == h1 && lines[i2] == h2 && lines[i3] == h3
      && lines[1..i1] == b0 && lines[i1 + 1..i2] == b1 && lines[i2 + 1..i3] == b2 && lines[i3 + 1..] == b3
      && h1 !in lines[..i1] && h2 !in lines[..i2] && h3 !in lines[..i3]
      && multiset(lines)[h0] == 1 && multiset(lines)[h1] == 1 && multiset(lines)[h2] == 1 && multiset(lines)[h3] == 1
  {
    var lines := Framed(h0, b0, h1, b1, h2, b2, h3, b3);
    var i1, i2, i3 := 1 + |b0|, 2 + |b0| + |b1|, 3 + |b0| + |b1| + |b2|;
    assert lines[..i1] == [h0] + b0;
    assert lines[..i2] == [h0] + b0 + [h1] + b1;
    assert lines[..i3] == [h0] + b0 + [h1] + b1 + [h2] + b2;
    assert multiset(b0)[h0] == 0 && multiset(b1)[h0] == 0 && multiset(b2)[h0] == 0 && multiset(b3)[h0] == 0;
    assert multiset(b0)[h1] == 0 && multiset(b1)[h1] == 0 && multiset(b2)[h1] == 0 && multiset(b3)[h1] == 0;
    assert multiset(b0)[h2] == 0 && multiset(b1)[h2] == 0 && multiset(b2)[h2] == 0 && multiset(b3)[h2] == 0;
    assert multiset(b0)[h3] == 0 && multiset(b1)[h3] == 0 && multiset(b2)[h3] == 0 && multiset(b3)[h3] == 0;
  }

  lemma LayoutSections<T>(lines: seq<T>, h0: T, b0: seq<T>, h1: T, b1: seq<T>, h2: T, b2: seq<T>, h3: T, b3: seq<T>)
    requires var i1, i2, i3 := 1 + |b0|, 2 + |b0| + |b1|, 3 + |b0| + |b1| + |b2|;
      && |lines| == 4 + |b0| + |b1| + |b2| + |b3|
      && lines[0] == h0 && lines[i1] == h1 && lines[i2] == h2 && lines[i3] == h3
      && lines[1..i1] == b0 && lines[i1 + 1..i2] == b1 && lines[i2 + 1..i3] == b2 && lines[i3 + 1..] == b3
      && h1 !in lines[..i1] && h2 !in lines[..i2] && h3 !in lines[..i3]
    ensures Section(lines, h0, h1) == Some(b0)
    ensures Section(lines, h1, h2) == Some(b1)
    ensures Section(lines, h2, h3) == Some(b2)
    ensures LastSection(lines, h3) == Some(b3)
  {
    var i1, i2, i3 := 1 + |b0|, 2 + |b0| + |b1|, 3 + |b0| + |b1| + |b2|;
    assert lines[..0] == [];
    SectionBetween(lines, h0, h1, 0, i1);
    SectionBetween(lines, h1, h2, i1, i2);
    SectionBetween(lines, h2, h3, i2, i3);
    LastSectionAfter(lines, h3, i3);
  }

  /** Each body of a framed sequence is what lies between its marker and the next. */
  lemma FramedSections<T>(h0: T, b0: seq<T>, h1: T, b1: seq<T>, h2: T, b2: seq<T>, h3: T, b3: seq<T>)
    requires Distinct4(h0, h1, h2, h3)
    requires FreeOf(b0, h0, h1, h2, h3) && FreeOf(b1, h0, h1, h2, h3)
    requires FreeOf(b2, h0, h1, h2, h3) && FreeOf(b3, h0, h1, h2, h3)
    ensures var lines := Framed(h0, b0, h1, b1, h2, b2, h3, b3);
      && Section(lines, h0, h1) == Some(b0)
      && Section(lines, h1, h2) == Some(b1)
      && Section(lines, h2, h3) == Some(b2)
      && LastSection(lines, h3) == Some(b3)
  {
    FramedLayout(h0, b0, h1, b1, h2, b2, h3, b3);
    LayoutSections(Framed(h0, b0, h1, b1, h2, b2, h3, b3), h0, b0, h1, b1, h2, b2, h3, b3);
  }
}
