/** The 1024-sample pre-trigger ring and its two unrollings. */
module Ring {
  import opened Cyclic
  import opened Memory
  import opened Samples

  const SIZE: nat := 1024

  /** Four parallel channel arrays read as samples. */
  ghost function Zip(a0: seq<int>, a1: seq<int>, a2: seq<int>, a3: seq<int>): (z: seq<Quad>)
    requires |a0| == |a1| == |a2| == |a3|
    ensures |z| == |a0|
  { seq(|a0|, i requires 0 <= i < |a0| => Quad(a0[i], a1[i], a2[i], a3[i])) }

  ghost function Silent(n: nat): seq<Quad> { seq(n, _ => SILENCE) }

  /** The last n samples of a history that starts with silence. */
  ghost function Window(n: nat, h: seq<Quad>): (w: seq<Quad>)
    ensures |w| == n
  { Last(n, SILENCE, h) }

  /** The window entry by entry: the last one is the newest, and before the history was silence. */
  lemma WindowAt(n: nat, h: seq<Quad>, i: nat)
    requires i < n
    ensures Window(n, h)[i] == if |h| + i >= n then h[|h| + i - n] else Quad(0, 0, 0, 0)
  {
  }

  lemma ZipAt(a0: seq<int>, a1: seq<int>, a2: seq<int>, a3: seq<int>, i: nat)
    requires |a0| == |a1| == |a2| == |a3| && i < |a0|
    ensures var q := Zip(a0, a1, a2, a3)[i];
      q.c0 == a0[i] && q.c1 == a1[i] && q.c2 == a2[i] && q.c3 == a3[i]
  {
  }

  class CircularBuffer {
    const ch0: array<int>
    const ch1: array<int>
    const ch2: array<int>
    const ch3: array<int>
    var head: nat
    var overflow: bool
    ghost var history: seq<Quad>

    ghost function Objects(): set<object> { {this, ch0, ch1, ch2, ch3} }

    ghost predicate Shape()
    {
      && ch0.Length == ch1.Length == ch2.Length == ch3.Length == SIZE
      && ch0 != ch1 && ch0 != ch2 && ch0 != ch3 && ch1 != ch2 && ch1 != ch3 && ch2 != ch3
    }

    ghost function View(): (v: seq<Quad>)
      requires Shape()
      reads ch0, ch1, ch2, ch3
      ensures |v| == SIZE
    { Zip(ch0[..], ch1[..], ch2[..], ch3[..]) }

    ghost predicate Valid()
      reads this, ch0, ch1, ch2, ch3
    {
      && Shape() && head <= SIZE
      && Unroll(View(), head) == Window(SIZE, history)
    }

    constructor ()
      ensures Shape() && fresh(ch0) && fresh(ch1) && fresh(ch2) && fresh(ch3)
    {
      ch0, ch1, ch2, ch3 := new int[SIZE], new int[SIZE], new int[SIZE], new int[SIZE];
      head, overflow, history := 0, false, [];
    }

    /** circular_buffer_init: an empty ring that already claims to have overflowed. */
    method Init()
      requires Shape()
      modifies this, ch0, ch1, ch2, ch3
      ensures Valid() && history == [] && overflow && head == 0
    {
      head := 0;
      overflow := true;
      ClearBuffer(ch0, SIZE);
      ClearBuffer(ch1, SIZE);
      ClearBuffer(ch2, SIZE);
      ClearBuffer(ch3, SIZE);
      history := [];
      assert View() == Silent(SIZE);
      assert Unroll(View(), 0) == View();
    }

    /** circular_buffer_add_value. The returned head is the number of the slot just written. */
    method AddValue(v0: int, v1: int, v2: int, v3: int) returns (newHead: nat)
      requires Valid()
      modifies this, ch0, ch1, ch2, ch3
      ensures Valid() && history == old(history) + [Quad(v0, v1, v2, v3)]
      ensures newHead == head && 1 <= newHead <= SIZE
      ensures overflow == (old(overflow) || old(head) == SIZE)
    {
      ghost var view, q := View(), Quad(v0, v1, v2, v3);
      if head < SIZE {
        Put(v0, v1, v2, v3);
      } else {
        head := 0;
        overflow := true;
        assert Unroll(view, 0) == view == Unroll(view, SIZE);
        Put(v0, v1, v2, v3);
      }
      UnrollStep(view, head - 1, q);
      LastSnoc(SIZE, SILENCE, history, q);
      history := history + [q];
      newHead := head;
    }

    /** The four stores and the increment both branches of add_value share. */
    method Put(v0: int, v1: int, v2: int, v3: int)
      requires Shape() && head < SIZE
      modifies `head, ch0, ch1, ch2, ch3
      ensures head == old(head) + 1
      ensures View() == old(View())[old(head) := Quad(v0, v1, v2, v3)]
    {
      ch0[head] := v0;
      ch1[head] := v1;
      ch2[head] := v2;
      ch3[head] := v3;
      head := head + 1;
    }

    /** The wrap-around loop of main that copies the ring into the four result arrays; the
        overflow flag is set since Init, so the copy starts at the last returned head. */
    method CopyOut(d0: array<int>, d1: array<int>, d2: array<int>, d3: array<int>, last: nat)
      requires Valid() && overflow && last == head
      requires d0.Length == d1.Length == d2.Length == d3.Length >= SIZE
      requires d0 != d1 && d0 != d2 && d0 != d3 && d1 != d2 && d1 != d3 && d2 != d3
      requires {d0, d1, d2, d3} !! {ch0, ch1, ch2, ch3}
      modifies d0, d1, d2, d3
      ensures Valid()
      ensures Zip(d0[..SIZE], d1[..SIZE], d2[..SIZE], d3[..SIZE]) == Window(SIZE, history)
    {
      var loc, m := last, 0;
      while m < SIZE
        invariant m <= SIZE && loc <= SIZE
        invariant View() == old(View())
        invariant loc == if m < SIZE - last || (m == SIZE - last && loc == SIZE) then last + m else m - (SIZE - last)
        invariant forall i | 0 <= i < m :: Quad(d0[i], d1[i], d2[i], d3[i]) == Unroll(View(), last)[i]
        decreases SIZE - m, loc
      {
        if loc < SIZE {
          d0[m] := ch0[loc];
          d1[m] := ch1[loc];
          d2[m] := ch2[loc];
          d3[m] := ch3[loc];
          loc := loc + 1;
          m := m + 1;
        } else {
          loc := 0;
        }
      }
    }
  }
}
