/** The deque object of krio-parallel: a ring of slots and two wrapping indices. */
module Deque {
  // The methods run without interference, as one agent's calls do between those of others;
  // DequeSteps and DequeWords cover the interleavings.

  import opened Options
  import opened Words
  import opened DequeSteps
  import opened DequeWords

  datatype PushResult<T> = Ok | Err(value: T)

  /** Least power of two that holds `cap` and is at least two, as an exponent. */
  method CapacityExponent(cap: nat) returns (k: nat)
    ensures 1 <= k && Pow2(k) >= cap
    ensures k > 1 ==> Pow2(k - 1) < cap
  {
    k := 1;
    while Pow2(k) < cap
      invariant 1 <= k
      invariant k > 1 ==> Pow2(k - 1) < cap
      decreases cap - Pow2(k)
    {
      k := k + 1;
    }
  }

  function NonNegative(d: int): nat {
    if d < 0 then 0 else d
  }

  /** Items at `n` consecutive wrapped indices from `top`. */
  function Live<T>(c: Shape, top: int, n: nat, slots: seq<T>): (q: seq<T>)
    requires c.Valid() && |slots| == c.Cap()
    ensures |q| == n
    ensures forall j :: 0 <= j < n ==> q[j] == slots[SlotAt(c, top, j)]
  {
    seq(n, j requires 0 <= j => slots[SlotAt(c, top, j)])
  }

  function SlotAt(c: Shape, top: int, j: int): (r: nat)
    requires c.Valid()
    ensures r < c.Cap()
  {
    c.Index(c.W(top + j))
  }

  class Deque<T(0)> {
    const bits: nat
    ghost const exponent: nat
    const cap: nat
    const buf: array<T>
    var top: int
    var bottom: int

    ghost function Layout(): Shape { Shape(bits, exponent) }

    ghost predicate Valid()
      reads this
    {
      && Layout().Valid() && Layout().Cap() == cap && buf.Length == cap
      && IsWord(Layout(), top) && IsWord(Layout(), bottom)
      && 0 <= Wrap(bits, bottom - top) <= cap
    }

    /** The queued items, oldest first. */
    ghost function Contents(): (q: seq<T>)
      requires Valid()
      reads this, buf
      ensures |q| == Wrap(bits, bottom - top)
    {
      Live(Layout(), top, Wrap(bits, bottom - top), buf[..])
    }

    /** `start` stands for whatever the two counters have reached. */
    constructor WithCapacity(width: nat, want: nat, start: int)
      requires width >= 3 && want <= Pow2(width - 2) && -Pow2(width - 1) <= start < Pow2(width - 1)
      ensures Valid() && Contents() == [] && fresh(buf) && bits == width
      ensures want <= cap && 2 <= cap && (cap > 2 ==> cap < 2 * want)
    {
      var k := CapacityExponent(want);
      ExponentFits(k, want, width);
      Pow2Grows(1, k);
      exponent := k;
      bits := width;
      cap := Pow2(k);
      buf := new T[Pow2(k)];
      top := start;
      bottom := start;
      new;
      WrapOfSmall(width, 0);
    }

    /** `(i & mask) as usize` */
    method Slot(i: int) returns (r: nat)
      requires Valid()
      ensures r == Layout().Index(i)
    {
      r := BitAnd(Pattern(bits, i), cap - 1);
    }

    method Len() returns (n: nat)
      requires Valid()
      ensures n == |Contents()|
    {
      n := NonNegative(Wrap(bits, bottom - top));
    }

    method Push(value: T) returns (r: PushResult<T>)
      requires Valid()
      modifies this`bottom, buf
      ensures Valid()
      ensures r == if |old(Contents())| < cap then Ok else Err(value)
      ensures Contents() == if |old(Contents())| < cap then old(Contents()) + [value] else old(Contents())
    {
      hide Pow2;
      hide Wrap;
      hide Live;
      hide IsWord;
      var b := bottom;
      var t := top;
      if Wrap(bits, b - t) >= cap {
        return Err(value);
      }
      PushFacts(Layout(), t, b, buf[..], value);
      var i := Slot(b);
      buf[i] := value;
      bottom := Wrap(bits, b + 1);
      r := Ok;
    }

    method Pop() returns (r: Option<T>)
      requires Valid()
      modifies this
      ensures Valid()
      ensures old(Contents()) == [] ==> r == None && Contents() == []
      ensures old(Contents()) != [] ==>
        && r == Some(old(Contents())[|old(Contents())| - 1])
        && Contents() == old(Contents())[..|old(Contents())| - 1]
    {
      hide Pow2;
      hide Wrap;
      hide Live;
      hide IsWord;
      PopFacts(Layout(), top, bottom, buf[..]);
      var b := Wrap(bits, bottom - 1);
      bottom := b;
      var t := top;
      var len := Wrap(bits, b - t);
      if len < 0 {
        bottom := Wrap(bits, b + 1);
        return None;
      }
      var i := Slot(b);
      if len == 0 {
        top := Wrap(bits, t + 1);
        bottom := Wrap(bits, b + 1);
      }
      r := Some(buf[i]);
    }

    method Steal() returns (r: Option<T>)
      requires Valid()
      modifies this
      ensures Valid()
      ensures old(Contents()) == [] ==> r == None && Contents() == []
      ensures old(Contents()) != [] ==> r == Some(old(Contents())[0]) && Contents() == old(Contents())[1..]
    {
      hide Pow2;
      hide Wrap;
      hide Live;
      hide IsWord;
      var t := top;
      var b := bottom;
      if Wrap(bits, b - t) <= 0 {
        return None;
      }
      StealFacts(Layout(), t, b, buf[..]);
      var i := Slot(t);
      r := Some(buf[i]);
      top := Wrap(bits, t + 1);
    }

    /** Drops the live items, counting first and then stepping a wrapping index. */
    method Drop() returns (dropped: seq<T>)
      requires Valid()
      ensures dropped == Contents()
    {
      hide Pow2;
      hide Wrap;
      hide BitAnd;
      hide Pattern;
      hide Live;
      var live := NonNegative(Wrap(bits, bottom - top));
      var i := top;
      dropped := [];
      WordIsItself(Layout(), top);
      for n := 0 to live
        invariant |dropped| == n && i == Wrap(bits, top + n)
        invariant dropped == Contents()[..n]
      {
        var k := Slot(i);
        assert k == SlotAt(Layout(), top, n);
        dropped := dropped + [buf[k]];
        WrapAdd(bits, top + n, 1);
        i := Wrap(bits, i + 1);
      }
    }
  }

  lemma ExponentFits(k: nat, want: nat, width: nat)
    requires width >= 3 && 1 <= k && (k > 1 ==> Pow2(k - 1) < want) && want <= Pow2(width - 2)
    ensures k + 1 < width
  {
    if k > 1 {
      if width - 1 <= k {
        Pow2Grows(width - 2, k - 1);
        assert false;
      }
    }
  }

  ghost predicate IsWord(c: Shape, x: int)
    requires c.Valid()
  {
    -Pow2(c.bits - 1) <= x < Pow2(c.bits - 1)
  }

  lemma WordIsItself(c: Shape, x: int)
    requires c.Valid() && IsWord(c, x)
    ensures c.W(x) == x
  {
    WrapOfSmall(c.bits, x);
  }

  lemma WrapIsWord(c: Shape, x: int)
    requires c.Valid()
    ensures IsWord(c, c.W(x))
  {
  }

  /** `bottom` is `n` past `top`, wrapped. */
  lemma BottomIs(c: Shape, top: int, bottom: int, n: int)
    requires c.Valid() && n == c.W(bottom - top) && IsWord(c, bottom)
    ensures bottom == c.W(top + n)
  {
    hide Pow2;
    hide Wrap;
    var q := WrapDiffers(c.bits, bottom - top);
    WrapOfShift(c.bits, bottom, q);
    WordIsItself(c, bottom);
  }

  /** The slot past the last one in use is none of those in use. */
  lemma DistinctSlots(c: Shape, top: int, n: nat)
    requires c.Valid() && n < c.Cap()
    ensures forall j :: 0 <= j < n ==> SlotAt(c, top, j) != SlotAt(c, top, n)
  {
    hide Pow2;
    hide Wrap;
    hide Pattern;
    hide BitAnd;
    MaskedWordIsResidue(c.bits, c.k, top + n);
    forall j | 0 <= j < n
      ensures SlotAt(c, top, j) != SlotAt(c, top, n)
    {
      MaskedWordIsResidue(c.bits, c.k, top + j);
      SlotsDiffer(top + n, top + j, c.Cap());
    }
  }

  /** Moving `bottom` by `d` moves the length by `d`. */
  lemma LengthMoves(c: Shape, top: int, bottom: int, d: int)
    requires c.Valid() && IsWord(c, c.W(bottom - top) + d)
    ensures c.W(c.W(bottom + d) - top) == c.W(bottom - top) + d
  {
    hide Pow2;
    hide Wrap;
    var p := WrapDiffers(c.bits, bottom + d);
    WrapOfShift(c.bits, bottom + d - top, p);
    var q := WrapDiffers(c.bits, bottom - top);
    WrapOfShift(c.bits, bottom - top + d, q);
    WordIsItself(c, c.W(bottom - top) + d);
  }

  /** Advancing `top` by one shortens the length by one. */
  lemma LengthAfterSteal(c: Shape, top: int, bottom: int)
    requires c.Valid() && IsWord(c, c.W(bottom - top) - 1)
    ensures c.W(bottom - c.W(top + 1)) == c.W(bottom - top) - 1
  {
    hide Pow2;
    hide Wrap;
    var p := WrapDiffers(c.bits, top + 1);
    Distribute(0, p, Pow2(c.bits));
    WrapOfShift(c.bits, bottom - top - 1, -p);
    var q := WrapDiffers(c.bits, bottom - top);
    WrapOfShift(c.bits, bottom - top - 1, q);
    WordIsItself(c, c.W(bottom - top) - 1);
  }

  /** Lengths near a legal one are words. */
  lemma NearLength(c: Shape, n: int)
    requires c.Valid() && -1 <= n <= c.Cap() + 1
    ensures IsWord(c, n)
  {
    CapIsSmall(c);
  }

  lemma PushFacts<T>(c: Shape, top: int, bottom: int, slots: seq<T>, value: T)
    requires c.Valid() && |slots| == c.Cap() && IsWord(c, bottom) && 0 <= c.W(bottom - top) < c.Cap()
    ensures var n := c.W(bottom - top);
            && IsWord(c, c.W(bottom + 1)) && c.W(c.W(bottom + 1) - top) == n + 1
            && Live(c, top, n + 1, slots[c.Index(bottom) := value]) == Live(c, top, n, slots) + [value]
  {
    hide Pow2;
    hide Wrap;
    var n := c.W(bottom - top);
    NearLength(c, n + 1);
    WrapIsWord(c, bottom + 1);
    LengthMoves(c, top, bottom, 1);
    BottomIs(c, top, bottom, n);
    DistinctSlots(c, top, n);
  }

  lemma PopFacts<T>(c: Shape, top: int, bottom: int, slots: seq<T>)
    requires c.Valid() && |slots| == c.Cap() && IsWord(c, bottom) && IsWord(c, top)
    requires 0 <= c.W(bottom - top) <= c.Cap()
    ensures var n, b := c.W(bottom - top), c.W(bottom - 1);
            && IsWord(c, b) && c.W(b - top) == n - 1 && c.W(b + 1) == bottom
            && (n > 0 ==> Live(c, top, n - 1, slots) == Live(c, top, n, slots)[..n - 1])
            && (n > 0 ==> Live(c, top, n, slots)[n - 1] == slots[c.Index(b)])
            && (n == 1 ==> c.W(top + 1) == bottom)
            && c.W(bottom - bottom) == 0 && Live(c, bottom, 0, slots) == []
  {
    hide Pow2;
    hide Wrap;
    var n, b := c.W(bottom - top), c.W(bottom - 1);
    NearLength(c, n - 1);
    WrapIsWord(c, bottom - 1);
    LengthMoves(c, top, bottom, -1);
    WrapAdd(c.bits, bottom - 1, 1);
    WordIsItself(c, bottom);
    BottomIs(c, top, b, n - 1);
    BottomIs(c, top, bottom, n);
    NearLength(c, 0);
    WordIsItself(c, 0);
  }

  lemma StealFacts<T>(c: Shape, top: int, bottom: int, slots: seq<T>)
    requires c.Valid() && |slots| == c.Cap() && IsWord(c, top)
    requires 0 < c.W(bottom - top) <= c.Cap()
    ensures var n := c.W(bottom - top);
            && IsWord(c, c.W(top + 1)) && c.W(bottom - c.W(top + 1)) == n - 1
            && slots[c.Index(top)] == Live(c, top, n, slots)[0]
            && Live(c, c.W(top + 1), n - 1, slots) == Live(c, top, n, slots)[1..]
  {
    hide Pow2;
    hide Wrap;
    var n := c.W(bottom - top);
    NearLength(c, n - 1);
    WrapIsWord(c, top + 1);
    LengthAfterSteal(c, top, bottom);
    WordIsItself(c, top);
    var q, q' := Live(c, top, n, slots)[1..], Live(c, c.W(top + 1), n - 1, slots);
    forall j | 0 <= j < n - 1
      ensures q[j] == q'[j]
    {
      WrapAdd(c.bits, top + 1, j);
    }
    assert SlotAt(c, top, 0) == c.Index(top);
  }
}
