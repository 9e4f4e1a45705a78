/**
 * `short_vec<double, 2>`, the fallback used when SSE is unavailable: two
 * double fields `val1` and `val2`. Its pointer constructor and its `store`
 * do not touch two consecutive elements but elements 0 and 4 of the buffer.
 */
module ScalarDouble2 {
  import opened Elements
  import Memory

  const ARITY := 2

  /** The distance between the elements holding `val1` and `val2` in memory. */
  const STRIDE := 4

  /** The buffer offsets of the two fields, as an indexed access sees them. */
  const OFFSETS: seq<int32> := [0, STRIDE as int32]

  /** A buffer of `n` elements holds both fields of a vector stored at `at`. */
  lemma OffsetsInBounds(n: nat, at: nat)
    requires at + STRIDE < n
    ensures Memory.InBounds(n, at, OFFSETS)
  {
  }

  /** Reading a vector at `at` takes element `at` and element `at + 4`. */
  lemma StridedLayout(s: seq<Lane>, at: nat)
    requires at + STRIDE < |s|
    ensures Memory.InBounds(|s|, at, OFFSETS)
    ensures Memory.Gather(s, at, OFFSETS) == [s[at], s[at + STRIDE]]
  {
    var g := Memory.Gather(s, at, OFFSETS);
    assert g[0] == s[at] && g[1] == s[at + STRIDE];
  }

  /**
   * Storing a vector at `at` writes lane 0 to element `at`, lane 1 to
   * element `at + 4` and leaves every other element as it was.
   */
  lemma {:induction false} StridedStore(s: seq<Lane>, at: nat, lanes: seq<Lane>)
    requires |lanes| == ARITY
    requires at + STRIDE < |s|
    ensures Memory.InBounds(|s|, at, OFFSETS)
    ensures Memory.Scatter(s, at, OFFSETS, lanes)[at] == lanes[0]
    ensures Memory.Scatter(s, at, OFFSETS, lanes)[at + STRIDE] == lanes[1]
    ensures forall k :: 0 <= k < |s| && k != at && k != at + STRIDE ==> Memory.Scatter(s, at, OFFSETS, lanes)[k] == s[k]
  {
    OffsetsInBounds(|s|, at);
    assert Memory.LastWriter(at, OFFSETS, 0, at);
    Memory.ScatterAt(s, at, OFFSETS, lanes, at);
    assert Memory.LastWriter(at, OFFSETS, 1, at + STRIDE);
    Memory.ScatterAt(s, at, OFFSETS, lanes, at + STRIDE);
    forall k | 0 <= k < |s| && k != at && k != at + STRIDE
      ensures Memory.Scatter(s, at, OFFSETS, lanes)[k] == s[k]
    {
      Memory.ScatterAt(s, at, OFFSETS, lanes, k);
    }
  }

  /** Reading back what was stored at the same place gives the stored lanes. */
  lemma StridedRoundTrip(s: seq<Lane>, at: nat, lanes: seq<Lane>)
    requires |lanes| == ARITY
    requires at + STRIDE < |s|
    ensures Memory.InBounds(|s|, at, OFFSETS)
    ensures Memory.Gather(Memory.Scatter(s, at, OFFSETS, lanes), at, OFFSETS) == lanes
  {
    OffsetsInBounds(|s|, at);
    Memory.GatherAfterScatter(s, at, OFFSETS, lanes);
  }

  /**
   * What `/=` computes as written: `val1` is divided by both fields of the
   * divisor in turn and `val2` is never assigned.
   */
  function DivAssignAsWritten(div: (Lane, Lane) -> Lane, a: seq<Lane>, b: seq<Lane>): (r: seq<Lane>)
    requires |a| == |b| == ARITY
    ensures |r| == ARITY
  {
    [div(div(a[0], b[0]), b[1]), a[1]]
  }

  /**
   * The written `/=` agrees with lane-wise division exactly when dividing the
   * first quotient once more by `b[1]` changes nothing and `a[1] / b[1]`
   * happens to equal `a[1]`.
   */
  lemma DivAssignAgreesOnlyWhen(div: (Lane, Lane) -> Lane, a: seq<Lane>, b: seq<Lane>)
    requires |a| == |b| == ARITY
    ensures DivAssignAsWritten(div, a, b) == Zip(div, a, b) <==>
      div(div(a[0], b[0]), b[1]) == div(a[0], b[0]) && div(a[1], b[1]) == a[1]
  {
    var w, z := DivAssignAsWritten(div, a, b), Zip(div, a, b);
    assert z[0] == div(a[0], b[0]) && z[1] == div(a[1], b[1]);
    assert w[0] == div(div(a[0], b[0]), b[1]) && w[1] == a[1];
    if w[0] == z[0] && w[1] == z[1] {
      assert w == z;
    }
  }

  /**
   * A concrete divergence. For any unit with 1 / 1 = 1 and 1 / 2 = 0.5,
   * `(1, 1) /= (1, 2)` leaves `(0.5, 1)` while `(1, 1) / (1, 2)` is `(1, 0.5)`.
   */
  lemma DivAssignCounterexample(fpu: Fpu)
    requires fpu.div(ONE, ONE) == ONE && fpu.div(ONE, TWO) == HALF
    ensures DivAssignAsWritten(fpu.div, [ONE, ONE], [ONE, TWO]) == [HALF, ONE]
    ensures Zip(fpu.div, [ONE, ONE], [ONE, TWO]) == [ONE, HALF]
    ensures DivAssignAsWritten(fpu.div, [ONE, ONE], [ONE, TWO]) != Zip(fpu.div, [ONE, ONE], [ONE, TWO])
  {
    var z := Zip(fpu.div, [ONE, ONE], [ONE, TWO]);
    assert z[0] == ONE && z[1] == HALF;
    assert z == [ONE, HALF];
  }

  class ShortVec2 {
    var val1: Lane
    var val2: Lane

    /** The two lanes in logical order. */
    function Lanes(): (s: seq<Lane>)
      reads this
      ensures |s| == ARITY
    {
      [val1, val2]
    }

    /** Broadcast: both fields hold `data` (zero by default). */
    constructor (data: Lane := 0)
      ensures Lanes() == [data, data]
    {
      val1 := data;
      val2 := data;
    }

    /** Construction from a pointer reads the elements at offsets 0 and 4. */
    constructor FromPointer(data: array<Lane>, at: nat)
      requires at + STRIDE < data.Length
      ensures Memory.InBounds(data.Length, at, OFFSETS)
      ensures Lanes() == Memory.Gather(data[..], at, OFFSETS)
    {
      val1 := data[at + 0];
      val2 := data[at + STRIDE];
      new;
      StridedLayout(data[..], at);
    }

    /** Construction from the two field values. */
    constructor FromValues(v1: Lane, v2: Lane)
      ensures Lanes() == [v1, v2]
    {
      val1 := v1;
      val2 := v2;
    }

    method SubAssign(other: ShortVec2, fpu: Fpu)
      modifies this
      ensures Lanes() == Zip(fpu.sub, old(Lanes()), old(other.Lanes()))
    {
      val1 := fpu.sub(val1, other.val1);
      val2 := fpu.sub(val2, other.val2);
    }

    method Sub(other: ShortVec2, fpu: Fpu) returns (r: ShortVec2)
      ensures fresh(r) && r.Lanes() == Zip(fpu.sub, Lanes(), other.Lanes())
    {
      r := new ShortVec2.FromValues(fpu.sub(val1, other.val1), fpu.sub(val2, other.val2));
    }

    method AddAssign(other: ShortVec2, fpu: Fpu)
      modifies this
      ensures Lanes() == Zip(fpu.add, old(Lanes()), old(other.Lanes()))
    {
      val1 := fpu.add(val1, other.val1);
      val2 := fpu.add(val2, other.val2);
    }

    method Add(other: ShortVec2, fpu: Fpu) returns (r: ShortVec2)
      ensures fresh(r) && r.Lanes() == Zip(fpu.add, Lanes(), other.Lanes())
    {
      r := new ShortVec2.FromValues(fpu.add(val1, other.val1), fpu.add(val2, other.val2));
    }

    method MulAssign(other: ShortVec2, fpu: Fpu)
      modifies this
      ensures Lanes() == Zip(fpu.mul, old(Lanes()), old(other.Lanes()))
    {
      val1 := fpu.mul(val1, other.val1);
      val2 := fpu.mul(val2, other.val2);
    }

    method Mul(other: ShortVec2, fpu: Fpu) returns (r: ShortVec2)
      ensures fresh(r) && r.Lanes() == Zip(fpu.mul, Lanes(), other.Lanes())
    {
      r := new ShortVec2.FromValues(fpu.mul(val1, other.val1), fpu.mul(val2, other.val2));
    }

    /** `/=` as the code has it: both divisions land on `val1`. */
    method DivAssign(other: ShortVec2, fpu: Fpu)
      modifies this
      ensures Lanes() == DivAssignAsWritten(fpu.div, old(Lanes()), old(other.Lanes()))
    {
      val1 := fpu.div(val1, other.val1);
      val1 := fpu.div(val1, other.val2);
    }

    /** `/=` as evidently intended: each field divided by its own counterpart. */
    method DivAssignLanewise(other: ShortVec2, fpu: Fpu)
      modifies this
      ensures Lanes() == Zip(fpu.div, old(Lanes()), old(other.Lanes()))
    {
      val1 := fpu.div(val1, other.val1);
      val2 := fpu.div(val2, other.val2);
    }

    method Div(other: ShortVec2, fpu: Fpu) returns (r: ShortVec2)
      ensures fresh(r) && r.Lanes() == Zip(fpu.div, Lanes(), other.Lanes())
    {
      r := new ShortVec2.FromValues(fpu.div(val1, other.val1), fpu.div(val2, other.val2));
    }

    method Sqrt(fpu: Fpu) returns (r: ShortVec2)
      ensures fresh(r) && r.Lanes() == Map1(fpu.sqrt, Lanes())
    {
      r := new ShortVec2.FromValues(fpu.sqrt(val1), fpu.sqrt(val2));
    }

    /** `store`: `val1` to the element at offset 0, `val2` to the one at offset 4. */
    method Store(data: array<Lane>, at: nat)
      requires at + STRIDE < data.Length
      modifies data
      ensures Memory.InBounds(data.Length, at, OFFSETS)
      ensures data[..] == Memory.Scatter(old(data[..]), at, OFFSETS, Lanes())
    {
      OffsetsInBounds(data.Length, at);
      data[at + 0] := val1;
      data[at + STRIDE] := val2;
      assert data[..] == old(data[..])[at := val1][at + STRIDE := val2];
      ScatterTwo(old(data[..]), at, Lanes());
    }
  }

  /** The two single-element writes of `store`, in order, are the indexed store of both lanes. */
  lemma ScatterTwo(s: seq<Lane>, at: nat, lanes: seq<Lane>)
    requires |lanes| == ARITY
    requires at + STRIDE < |s|
    ensures Memory.InBounds(|s|, at, OFFSETS)
    ensures Memory.Scatter(s, at, OFFSETS, lanes) == s[at := lanes[0]][at + STRIDE := lanes[1]]
  {
    OffsetsInBounds(|s|, at);
    var s1 := s[at := lanes[0]];
    var s2 := s1[at + STRIDE := lanes[1]];
    assert Memory.ScatterFrom(s2, at, OFFSETS, lanes, 2) == s2;
    assert Memory.ScatterFrom(s1, at, OFFSETS, lanes, 1) == s2;
  }

  /** `operator<<(double *, vec)`: a `store`. */
  method StoreTo(data: array<Lane>, at: nat, vec: ShortVec2)
    requires at + STRIDE < data.Length
    modifies data
    ensures Memory.InBounds(data.Length, at, OFFSETS)
    ensures data[..] == Memory.Scatter(old(data[..]), at, OFFSETS, vec.Lanes())
  {
    vec.Store(data, at);
  }

  /** The free `sqrt(vec)`. */
  method SqrtOf(vec: ShortVec2, fpu: Fpu) returns (r: ShortVec2)
    ensures fresh(r) && r.Lanes() == Map1(fpu.sqrt, vec.Lanes())
  {
    r := vec.Sqrt(fpu);
  }

  // Properties relating several operations.

  /**
   * A `store` followed by construction from the same pointer reproduces both
   * fields; only elements `at` and `at + 4` of the buffer change.
   */
  method StoreThenConstruct(v: ShortVec2, data: array<Lane>, at: nat) returns (w: ShortVec2)
    requires at + STRIDE < data.Length
    modifies data
    ensures fresh(w) && w.Lanes() == v.Lanes()
    ensures forall k :: 0 <= k < data.Length && k != at && k != at + STRIDE ==> data[k] == old(data[k])
  {
    v.Store(data, at);
    StridedStore(old(data[..]), at, v.Lanes());
    StridedRoundTrip(old(data[..]), at, v.Lanes());
    w := new ShortVec2.FromPointer(data, at);
  }

  /**
   * `-=`, `+=` and `*=` leave the receiver equal to what the value operator
   * returns; for division this holds only of the corrected `/=`.
   */
  method AssignFormsAgree(a: ShortVec2, b: ShortVec2, fpu: Fpu, op: ArithOp) returns (c: ShortVec2)
    modifies a
    ensures fresh(c) && c.Lanes() == a.Lanes() == Zip(OpOf(fpu, op), old(a.Lanes()), old(b.Lanes()))
  {
    match op
    case Add =>
      c := a.Add(b, fpu);
      a.AddAssign(b, fpu);
    case Sub =>
      c := a.Sub(b, fpu);
      a.SubAssign(b, fpu);
    case Mul =>
      c := a.Mul(b, fpu);
      a.MulAssign(b, fpu);
    case Div =>
      c := a.Div(b, fpu);
      a.DivAssignLanewise(b, fpu);
  }

  /** The written `/=` and `operator/` disagree on `(1, 1)` and `(1, 2)`. */
  method DivFormsDisagree(fpu: Fpu) returns (q: ShortVec2, a: ShortVec2)
    requires fpu.div(ONE, ONE) == ONE && fpu.div(ONE, TWO) == HALF
    ensures q.Lanes() == [ONE, HALF] && a.Lanes() == [HALF, ONE]
  {
    a := new ShortVec2.FromValues(ONE, ONE);
    var b := new ShortVec2.FromValues(ONE, TWO);
    q := a.Div(b, fpu);
    a.DivAssign(b, fpu);
    DivAssignCounterexample(fpu);
  }
}
