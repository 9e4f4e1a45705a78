/**
 * What the contiguous and the indexed loads and stores do to a caller's
 * buffer, stated on the buffer's contents as a sequence of lanes.
 */
module Memory {
  import opened Elements

  /**
   * A pointer `at` elements into a buffer whose element 0 sits at byte
   * `address` is aligned to `bytes` (doubles are eight bytes wide).
   */
  predicate Aligned(address: nat, at: nat, bytes: nat)
    requires bytes > 0
  {
    (address + 8 * at) % bytes == 0
  }

  /** The buffer after a contiguous store of `w` at element `at`. */
  function Splice(s: seq<Lane>, at: nat, w: seq<Lane>): (r: seq<Lane>)
    requires at + |w| <= |s|
    ensures |r| == |s|
    ensures r[at..at + |w|] == w
    ensures forall k :: 0 <= k < |s| && !(at <= k < at + |w|) ==> r[k] == s[k]
  {
    s[..at] + w + s[at + |w|..]
  }

  /** Every lane's target `at + offs[k]` is an element of a buffer of `n` elements. */
  predicate InBounds(n: nat, at: nat, offs: seq<int32>)
  {
    forall k :: 0 <= k < |offs| ==> 0 <= at + offs[k] as int < n
  }

  /** No two lanes share a target. */
  predicate Distinct(offs: seq<int32>)
  {
    forall i, j :: 0 <= i < j < |offs| ==> offs[i] != offs[j]
  }

  /** Lane `k` of an indexed load reads element `at + offs[k]`. */
  function Gather(s: seq<Lane>, at: nat, offs: seq<int32>): (r: seq<Lane>)
    requires InBounds(|s|, at, offs)
    ensures |r| == |offs|
  {
    seq(|offs|, k requires 0 <= k < |offs| => s[at + offs[k] as int])
  }

  /** An indexed store: lane 0 is written first, then lane 1, and so on. */
  function Scatter(s: seq<Lane>, at: nat, offs: seq<int32>, lanes: seq<Lane>): (r: seq<Lane>)
    requires |offs| == |lanes|
    requires InBounds(|s|, at, offs)
    ensures |r| == |s|
  {
    ScatterFrom(s, at, offs, lanes, 0)
  }

  /** The writes of lanes `k`, `k + 1`, ... of an indexed store, in that order. */
  function ScatterFrom(s: seq<Lane>, at: nat, offs: seq<int32>, lanes: seq<Lane>, k: nat): (r: seq<Lane>)
    requires |offs| == |lanes|
    requires InBounds(|s|, at, offs)
    requires k <= |lanes|
    ensures |r| == |s|
    decreases |lanes| - k
  {
    if k == |lanes| then s
    else ScatterFrom(s[at + offs[k] as int := lanes[k]], at, offs, lanes, k + 1)
  }

  /** Lane `k` is the last one aimed at element `j`. */
  predicate LastWriter(at: nat, offs: seq<int32>, k: int, j: int)
  {
    0 <= k < |offs| && at + offs[k] as int == j &&
    forall k' :: k < k' < |offs| ==> at + offs[k'] as int != j
  }

  /**
   * After the writes of lanes `k` onwards, an element none of them aims at is
   * unchanged, and an aimed-at element holds the highest-index lane aiming at it.
   */
  lemma {:induction false} ScatterFromAt(s: seq<Lane>, at: nat, offs: seq<int32>, lanes: seq<Lane>, k: nat, j: int)
    requires |offs| == |lanes|
    requires InBounds(|s|, at, offs)
    requires k <= |lanes|
    requires 0 <= j < |s|
    ensures (forall k' :: k <= k' < |offs| ==> at + offs[k'] as int != j) ==> ScatterFrom(s, at, offs, lanes, k)[j] == s[j]
    ensures forall w :: k <= w && LastWriter(at, offs, w, j) ==> ScatterFrom(s, at, offs, lanes, k)[j] == lanes[w]
    decreases |lanes| - k
  {
    if k < |lanes| {
      ScatterFromAt(s[at + offs[k] as int := lanes[k]], at, offs, lanes, k + 1, j);
    }
  }

  /**
   * After a scatter, an element no lane aims at is unchanged, and an element
   * several lanes aim at holds the lane with the highest index among them.
   */
  lemma ScatterAt(s: seq<Lane>, at: nat, offs: seq<int32>, lanes: seq<Lane>, j: int)
    requires |offs| == |lanes|
    requires InBounds(|s|, at, offs)
    requires 0 <= j < |s|
    ensures (forall k :: 0 <= k < |offs| ==> at + offs[k] as int != j) ==> Scatter(s, at, offs, lanes)[j] == s[j]
    ensures forall k :: LastWriter(at, offs, k, j) ==> Scatter(s, at, offs, lanes)[j] == lanes[k]
  {
    ScatterFromAt(s, at, offs, lanes, 0, j);
  }

  /** With pairwise-distinct targets, gathering what was scattered gives back every lane. */
  lemma GatherAfterScatter(s: seq<Lane>, at: nat, offs: seq<int32>, lanes: seq<Lane>)
    requires |offs| == |lanes|
    requires InBounds(|s|, at, offs)
    requires Distinct(offs)
    ensures Gather(Scatter(s, at, offs, lanes), at, offs) == lanes
  {
    var r := Scatter(s, at, offs, lanes);
    forall k | 0 <= k < |offs| ensures Gather(r, at, offs)[k] == lanes[k] {
      assert LastWriter(at, offs, k, at + offs[k] as int);
      ScatterAt(s, at, offs, lanes, at + offs[k] as int);
    }
  }
}
