/**
 A dense tensor of real numbers stored in row-major order: the last dimension
 varies fastest. Only what the attack and the denormalization need is here:
 the element count of a shape, and the channel that a flat position belongs
 to when the tensor is laid out as `[..., C, H, W]`.
 */
module Tensors {

  datatype Tensor = Tensor(shape: seq<nat>, data: seq<real>) {
    /** The flat data holds exactly one element per index of the shape. */
    predicate Valid() {
      |data| == Numel(shape)
    }
  }

  /** Number of elements of a tensor of the given shape (1 for a scalar). */
  function Numel(shape: seq<nat>): nat
  {
    if |shape| == 0 then 1 else Numel(shape[..|shape| - 1]) * shape[|shape| - 1]
  }

  /** Size of the channel dimension of a `[..., C, H, W]` shape. */
  function Channels(shape: seq<nat>): nat
    requires |shape| >= 3
  {
    shape[|shape| - 3]
  }

  /** Number of elements in one `H x W` plane of a `[..., C, H, W]` shape. */
  function PlaneSize(shape: seq<nat>): nat
    requires |shape| >= 3
  {
    shape[|shape| - 2] * shape[|shape| - 1]
  }

  /** The channel of the element stored at flat position `i`. */
  function ChannelOf(shape: seq<nat>, i: nat): (c: nat)
    requires |shape| >= 3
    ensures Channels(shape) > 0 ==> c < Channels(shape)
    ensures i < Numel(shape) ==> c < Channels(shape)
  {
    if Channels(shape) == 0 then
      NumelHasFactor(shape, |shape| - 3);
      0
    else if PlaneSize(shape) == 0 then 0
    else (i / PlaneSize(shape)) % Channels(shape)
  }

  /** A shape with a zero dimension has no elements. */
  lemma {:induction false} NumelHasFactor(shape: seq<nat>, k: nat)
    requires k < |shape| && shape[k] == 0
    ensures Numel(shape) == 0
  {
    if k < |shape| - 1 {
      NumelHasFactor(shape[..|shape| - 1], k);
    }
  }

  /** Flat position of coordinate `(l, c, h, w)`, where `l` is the flat index
      over the leading (batch) dimensions. */
  function FlatIndex(l: nat, c: nat, h: nat, w: nat, C: nat, H: nat, W: nat): nat
  {
    ((l * C + c) * H + h) * W + w
  }

  lemma NumelAppend(lead: seq<nat>, C: nat, H: nat, W: nat)
    ensures Numel(lead + [C, H, W]) == Numel(lead) * C * H * W
  {
    var s3 := lead + [C, H, W];
    var s2 := lead + [C, H];
    var s1 := lead + [C];
    assert s3[..|s3| - 1] == s2;
    assert s2[..|s2| - 1] == s1;
    assert s1[..|s1| - 1] == lead;
    assert Numel(s1) == Numel(lead) * C;
    assert Numel(s2) == Numel(lead) * C * H;
  }

  /** Uniqueness of Euclidean division. */
  lemma DivModUnique(q: nat, d: nat, r: nat)
    requires r < d
    ensures (q * d + r) / d == q
    ensures (q * d + r) % d == r
  {
    var n := q * d + r;
    var k := q - n / d;
    assert k * d == n % d - r by {
      assert n == (n / d) * d + n % d;
    }
    SmallMultipleIsZero(k, d);
  }

  lemma SmallMultipleIsZero(k: int, d: nat)
    requires -(d as int) < k * d < d
    ensures k == 0
  {
  }

  /** A coordinate inside a `rows x cols` block has a flat offset inside it. */
  lemma OffsetBelow(row: nat, col: nat, rows: nat, cols: nat)
    requires row < rows && col < cols
    ensures row * cols + col < rows * cols
  {
    assert row * cols + col < (row + 1) * cols;
    assert (row + 1) * cols <= rows * cols;
  }

  /**
   The element at coordinate `(l, c, h, w)` of a `lead + [C, H, W]` tensor lies
   within the data and belongs to channel `c`, whatever `l`, `h` and `w` are:
   a per-channel parameter broadcast as `p[:, None, None]` reaches exactly the
   elements of its channel.
   */
  lemma {:induction false} ChannelOfCoordinates(lead: seq<nat>, C: nat, H: nat, W: nat, l: nat, c: nat, h: nat, w: nat)
    requires l < Numel(lead) && c < C && h < H && w < W
    ensures FlatIndex(l, c, h, w, C, H, W) < Numel(lead + [C, H, W])
    ensures ChannelOf(lead + [C, H, W], FlatIndex(l, c, h, w, C, H, W)) == c
  {
    var shape := lead + [C, H, W];
    NumelAppend(lead, C, H, W);
    var plane := H * W;
    var inPlane := h * W + w;
    var outer := l * C + c;
    OffsetBelow(h, w, H, W);
    OffsetBelow(l, c, Numel(lead), C);
    OffsetBelow(outer, inPlane, Numel(lead) * C, plane);
    assert FlatIndex(l, c, h, w, C, H, W) == outer * plane + inPlane by {
      assert (outer * H + h) * W == outer * plane + h * W;
    }
    assert Numel(shape) == Numel(lead) * C * plane;
    assert Channels(shape) == C && PlaneSize(shape) == plane;
    DivModUnique(outer, plane, inPlane);
    DivModUnique(l, C, c);
  }
}
