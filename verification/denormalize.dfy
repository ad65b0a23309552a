/**
 `denormalize`: undo a per-channel `(x - mean) / std` normalization by
 computing `x * std[c] + mean[c]` in place. The parameters are reshaped to
 `[len, 1, 1]`, so they line up with the third dimension from the end of the
 image and broadcast over the last two; an in-place operation must not change
 the image's shape, so each parameter must have one entry per channel or a
 single entry shared by all channels, and the image must have at least three
 dimensions.

 The multiplication is done (and written into the image) before the addition
 is attempted: when only `mean` has the wrong length the call raises with the
 image already scaled by `std`.
 */
module Denormalize {
  import opened Tensors

  datatype ShapeError =
    | RankBelowThree(rank: nat)
    | StdNotBroadcastable(length: nat, channels: nat)
    | MeanNotBroadcastable(length: nat, channels: nat)

  /** What `denormalize` leaves behind: the overwritten image it returns, or the
      error it raised together with the contents of the image buffer. */
  datatype Outcome =
    | Denormalized(image: Tensor)
    | Raised(error: ShapeError, buffer: Tensor)

  /** A parameter of `length` entries, reshaped to `[length, 1, 1]`, can be
      applied in place along a channel dimension of size `channels`. */
  predicate Broadcastable(length: nat, channels: nat) {
    length == channels || length == 1
  }

  /** The entry of a broadcast per-channel parameter that channel `c` sees. */
  function ParamAt(p: seq<real>, c: nat): real
    requires |p| == 1 || c < |p|
  {
    if |p| == 1 then p[0] else p[c]
  }

  /** Every entry that some channel sees is non-zero. */
  predicate NonZero(p: seq<real>) {
    forall c :: 0 <= c < |p| ==> p[c] != 0.0
  }

  /** The precondition of a complete in-place affine map over `t`'s channels. */
  predicate Applicable(t: Tensor, p: seq<real>) {
    t.Valid() && |t.shape| >= 3 && Broadcastable(|p|, Channels(t.shape))
  }

  /** `image.mul_(std[:, None, None])`. */
  function Scale(t: Tensor, std: seq<real>): (r: Tensor)
    requires Applicable(t, std)
    ensures r.shape == t.shape && r.Valid()
    ensures forall i :: 0 <= i < |t.data| ==>
      r.data[i] == t.data[i] * ParamAt(std, ChannelOf(t.shape, i))
  {
    Tensor(t.shape, seq(|t.data|, i requires 0 <= i < |t.data| =>
      t.data[i] * ParamAt(std, ChannelOf(t.shape, i))))
  }

  /** `image.add_(mean[:, None, None])`. */
  function Shift(t: Tensor, mean: seq<real>): (r: Tensor)
    requires Applicable(t, mean)
    ensures r.shape == t.shape && r.Valid()
    ensures forall i :: 0 <= i < |t.data| ==>
      r.data[i] == t.data[i] + ParamAt(mean, ChannelOf(t.shape, i))
  {
    Tensor(t.shape, seq(|t.data|, i requires 0 <= i < |t.data| =>
      t.data[i] + ParamAt(mean, ChannelOf(t.shape, i))))
  }

  /** `denormalize(image, mean, std)`. */
  function Denorm(t: Tensor, mean: seq<real>, std: seq<real>): (r: Outcome)
    requires t.Valid()
    ensures r.Denormalized? <==> Applicable(t, std) && Applicable(t, mean)
    ensures r.Denormalized? ==> r.image.shape == t.shape && r.image.Valid()
    ensures r.Denormalized? ==> forall i :: 0 <= i < |t.data| ==>
      var c := ChannelOf(t.shape, i);
      r.image.data[i] == t.data[i] * ParamAt(std, c) + ParamAt(mean, c)
    ensures r.Raised? ==> r.buffer.shape == t.shape
    ensures r.Raised? && !r.error.MeanNotBroadcastable? ==> r.buffer == t
    ensures r.Raised? && r.error.MeanNotBroadcastable? ==> Applicable(t, std) && r.buffer == Scale(t, std)
  {
    if |t.shape| < 3 then Raised(RankBelowThree(|t.shape|), t)
    else if !Broadcastable(|std|, Channels(t.shape)) then
      Raised(StdNotBroadcastable(|std|, Channels(t.shape)), t)
    else
      var scaled := Scale(t, std);
      if !Broadcastable(|mean|, Channels(t.shape)) then
        Raised(MeanNotBroadcastable(|mean|, Channels(t.shape)), scaled)
      else Denormalized(Shift(scaled, mean))
  }

  /**
   Which error `denormalize` raises, and what it leaves in the buffer: the rank
   is checked first, then `std` with the image untouched, then `mean` after
   the image has already been scaled by `std`.
   */
  lemma DenormRaises(t: Tensor, mean: seq<real>, std: seq<real>)
    requires t.Valid()
    ensures |t.shape| < 3 ==> Denorm(t, mean, std) == Raised(RankBelowThree(|t.shape|), t)
    ensures |t.shape| >= 3 && !Applicable(t, std) ==>
              Denorm(t, mean, std) == Raised(StdNotBroadcastable(|std|, Channels(t.shape)), t)
    ensures Applicable(t, std) && !Applicable(t, mean) ==>
              Denorm(t, mean, std) == Raised(MeanNotBroadcastable(|mean|, Channels(t.shape)), Scale(t, std))
  {
  }

  /**
   The upstream per-channel normalization `(x - mean[c]) / std[c]` that
   `denormalize` reverses. It is not part of this file's code; it is here as
   the reference the round trips below are stated against.
   */
  function Normalize(t: Tensor, mean: seq<real>, std: seq<real>): (r: Tensor)
    requires Applicable(t, std) && Applicable(t, mean) && NonZero(std)
    ensures r.shape == t.shape && r.Valid()
  {
    Tensor(t.shape, seq(|t.data|, i requires 0 <= i < |t.data| =>
      var c := ChannelOf(t.shape, i);
      (t.data[i] - ParamAt(mean, c)) / ParamAt(std, c)))
  }

  /** Denormalizing a normalized image gives back the image, for every element. */
  lemma DenormalizeAfterNormalize(t: Tensor, mean: seq<real>, std: seq<real>)
    requires Applicable(t, std) && Applicable(t, mean) && NonZero(std)
    ensures Denorm(Normalize(t, mean, std), mean, std) == Denormalized(t)
  {
    var n := Normalize(t, mean, std);
    var r := Denorm(n, mean, std);
    forall i | 0 <= i < |t.data|
      ensures r.image.data[i] == t.data[i]
    {
      var c := ChannelOf(t.shape, i);
      var s, m := ParamAt(std, c), ParamAt(mean, c);
      assert n.data[i] == (t.data[i] - m) / s;
      assert (t.data[i] - m) / s * s == t.data[i] - m;
    }
    assert r.image.data == t.data;
  }

  /** Normalizing a denormalized image gives back the image, for every element. */
  lemma NormalizeAfterDenormalize(t: Tensor, mean: seq<real>, std: seq<real>)
    requires Applicable(t, std) && Applicable(t, mean) && NonZero(std)
    ensures Denorm(t, mean, std).Denormalized?
    ensures Normalize(Denorm(t, mean, std).image, mean, std) == t
  {
    var d := Denorm(t, mean, std).image;
    var n := Normalize(d, mean, std);
    forall i | 0 <= i < |t.data|
      ensures n.data[i] == t.data[i]
    {
      var c := ChannelOf(t.shape, i);
      var s, m := ParamAt(std, c), ParamAt(mean, c);
      assert d.data[i] == t.data[i] * s + m;
      assert (t.data[i] * s + m - m) / s == t.data[i];
    }
    assert n.data == t.data;
  }

  /**
   Broadcasting over the spatial dimensions: in a `lead + [C, H, W]` image,
   the element at `(l, c, h, w)` becomes `x * std[c] + mean[c]` (or the single
   entry, when a parameter has one), for every `l`, `h` and `w`.
   */
  lemma DenormalizeAtCoordinate(t: Tensor, mean: seq<real>, std: seq<real>,
                                lead: seq<nat>, C: nat, H: nat, W: nat,
                                l: nat, c: nat, h: nat, w: nat)
    requires t.Valid() && t.shape == lead + [C, H, W]
    requires Broadcastable(|std|, C) && Broadcastable(|mean|, C)
    requires l < Numel(lead) && c < C && h < H && w < W
    ensures var i := FlatIndex(l, c, h, w, C, H, W);
      && i < |t.data|
      && Denorm(t, mean, std).Denormalized?
      && Denorm(t, mean, std).image.data[i] == t.data[i] * ParamAt(std, c) + ParamAt(mean, c)
  {
    ChannelOfCoordinates(lead, C, H, W, l, c, h, w);
  }

  /** `mul_` broadcast over the spatial dimensions: in a `lead + [C, H, W]`
      image, the element at `(l, c, h, w)` is multiplied by `std[c]`. */
  lemma ScaleAtCoordinate(t: Tensor, std: seq<real>,
                          lead: seq<nat>, C: nat, H: nat, W: nat,
                          l: nat, c: nat, h: nat, w: nat)
    requires t.Valid() && t.shape == lead + [C, H, W] && Broadcastable(|std|, C)
    requires l < Numel(lead) && c < C && h < H && w < W
    ensures var i := FlatIndex(l, c, h, w, C, H, W);
      && Applicable(t, std)
      && i < |t.data|
      && Scale(t, std).shape == t.shape
      && Scale(t, std).data[i] == t.data[i] * ParamAt(std, c)
  {
    ChannelOfCoordinates(lead, C, H, W, l, c, h, w);
  }

  /** `add_` broadcast over the spatial dimensions: in a `lead + [C, H, W]`
      image, the element at `(l, c, h, w)` has `mean[c]` added. */
  lemma ShiftAtCoordinate(t: Tensor, mean: seq<real>,
                          lead: seq<nat>, C: nat, H: nat, W: nat,
                          l: nat, c: nat, h: nat, w: nat)
    requires t.Valid() && t.shape == lead + [C, H, W] && Broadcastable(|mean|, C)
    requires l < Numel(lead) && c < C && h < H && w < W
    ensures var i := FlatIndex(l, c, h, w, C, H, W);
      && Applicable(t, mean)
      && i < |t.data|
      && Shift(t, mean).shape == t.shape
      && Shift(t, mean).data[i] == t.data[i] + ParamAt(mean, c)
  {
    ChannelOfCoordinates(lead, C, H, W, l, c, h, w);
  }
}
