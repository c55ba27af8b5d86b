/** Packing a decoded image into an asset blob: an image descriptor, one mip
    descriptor and the pixels as 32-bit words, four 8-bit channels each, in
    row-major order. The decoder itself is an input that may fail. */
module ImageLoader {
  import opened Wrappers
  import opened RowMajorIndex

  const Uint32Limit: nat := 0x1_0000_0000

  /** The status returned on success and the unsigned -1 returned on failure. */
  const Success: nat := 0
  const Failure: nat := 0xFFFF_FFFF

  /** The asset type tag, the multi-character constant 'IMG'. */
  const ImageAssetType: nat := 0x49_4D_47

  /** Byte sizes of the two descriptors and of one packed pixel. */
  const ImageDescSize: nat := 24
  const MipDescSize: nat := 12
  const PixelSize: nat := 4

  /** The decoder refuses an image whose four-float-per-pixel buffer would not
      fit a signed 32-bit byte count, so it yields fewer than 2^27 pixels. */
  const DecoderPixelLimit: nat := 0x800_0000

  // ---------------------------------------------------------------------------
  // Pixels
  // ---------------------------------------------------------------------------

  /** One 8-bit channel, the decoder's value scaled to 0..255. */
  type Channel = bv8

  datatype Rgba = Rgba(r: Channel, g: Channel, b: Channel, a: Channel)

  function ChannelOf(p: Rgba, k: nat): Channel
    requires k < 4
  {
    if k == 0 then p.r else if k == 1 then p.g else if k == 2 then p.b else p.a
  }

  /** Channel 0 in the low byte up to channel 3 in the high byte. */
  function Pack(p: Rgba): bv32 {
    (p.r as bv32) | ((p.g as bv32) << 8) | ((p.b as bv32) << 16) | ((p.a as bv32) << 24)
  }

  /** Byte k of a packed word. */
  function Unpack(w: bv32, k: nat): Channel
    requires k < 4
  {
    if k == 0 then (w & 0xFF) as bv8
    else if k == 1 then ((w >> 8) & 0xFF) as bv8
    else if k == 2 then ((w >> 16) & 0xFF) as bv8
    else ((w >> 24) & 0xFF) as bv8
  }

  function UnpackAll(w: bv32): Rgba {
    Rgba(Unpack(w, 0), Unpack(w, 1), Unpack(w, 2), Unpack(w, 3))
  }

  /** Extracting byte k of a packed pixel gives back channel k. */
  lemma UnpackPack(p: Rgba, k: nat)
    requires k < 4
    ensures Unpack(Pack(p), k) == ChannelOf(p, k)
  {
  }

  /** Packing loses nothing: the four bytes of a packed pixel are its channels. */
  lemma UnpackAllPack(p: Rgba)
    ensures UnpackAll(Pack(p)) == p
  {
    UnpackPack(p, 0);
    UnpackPack(p, 1);
    UnpackPack(p, 2);
    UnpackPack(p, 3);
  }

  /** And every 32-bit word is the packing of exactly one pixel. */
  lemma PackUnpackAll(w: bv32)
    ensures Pack(UnpackAll(w)) == w
  {
  }

  lemma PackInjective(p: Rgba, q: Rgba)
    ensures Pack(p) == Pack(q) <==> p == q
  {
    UnpackAllPack(p);
    UnpackAllPack(q);
  }

  function PackAll(src: seq<Rgba>): (r: seq<bv32>)
    ensures |r| == |src|
    ensures forall k :: 0 <= k < |src| ==> UnpackAll(r[k]) == src[k]
  {
    var r := seq(|src|, k requires 0 <= k < |src| => Pack(src[k]));
    forall k | 0 <= k < |src| ensures UnpackAll(r[k]) == src[k] {
      UnpackAllPack(src[k]);
    }
    r
  }

  // ---------------------------------------------------------------------------
  // Blob layout and size
  // ---------------------------------------------------------------------------

  /** Byte offsets within the blob: the image descriptor first, the mip
      descriptors after it, the pixels after those. */
  const HeaderOffset: nat := 0
  const MipOffset: nat := ImageDescSize

  function PixelOffset(mips: nat): nat {
    ImageDescSize + mips * MipDescSize
  }

  /** The total byte count: descriptor, pixels and mip descriptors. */
  function ExactSize(pixelCount: nat, mips: nat): nat {
    ImageDescSize + pixelCount * PixelSize + mips * MipDescSize
  }

  /** The three regions lie back to back and fill the blob exactly. */
  lemma {:induction false} LayoutTiles(pixelCount: nat, mips: nat)
    requires mips >= 1
    ensures HeaderOffset + ImageDescSize == MipOffset
    ensures MipOffset + mips * MipDescSize == PixelOffset(mips)
    ensures PixelOffset(mips) + pixelCount * PixelSize == ExactSize(pixelCount, mips)
  {
  }

  /** The pixel count as the source holds it: the product, in a 32-bit word. */
  function PixelCount32(width: nat, height: nat): (r: nat)
    ensures r < Uint32Limit
    ensures width * height < Uint32Limit ==> r == width * height
  {
    (width * height) % Uint32Limit
  }

  /** The allocation size: the pixel bytes are counted at pointer width from
      the 32-bit pixel count, and the sum is truncated to the 32-bit variable it
      is stored in. */
  function AllocatedSize(width: nat, height: nat, mips: nat): (r: nat)
    ensures r < Uint32Limit
  {
    (ImageDescSize + PixelCount32(width, height) * PixelSize + mips * MipDescSize) % Uint32Limit
  }

  /** The size recorded in the asset: the pixel bytes are the 32-bit product of
      the 32-bit pixel count and 4, and the descriptor sizes are added to it at
      pointer width. */
  function RecordedSize(width: nat, height: nat, mips: nat): (r: nat)
    ensures ImageDescSize + mips * MipDescSize <= r < ImageDescSize + mips * MipDescSize + Uint32Limit
  {
    ImageDescSize + mips * MipDescSize + (PixelCount32(width, height) * PixelSize) % Uint32Limit
  }

  /** Within the decoder's limit nothing wraps: the allocation and the recorded
      size are both the exact size. */
  lemma SizesAgree(width: nat, height: nat)
    requires width * height < DecoderPixelLimit
    ensures PixelCount32(width, height) == width * height
    ensures AllocatedSize(width, height, 1) == RecordedSize(width, height, 1) == ExactSize(width * height, 1)
  {
  }

  /** Without that limit the two sizes can differ: for 2^30 - 1 pixels the pixel
      bytes are 2^32 - 4, so the 32-bit allocation size wraps to 32 while the
      recorded size, if the asset's size field is wider than 32 bits, is
      2^32 + 32. */
  lemma SizesDisagreeBeyondDecoderLimit()
    ensures AllocatedSize(0x3FFF_FFFF, 1, 1) == 32
    ensures RecordedSize(0x3FFF_FFFF, 1, 1) == Uint32Limit + 32
  {
  }

  // ---------------------------------------------------------------------------
  // Asset and blob
  // ---------------------------------------------------------------------------

  /** The image descriptor; `mipsOffset` is the byte offset its mip pointer designates. */
  datatype ImageDesc = ImageDesc(height: nat, width: nat, mipCount: nat, mipsOffset: nat)

  datatype MipDesc = MipDesc(width: nat, height: nat, offset: nat)

  /** What the decoder yields: dimensions and row-major pixels. */
  datatype Decoded = Decoded(width: nat, height: nat, pixels: seq<Rgba>)

  /** A decoder result: the pixel count matches and stays within the decoder's limit. */
  predicate WellFormed(d: Decoded) {
    |d.pixels| == d.width * d.height && d.width * d.height < DecoderPixelLimit
  }

  /** The allocated blob, held as its descriptors and its pixel words. */
  class ImageBlob {
    var byteSize: nat
    var header: ImageDesc
    var mip: MipDesc
    const pixels: array<bv32>

    constructor (byteSize: nat, header: ImageDesc, mip: MipDesc, pixels: array<bv32>)
      ensures this.byteSize == byteSize && this.header == header && this.mip == mip && this.pixels == pixels
    {
      this.byteSize := byteSize;
      this.header := header;
      this.mip := mip;
      this.pixels := pixels;
    }
  }

  class Asset {
    var assetType: nat
    var size: nat
    var data: Option<ImageBlob>

    constructor ()
      ensures assetType == 0 && size == 0 && data == None
    {
      assetType := 0;
      size := 0;
      data := None;
    }
  }

  /** Writes the packed pixel of each cell (y, x) to index y*width + x, row by
      row; afterwards the buffer holds exactly the packed source pixels. */
  method PackPixels(out: array<bv32>, src: seq<Rgba>, width: nat, height: nat)
    requires out.Length == |src| == width * height
    modifies out
    ensures out[..] == PackAll(src)
  {
    var y := 0;
    ghost var row := 0;
    while y < height
      invariant 0 <= y <= height && row == y * width && row <= |src|
      invariant forall k :: 0 <= k < row ==> out[k] == Pack(src[k])
    {
      var x := 0;
      while x < width
        invariant 0 <= x <= width && row + x <= |src|
        invariant forall k :: 0 <= k < row + x ==> out[k] == Pack(src[k])
      {
        var i := y * width + x;
        RowMajorBelow(width, height, y, x);
        assert i < out.Length;
        out[i] := Pack(src[i]);
        x := x + 1;
      }
      y := y + 1;
      row := row + width;
    }
    assert row == |src|;
    assert out[..] == PackAll(src);
  }

  /** Converts the decoder's result into an asset. When decoding failed the
      asset is untouched and the unsigned -1 is returned; otherwise a blob with
      one mip level holding the packed pixels becomes the asset's data, tagged
      'IMG' with the blob's size, and 0 is returned. */
  method ConvertAssetImage(asset: Asset, decoded: Option<Decoded>) returns (status: nat)
    requires decoded.Some? ==> WellFormed(decoded.value)
    modifies asset
    ensures decoded.None? ==> status == Failure && asset.assetType == old(asset.assetType) &&
                              asset.size == old(asset.size) && asset.data == old(asset.data)
    ensures decoded.Some? ==> (status == Success && asset.assetType == ImageAssetType && asset.data.Some? &&
      var d, blob := decoded.value, asset.data.value;
      fresh(blob) && fresh(blob.pixels) &&
      asset.size == blob.byteSize == ExactSize(d.width * d.height, 1) &&
      blob.header == ImageDesc(d.height, d.width, 1, MipOffset) &&
      blob.mip == MipDesc(d.width, d.height, 0) &&
      blob.pixels[..] == PackAll(d.pixels))
  {
    if decoded.None? {
      return Failure;
    }
    var d := decoded.value;
    var width, height := d.width, d.height;
    var totalPixelCount := (width * height) % Uint32Limit;
    var mips := 1;
    var totalByteSize := (ImageDescSize + totalPixelCount * PixelSize + mips * MipDescSize) % Uint32Limit;
    var image := ImageDesc(height, width, mips, MipOffset);
    var mip0 := MipDesc(width, height, 0);
    var out := new bv32[totalPixelCount];
    PackPixels(out, d.pixels, width, height);
    var blob := new ImageBlob(totalByteSize, image, mip0, out);
    asset.assetType := ImageAssetType;
    asset.size := ImageDescSize + mips * MipDescSize + (totalPixelCount * 4) % Uint32Limit;
    asset.data := Some(blob);
    SizesAgree(width, height);
    status := Success;
  }
}
