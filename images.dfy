/**
 * `hac::Image` (src/image.rs): a 2D or 3D texture whose size, format and
 * dimension are fixed at creation, and the read-back that strips the row
 * padding a texture-to-buffer copy requires.
 */
module Images {
  import opened Common
  import opened Wgpu

  /**
   * A texture-to-buffer copy must lay rows out at a pitch that is a multiple
   * of 256 bytes (the `bytesPerRow` rule of "validating GPUImageCopyBuffer"
   * in the WebGPU specification; `wgpu::COPY_BYTES_PER_ROW_ALIGNMENT`).
   */
  const COPY_BYTES_PER_ROW_ALIGNMENT: nat := 256

  // ------------------------------------------------------------ sample type

  /** What `textureLoad` returns for an image: floats, unsigned or signed integers. */
  datatype ImageSampleType = Float(filterable: bool) | Uint | Sint

  /** `From<ImageSampleType> for wgpu::TextureSampleType`. */
  function ToTextureSampleType(s: ImageSampleType): (t: TextureSampleType)
    ensures t.Float? <==> s.Float?
    ensures t.Uint? <==> s.Uint?
    ensures t.Sint? <==> s.Sint?
    ensures s.Float? ==> t.filterable == s.filterable
  {
    match s
    case Float(filterable) => TextureSampleType.Float(filterable)
    case Uint => TextureSampleType.Uint
    case Sint => TextureSampleType.Sint
  }

  /** The inverse of `ToTextureSampleType`; depth textures have no image sample type. */
  function FromTextureSampleType(t: TextureSampleType): Option<ImageSampleType> {
    match t
    case Float(filterable) => Some(ImageSampleType.Float(filterable))
    case Uint => Some(ImageSampleType.Uint)
    case Sint => Some(ImageSampleType.Sint)
    case Depth => None
  }

  /** The conversion loses nothing: it is undone by `FromTextureSampleType`, and is onto every non-depth type. */
  lemma SampleTypeRoundTrip(s: ImageSampleType, t: TextureSampleType)
    ensures FromTextureSampleType(ToTextureSampleType(s)) == Some(s)
    ensures FromTextureSampleType(t) == Some(s) <==> ToTextureSampleType(s) == t
  {
  }

  // ---------------------------------------------------------------- images

  /** `hac::ImageInfo`: the size and format of an image to create. */
  datatype ImageInfo = ImageInfo(size: Extent3d, format: TextureFormat)

  /** `hac::Image`: the texture, its default view, and the shape fixed at creation. */
  datatype Image = Image(texture: TextureHandle, view: TextureViewHandle, size: Extent3d, format: TextureFormat, dimension: TextureDimension)

  /** The texture descriptor an image is created from (label and usages left out). */
  datatype TextureDescriptor = TextureDescriptor(size: Extent3d, format: TextureFormat, dimension: TextureDimension, mipLevelCount: nat, sampleCount: nat)

  function DescriptorOf(image: Image): TextureDescriptor {
    TextureDescriptor(image.size, image.format, image.dimension, 1, 1)
  }

  /** `Image::new`'s choice of dimension: 2D exactly for a single layer, 3D otherwise. */
  function DimensionFor(size: Extent3d): (d: TextureDimension)
    ensures d == TextureDimension.D2 <==> size.depthOrArrayLayers == 1
    ensures d == TextureDimension.D3 <==> size.depthOrArrayLayers != 1
  {
    if size.depthOrArrayLayers == 1 then TextureDimension.D2 else TextureDimension.D3
  }

  /**
   * `Image::new`: an image of the requested size and format on the texture
   * (and its default view) the device creates for it.
   */
  function New(texture: TextureHandle, view: TextureViewHandle, info: ImageInfo): (image: Image)
    ensures image.size == info.size && image.format == info.format
    ensures image.dimension == TextureDimension.D2 <==> info.size.depthOrArrayLayers == 1
    ensures image.dimension == TextureDimension.D3 <==> info.size.depthOrArrayLayers != 1
    ensures image.texture == texture && image.view == view
  {
    Image(texture, view, info.size, info.format, DimensionFor(info.size))
  }

  /** `Image::empty_like`: a new texture with the same size, format and dimension as `original`. */
  function EmptyLike(original: Image, texture: TextureHandle, view: TextureViewHandle): (image: Image)
    ensures image.size == original.size && image.format == original.format && image.dimension == original.dimension
    ensures DescriptorOf(image) == DescriptorOf(original)
    ensures image.texture == texture && image.view == view
  {
    Image(texture, view, original.size, original.format, original.dimension)
  }

  /** An empty copy of a fresh image is a fresh image created from the same info. */
  lemma EmptyLikeOfNew(texture: TextureHandle, view: TextureViewHandle, info: ImageInfo, texture': TextureHandle, view': TextureViewHandle)
    ensures EmptyLike(New(texture, view, info), texture', view') == New(texture', view', info)
  {
  }

  // ------------------------------------------------------ read-back padding

  /** Bytes one row of texels takes when tightly packed. */
  function UnpaddedBytesPerRow(bytesPerPixel: nat, width: nat): nat {
    bytesPerPixel * width
  }

  /**
   * The row pitch of the staging buffer: the unpadded pitch rounded up to
   * the next multiple of 256.
   */
  function PaddedBytesPerRow(bytesPerPixel: nat, width: nat): (padded: nat)
    ensures padded % COPY_BYTES_PER_ROW_ALIGNMENT == 0
    ensures UnpaddedBytesPerRow(bytesPerPixel, width) <= padded < UnpaddedBytesPerRow(bytesPerPixel, width) + COPY_BYTES_PER_ROW_ALIGNMENT
    ensures UnpaddedBytesPerRow(bytesPerPixel, width) % COPY_BYTES_PER_ROW_ALIGNMENT == 0 ==> padded == UnpaddedBytesPerRow(bytesPerPixel, width)
  {
    var bytesPerRow := bytesPerPixel * width;
    var padding := (256 - bytesPerRow % 256) % 256;
    bytesPerRow + padding
  }

  /**
   * The staging buffer's byte size, `padded_bytes_per_row * height * size_of::<u8>()`:
   * room for every row of the image.
   */
  function StagingBufferSize(bytesPerPixel: nat, width: nat, height: nat): (size: nat)
    ensures UnpaddedBytesPerRow(bytesPerPixel, width) * height <= size
  {
    MulMonotonic(UnpaddedBytesPerRow(bytesPerPixel, width), PaddedBytesPerRow(bytesPerPixel, width), height);
    PaddedBytesPerRow(bytesPerPixel, width) * height * 1
  }

  /**
   * The staging buffer cut into rows of `padded` bytes (`chunks_exact`), each
   * row cut down to its first `unpadded` bytes, and the pieces concatenated.
   */
  function Unpad(staging: seq<byte>, padded: nat, unpadded: nat): seq<byte>
    requires 0 < padded && unpadded <= padded
    decreases |staging|
  {
    if |staging| < padded then []
    else staging[..unpadded] + Unpad(staging[padded..], padded, unpadded)
  }

  /** Row `r` of `s` when rows are `pitch` bytes apart: its first `width` bytes. */
  function Row(s: seq<byte>, pitch: nat, width: nat, r: nat): seq<byte>
    requires r * pitch + width <= |s|
  {
    s[r * pitch..r * pitch + width]
  }

  /** `rows` padded rows unpad to exactly `unpadded` bytes per row. */
  lemma {:induction false} UnpadLength(staging: seq<byte>, padded: nat, unpadded: nat, rows: nat)
    requires 0 < padded && unpadded <= padded && |staging| == rows * padded
    ensures |Unpad(staging, padded, unpadded)| == rows * unpadded
  {
    if rows > 0 {
      MulSucc(rows - 1, padded);
      MulSucc(rows - 1, unpadded);
      UnpadLength(staging[padded..], padded, unpadded, rows - 1);
    }
  }

  /**
   * Unpadding keeps rows apart: chunk `r` of the output, at a pitch of
   * `unpadded` bytes, is chunk `r` of the staging bytes cut to `unpadded`.
   */
  lemma {:induction false} UnpadChunks(staging: seq<byte>, padded: nat, unpadded: nat, r: nat)
    requires 0 < unpadded <= padded
    ensures Chunk(Unpad(staging, padded, unpadded), unpadded, unpadded, r) == Chunk(staging, padded, unpadded, r)
    decreases r
  {
    if |staging| >= padded {
      var head := staging[..unpadded];
      var rest := Unpad(staging[padded..], padded, unpadded);
      assert Unpad(staging, padded, unpadded) == head + rest;
      assert (head + rest)[..unpadded] == head;
      if r > 0 {
        assert (head + rest)[unpadded..] == rest;
        UnpadChunks(staging[padded..], padded, unpadded, r - 1);
      }
    }
  }

  /** Output row `r` is the first `unpadded` bytes of staging row `r`. */
  lemma {:induction false} UnpadAt(staging: seq<byte>, padded: nat, unpadded: nat, rows: nat, r: nat)
    requires 0 < unpadded <= padded && |staging| == rows * padded
    requires r < rows
    ensures r * unpadded + unpadded <= |Unpad(staging, padded, unpadded)|
    ensures r * padded + unpadded <= |staging|
    ensures Row(Unpad(staging, padded, unpadded), unpadded, unpadded, r) == Row(staging, padded, unpadded, r)
  {
    UnpadLength(staging, padded, unpadded, rows);
    RowInside(r, rows, padded, unpadded);
    RowInside(r, rows, unpadded, unpadded);
    UnpadChunks(staging, padded, unpadded, r);
    ChunkIsRow(staging, padded, unpadded, rows, r);
    ChunkIsRow(Unpad(staging, padded, unpadded), unpadded, unpadded, rows, r);
  }

  /**
   * Row `r` as `chunks_exact(pitch)` hands it out, cut to its first `width`
   * bytes; empty once the whole chunks run out.
   */
  function Chunk(s: seq<byte>, pitch: nat, width: nat, r: nat): seq<byte>
    requires 0 < pitch && width <= pitch
    decreases r
  {
    if |s| < pitch then []
    else if r == 0 then s[..width]
    else Chunk(s[pitch..], pitch, width, r - 1)
  }

  /** Within the buffer, the chunk-wise row is the row found by index arithmetic. */
  lemma {:induction false} ChunkIsRow(s: seq<byte>, pitch: nat, width: nat, rows: nat, r: nat)
    requires 0 < pitch && width <= pitch && |s| == rows * pitch && r < rows
    ensures r * pitch + width <= |s|
    ensures Chunk(s, pitch, width, r) == Row(s, pitch, width, r)
  {
    RowInside(r, rows, pitch, width);
    RowInside(r, rows, pitch, pitch);
    ChunkAt(s, pitch, width, r, r * pitch);
  }

  /** Helper for `ChunkIsRow`: row `r` of a whole chunk, found at offset `off = r * pitch`. */
  lemma {:induction false} ChunkAt(s: seq<byte>, pitch: nat, width: nat, r: nat, off: nat)
    requires 0 < pitch && width <= pitch && off == r * pitch && off + pitch <= |s|
    ensures Chunk(s, pitch, width, r) == s[off..off + width]
  {
    if r > 0 {
      MulSucc(r - 1, pitch);
      var tail := s[pitch..];
      ChunkAt(tail, pitch, width, r - 1, off - pitch);
      assert tail[off - pitch..off - pitch + width] == s[off..off + width];
    }
  }

  /**
   * Padding never reaches the output: two staging buffers of `rows` padded
   * rows that agree on the first `unpadded` bytes of every row unpad to the
   * same bytes, whatever their padding holds. (The bound on the row's end
   * holds for every `r < rows`, by `RowInside`; it is spelled out so that
   * `Row` is well defined without arithmetic.)
   */
  lemma {:induction false} UnpadIgnoresPadding(s1: seq<byte>, s2: seq<byte>, padded: nat, unpadded: nat, rows: nat)
    requires 0 < padded && unpadded <= padded && |s1| == |s2| == rows * padded
    requires forall r :: 0 <= r < rows && r * padded + unpadded <= |s1| ==>
      Row(s1, padded, unpadded, r) == Row(s2, padded, unpadded, r)
    ensures Unpad(s1, padded, unpadded) == Unpad(s2, padded, unpadded)
  {
    forall r: nat
      ensures Chunk(s1, padded, unpadded, r) == Chunk(s2, padded, unpadded, r)
    {
      if r < rows {
        ChunkIsRow(s1, padded, unpadded, rows, r);
        ChunkIsRow(s2, padded, unpadded, rows, r);
      } else {
        ChunkPastEnd(s1, padded, unpadded, rows, r);
        ChunkPastEnd(s2, padded, unpadded, rows, r);
      }
    }
    UnpadSameChunks(s1, s2, padded, unpadded);
  }

  /** Helper: past the last whole row, `chunks_exact` hands out nothing. */
  lemma {:induction false} ChunkPastEnd(s: seq<byte>, pitch: nat, width: nat, rows: nat, r: nat)
    requires 0 < pitch && width <= pitch && |s| == rows * pitch && rows <= r
    ensures Chunk(s, pitch, width, r) == []
  {
    if rows > 0 {
      MulSucc(rows - 1, pitch);
      ChunkPastEnd(s[pitch..], pitch, width, rows - 1, r - 1);
    }
  }

  /** Helper for `UnpadIgnoresPadding`: buffers with the same chunks unpad alike. */
  lemma {:induction false} UnpadSameChunks(s1: seq<byte>, s2: seq<byte>, padded: nat, unpadded: nat)
    requires 0 < padded && unpadded <= padded && |s1| == |s2|
    requires forall r: nat :: Chunk(s1, padded, unpadded, r) == Chunk(s2, padded, unpadded, r)
    ensures Unpad(s1, padded, unpadded) == Unpad(s2, padded, unpadded)
    decreases |s1|
  {
    if |s1| >= padded {
      assert Chunk(s1, padded, unpadded, 0) == Chunk(s2, padded, unpadded, 0);
      forall r: nat
        ensures Chunk(s1[padded..], padded, unpadded, r) == Chunk(s2[padded..], padded, unpadded, r)
      {
        assert Chunk(s1, padded, unpadded, r + 1) == Chunk(s2, padded, unpadded, r + 1);
      }
      UnpadSameChunks(s1[padded..], s2[padded..], padded, unpadded);
    }
  }

  /**
   * What the texture-to-buffer copy writes: each row of tightly packed
   * `pixels` followed by `padded - unpadded` bytes of padding (`fill`).
   */
  function Pad(pixels: seq<byte>, padded: nat, unpadded: nat, fill: byte): seq<byte>
    requires 0 < unpadded <= padded
    decreases |pixels|
  {
    if |pixels| < unpadded then []
    else pixels[..unpadded] + seq(padded - unpadded, _ => fill) + Pad(pixels[unpadded..], padded, unpadded, fill)
  }

  /** Unpadding undoes the padded copy: read-back returns the texture's bytes unchanged. */
  lemma {:induction false} UnpadPad(pixels: seq<byte>, padded: nat, unpadded: nat, rows: nat, fill: byte)
    requires 0 < unpadded <= padded && |pixels| == rows * unpadded
    ensures |Pad(pixels, padded, unpadded, fill)| == rows * padded
    ensures Unpad(Pad(pixels, padded, unpadded, fill), padded, unpadded) == pixels
  {
    if rows > 0 {
      MulSucc(rows - 1, padded);
      MulSucc(rows - 1, unpadded);
      var row := pixels[..unpadded] + seq(padded - unpadded, _ => fill);
      var rest := Pad(pixels[unpadded..], padded, unpadded, fill);
      UnpadPad(pixels[unpadded..], padded, unpadded, rows - 1, fill);
      var staging := Pad(pixels, padded, unpadded, fill);
      assert staging == row + rest;
      assert staging[..unpadded] == pixels[..unpadded];
      assert staging[padded..] == rest;
      assert pixels == pixels[..unpadded] + pixels[unpadded..];
    }
  }

  /** `dst[at..at + |src|] := src`, as `<[u8]>::copy_from_slice` does. */
  method CopyFromSlice(dst: array<byte>, at: nat, src: seq<byte>)
    requires at + |src| <= dst.Length
    modifies dst
    ensures dst[..at] == old(dst[..at])
    ensures dst[at..at + |src|] == src
    ensures dst[at + |src|..] == old(dst[at + |src|..])
  {
    var i := 0;
    while i < |src|
      invariant 0 <= i <= |src|
      invariant forall k :: 0 <= k < at ==> dst[k] == old(dst[k])
      invariant forall k :: at <= k < at + i ==> dst[k] == src[k - at]
      invariant forall k :: at + i <= k < dst.Length ==> dst[k] == old(dst[k])
    {
      dst[at + i] := src[i];
      i := i + 1;
    }
  }

  /**
   * The copy loop of `Image::read_to_vec`: `padded` cut with `chunks_exact`
   * into rows of `paddedBytesPerRow` bytes, `pixels` into rows of
   * `unpaddedBytesPerRow` bytes, and each pixel row filled from the start of
   * its padded row.
   */
  method CopyUnpaddedRows(padded: seq<byte>, pixels: array<byte>, paddedBytesPerRow: nat, unpaddedBytesPerRow: nat)
    requires 0 < unpaddedBytesPerRow <= paddedBytesPerRow
    requires pixels.Length == |Unpad(padded, paddedBytesPerRow, unpaddedBytesPerRow)|
    modifies pixels
    ensures pixels[..] == Unpad(padded, paddedBytesPerRow, unpaddedBytesPerRow)
  {
    var src, dst := 0, 0;
    assert padded[src..] == padded;
    while src + paddedBytesPerRow <= |padded|
      invariant src <= |padded|
      invariant dst <= pixels.Length
      invariant pixels[..dst] + Unpad(padded[src..], paddedBytesPerRow, unpaddedBytesPerRow)
             == Unpad(padded, paddedBytesPerRow, unpaddedBytesPerRow)
      decreases |padded| - src
    {
      ghost var before := pixels[..];
      UnpadStep(padded, src, paddedBytesPerRow, unpaddedBytesPerRow);
      CopyFromSlice(pixels, dst, padded[src..src + unpaddedBytesPerRow]);
      UnpadRowCopied(padded, src, paddedBytesPerRow, unpaddedBytesPerRow, before, pixels[..], dst);
      src, dst := src + paddedBytesPerRow, dst + unpaddedBytesPerRow;
    }
    assert pixels[..] == pixels[..dst];
  }

  /** Unpadding from `src` takes the row starting there and moves on by one padded row. */
  lemma {:induction false} UnpadStep(staging: seq<byte>, src: nat, padded: nat, unpadded: nat)
    requires 0 < padded && unpadded <= padded && src + padded <= |staging|
    ensures Unpad(staging[src..], padded, unpadded) == staging[src..src + unpadded] + Unpad(staging[src + padded..], padded, unpadded)
  {
    var rest := staging[src..];
    assert rest[..unpadded] == staging[src..src + unpadded];
    assert rest[padded..] == staging[src + padded..];
  }

  /**
   * One turn of the copy loop keeps its invariant: once the row starting at
   * `src` is copied to `dst`, the output prefix grows by exactly that row.
   */
  lemma {:induction false} UnpadRowCopied(padded: seq<byte>, src: nat, paddedBytesPerRow: nat, unpaddedBytesPerRow: nat,
                       before: seq<byte>, after: seq<byte>, dst: nat)
    requires 0 < paddedBytesPerRow && unpaddedBytesPerRow <= paddedBytesPerRow
    requires src + paddedBytesPerRow <= |padded| && dst + unpaddedBytesPerRow <= |before| == |after|
    requires before[..dst] + Unpad(padded[src..], paddedBytesPerRow, unpaddedBytesPerRow)
          == Unpad(padded, paddedBytesPerRow, unpaddedBytesPerRow)
    requires after[..dst] == before[..dst]
    requires after[dst..dst + unpaddedBytesPerRow] == padded[src..src + unpaddedBytesPerRow]
    ensures after[..dst + unpaddedBytesPerRow] + Unpad(padded[src + paddedBytesPerRow..], paddedBytesPerRow, unpaddedBytesPerRow)
         == Unpad(padded, paddedBytesPerRow, unpaddedBytesPerRow)
  {
    var row := padded[src..src + unpaddedBytesPerRow];
    var rest := Unpad(padded[src + paddedBytesPerRow..], paddedBytesPerRow, unpaddedBytesPerRow);
    UnpadStep(padded, src, paddedBytesPerRow, unpaddedBytesPerRow);
    assert after[..dst + unpaddedBytesPerRow] == before[..dst] + row by {
      assert after[..dst + unpaddedBytesPerRow] == after[..dst] + after[dst..dst + unpaddedBytesPerRow];
    }
    ConcatAssociative(before[..dst], row, rest);
  }

  /**
   * `Image::read_to_vec`, given the bytes of the staging buffer the texture
   * was copied into. `chunks_exact` panics on a zero chunk size, so rows must
   * not be empty; and the copy of a texture of several layers does not fit
   * the staging buffer of one layer, which the backend refuses.
   */
  method ReadToVec(image: Image, staging: seq<byte>) returns (pixels: seq<byte>)
    requires image.size.depthOrArrayLayers == 1
    requires UnpaddedBytesPerRow(Describe(image.format).blockSize, image.size.width) > 0
    requires |staging| == StagingBufferSize(Describe(image.format).blockSize, image.size.width, image.size.height)
    ensures |pixels| == Describe(image.format).blockSize * image.size.width * image.size.height
    ensures pixels == Unpad(staging, PaddedBytesPerRow(Describe(image.format).blockSize, image.size.width),
                            UnpaddedBytesPerRow(Describe(image.format).blockSize, image.size.width))
  {
    var bytesPerPixel := Describe(image.format).blockSize;
    var width, height := image.size.width, image.size.height;
    var paddedBytesPerRow := PaddedBytesPerRow(bytesPerPixel, width);
    var unpaddedBytesPerRow := bytesPerPixel * width;
    var out := new byte[unpaddedBytesPerRow * height](_ => 0);
    UnpadLength(staging, paddedBytesPerRow, unpaddedBytesPerRow, height);
    CopyUnpaddedRows(staging, out, paddedBytesPerRow, unpaddedBytesPerRow);
    pixels := out[..];
  }

  // ------------------------------------------------ creation from RGBA8 data

  /** `from_rgba8_image`'s choice of format: 8-bit RGBA read as floats, unsigned or signed integers. */
  function Rgba8Format(sampleType: ImageSampleType): (format: TextureFormat)
    ensures format == Rgba8Unorm <==> sampleType.Float?
    ensures format == Rgba8Uint <==> sampleType.Uint?
    ensures format == Rgba8Sint <==> sampleType.Sint?
  {
    match sampleType
    case Float(_) => Rgba8Unorm
    case Uint => Rgba8Uint
    case Sint => Rgba8Sint
  }

  /**
   * The chosen format reads back the requested kind of value, with exactly
   * the requested sample type unless a non-filterable float was asked for
   * (`Rgba8Unorm` is always filterable).
   */
  lemma Rgba8FormatSampleType(sampleType: ImageSampleType)
    ensures Describe(Rgba8Format(sampleType)).blockSize == 4
    ensures FromTextureSampleType(Describe(Rgba8Format(sampleType)).sampleType).Some?
    ensures sampleType != ImageSampleType.Float(false) ==>
      Describe(Rgba8Format(sampleType)).sampleType == ToTextureSampleType(sampleType)
  {
  }

  /** `NonZeroU32::new`. */
  function NonZeroU32(x: u32): Option<u32> {
    if x == 0 then None else Some(x)
  }

  /** `u32` multiplication as a release build performs it: modulo 2^32. */
  function WrappingMulU32(a: u32, b: u32): u32 {
    (a * b) % 0x1_0000_0000
  }

  /** A texture upload: `Image::write(data, layout, size)`. */
  datatype TextureWrite = TextureWrite(data: seq<byte>, layout: ImageDataLayout, size: Extent3d)

  /**
   * `Image::from_rgba8_image`: a single-layer 2D image of the RGBA8 format
   * matching `sampleType`, and the upload of `rgba` at 4 bytes per pixel.
   */
  function FromRgba8Image(texture: TextureHandle, view: TextureViewHandle, width: u32, height: u32,
                          rgba: seq<byte>, sampleType: ImageSampleType): (r: (Image, TextureWrite))
    ensures r.0.size == Extent3d(width, height, 1) && r.0.dimension == TextureDimension.D2
    ensures r.0.format == Rgba8Format(sampleType)
    ensures r.1.data == rgba && r.1.size == r.0.size
    ensures r.1.layout.offset == 0 && r.1.layout.rowsPerImage == None
    ensures width < 0x4000_0000 ==> r.1.layout.bytesPerRow == if width == 0 then None else Some(4 * width)
  {
    var size := Extent3d(width, height, 1);
    var format := Rgba8Format(sampleType);
    var image := Image(texture, view, size, format, TextureDimension.D2);
    var bytesPerPixel := 4;
    (image, TextureWrite(rgba, ImageDataLayout(0, NonZeroU32(WrappingMulU32(width, bytesPerPixel)), None), size))
  }

  /**
   * The rows an RGBA8 image is uploaded with are the rows `read_to_vec`
   * packs its output into: both are `4 * width` bytes.
   */
  lemma Rgba8UploadMatchesReadBack(texture: TextureHandle, view: TextureViewHandle, width: u32, height: u32,
                                   rgba: seq<byte>, sampleType: ImageSampleType)
    requires 0 < width < 0x4000_0000
    ensures var (image, write) := FromRgba8Image(texture, view, width, height, rgba, sampleType);
      write.layout.bytesPerRow == Some(UnpaddedBytesPerRow(Describe(image.format).blockSize, image.size.width))
  {
  }
}
