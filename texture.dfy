// Sources/Texture.cpp: a decoded image, its mip-chain length and the release of
// its CPU-side pixels once they have been uploaded.
module Textures {
  import opened Common

  /** What the image decoder hands back for a file: its size, its channel count and the
      decoded bytes (the decoder itself is not part of this model). */
  datatype DecodedImage = DecodedImage(width: nat, height: nat, channel: nat, data: seq<byte>)

  /** Number of binary digits of n: floor(log2(n)) + 1 for n >= 1. */
  function BitLength(n: nat): (r: nat)
    ensures n >= 1 ==> r >= 1 && Pow2(r - 1) <= n < Pow2(r)
    ensures r <= n
  {
    if n == 0 then 0 else 1 + BitLength(n / 2)
  }

  /** The mip-chain length the texture constructor computes. */
  function MipLevels(width: nat, height: nat): (r: nat)
    requires Max(width, height) >= 1
    ensures r >= 1 && Pow2(r - 1) <= Max(width, height) < Pow2(r)
  {
    BitLength(Max(width, height))
  }

  /** Halving the larger side L-1 times leaves exactly one texel. */
  lemma LastMipIsOneTexel(width: nat, height: nat)
    requires Max(width, height) >= 1
    ensures Max(width, height) / Pow2(MipLevels(width, height) - 1) == 1
  {
    var n := Max(width, height);
    var p := Pow2(MipLevels(width, height) - 1);
    QuotientOne(n, p);
  }

  lemma QuotientOne(n: nat, p: nat)
    requires 1 <= p <= n < 2 * p
    ensures n / p == 1
  {
    var q, r := n / p, n % p;
    assert n == q * p + r && 0 <= r < p;
  }

  /** MipLevels is monotone in the larger side: a bigger image never has a shorter chain. */
  lemma {:induction false} BitLengthMonotone(a: nat, b: nat)
    requires a <= b
    ensures BitLength(a) <= BitLength(b)
  {
    if a > 0 {
      BitLengthMonotone(a / 2, b / 2);
    }
  }

  class Texture {
    var image: Handle
    var imageView: Handle
    var memory: Handle
    var sampler: Handle

    const path: string
    const width: nat
    const height: nat
    const channel: nat
    const mipmapLevels: nat

    var pixels: seq<byte>

    /** Texture(path, desiredChannelCount): the decoder's output is kept as
        width*height*desiredChannelCount bytes (a uint32 product). */
    constructor (texturePath: string, desiredChannelCount: nat, decoded: DecodedImage)
      requires Max(decoded.width, decoded.height) >= 1
      requires Wrap32(decoded.width * decoded.height * desiredChannelCount) <= |decoded.data|
      ensures path == texturePath
      ensures width == decoded.width && height == decoded.height && channel == decoded.channel
      ensures mipmapLevels == MipLevels(decoded.width, decoded.height)
      ensures pixels == decoded.data[..Wrap32(decoded.width * decoded.height * desiredChannelCount)]
    {
      path := texturePath;
      width := decoded.width;
      height := decoded.height;
      channel := decoded.channel;
      pixels := decoded.data[..Wrap32(decoded.width * decoded.height * desiredChannelCount)];
      mipmapLevels := MipLevels(decoded.width, decoded.height);
    }

    /** Texture::FreeTexture: drop the CPU copy of the pixels; everything else stays. */
    method FreeTexture()
      modifies this
      ensures pixels == []
      ensures image == old(image) && imageView == old(imageView) && memory == old(memory) && sampler == old(sampler)
    {
      pixels := [];
    }
  }
}
