/** getFormat: the pixel format for a channel count. */
module Formats {
  import opened Outcomes
  import opened WebGL

  /** The number of channels of each format getFormat can return. */
  function ChannelCount(f: PixelFormat): (n: nat)
    requires !f.Code?
    ensures n in {1, 2, 4}
  {
    match f
    case Luminance => 1
    case LuminanceAlpha => 2
    case Rgba => 4
  }

  /** 1, 2 and 4 channels map to LUMINANCE, LUMINANCE_ALPHA and RGBA; any
      other count throws, naming the count. */
  function GetFormat(channels: int): (r: Result<PixelFormat>)
    ensures r.Ok? <==> channels in {1, 2, 4}
    ensures r.Ok? ==> !r.value.Code? && ChannelCount(r.value) == channels
    ensures r.Err? ==> r.error == InvalidChannelCount(channels)
  {
    if channels == 1 then Ok(Luminance)
    else if channels == 2 then Ok(LuminanceAlpha)
    else if channels == 4 then Ok(Rgba)
    else Err(InvalidChannelCount(channels))
  }

  /** getFormat is a left inverse of the channel count. */
  lemma GetFormatOfChannelCount(f: PixelFormat)
    requires !f.Code?
    ensures GetFormat(ChannelCount(f)) == Ok(f)
  {
  }
}
