/**
  The WebGL context as the texture sees it: an object with an identity, a log of
  the commands issued on it, and whether it offers floating-point textures.
  Numeric enum values belong to the WebGL implementation, so formats, pixel
  types and parameter names are symbolic here; the TEXTURE_2D target, mip
  level 0 and border 0 that every call passes are left implicit.
 */
module WebGL {

  /** The format argument of texImage2D and texSubImage2D. `Code` is a raw
      number that is none of the named formats. */
  datatype PixelFormat = Luminance | LuminanceAlpha | Rgba | Code(value: int)

  /** The type argument: UNSIGNED_BYTE or FLOAT. */
  datatype ElementType = UnsignedByte | Float

  /** The parameter names passed to texParameteri. */
  datatype TexParam = MinFilter | MagFilter | WrapS | WrapT

  /** The pixelStorei settings, each with its value. */
  datatype PixelStore =
    | UnpackAlignment(alignment: nat)
    | UnpackPremultiplyAlpha(premultiply: bool)
    | UnpackFlipY(flip: bool)

  /** What a pixel buffer is: a plain array, or a typed array of some kind. */
  datatype DataKind = PlainArray | Uint8Array | Float32Array | OtherTypedArray

  /** A pixel buffer, as its kind and its number of elements. */
  datatype Data = Data(kind: DataKind, length: nat)

  /** A decoded image element: its natural size and its display size. */
  datatype Image = Image(naturalWidth: nat, naturalHeight: nat, width: nat, height: nat)

  /** An opaque texture object handed out by createTexture. */
  class Handle {
    constructor () {}
  }

  /** One call made on the context. */
  datatype Command =
    | CreateTexture
    | ActiveTexture(unit: nat)
    | BindTexture(handle: Handle)
    | TexImage2D(internalFormat: PixelFormat, width: nat, height: nat,
                 format: PixelFormat, pixelType: ElementType, pixels: Data)
    | TexImageSource(internalFormat: PixelFormat, format: PixelFormat,
                     pixelType: ElementType, source: Image)
    | TexSubImage2D(x: int, y: int, width: nat, height: nat,
                    format: PixelFormat, pixelType: ElementType, pixels: Data)
    | TexParameteri(pname: TexParam, value: int)
    | PixelStorei(setting: PixelStore)

  predicate IsCreate(c: Command) { c.CreateTexture? }

  /** An upload of an image element (the six-argument texImage2D). */
  predicate IsElementUpload(c: Command) { c.TexImageSource? }

  predicate IsSubImage(c: Command) { c.TexSubImage2D? }

  /** The number of commands in `log` that satisfy `p`. */
  function Count(log: seq<Command>, p: Command -> bool): nat
  {
    if log == [] then 0 else (if p(log[0]) then 1 else 0) + Count(log[1..], p)
  }

  lemma {:induction false} CountAppend(a: seq<Command>, b: seq<Command>, p: Command -> bool)
    ensures Count(a + b, p) == Count(a, p) + Count(b, p)
  {
    if a == [] {
      assert a + b == b;
    } else {
      assert (a + b)[1..] == a[1..] + b;
      CountAppend(a[1..], b, p);
    }
  }

  lemma {:induction false} CountNone(log: seq<Command>, p: Command -> bool)
    requires forall i | 0 <= i < |log| :: !p(log[i])
    ensures Count(log, p) == 0
  {
    if log != [] {
      CountNone(log[1..], p);
    }
  }

  /** Appending to a log in two steps or in one gives the same log. */
  lemma AppendAssoc(a: seq<Command>, b: seq<Command>, c: seq<Command>)
    ensures (a + b) + c == a + (b + c)
  {
  }

  /** A WebGL rendering context, reduced to what the texture uses of it. */
  class Context {
    var commands: seq<Command>
    const floatTextures: bool

    constructor (floatTextures: bool)
      ensures this.floatTextures == floatTextures && commands == []
    {
      this.floatTextures := floatTextures;
      commands := [];
    }

    /** createTexture: a new handle, and the call recorded. */
    method NewTexture() returns (h: Handle)
      modifies this
      ensures fresh(h) && commands == old(commands) + [Command.CreateTexture]
    {
      h := new Handle();
      commands := commands + [Command.CreateTexture];
    }

    /** Any other call, recorded in order. */
    method Issue(c: Command)
      modifies this
      ensures commands == old(commands) + [c]
    {
      commands := commands + [c];
    }
  }
}
