/**
  The Texture2D object of index.js: fields updated in place, shape and wrap as
  arrays written element by element, and GL calls issued on the recorded
  context. Every method is proved to leave exactly the state, and to issue
  exactly the commands, that the matching function of TextureSpec gives for the
  state it started from.
 */
module Texture {
  import opened Outcomes
  import opened WebGL
  import opened Formats
  import Spec = TextureSpec

  class Texture2D {
    var gl: Context?
    var texture: Handle?
    var hasContent: bool
    var pixelType: ElementType
    const shape: array<nat>
    var format: PixelFormat
    var minFilter: int
    var magFilter: int
    const wrap: array<int>
    var loadedWith: Option<Image>
    var isLoaded: bool

    /** Shape holds three numbers, wrap two; context and handle are set together. */
    ghost predicate Valid()
      reads this
    {
      shape.Length == 3 && wrap.Length == 2 && (gl == null <==> texture == null)
    }

    /** The fields as a TextureState value. */
    ghost function State(): (s: Spec.TextureState)
      reads this, shape, wrap
      requires Valid()
      ensures s.Owned()
    {
      Spec.TextureState(gl, texture, hasContent, pixelType,
                        Spec.Shape(shape[0], shape[1], shape[2]), format,
                        minFilter, magFilter, wrap[0], wrap[1], loadedWith, isLoaded)
    }

    /** `Texture2D()`: unbound, no content, the literal 6048 as format, NEAREST
        filters, CLAMP_TO_EDGE wrap, nothing pending, and isLoaded true. */
    constructor ()
      ensures Valid() && fresh(shape) && fresh(wrap)
      ensures State() == Spec.Initial()
    {
      gl := null;
      texture := null;
      hasContent := false;
      pixelType := UnsignedByte;
      shape := new nat[3](_ => 0);
      format := Code(Spec.InitialFormatCode);
      minFilter := Spec.Nearest;
      magFilter := Spec.Nearest;
      wrap := new int[2](_ => Spec.ClampToEdge);
      loadedWith := None;
      isLoaded := true;
    }

    /** `Texture2D.fromImage(img)`: a new texture whose image has not loaded yet.
        The loader is started outside this model; its success callback is
        OnImageLoaded. */
    static method FromImage() returns (t: Texture2D)
      ensures fresh(t) && fresh(t.shape) && fresh(t.wrap) && t.Valid()
      ensures t.State() == Spec.FromImage()
    {
      t := new Texture2D();
      t.isLoaded := false;
    }

    /** The success callback fromImage hands the loader. */
    method OnImageLoaded(img: Image)
      requires Valid()
      modifies this
      ensures Valid() && State() == Spec.ImageLoaded(old(State()), img).after
    {
      isLoaded := true;
      loadedWith := Some(img);
    }

    /** The context a bind call uses: the one passed, else the recorded one. */
    function Target(ctx: Context?): Context?
      reads this
    {
      if ctx != null then ctx else gl
    }

    /** bind(gl, location); `unit` is the location, 0 when omitted. */
    method Bind(ctx: Context?, unit: nat) returns (r: Outcome)
      requires Valid() && (texture != null || ctx != null)
      modifies this, shape, wrap, Target(ctx)
      ensures Valid() && texture != null
      ensures old(texture) == null ==> fresh(texture)
      ensures var e := Spec.Bind(old(State()), ctx, unit, texture);
              var t := old(Target(ctx));
              && r == e.outcome && State() == e.after
              && t.commands == old(t.commands) + e.issued
    {
      var g := if ctx != null then ctx else gl;
      if ctx != null && gl != null && gl != ctx {
        return Fail(ContextMismatch);
      }
      ghost var s0 := State();
      if texture == null {
        gl := g;
        texture := g.NewTexture();
        g.Issue(ActiveTexture(unit));
        g.Issue(BindTexture(texture));
        g.Issue(TexImage2D(Rgba, 1, 1, Rgba, UnsignedByte, Spec.Placeholder));
      } else {
        g.Issue(ActiveTexture(unit));
        g.Issue(BindTexture(texture));
      }
      ghost var head := Spec.BindHead(s0, unit, texture);
      ghost var s1 := State();
      assert g.commands == old(g.commands) + head;
      assert s1 == if s0.texture == null then s0.(gl := g, texture := texture) else s0;
      ghost var st := Spec.Settle(s1, head);
      if loadedWith.Some? {
        ghost var fl := Spec.Flush(s1, loadedWith.value);
        FlushPending();
        AppendAssoc(old(g.commands), head, fl.issued);
      }
      assert State() == st.after && g.commands == old(g.commands) + st.issued;
      r := Pass;
    }

    /** The pending-image block of bind: upload the pending image, re-apply the
        stored filters and wrap, and clear the pending slot. */
    method FlushPending()
      requires Valid() && gl != null && loadedWith.Some?
      modifies this, shape, wrap, gl
      ensures Valid() && gl == old(gl)
      ensures var e := Spec.Flush(old(State()), old(loadedWith.value));
              State() == e.after && gl.commands == old(gl.commands) + e.issued
    {
      ghost var s0 := State();
      var img := loadedWith.value;
      ghost var e := Spec.UploadElement(s0, img);
      UploadElement(img);
      ghost var p := Spec.Reapply(e.after);
      Reapply();
      AppendAssoc(old(gl.commands), e.issued, p.issued);
      loadedWith := None;
    }

    /** The setFilters and setWrapping calls with the stored values that bind
        and init make. */
    method Reapply()
      requires Valid() && gl != null
      modifies this, wrap, gl
      ensures Valid() && gl == old(gl)
      ensures var e := Spec.Reapply(old(State()));
              State() == e.after && gl.commands == old(gl.commands) + e.issued
    {
      ghost var f := Spec.SetFilters(State(), minFilter, Some(magFilter));
      SetFilters(minFilter, Some(magFilter));
      ghost var w := Spec.SetWrapping(f.after, f.after.wrapS, Some(f.after.wrapT));
      SetWrapping(wrap[0], Some(wrap[1]));
      AppendAssoc(old(gl.commands), f.issued, w.issued);
    }

    /** init(shape, DataType): `kind` is what DataType builds (Uint8Array when omitted). */
    method Init(dims: seq<nat>, kind: DataKind) returns (r: Outcome)
      requires Valid() && gl != null && |dims| >= 2
      modifies this, shape, wrap, gl
      ensures Valid() && gl == old(gl)
      ensures var e := Spec.Init(old(State()), dims, kind);
              r == e.outcome && State() == e.after && gl.commands == old(gl.commands) + e.issued
    {
      var size: nat := 1;
      size := size * dims[0];
      size := size * dims[1];
      size := size * (if |dims| > 2 then dims[2] else 4);
      ghost var u := Spec.UploadData(State(), Data(kind, size), dims);
      r := UploadData(Data(kind, size), dims);
      if r.Fail? {
        return;
      }
      ghost var p := Spec.Reapply(u.after);
      Reapply();
      AppendAssoc(old(gl.commands), u.issued, p.issued);
    }

    /** setFilters(min, mag); `mag` is None when the call had one argument. */
    method SetFilters(min: int, mag: Option<int>)
      requires Valid() && (Spec.PairApplies(min, mag) ==> gl != null)
      modifies this, gl
      decreases if mag.None? then 1 else 0
      ensures Valid() && gl == old(gl) && texture == old(texture)
      ensures var e := Spec.SetFilters(old(State()), min, mag);
              State() == e.after && (gl != null ==> gl.commands == old(gl.commands) + e.issued)
    {
      if !Spec.Truthy(min) && !(mag.Some? && Spec.Truthy(mag.value)) {
        return;
      }
      if mag.None? {
        SetFilters(min, Some(min));
        return;
      }
      if Spec.Truthy(min) {
        gl.Issue(TexParameteri(MinFilter, min));
      }
      if Spec.Truthy(mag.value) {
        gl.Issue(TexParameteri(MagFilter, mag.value));
      }
      minFilter := min;
      magFilter := mag.value;
    }

    /** setWrapping(x, y); `y` is None when the call had one argument. */
    method SetWrapping(x: int, y: Option<int>)
      requires Valid() && (Spec.PairApplies(x, y) ==> gl != null)
      modifies wrap, gl
      decreases if y.None? then 1 else 0
      ensures Valid()
      ensures var e := Spec.SetWrapping(old(State()), x, y);
              State() == e.after && (gl != null ==> gl.commands == old(gl.commands) + e.issued)
    {
      if !Spec.Truthy(x) && !(y.Some? && Spec.Truthy(y.value)) {
        return;
      }
      if y.None? {
        SetWrapping(x, Some(x));
        return;
      }
      if Spec.Truthy(x) {
        gl.Issue(TexParameteri(WrapS, x));
      }
      if Spec.Truthy(y.value) {
        gl.Issue(TexParameteri(WrapT, y.value));
      }
      wrap[0] := x;
      wrap[1] := y.value;
    }

    /** uploadData(data, shape). */
    method UploadData(data: Data, dims: seq<nat>) returns (r: Outcome)
      requires Valid() && gl != null && |dims| >= 2
      modifies this, shape, wrap, gl
      ensures Valid() && gl == old(gl)
      ensures var e := Spec.UploadData(old(State()), data, dims);
              r == e.outcome && State() == e.after && gl.commands == old(gl.commands) + e.issued
    {
      ghost var b := Spec.Bind(State(), null, 0, texture);
      var _ := Bind(null, 0);
      ghost var u := Spec.Upload(State(), gl.floatTextures, data, dims);
      r := Upload(data, dims);
      AppendAssoc(old(gl.commands), b.issued, u.issued);
    }

    /** The part of uploadData after its bind: store the shape, pick the format
        and type, check float support and upload the data. */
    method Upload(data: Data, dims: seq<nat>) returns (r: Outcome)
      requires Valid() && gl != null && |dims| >= 2
      modifies this, shape, gl
      ensures Valid() && gl == old(gl)
      ensures var e := Spec.Upload(old(State()), gl.floatTextures, data, dims);
              r == e.outcome && State() == e.after && gl.commands == old(gl.commands) + e.issued
    {
      shape[0] := dims[0];
      shape[1] := dims[1];
      shape[2] := if |dims| > 2 then dims[2] else 4;
      var f := GetFormat(shape[2]);
      if f.Err? {
        return Fail(f.error);
      }
      format := f.value;
      var pixels := data;
      if data.kind == PlainArray {
        pixels := data.(kind := Uint8Array);
      }
      if pixels.kind == Float32Array {
        pixelType := Float;
        if !gl.floatTextures {
          return Fail(FloatTexturesUnsupported);
        }
      } else {
        pixelType := UnsignedByte;
      }
      IssueFullUpload(pixels);
      r := Pass;
    }

    /** The pixelStorei and texImage2D calls of uploadData. */
    method IssueFullUpload(pixels: Data)
      requires Valid() && gl != null
      modifies gl
      ensures gl.commands == old(gl.commands) + Spec.FullUpload(State(), pixels)
    {
      gl.Issue(PixelStorei(UnpackAlignment(shape[2])));
      gl.Issue(PixelStorei(UnpackPremultiplyAlpha(false)));
      gl.Issue(PixelStorei(UnpackFlipY(false)));
      gl.Issue(TexImage2D(format, shape[0], shape[1], format, pixelType, pixels));
    }

    /** uploadElement(el). */
    method UploadElement(img: Image)
      requires Valid() && gl != null
      modifies this, shape, gl
      ensures Valid() && gl == old(gl) && texture == old(texture)
      ensures var e := Spec.UploadElement(old(State()), img);
              State() == e.after && gl.commands == old(gl.commands) + e.issued
    {
      shape[0] := if img.naturalWidth != 0 then img.naturalWidth else img.width;
      shape[1] := if img.naturalHeight != 0 then img.naturalHeight else img.height;
      shape[2] := 4;
      var f := GetFormat(shape[2]);
      format := f.value;
      gl.Issue(PixelStorei(UnpackAlignment(shape[2])));
      gl.Issue(PixelStorei(UnpackPremultiplyAlpha(false)));
      gl.Issue(PixelStorei(UnpackFlipY(true)));
      gl.Issue(TexImageSource(format, format, pixelType, img));
    }

    /** insertData(data, coord, shape), with coord = (x, y). */
    method InsertData(data: Data, x: int, y: int, dims: seq<nat>) returns (r: Outcome)
      requires Valid() && |dims| >= 2
      requires data.kind == PlainArray || dims[0] * dims[1] * shape[2] == data.length ==> gl != null
      modifies this, shape, wrap, gl
      ensures Valid() && gl == old(gl)
      ensures var e := Spec.InsertData(old(State()), data, x, y, dims);
              r == e.outcome && State() == e.after &&
              (gl != null ==> gl.commands == old(gl.commands) + e.issued)
    {
      var pixels := data;
      if data.kind == PlainArray {
        pixels := data.(kind := if pixelType == Float then Float32Array else Uint8Array);
      }
      var expected := dims[0] * dims[1] * shape[2];
      if expected != pixels.length {
        return Fail(SizeMismatch(expected, pixels.length));
      }
      r := Insert(pixels, x, y, dims);
    }

    /** insertData once the length check has passed: bind, then upload `pixels`
        into the rectangle at (x, y). */
    method Insert(pixels: Data, x: int, y: int, dims: seq<nat>) returns (r: Outcome)
      requires Valid() && gl != null && |dims| >= 2
      modifies this, shape, wrap, gl
      ensures Valid() && gl == old(gl)
      ensures var e := Spec.Insert(old(State()), pixels, x, y, dims);
              r == e.outcome && State() == e.after && gl.commands == old(gl.commands) + e.issued
    {
      ghost var b := Spec.Bind(State(), null, 0, texture);
      var _ := Bind(null, 0);
      ghost var tail := Spec.SubImage(State(), x, y, dims, pixels);
      IssueSubImage(pixels, x, y, dims);
      AppendAssoc(old(gl.commands), b.issued, tail);
      r := Pass;
    }

    /** The pixelStorei and texSubImage2D calls of insertData. */
    method IssueSubImage(pixels: Data, x: int, y: int, dims: seq<nat>)
      requires Valid() && gl != null && |dims| >= 2
      modifies gl
      ensures gl.commands == old(gl.commands) + Spec.SubImage(State(), x, y, dims, pixels)
    {
      gl.Issue(PixelStorei(UnpackAlignment(shape[2])));
      gl.Issue(PixelStorei(UnpackPremultiplyAlpha(false)));
      gl.Issue(PixelStorei(UnpackFlipY(false)));
      gl.Issue(TexSubImage2D(x, y, dims[0], dims[1], format, pixelType, pixels));
    }
  }
}
