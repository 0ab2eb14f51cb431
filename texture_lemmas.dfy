/**
  Properties of the texture over sequences of calls: a frame loop that binds
  again and again, and an arbitrary interleaving of every public operation with
  the image loader's callback.
 */
module TextureLemmas {
  import opened Outcomes
  import opened WebGL
  import opened TextureSpec

  /** One call on the texture, or the loader's success callback. */
  datatype Event =
    | BindCall(ctx: Context?, unit: nat, created: Handle)
    | InitCall(dims: seq<nat>, kind: DataKind)
    | SetFiltersCall(min: int, mag: Option<int>)
    | SetWrappingCall(wrapX: int, wrapY: Option<int>)
    | UploadDataCall(data: Data, dims: seq<nat>)
    | UploadElementCall(img: Image)
    | InsertDataCall(data: Data, x: int, y: int, dims: seq<nat>)
    | ImageLoadedCall(img: Image)

  /** Whether the call can run in state `s` without dereferencing a null context. */
  predicate Enabled(s: TextureState, ev: Event)
  {
    match ev
    case BindCall(ctx, _, _) => s.texture != null || ctx != null
    case InitCall(dims, _) => s.gl != null && |dims| >= 2
    case SetFiltersCall(min, mag) => PairApplies(min, mag) ==> s.gl != null
    case SetWrappingCall(x, y) => PairApplies(x, y) ==> s.gl != null
    case UploadDataCall(_, dims) => s.gl != null && |dims| >= 2
    case UploadElementCall(_) => s.gl != null
    case InsertDataCall(data, _, _, dims) =>
      |dims| >= 2 && (data.kind == PlainArray || ExpectedLength(s, dims) == data.length ==> s.gl != null)
    case ImageLoadedCall(_) => true
  }

  /** The effect of one call. */
  function Apply(s: TextureState, ev: Event): (r: Effect)
    requires s.Owned() && Enabled(s, ev)
    ensures Lifecycle(s, r)
  {
    match ev
    case BindCall(ctx, unit, created) => Bind(s, ctx, unit, created)
    case InitCall(dims, kind) => Init(s, dims, kind)
    case SetFiltersCall(min, mag) => SetFilters(s, min, mag)
    case SetWrappingCall(x, y) => SetWrapping(s, x, y)
    case UploadDataCall(data, dims) => UploadData(s, data, dims)
    case UploadElementCall(img) => UploadElement(s, img)
    case InsertDataCall(data, x, y, dims) => InsertData(s, data, x, y, dims)
    case ImageLoadedCall(img) => ImageLoaded(s, img)
  }

  /** The final state and the whole command log of a caller that makes the calls
      in order, catching what they throw and carrying on with the state they
      leave; the run stops at a call that would dereference a null context. */
  datatype Trace = Trace(final: TextureState, log: seq<Command>)

  function Run(s: TextureState, evs: seq<Event>): Trace
    requires s.Owned()
    decreases |evs|
  {
    if evs == [] || !Enabled(s, evs[0]) then Trace(s, [])
    else
      var e := Apply(s, evs[0]);
      var rest := Run(e.after, evs[1..]);
      Trace(rest.final, e.issued + rest.log)
  }

  /** Whatever happens, context and handle stay paired. */
  lemma {:induction false} RunKeepsOwnership(s: TextureState, evs: seq<Event>)
    requires s.Owned()
    ensures Run(s, evs).final.Owned()
    decreases |evs|
  {
    if evs != [] && Enabled(s, evs[0]) {
      RunKeepsOwnership(Apply(s, evs[0]).after, evs[1..]);
    }
  }

  /** The first context wins: once recorded, neither the context nor the handle
      ever changes again. */
  lemma {:induction false} RunKeepsFirstContext(s: TextureState, evs: seq<Event>)
    requires s.Owned() && s.gl != null
    ensures Run(s, evs).final.gl == s.gl && Run(s, evs).final.texture == s.texture
    decreases |evs|
  {
    if evs != [] && Enabled(s, evs[0]) {
      RunKeepsFirstContext(Apply(s, evs[0]).after, evs[1..]);
    }
  }

  /** The handle is created lazily and once: createTexture appears in the log of
      any run exactly once if the run took the texture from unbound to bound,
      and never otherwise. */
  lemma {:induction false} RunCreatesHandleOnce(s: TextureState, evs: seq<Event>)
    requires s.Owned()
    ensures Count(Run(s, evs).log, IsCreate) ==
              (if s.texture == null && Run(s, evs).final.texture != null then 1 else 0)
    decreases |evs|
  {
    if evs != [] && Enabled(s, evs[0]) {
      var e := Apply(s, evs[0]);
      RunCreatesHandleOnce(e.after, evs[1..]);
      CountAppend(e.issued, Run(e.after, evs[1..]).log, IsCreate);
      if e.after.texture != null {
        RunKeepsFirstContext(e.after, evs[1..]);
      }
    }
  }

  /** No sequence of calls ever sets hasContent. */
  lemma {:induction false} RunNeverSetsHasContent(s: TextureState, evs: seq<Event>)
    requires s.Owned()
    ensures Run(s, evs).final.hasContent == s.hasContent
    decreases |evs|
  {
    if evs != [] && Enabled(s, evs[0]) {
      RunNeverSetsHasContent(Apply(s, evs[0]).after, evs[1..]);
    }
  }

  /** A frame loop: bind on each of `units` in turn, with the same context,
      stopping at the first throw. */
  function BindMany(s: TextureState, ctx: Context?, units: seq<nat>, created: Handle): Effect
    requires s.Owned() && (s.texture != null || ctx != null)
    decreases |units|
  {
    if units == [] then Effect(Pass, s, [])
    else
      var e := Bind(s, ctx, units[0], created);
      if e.outcome.Fail? then e
      else
        var rest := BindMany(e.after, ctx, units[1..], created);
        Effect(rest.outcome, rest.after, e.issued + rest.issued)
  }

  /** Binding again and again with the recorded context (or none): no bind
      throws, the handle is created only if there was none and then only once,
      and a pending image is uploaded by the first bind and by no later one. */
  lemma {:induction false} RepeatedBindUploadsPendingOnce(
    s: TextureState, ctx: Context?, units: seq<nat>, created: Handle)
    requires s.Owned() && (s.texture != null || ctx != null)
    requires !Mismatch(s, ctx)
    requires units != []
    ensures var r := BindMany(s, ctx, units, created);
            && r.outcome == Pass
            && r.after.gl == (if s.gl != null then s.gl else ctx)
            && r.after.texture == (if s.texture != null then s.texture else created)
            && r.after.loadedWith.None?
            && Count(r.issued, IsCreate) == (if s.texture == null then 1 else 0)
            && Count(r.issued, IsElementUpload) == (if s.loadedWith.Some? then 1 else 0)
    decreases |units|
  {
    var e := Bind(s, ctx, units[0], created);
    if units[1..] != [] {
      RepeatedBindUploadsPendingOnce(e.after, ctx, units[1..], created);
      var rest := BindMany(e.after, ctx, units[1..], created);
      CountAppend(e.issued, rest.issued, IsCreate);
      CountAppend(e.issued, rest.issued, IsElementUpload);
    } else {
      assert e.issued + [] == e.issued;
    }
  }

  /** A different context never takes over: binding a bound texture with any
      other context throws and leaves state and log untouched, however many
      times it is tried. */
  lemma OtherContextAlwaysRejected(
    s: TextureState, other: Context, units: seq<nat>, created: Handle)
    requires s.Owned() && s.gl != null && other != s.gl && units != []
    ensures BindMany(s, other, units, created) == Effect(Fail(ContextMismatch), s, [])
  {
  }

  /** fromImage, the loader reporting a 10x8 image, then bind: the texture takes
      the image's size with four channels, nothing stays pending, the image is
      uploaded once, and hasContent stays false. */
  lemma LoadedImageScenario(ctx: Context, created: Handle)
    ensures var loaded := ImageLoaded(FromImage(), Image(10, 8, 0, 0)).after;
            var r := Bind(loaded, ctx, 0, created);
            && !FromImage().isLoaded && loaded.isLoaded
            && r.outcome == Pass
            && r.after.shape == Shape(10, 8, 4) && r.after.format == Rgba
            && r.after.loadedWith.None?
            && Count(r.issued, IsElementUpload) == 1
            && !r.after.hasContent
  {
  }

  /** A new texture, bound and then initialised to 2x2: four channels, RGBA,
      a handle, and the default filters and wrap. */
  lemma InitScenario(ctx: Context, created: Handle)
    ensures var b := Bind(Initial(), ctx, 0, created);
            var r := Init(b.after, [2, 2], Uint8Array);
            && r.outcome == Pass
            && r.after.shape == Shape(2, 2, 4) && r.after.format == Rgba
            && r.after.texture == created
            && r.after.minFilter == Nearest && r.after.magFilter == Nearest
            && r.after.wrapS == ClampToEdge && r.after.wrapT == ClampToEdge
  {
  }

  /** A float upload on a context without the extension throws, after having
      set the type to FLOAT. */
  lemma FloatWithoutExtensionScenario(ctx: Context, created: Handle)
    requires !ctx.floatTextures
    ensures var b := Bind(Initial(), ctx, 0, created);
            var r := UploadData(b.after, Data(Float32Array, 16), [4, 4, 1]);
            && r.outcome == Fail(FloatTexturesUnsupported)
            && r.after.pixelType == Float
            && r.after.shape == Shape(4, 4, 1) && r.after.format == Luminance
  {
  }

  /** An upload with three channels throws, but the new shape is already stored. */
  lemma InvalidChannelsKeepShape(ctx: Context, created: Handle)
    ensures var b := Bind(Initial(), ctx, 0, created);
            var r := UploadData(b.after, Data(Uint8Array, 12), [2, 2, 3]);
            && r.outcome == Fail(InvalidChannelCount(3))
            && r.after.shape == Shape(2, 2, 3)
  {
  }
}
