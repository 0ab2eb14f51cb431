# Texture2D: a verified model of a lazily created WebGL texture

This project models the `Texture2D` resource of kindred-texture-2d. It is one 2-D
WebGL texture whose GPU handle is created on its first `bind`. Pixel data reaches
it in three ways:

- explicit uploads: `uploadData`, `insertData`, `init`;
- image elements: `uploadElement`;
- the success callback of `fromImage`, which leaves a decoded image pending until the next `bind`.

Filters and wrap modes are set with `setFilters` and `setWrapping`.

The WebGL context is an abstract object. It has an identity, a log of the commands
issued on it, and a flag that says whether it offers float textures. The commands
are `createTexture`, `activeTexture`, `bindTexture`, `texImage2D` (the buffer and the
element form), `texSubImage2D`, `texParameteri` and `pixelStorei`. Thrown errors are
`Fail` outcomes.

Modules, one file each:

- `Outcomes` (outcomes.dfy): `Option`, the four errors, `Outcome` and `Result`.
- `WebGL` (webgl.dfy): the context class and its command log, the `Handle` class,
  symbolic formats, types and parameters, and counting commands in a log.
- `Formats` (formats.dfy): `getFormat`.
- `TextureSpec` (texture_spec.dfy): the texture's fields as a value. Each operation
  is a function that returns an `Effect`: whether the call threw, the state it left
  behind (partial writes included) and the commands it issued, in order.
  `Lifecycle` is the invariant every operation keeps:
  - context and handle are set together;
  - the first context and its handle are never replaced;
  - `createTexture` is issued exactly when the handle appears;
  - nothing sets `hasContent`.
- `Texture` (texture.dfy): the class `Texture2D`. Its fields are updated in place;
  `shape` and `wrap` are arrays written element by element. Each method is proved to
  leave exactly the state, and append exactly the commands, that the matching
  `TextureSpec` function gives.
- `TextureLemmas` (texture_lemmas.dfy): properties of sequences of calls. These are
  a frame loop that binds repeatedly, and any interleaving of all operations with
  the loader callback.

In these places the code does something other than one might expect, and the model follows the code:

- Nothing sets `hasContent` after the constructor (index.js:17). A bind that flushes
  an image does not make it true.
- `uploadData` sets the type to FLOAT before the float-extension check
  (index.js:108-112). A failed float upload therefore leaves the type FLOAT, not byte.
- `uploadData` stores the new shape before `getFormat` can throw (index.js:97-100).
  An invalid channel count therefore stays in `shape`.
- `init` calls `uploadData`, which calls `bind()` with no context. Initialising a
  texture that was never bound dereferences a null context. So `init` requires a
  recorded context: bind first, then init.
- The initial format is the literal 6048 (index.js:3). WebGL's RGBA is 6408, so the
  model keeps it as the raw code `Code(6048)`, distinct from `Rgba`.
- The constructor sets `isLoaded` to true (index.js:25). Only `fromImage` sets it to false.
- `insertData` checks the length against the texture's stored channel count before
  it binds. If that bind flushes a pending image, shape and format change under it.
- The placeholder is a zero-filled `Uint8Array(4)` (index.js:6), that is one
  transparent black pixel, not an opaque one.

## Model

| member | source | states |
|---|---|---|
| Formats.GetFormat | index.js:183-193 | 1, 2 and 4 channels succeed and nothing else does. A success is a format with that channel count (LUMINANCE, LUMINANCE_ALPHA, RGBA). A failure is `InvalidChannelCount` naming the count. |
| Formats.GetFormatOfChannelCount | index.js:184-188 | getFormat maps each format's channel count back to that format. |
| WebGL.Context.NewTexture | index.js:35 | createTexture returns a fresh handle and is recorded in the context's log. |
| TextureSpec.SetFilters | index.js:67-77 | No arguments, or two falsy ones, change nothing and issue nothing. One argument sets both filters to it. Two arguments overwrite both fields, a falsy one too. texParameteri is issued only for truthy values and only for MIN/MAG_FILTER; MIN_FILTER is issued exactly when the first value is truthy. The texture keeps the lifecycle invariant. |
| TextureSpec.SetFiltersIssues | index.js:72-73 | setFilters issues at most two calls: MIN_FILTER with the first value exactly when it is truthy, MAG_FILTER with the second value (the first when there is one argument) exactly when that is truthy, and nothing else. |
| TextureSpec.SetWrapping | index.js:79-89 | The same argument rules as setFilters, for WRAP_S and WRAP_T. |
| TextureSpec.SetWrappingIssues | index.js:84-85 | setWrapping issues at most two calls: WRAP_S with the first value exactly when it is truthy, WRAP_T with the second value (the first when there is one argument) exactly when that is truthy, and nothing else. |
| TextureSpec.UploadElement | index.js:135-146 | The shape becomes (naturalWidth or width, naturalHeight or height, 4) and the format RGBA. The image is uploaded exactly once, with alignment 4 and flip on, as the last command. No filter, wrap or sub-image call is issued. |
| TextureSpec.UploadElementIssues | index.js:142-145 | uploadElement issues exactly alignment 4, no premultiplied alpha, flip on and the element upload in RGBA with the current type, in that order, and nothing else. |
| TextureSpec.Bind | index.js:28-50 | It throws `ContextMismatch` if and only if it is given a context other than the recorded one, with no state change and no command. Otherwise `bind()` falls back to the recorded context. The first bind records the context, creates the handle and uploads the 1x1 placeholder. A later bind only activates the unit and rebinds the same handle. A pending image is uploaded exactly once, and no image otherwise. Nothing is left pending, and filters, wrap, type and isLoaded keep their values. |
| TextureSpec.BindHead | index.js:33-42 | The commands before the pending-image check create exactly one handle on a first bind and none later, and upload no element. |
| TextureSpec.Settle | index.js:44-49 | After the head, a pending image is flushed and nothing else is issued; with nothing pending the state and the log stay as they are. Nothing is left pending. |
| TextureSpec.BindIssues | index.js:33-49 | The whole log of a successful bind. With nothing pending, a first bind issues exactly createTexture, activeTexture, bindTexture and the placeholder upload, and a later bind exactly activeTexture and bindTexture of the same handle. With an image pending, exactly the flush follows. |
| TextureSpec.Flush | index.js:44-49 | Flushing a pending image gives the image's shape and RGBA. It clears the pending slot and leaves every other field as it was. It issues one element upload and no createTexture. |
| TextureSpec.FlushIssues | index.js:45-47 | A flush issues the element upload, then texParameteri for each truthy stored filter and wrap value, and nothing else. |
| TextureSpec.Reapply | index.js:46-47 | setFilters and setWrapping with the stored values leave every field as it was and issue texParameteri for exactly the truthy stored values, in the order MIN, MAG, WRAP_S, WRAP_T. |
| TextureSpec.UploadData | index.js:93-133 | Binds first, so nothing stays pending. The new shape (channels defaulting to 4) is stored even when the call throws. It throws `InvalidChannelCount` exactly for counts other than 1, 2 and 4, and `FloatTexturesUnsupported` for Float32Array data on a context without float textures. With a valid count, the format has that many channels and the type is FLOAT for a Float32Array (even when it throws) and UNSIGNED_BYTE otherwise. A success ends with alignment = channels, no premultiply, no flip and a texImage2D of the data (a plain array as Uint8Array). |
| TextureSpec.Upload | index.js:97-132 | After its bind, uploadData stores the new shape and then may throw: `InvalidChannelCount` exactly for counts other than 1, 2 and 4, `FloatTexturesUnsupported` for Float32Array data without float textures. Only shape, format and type change. A throw issues nothing; a success issues exactly the three pixelStorei calls and the texImage2D. With an invalid channel count, only the shape changes: format and type keep the values bind left. |
| TextureSpec.UploadDataIssues | index.js:96-130 | A throwing uploadData issues exactly what its bind issued. A successful one then issues exactly alignment = channels, no premultiply, no flip and the texImage2D of the converted data. With an invalid channel count, the state is exactly bind's result with the new shape stored. |
| TextureSpec.Init | index.js:52-65 | Init fails exactly when uploadData of a zero-filled buffer fails. The shape is stored and nothing stays pending. On success the filters and wrap keep their values, and the uploaded buffer has exactly width x height x channels elements. |
| TextureSpec.InitIssues | index.js:60-62 | A failing init is exactly the failing uploadData. A successful one issues the upload, then texParameteri for each truthy stored filter and wrap value, and nothing else. A successful init leaves exactly the state uploadData left. |
| TextureSpec.InsertData | index.js:148-181 | It throws `SizeMismatch(expected, actual)` if and only if the length differs from shape[0] x shape[1] x the texture's own channel count. Then nothing changes and no command is issued. On success exactly one texSubImage2D is issued, last, after flip false, with the type unchanged. With nothing pending the state is unchanged. |
| TextureSpec.InsertDataIssues | index.js:164-177 | A successful insertData issues exactly its bind's commands, then alignment = channel count, no premultiplied alpha, no flip and one texSubImage2D of the converted data, and nothing else. A successful insertData leaves exactly the state its bind left. |
| TextureSpec.Insert | index.js:164-178 | Past the length check, insertData binds and then ends with flip false and one texSubImage2D at (x, y) of the given size, in the texture's format and type. It creates no handle, and uploads an element exactly when an image was pending. The state afterwards is exactly the state its bind left. |
| TextureSpec.SubImage | index.js:165-178 | The commands after insertData's bind create no handle, upload no element, and hold exactly one texSubImage2D, last, after flip false. |
| TextureSpec.ImageLoaded | index.js:205-209 | The loader callback sets isLoaded and makes the image pending. It changes nothing else and issues nothing. |
| TextureSpec.UploadedConversion | index.js:102-104 | uploadData turns a plain array into a Uint8Array and passes a typed array through unchanged; the length is kept. |
| TextureSpec.InsertedConversion | index.js:151-155 | insertData turns a plain array into a Float32Array on a FLOAT texture and a Uint8Array otherwise, and passes a typed array through unchanged; the length is kept. |
| TextureSpec.UnpackSettings | index.js:117-119 | The settings before an upload are exactly three pixelStorei calls: the given alignment, no premultiplied alpha and the given flip. |
| Texture.Texture2D.constructor | index.js:10-26 | A new texture is unbound and has no content. Its format is the literal 6048, its filters NEAREST, its wrap CLAMP_TO_EDGE; nothing is pending and isLoaded is true. |
| Texture.Texture2D.FromImage | index.js:195-212 | fromImage returns a new texture whose isLoaded is false. |
| Texture.Texture2D.OnImageLoaded | index.js:205-209 | The callback's field writes match TextureSpec.ImageLoaded. |
| Texture.Texture2D.Bind | index.js:28-50 | The fields and the log of the context used match TextureSpec.Bind. A handle created by this call is fresh. |
| Texture.Texture2D.FlushPending | index.js:44-49 | The fields and the log match TextureSpec.Flush. |
| Texture.Texture2D.Reapply | index.js:46-47 | The fields and the log match TextureSpec.Reapply. |
| Texture.Texture2D.Init | index.js:52-65 | The fields and the log match TextureSpec.Init. |
| Texture.Texture2D.SetFilters | index.js:67-77 | The fields and the log match TextureSpec.SetFilters. The one-argument form recurses as the source does. |
| Texture.Texture2D.SetWrapping | index.js:79-89 | The wrap array and the log match TextureSpec.SetWrapping. No other field changes. |
| Texture.Texture2D.UploadData | index.js:93-133 | The fields and the log match TextureSpec.UploadData. |
| Texture.Texture2D.Upload | index.js:97-132 | The fields and the log match TextureSpec.Upload. |
| Texture.Texture2D.IssueFullUpload | index.js:117-130 | The log grows by exactly the full-upload commands for the current state. |
| Texture.Texture2D.UploadElement | index.js:135-146 | The fields and the log match TextureSpec.UploadElement. |
| Texture.Texture2D.InsertData | index.js:148-181 | The fields and the log match TextureSpec.InsertData. |
| Texture.Texture2D.Insert | index.js:164-178 | The fields and the log match TextureSpec.Insert. |
| Texture.Texture2D.IssueSubImage | index.js:165-178 | The log grows by exactly TextureSpec.SubImage for the current state. |
| TextureLemmas.Apply | index.js:28-209 | Every public operation and the loader callback keep the lifecycle invariant. |
| TextureLemmas.RunKeepsOwnership | index.js:33-35 | After any sequence of calls, context and handle are both set or both unset. |
| TextureLemmas.RunKeepsFirstContext | index.js:28-35 | Once a context is recorded, no sequence of calls changes it or its handle. |
| TextureLemmas.RunCreatesHandleOnce | index.js:33-42 | Any sequence of calls issues createTexture exactly once if it took the texture from unbound to bound, and never otherwise. |
| TextureLemmas.RunNeverSetsHasContent | index.js:17 | No sequence of calls changes hasContent. |
| TextureLemmas.RepeatedBindUploadsPendingOnce | index.js:28-49 | Repeated binds with the recorded context (or none) never throw. They create the handle once if there was none, and upload a pending image on the first bind and on no later one. |
| TextureLemmas.OtherContextAlwaysRejected | index.js:32 | Binding a bound texture with another context throws on the first try and changes neither the state nor the log. |
| TextureLemmas.LoadedImageScenario | index.js:195-209 | fromImage, a 10x8 image loaded, then bind: the shape is (10, 8, 4), the format RGBA, nothing is pending, one element upload happens, and hasContent stays false. |
| TextureLemmas.InitScenario | index.js:52-65 | bind then init([2, 2]): the shape is (2, 2, 4), the format RGBA, the handle is set, and the filters and wrap are the defaults. |
| TextureLemmas.FloatWithoutExtensionScenario | index.js:106-112 | A Float32Array upload of shape [4, 4, 1] without float textures throws `FloatTexturesUnsupported`. The type is left FLOAT, with the shape and LUMINANCE stored. |
| TextureLemmas.InvalidChannelsKeepShape | index.js:97-100 | An upload with 3 channels throws `InvalidChannelCount(3)` and leaves the shape (2, 2, 3) stored. |

## Left out

- demo.js: scene, camera and shader wiring with no logic of its own. It is not part of this model.
- `fromImage`'s DOM work is not modelled. This covers `document.createElement('img')`
  and the `image-loaded` loader. The `if (err) throw err` branch fires inside the
  loader's callback, not as a state change of the texture. Only the success callback
  is modelled (`OnImageLoaded`).
- The process-wide `floatExt` cache (index.js:91, 107) is not modelled. Float support
  is a fixed property of each context. The source keeps the first extension it finds
  for all textures and contexts, so a later context without the extension would pass
  the check; the model does not capture this. The `getExtension` call is not
  recorded in the log.
- Pixel contents and typed-array element values are not modelled. Data is an array
  kind and a length.
- The `shape` Float32Array holds naturals here. Fractional, negative or NaN entries are
  not modelled. The shape arguments of `uploadData`, `insertData` and `init` must have
  at least two entries. With a shorter one, `uploadData` and `init` would store NaN
  in `shape`. `insertData` would compute a NaN expected length and throw its size
  error (index.js:157-161), storing nothing. Requiring two entries leaves that
  `SizeMismatch` path out of the model.
- Falsy filter and wrap arguments (undefined, null, 0, NaN, false) are all the integer 0.
  An omitted second argument is `None`.
- The constant arguments of each call are implicit: the TEXTURE_2D target, mip level
  and border. `activeTexture(TEXTURE0 + location)` is recorded by its location.
- Numeric enum values come from the WebGL implementation and are symbolic. A GL error
  raised by the context itself is not modelled, such as the one for format 6048 in a
  `texSubImage2D` before any upload.
- `return this` for chaining is not modelled: methods return an `Outcome`. Calling
  `Texture2D()` without `new` (index.js:11-13) builds the same object.
- A null dereference in the source is a requirement of the operation, not a thrown
  error. `TextureLemmas.Run` stops at a call that would make one.
