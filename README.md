# Z-Image-Turbo API: admission, status and request shaping

This project models the core of a small HTTP server for image generation.
The server loads one diffusion pipeline at startup and serves two endpoints:

- `/status` reports `loading`, `ready` or `busy`.
- `/generate` runs one generation request on a single worker thread.

The model covers two parts:

- **Admission and status state machine** (module `Server`). The state is the
  two process globals: whether the pipeline is loaded, and the counter of
  admitted requests that have not finished yet.
  - `/generate` is refused with 503 while nothing is loaded. The counter is
    not touched in that case.
  - Otherwise the counter goes up on entry and down in a `finally`, on
    success and on every exception.
  - `/status` classifies this state.
  - The same logic appears twice: as a pure transition function over event
    traces (`Step`, `Replay`), and as the class `ServerGlobals`, whose methods
    update the two fields in place. `Load`, `Admit` and `Complete` are each
    specified by one `Step`. `Generate` is specified by `GenerateResponse`,
    and it leaves the state unchanged.
- **The pure request shaping inside the generation task** (modules `PyStr`,
  `Seeds`, `Sizing`, `Task`):
  - seed selection, where -1 means a generated seed reduced modulo 2^32;
  - parsing the `"w:h"` ratio, falling back to 1.0 on any failure;
  - snapping each side to a multiple of 32 that is at least 32;
  - stripping the query string from a pre-signed upload URL;
  - choosing between an image URL, a storage error and an inline base64 image.

  Python's `str.split` with a one-character separator is modelled exactly,
  with its inverse `join`.

The library calls of the generation task are fields of `Task.Collaborators`.
The one exception is `torch.Generator(...).manual_seed`, which is left out
(see below). The fields are:

- `rawSeed`: the random seed, a plain integer.
- `parse`: `float()`, which gives a real number, or `None` where it raises.
- `sizer`: the floating-point sizing step, which gives the two rounded
  quotients or raises with a message.
- `render`: the inference pipeline with PNG encoding, which gives PNG bytes or
  raises with a message.
- `encode`: base64 encoding, which gives a string.
- `upload`: the HTTP upload, which succeeds or raises with a message.

The code has exactly one pipeline and a thread pool of one worker. Its busy
rule is "counter is not zero". The model has one worker, and `busy` holds
exactly when the pipeline is loaded and the counter is not zero.

Two behaviours of the code are modelled as written:

- A failed upload returns the storage-error dict with HTTP status 200, since
  `JSONResponse(content=result)` keeps its default status. Only the
  `status_code` field inside the body is 500. `Server.FailedUploadResponse`
  states this.
- In the `loading` branch, `/status` reports the counter as it is. The model
  proves that this counter is 0 in every reachable state
  (`Server.ReachableInvariant`).

## Model

| member | source | states |
|---|---|---|
| `PyStr.Split` | app.py:104 | `s.split(sep)` has exactly one more field than `s` has separators, and no field contains the separator |
| `PyStr.JoinSplit` | app.py:104 | joining the fields of a split with the separator gives back the original string |
| `PyStr.SplitJoin` | app.py:104 | for a non-empty list of separator-free fields, splitting their join gives back the list, so split and join are inverse |
| `PyStr.FirstField` | app.py:154 | the first field of a split is a prefix of the string, and the next character after it, if any, is the separator |
| `PyStr.StripQuery` | app.py:152-154 | `upload_url.split("?")[0]` is the longest prefix of the URL without `?`: a prefix, free of `?`, and followed by the first `?` when shorter |
| `PyStr.StripQueryNoQuery` | app.py:154 | a URL without `?` is returned whole |
| `PyStr.StripQueryIdempotent` | app.py:154 | stripping an already stripped URL changes nothing |
| `Seeds.SelectSeed` | app.py:95-100 | any seed other than -1 is used as given; -1 yields a seed in [0, 2^32) congruent to the raw random value; the result is never -1 |
| `Seeds.GeneratedSeedInRange` | app.py:96 | a raw random value already in [0, 2^32) is used unchanged |
| `Seeds.SeedReplay` | app.py:95-100 | resubmitting the selected seed selects the same seed again, whatever the random source yields |
| `Sizing.AspectRatio` | app.py:103-107 | if the ratio does not split into two fields, or a field does not parse, or the denominator is 0, the aspect is 1.0; otherwise aspect times denominator equals numerator |
| `Sizing.TwoFieldsIffOneColon` | app.py:104 | the two-field unpacking succeeds exactly when the ratio holds one colon |
| `Sizing.SquareRatioFields` | app.py:69 | the default ratio `"1:1"` splits into two `"1"` fields |
| `Sizing.MalformedRatioIsSquare` | app.py:103-107 | an unusable ratio gives the same aspect as `"1:1"`, namely 1.0 |
| `Sizing.Snap` | app.py:117-122 | a snapped side is a multiple of 32, at least 32 and at least 32·k, and equals 32·k or 32: that is, `max(32, 32*k)` |
| `Sizing.SnapMonotone` | app.py:117-122 | a larger rounded quotient never gives a smaller side |
| `Sizing.SnapFixedPoint` | app.py:117-122 | snapping an already snapped side again changes nothing |
| `Sizing.Dimensions` | app.py:109-122 | sizing raises exactly when the floating-point step raises, with its message. Otherwise height and width are `Snap` of the two rounded quotients, so each is `max(32, 32*k)`: a multiple of 32 and at least 32 |
| `Sizing.MalformedRatioSameSize` | app.py:103-122 | an unusable ratio gives the same height and width as `"1:1"` for the same megapixel target |
| `Task.StatusCode` | app.py:155-173 | a result's `status_code` is 500 exactly for the storage error and 200 for the image URL and the base64 forms |
| `Task.Deliver` | app.py:142-174 | the base64 form is returned exactly when there is no upload URL (absent or empty); the image URL exactly when the upload succeeds, and it is `StripQuery` of the upload URL (the part before the first `?`); the storage error, carrying the exception text, exactly when the upload raises |
| `Task.PlannedCall` | app.py:95-132 | the pipeline is called only when sizing succeeds. Its height and width are the sides `Dimensions` computed (aligned, at least 32), its seed is the selected one, and its prompt, steps and guidance come from the request |
| `Task.GenerateTask` | app.py:92-174 | the generation task returns a result exactly when sizing and inference both succeed, and that result is `Deliver` of the rendered PNG with the planned seed, so an image URL is `StripQuery` of the upload URL; otherwise it raises with the text of the sizing exception, or of the inference exception when sizing succeeded |
| `Task.ReportedSeed` | app.py:155-173 | every image result reports the seed the pipeline ran with: the requested one unless it is -1, otherwise one in [0, 2^32) |
| `Task.ResubmittedSeedSameCall` | app.py:95-132 | resubmitting a request with the reported seed makes the same inference call under any later random value |
| `Task.MalformedRatioSameCall` | app.py:103-132 | a request with an unusable ratio makes the same inference call as the same request with ratio `"1:1"` |
| `Task.FailedUploadIsStorageError` | app.py:160-166 | with an upload URL and a failed upload, the generation task returns the storage error with `status_code` 500 and the storage message, and never the base64 form |
| `Task.Message` | app.py:160-166 | a result carries a `message` exactly when its `status_code` is 500, which means exactly for the storage error |
| `Task.DefaultRequestShape` | app.py:67-74 | a request that sets only its prompt gets aspect 1.0 and a generated seed in [0, 2^32), and a returned result is the base64 form |
| `Task.Base64OnlyWithoutUrl` | app.py:142-174 | a returned result is the base64 form exactly when no upload URL was given |
| `Server.Step` | app.py:179-205 | loading sets the flag and keeps the counter; a call before loading leaves the state unchanged; an admitted call raises the counter by one; every finish, successful or not, lowers it by one |
| `Server.ReplayCounts` | app.py:179-205 | after any trace of events, the counter equals its prior value plus admitted starts minus finishes, successful or failed; the pipeline is loaded if it was or the trace loads it |
| `Server.CounterNeverBelowPrior` | app.py:183-205 | along a trace in which every finish belongs to an admitted start, the counter never drops below its prior value |
| `Server.CounterRestored` | app.py:183-205 | once every admitted request has finished, in any order and with any mix of success and failure, the counter is back at its prior value |
| `Server.NoAdmissionBeforeLoad` | app.py:179-183 | no start is admitted while the pipeline is not loaded |
| `Server.ReachableInvariant` | app.py:179-205 | in every state reachable from process start, the counter is not negative, and it is 0 while the pipeline is not loaded |
| `Server.RejectedStartUnchanged` | app.py:179-180 | a call arriving before the pipeline is loaded leaves the state, and so the counter, unchanged |
| `Server.StatusOf` | app.py:83-90 | the status is `loading` whenever nothing is loaded, whatever the counter; once loaded it is `ready` exactly when the counter is 0 and `busy` exactly when it is not; the reported count is always the counter |
| `Server.GenerateResponse` | app.py:176-205 | the response is 503 with "Model is still loading" exactly when nothing is loaded; when loaded it is 500 exactly when the generation task raises, carrying the exception text, body `status_code` 500 and the generation-failure message, and otherwise 200 with the generation task's dict. The 503 body has no `status_code` |
| `Server.FailedUploadResponse` | app.py:160-191 | a failed upload reaches the client as the storage-error dict, with HTTP 200, body `status_code` 500 and the storage message; it is not a generation failure and not a base64 fallback |
| `Server.ServerGlobals.constructor` | app.py:18-21 | at import time nothing is loaded and the counter is 0 |
| `Server.ServerGlobals.Load` | app.py:44 | loading the pipeline sets the loaded flag and keeps the counter |
| `Server.ServerGlobals.Admit` | app.py:179-183 | the call is refused without touching the counter when nothing is loaded, and otherwise admitted with the counter raised by exactly one |
| `Server.ServerGlobals.Complete` | app.py:203-205 | finishing an admitted call, on success or on an exception, lowers the counter by exactly one and keeps it non-negative |
| `Server.ServerGlobals.Status` | app.py:83-90 | on the globals, the status is `loading` whenever nothing is loaded, whatever the counter; once loaded it is `ready` exactly when the counter is 0 and `busy` otherwise; the reported count is always the counter |
| `Server.ServerGlobals.Generate` | app.py:176-205 | a full `/generate` call leaves the loaded flag and the counter exactly as before, on every path, and returns `GenerateResponse` |

## Left out

- Startup model loading (app.py:23-65) is left out: the CUDA probe, `from_pretrained`, moving the model to the GPU and the flash-attention switch are device and library calls. Only its effect is modelled, as `ServerGlobals.Load` setting the loaded flag. A failed load ends startup, so no later state is served.
- The inference call and PNG encoding (app.py:125-139) are one opaque collaborator, `render`. It returns PNG bytes or raises.
- `base64.b64encode` (app.py:169) is the opaque collaborator `encode`.
- `requests.put` and `raise_for_status` (app.py:145-150) are network I/O. Only their outcome is modelled, as the collaborator `upload` (success, or an exception with its text).
- `torch.seed()` is taken as an arbitrary integer `rawSeed`. The `torch.Generator(...).manual_seed` calls (app.py:96-100) are library code, so any exception they raise is not modelled.
- Floating-point sizing (app.py:105, 109-118) is abstract. This covers `float()` parsing, division, `math.sqrt` and `round`. `float()` is an abstract parser with values in `real`, so infinities and NaN are not modelled. The square root and rounding are the collaborator `sizer`, which yields the two rounded quotients or raises. It raises in three cases, all of which are raising outcomes of the `sizer`:
  - A zero aspect makes `target_total_pixels / aspect_ratio` (app.py:112) raise `ZeroDivisionError`. This happens for a ratio with a zero numerator, such as `"0:1"`. Such a ratio passes the fallback `try` and so gets a 500, not the 1:1 fallback.
  - `math.sqrt` raises on a negative argument, which happens when one of the aspect and the pixel target is negative and the other is positive. When the other is zero the quotient is `-0.0` or `0.0`, whose square root does not raise.
  - `round` raises on an infinite or undefined value.
- The thread pool, `run_in_executor` and asyncio scheduling (app.py:19, 188-189) provide concurrency. The model treats the counter sequentially: interleavings are traces of `Start` and `Finish` events, and the class method `Generate` runs one call to completion. The unsynchronised `+= 1` and `-= 1` on the global are taken as atomic, since they run on the single event-loop thread.
- FastAPI routing, the pydantic request model and JSON serialisation (app.py:1-15, 67-74) are HTTP plumbing. The request is the datatype `Task.GenerateRequest`.
- download_model.py only fills the model cache. It has no logic to model.
