# Banana species detection: the `/detect` decision cascade

This project models the request handling of the banana-species detection
service (`app.py`, endpoint `/detect`). An uploaded image is decoded. A gating
*filter* model must find at least one banana, or the request ends with
`no_banana_detected`. The *main* detector then runs. When it raises, a
*fallback* detector is loaded and run instead, and any success is tagged
`"fallback"`. The detection with the highest confidence is chosen, with ties
going to the first in output order. A best confidence below 0.40 is rejected
as `low_confidence`. The class index is looked up in the fixed ten-entry
species table, and a miss is `unknown_class_id`. Any other fault is caught and
reported as `server_error` with its message. Faults in tensor conversion are
not modelled (see "Left out"). Every request yields exactly one outcome.

The detection models are opaque inputs. A `Request` carries what decoding
produced (`Decoded`, `Undecodable`, or a `DecodeFault`). For each of the
filter, main and fallback models it carries what that call yields: its
detections (`Ran`) or the fault it raised (`Raised`). `Detect` returns the
outcome together with the model calls the request made, in order (`consulted`).
That is how "no model is consulted" and "the fallback is not invoked" are
stated.

Files:
- `wrappers.dfy`: `Option`, for a dictionary lookup that may miss.
- `detections.dfy`: detections, model-call results, and the first-maximum selection `ArgMax`.
- `class_key_table.dfy`: the class-index to species-key table and its lookup.
- `cascade.dfy`: outcomes, post-processing of the terminal result, and the cascade `Detect`.
- `cascade_properties.dfy`: the cascade's promises, stated over all requests.
- `cascade_scenarios.dfy`: concrete requests (scenarios, the threshold boundary, a tie).

Three points of the cascade that are easy to get wrong:
- The fallback model runs only when the main model raises (app.py:74-80).
- An empty terminal result is `banana_like_object`, whether it came from the main model or the fallback (app.py:82-83). An empty main result does not bring in the fallback.
- A class index missing from the table is the failure `unknown_class_id` (app.py:96-98).

## Model

| member | source | states |
|---|---|---|
| `Detections.ArgMax` | app.py:86-91 | The chosen index holds a confidence no other detection exceeds, and every earlier detection is strictly less confident, so ties go to the first occurrence |
| `Detections.ArgMaxIsUnique` | app.py:89 | Any index that is a first maximum is the one `ArgMax` picks, so the selection is determined by the confidences alone |
| `ClassKeyTable.Lookup` | app.py:41-45 | The table has an entry exactly for class indices 0 to 9, and a hit is the species key the table gives that class index |
| `ClassKeyTable.ClassKeysInjective` | app.py:41-45 | No two class indices share a species key |
| `Cascade.PostProcess` | app.py:82-105 | An empty terminal result is `banana_like_object` and nothing else is. `low_confidence` happens exactly when every confidence is below 0.40, whatever the class indices. `unknown_class_id` happens exactly when the first-maximum detection reaches 0.40 and its class index has no table entry. A success carries the first-maximum detection's own confidence (at least 0.40 and no smaller than any other) and its table key, with the engine passed in. Every failure is one of these three reasons |
| `Cascade.Detect` | app.py:61-113 | The model calls made are always a prefix of filter, main, fallback. A success has confidence at least 0.40 and a key from the table |
| `CascadeProperties.UndecodableImageConsultsNoModel` | app.py:62-64 | An undecodable image gives `invalid_image_format` and calls no model |
| `CascadeProperties.EmptyGateVetoes` | app.py:67-69 | An empty gating result gives `no_banana_detected` after the filter call alone, whatever the other models would yield |
| `CascadeProperties.MainConsultedIffGatePasses` | app.py:62-75 | The main model is called if and only if the image decoded and the filter found something |
| `CascadeProperties.FallbackConsultedIffMainRaised` | app.py:72-80 | The fallback model is called if and only if the gate passed and the main model raised |
| `CascadeProperties.SuccessEngineTellsFallback` | app.py:72-104 | A success reports engine `Fallback` if and only if the main model raised |
| `CascadeProperties.EmptyMainResultSkipsFallback` | app.py:74-83 | An empty, non-raising main result gives `banana_like_object` without calling the fallback |
| `CascadeProperties.FaultsBecomeServerErrors` | app.py:61-113 | A decode fault, a filter fault or a fallback fault each become `server_error` carrying that fault's detail |
| `CascadeProperties.PostProcessUsesFirstMax` | app.py:86-102 | On a non-empty result, the detection at the first maximum decides. Below 0.40 gives `low_confidence` before any lookup. Otherwise a class index 0 to 9 gives success with that detection's own key and confidence, and any other index gives `unknown_class_id` |
| `CascadeProperties.SuccessIffAccepted` | app.py:61-105 | A request succeeds if and only if these all hold: the image decoded, the gate was non-empty, the terminal result did not raise, and its first-maximum detection reaches 0.40 with a known class index |
| `CascadeScenarios.MainModelPicksMostConfident` | app.py:86-105 | Detections (1, 0.80) and (3, 0.42) give `namwa` at 0.80 from the main engine |
| `CascadeScenarios.RaisingMainUsesFallback` | app.py:74-105 | A raising main model and a fallback detection (7, 0.55) give `lepchanggud` at 0.55 from the fallback engine, after calling all three models |
| `CascadeScenarios.UnknownClassIsRejected` | app.py:96-98 | A confident detection of class index 99 gives `unknown_class_id` |
| `CascadeScenarios.ThresholdBoundary` | app.py:93-94 | A confidence of exactly 0.40 is accepted. 0.399 is rejected, and so is 0.30 for an unknown class index |
| `CascadeScenarios.TieGoesToFirst` | app.py:89-91 | Two equally confident detections resolve to the first |

## Left out

- The web layer: the FastAPI app, cross-origin middleware and server start-up (app.py:8-15, 118-120).
- Reading the upload and decoding it (app.py:50-54). It is an input: decoded, not decodable, or a raised fault.
- Loading the model weights at start-up, including the switch to the smaller main model when the larger one fails to load (app.py:25-34). Also the per-request reload of the fallback weights (app.py:78), whose failure is folded into the fallback's `Raised` case.
- Inference itself and its confidence parameters (`conf=0.35`, `conf=0.25`). Each model call is its returned detection sequence or its fault.
- Cascade.PostProcess: a success carries the unrounded confidence. The source rounds it to three decimals (app.py:103), which is floating-point formatting.
- Floating point in general: confidences are exact reals, so NaN and the binary rounding of 0.40 are not modelled. The float-to-int cast of class indices (app.py:87) is taken as already done.
- Faults while converting the terminal result's tensors to arrays (app.py:86-87). The source reports these as `server_error`, but no path of `Cascade.Detect` produces them.
- Logging (app.py:20, 30-36, 77, 108) and the unused `mode` form field (app.py:60).
- Release of image and inference buffers. The source leaves this to the Python runtime and has no code for it.
