# connect-form, modelled in Dafny

connect-form is a Connect middleware that intercepts multipart form submissions
and hands them to the `formidable` parsing engine. It then collects what the
engine reports onto the request for the handlers downstream:
- the text fields become `req.body`, a dictionary from field name to a string, or to an array of strings when a name repeats;
- the uploaded files become `req.uploaded_files`, a list of `{partName, path, name, type}` records.

Every other request is passed on untouched.

This project models the middleware's own logic from `index.js` and proves what it promises:

- `Classify`: the `formRequest` check. It is modelled with JavaScript's `indexOf` and bitwise `~` spelled out. Its contract states the check declaratively: a non-empty `content-type` header, no body yet, method `POST` or `PUT`, and `"multipart/form-data"` occurring anywhere in the header, with letter case significant.
- `Accumulate`: the field merge rule and the file-record normalisation, as functions over the sequence of engine events seen so far. The lemmas give the accumulation law: a name's entry flattens to exactly the values of that name's events, in arrival order; it is a scalar exactly when there was one such event; lists never nest and always hold two or more values. The files list is exactly the normalised file events, in order.
- `Options`: `merge`, an in-place loop over `Object.keys(b)` that writes into the engine instance and returns it.
- `ConnectForm`: the request object, the per-request session class, and the exported middleware class.
  - The session's `field`, `file`, `end` and `err` handlers update the fields dictionary and the files list in place, or publish them.
  - `Handle` runs one request: it classifies the request, then drives a session over the engine's event sequence.

The parsing engine is not modelled. Its defaults and the events it emits are parameters of `Handle`. The continuation `next` is modelled as the list of calls made to it: `Next` for `next()`, `NextWithError(e)` for `next(e)`.

## Model

| member | source | states |
|---|---|---|
| `Classify.IndexFrom` | index.js:103 | `indexOf` from a start position: the result is -1 only when the pattern occurs nowhere from there on; otherwise the pattern occurs at the result and at no earlier position |
| `Classify.IndexOf` | index.js:103 | `indexOf` is -1 exactly when the pattern is not a substring; otherwise it is the first position where the pattern occurs |
| `Classify.BitwiseNot` | index.js:103 | `~x` is zero (falsy) exactly for `x == -1`, so `~s.indexOf(p)` is truthy exactly when `p` occurs in `s` |
| `Classify.IsFormRequest` | index.js:97-104 | a request is intercepted iff it has a non-empty `content-type` header, `body` is unset, the method is exactly `POST` or `PUT`, and the header contains `multipart/form-data` at any position |
| `Classify.NoContentTypeNotForm` | index.js:98-99 | a missing or empty `content-type` header means the request is not a form request, whatever the method and body |
| `Classify.BoundaryParameterAccepted` | index.js:100-103 | `multipart/form-data; boundary=X` on a POST without a body is accepted, so parameters after the media type are tolerated |
| `Classify.SubstringAnywhereAccepted` | index.js:103 | the substring may stand anywhere in the header, even inside another media type's parameter (`text/plain; x=multipart/form-data` on a PUT is accepted) |
| `Classify.OtherCaseRejected` | index.js:103 | the match is case-sensitive: `Multipart/Form-Data` is not accepted |
| `Accumulate.AddField` | index.js:65-73 | the merge rule: a new name is stored as the scalar given, the name's values are the old ones followed by the new value, no other entry changes, no other name appears, and "every list holds at least two values" is kept |
| `Accumulate.Normalise` | index.js:75 | a file record carries the event's field name as `partName` and the descriptor's `path`, `name` and `type` unchanged |
| `Accumulate.FieldsOfAt` | index.js:65-73 | after any event sequence, a name's entry flattens to exactly the values of the `field` events for that name, in arrival order; it is a scalar iff there was exactly one such event and a list only when there were two or more |
| `Accumulate.FieldsOfSpec` | index.js:65-73 | the same law for all names at once: a name is present iff some event carried it, and every list entry holds at least two values |
| `Accumulate.ValuesForAppend` | index.js:65-73 | a later event only appends to a name's values: the values of a concatenated stream are the values of its parts, concatenated |
| `Accumulate.FilesOfAppend` | index.js:74-76 | the files list of a concatenated stream is the two lists concatenated: earlier records are never reordered or rewritten |
| `Accumulate.FilesOfRecords` | index.js:74-76 | every file event's normalised record is in the list, and every record in the list comes from a file event: no filtering, nothing invented |
| `Accumulate.FilesOfCount` | index.js:74-76 | the list has one record per file event, and the j-th record is the normalisation of the j-th file event |
| `Accumulate.Scenario` | index.js:65-76 | fields `name=Alice`, `tags=red`, `tags=blue` and one file part yield `{name: "Alice", tags: ["red", "blue"]}` and one record `{file1, path, photo.jpg, image/jpeg}` |
| `Accumulate.ThreeValuesFlat` | index.js:68-71 | a name sent with `x`, `y`, `z` yields the flat list `["x", "y", "z"]`, not a nested one |
| `Options.FormParser.constructor` | index.js:57 | a fresh engine instance starts with the engine's default settings |
| `Options.KeysOf` | index.js:116 | `Object.keys(b)` lists every key of `b` exactly once and nothing else |
| `Options.Merge` | index.js:115-121 | after `merge(a, b)`, every key of `b` has `b`'s value, every other key of `a` is unchanged, no other key appears, and the result is `a` itself |
| `ConnectForm.Session.constructor` | index.js:58-59 | a session starts with an empty fields dictionary and an empty files list |
| `ConnectForm.Session.OnField` | index.js:65-73 | the `field` handler updates the dictionary in place by the merge rule and leaves the files list alone |
| `ConnectForm.Session.OnFile` | index.js:74-76 | the `file` handler appends exactly one normalised record; earlier records and the fields are unchanged |
| `ConnectForm.Session.Feed` | index.js:61-76 | handling non-terminal events one after another keeps the dictionary and the list equal to the fields and files of all events seen so far |
| `ConnectForm.Session.OnEnd` | index.js:77-81 | the `end` handler sets `body` to the accumulated fields and `uploaded_files` to the accumulated files, then calls `next()` |
| `ConnectForm.Session.OnErr` | index.js:62-64 | the `err` handler calls `next(err)` with the engine's error and publishes nothing |
| `ConnectForm.Middleware.constructor` | index.js:53-54 | missing options stand for an empty options object |
| `ConnectForm.Middleware.Handle` | index.js:55-86 | a non-form request gets one `next()` and is left unchanged. A form request gets a fresh engine whose settings are the defaults overwritten by the options. On `end`, `body` and `uploaded_files` are the fields and files of all events and `next()` is called once. On `err`, only `next(err)` is called and neither property is set. Before a terminal event, nothing is published or called |
| `ConnectForm.PassThroughTwice` | index.js:83-85 | running a non-form request through the middleware twice gives two `next()` calls and no other change |
| `ConnectForm.SubmitScenario` | index.js:53-86 | a POST with `multipart/form-data; boundary=X`, fields `name=Alice`, `tags=red`, `tags=blue` and one file part ends with that body, that one file record and a single `next()` |

## Left out

- The `formidable` engine is not part of this model: its construction, its default settings, and `form.parse(req)` with streaming, boundary decoding and temp-file writing. Its defaults and the events it emits are parameters.
- The `req.form.complete(...)` usage in the module's doc comment belongs to the engine and is not modelled. Only the fact that `req.form` is set to the new engine instance is modelled.
- ConnectForm.Middleware.Handle: requires that a terminal event (`end` or `err`) comes only last. This is an assumption about the engine. `index.js` itself has no guard against events after `err` or `end`. In particular, `req.body` is the same object as the session's dictionary, so a field event after `end` would still change the published body. Likewise `req.uploaded_files` is the same array as the session's files list, so a file event after `end` would still append to the published files. The model does not capture that aliasing.
- Asynchronous event-emitter wiring: the handlers are methods applied in order to an explicit event sequence.
- JavaScript's `k in fields` also sees inherited properties: a field named `toString` or `constructor` would take the second branch on its first occurrence. `fields` is modelled as a plain finite map, so this divergence is not reproduced.
- The order of keys in the fields dictionary and in the options object is not modelled (maps are unordered). `Options.Merge` writes every key once, so the order does not change its result.
- `req.body === undefined`: a body set by an earlier stage is modelled as `Some(...)` of a field dictionary. A `null` body, or any other kind of body, is represented only by the fact that it is set.
- `options || {}`: every falsy options value is modelled as a missing one (`None`). Option values are limited to text, flag and integer.
- Classify.BitwiseNot: does not model the 32-bit conversion of `~`, because `indexOf` results always fit in 32 bits.
- Errors carry only their message.
- The HTTP response object, the Connect pipeline, and exceptions thrown synchronously by the engine's constructor are not modelled.
- `merge` writes `b`'s keys into the engine instance in place and returns it (index.js:115-121); `Options.Merge` does the same to a `FormParser` object.
- The handlers keep no terminated flag: nothing in index.js:62-64 stops events that arrive after `err`, so the model has none.
