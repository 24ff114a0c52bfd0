# synesthesia-server: the `/separate` pipeline in Dafny

This project models the core of the synesthesia-server `/separate` handler (`index.js`). The handler takes an uploaded audio file and hands it to a remote stem-separation provider. It goes through an upload slot, a PUT, a job POST and then polls the job's status. From the provider's loosely shaped result it extracts five stem URLs: drums, bass, vocals, guitar and piano. Every failure degrades to a fixed demo payload, always with `success: true`.

The model has six modules:

- `Text` covers ASCII `toLowerCase` / `toUpperCase` and the decimal keys under which `for..in` visits array indices.
- `JsonValue` models the provider's parsed JSON. Objects keep their keys in enumeration order. JavaScript truthiness and `typeof === 'object'` are modelled too; the latter also holds for `null` and for arrays.
- `KeyResolver` models `findValueByKey` twice:
  - as the specification function `Resolve`;
  - as the imperative method `FindValueByKey`, with the loops of the source. This method is proved equal to `Resolve`.
- `StemExtractor` models the extraction block: fixed synonym lists, the guitar and piano fallback to "other", and the test that decides whether the result is real.
- `JobPolling` models the bounded polling loop as the method `Poll`. `Poll` is proved equal to the function `PollFrom`, and `PollSpec` characterises that function outright.
- `Orchestrator` models the handler as the class `SeparateRequest`:
  - A field records whether the temp file is still on disk.
  - Ghost counters record deletions and provider requests.
  - `Handle` is tied to the reference decision function `Decide` and the response builder `Respond`.

Each remote step's outcome is an input (`Remote`): whether the slot GET, the PUT and the job POST succeed, plus the sequence of status replies.

The model keeps the code's own choices, including those a reader might not expect:
- the vocals list has no "voice", and the guitar list has no "guitarras";
- a result counts as real when drums, bass *or vocals* resolves, not only drums or bass;
- the polling budget is exactly 60;
- the key-length gate counts UTF-16 code units, as JavaScript's `length` does.

## Model

| member | source | states |
|---|---|---|
| Text.LowerIdempotent | index.js:53-55 | lower-casing a key or label twice is the same as once, so comparing lower-cased keys with lower-cased labels is stable |
| Text.UpperOfLower | index.js:120 | upper-casing a status forgets any earlier lower-casing |
| Text.LowerKeepsNoUpper | index.js:55 | a label without upper-case letters is looked up exactly as written |
| Text.Lower | index.js:53-55 | `toLowerCase` keeps the length and leaves no upper-case ASCII letter |
| Text.Upper | index.js:120 | `toUpperCase` keeps the length and leaves no lower-case ASCII letter |
| Text.Utf16Length | index.js:73 | `length` counts UTF-16 code units: at least one and at most two per character |
| Text.Utf16LengthOfBmp | index.js:73 | for text within the Basic Multilingual Plane, `length` is the number of characters |
| JsonValue.Truthy | index.js:51 | a value is falsy exactly when it is null, false, 0 or ""; arrays and objects, even empty, are truthy |
| JsonValue.IsObject | index.js:51 | `typeof null === 'object'`, yet null is falsy, which is why both tests are made; a value that is not object-typed has no fields to visit |
| JsonValue.Or | index.js:147-148 | `a \|\| b` is one of its operands and is truthy iff either operand is |
| JsonValue.Fields | index.js:58-60 | every child the `for..in` loop visits (object values, array elements) is strictly smaller than its parent, so the recursion terminates |
| KeyResolver.Normalize | index.js:52-53 | the keys of `normalizedObj` are exactly the lower-cased keys of the current level |
| KeyResolver.FirstDirect | index.js:54-57 | a direct lookup that finds something finds a truthy value |
| KeyResolver.FirstDirectMeaning | index.js:54-57 | the direct lookup fails iff no candidate hits a truthy entry; otherwise it yields the entry of the earliest candidate that hits |
| KeyResolver.Resolve | index.js:50-65 | the result is null or truthy (never "", 0 or false); a falsy or non-object input gives null |
| KeyResolver.FirstNested | index.js:58-63 | the nested search yields null or a truthy value |
| KeyResolver.FindValueByKey | index.js:50-65 | the loop-based resolver builds `normalizedObj`, tries candidates in order and recurses into object-typed children; it returns exactly `Resolve`. It modifies nothing, so repeated calls agree |
| KeyResolver.NormalizeLast | index.js:53 | `normalizedObj` holds, for each lower-cased key, the value of the last key in enumeration order that lower-cases to it |
| KeyResolver.CaseVariantShadowing | index.js:53-56 | of two keys differing only in case, the later decides the lookup; if its value is falsy the label does not match at that level, even when the earlier value is truthy |
| KeyResolver.ShadowedDrumsExample | index.js:53-56 | `{"Drums": "kick.mp3", "drums": ""}` resolves `["drums"]` to null |
| KeyResolver.DirectMatchWins | index.js:54-57 | with some direct hit, the result is the entry of the earliest hitting candidate, whatever the nested values are |
| KeyResolver.NormalizeIgnoresOrder | index.js:52-57 | when no two keys differ only in case, the side table and the direct lookup do not depend on key order |
| KeyResolver.FirstNestedMeaning | index.js:58-63 | the nested loop yields null iff no object-typed child from position i on resolves; otherwise it yields the result of the first child that does |
| KeyResolver.NestedSearchOrder | index.js:58-64 | with no direct hit, the result is the first non-null result among object-typed children in key order, and null iff there is none |
| KeyResolver.EmptyResolvesNothing | index.js:52-64 | `{}` resolves to null for any candidate list |
| KeyResolver.FlatObjectResolvesDirectly | index.js:54-64 | an object with no object-typed values resolves by its direct lookup alone |
| KeyResolver.FirstDirectIgnoresLabelCase | index.js:55-56 | the direct lookup is unchanged when the candidates are lower-cased first |
| KeyResolver.ResolveIgnoresLabelCase | index.js:55-60 | the letter case of the candidate labels never changes the resolver's answer, at any depth |
| KeyResolver.FirstNestedIgnoresLabelCase | index.js:58-61 | the nested search is unchanged when the candidates are lower-cased first |
| KeyResolver.ReachableResolves | index.js:50-65 | a candidate label carrying a truthy, unshadowed value at any depth below object-typed children makes the resolver return a truthy value |
| KeyResolver.UnmentionedResolvesNothing | index.js:50-65 | the converse of the above: a result with no key spelled like a candidate, at any depth, resolves to null |
| StemExtractor.ResultOf | index.js:139 | `result \|\| {}` is always truthy and is the provider's result whenever that is truthy |
| StemExtractor.ExtractStems | index.js:142-148 | each of the five stems is null or truthy |
| StemExtractor.HasPrimary | index.js:150 | for well-formed stems, the falsiness test on drums, bass and vocals is the same as "all three are null" |
| StemExtractor.MelodicFallback | index.js:145-148 | guitar is the guitar lookup when it finds something, otherwise the "other" value; piano likewise |
| StemExtractor.PrimaryNeedsDrumsBassOrVocals | index.js:150-152 | the result is real iff drums, bass or vocals resolves; guitar, piano and "other" alone never count |
| StemExtractor.PrimaryAtAnyDepth | index.js:142-152 | a drums, bass or vocals label at any depth and in any letter case makes the result real |
| StemExtractor.EmptyResultHasNoStems | index.js:139-152 | `{}` yields five nulls and is not real |
| StemExtractor.BateriaBaixoOutrosScenario | index.js:142-152 | `{"Bateria": a, "baixo": b, "outros": c}` gives drums a, bass b, vocals null, guitar = piano = c, and is real |
| StemExtractor.OutrosOnlyExample | index.js:145-152 | `{"outros": u}` gives guitar = piano = u and is not real |
| StemExtractor.OutrosOnlyScenario | index.js:142-152 | for every result with no drums, bass, vocals, guitar or piano label at any depth: drums, bass and vocals are null, guitar = piano = the "other" value (truthy whenever an "other" label carries a value), and the result is not real |
| StemExtractor.VoiceSpellingIsNotVocals | index.js:144 | no letter-case spelling of "voice" matches a vocals label |
| StemExtractor.GuitarrasSpellingIsNotGuitar | index.js:145-147 | no letter-case spelling of "guitarras" matches a guitar or an "other" label |
| StemExtractor.VoiceIsNotVocals | index.js:144 | a "voice" key does not give vocals |
| StemExtractor.GuitarrasIsNotGuitar | index.js:145-147 | a "guitarras" key gives neither guitar nor the "other" fallback |
| JobPolling.PollFrom | index.js:115-131 | a success outcome points at a reply that exists and lies within the 60-iteration budget |
| JobPolling.Poll | index.js:113-133 | the imperative loop with early exits computes exactly `PollFrom` from iteration 0 |
| JobPolling.PollFromExplains | index.js:115-131 | the outcome computed from iteration i on explains the statuses, given that all earlier statuses are pending |
| JobPolling.ExplainsUnique | index.js:115-131 | at most one outcome explains a status sequence |
| JobPolling.PollSpec | index.js:115-133 | the outcome is o iff o explains the statuses: success at the first success spelling (after upper-casing; absent or empty reads UNKNOWN), abort at FAILED, any other status continues, and 60 non-terminal statuses time out |
| JobPolling.PollIsBounded | index.js:115 | the loop issues between 1 and 60 status requests |
| JobPolling.ClassifyIgnoresCase | index.js:120-126 | the case of a status string never changes how it is classified |
| JobPolling.PendingPendingFailed | index.js:120-129 | PENDING, pending, FAILED aborts at the third request |
| JobPolling.NormalizeStatus | index.js:120 | the normalised status is non-empty and has no lower-case letter; an absent status reads UNKNOWN |
| JobPolling.Classify | index.js:123-126 | a reply is a success iff it has a status whose upper-cased spelling is SUCCEEDED, COMPLETED or SUCCESS, and a failure iff it spells FAILED; the UNKNOWN default never terminates the loop |
| JobPolling.ChecksMade | index.js:115-119 | every outcome follows at least one status request, and the request at the outcome's index was made |
| Orchestrator.CallsMade | index.js:72-119 | no provider request is made iff the key is gated, and never more than 3 + 60 |
| Orchestrator.Gated | index.js:72-73 | the gate rejects a key iff its UTF-16 length is under 10; the empty-key test only chooses the logged reason |
| Orchestrator.Decide | index.js:67-170 | the verdict is the missing-key demo iff the key is empty; it is a gate demo iff the key is gated; a served verdict carries well-formed stems with drums, bass or vocals |
| Orchestrator.DemoStemsComplete | index.js:37-43 | the five `DEMO_STEMS` URLs are all non-empty, so the demo payload is well formed and itself has drums, bass and vocals |
| Orchestrator.AstralKeyPassesGate | index.js:73 | a key of five emoji has 5 characters but `length` 10: it passes the gate and the slot request is made |
| Orchestrator.Respond | index.js:45-48 | every response has `success: true`; it is a demo exactly for a degraded verdict, and a demo carries exactly `DEMO_STEMS` |
| Orchestrator.SeparateRequest.constructor | index.js:67 | a request starts with the upload state multer left and with no deletions or provider requests |
| Orchestrator.SeparateRequest.Unlink | index.js:86 | `unlinkSync` deletes an existing file once, and raises (returns false, deletes nothing) when it is gone |
| Orchestrator.SeparateRequest.Recover | index.js:165-168 | the outer catch deletes the file exactly when it still exists, then answers with the demo payload |
| Orchestrator.SeparateRequest.Handle | index.js:67-170 | the response is `Respond(Decide(..))`; a gated key deletes nothing; past the gate the file ends absent and was deleted exactly once iff it existed; the provider requests made are `CallsMade` |
| Orchestrator.CredentialGate | index.js:72-73 | an empty key, or one under 10 UTF-16 code units, gives the demo payload with the matching reason, whatever the provider does |
| Orchestrator.EveryResponseWellFormed | index.js:37-48 | every response has `success: true`; a demo carries `DEMO_STEMS`; a real one carries well-formed stems with drums, bass or vocals |
| Orchestrator.ServedMeansComplete | index.js:123-163 | a real response needs every step to succeed and polling to stop on a success at some reply, and then carries that reply's extracted stems |
| Orchestrator.DemoExactlyWhenNoPrimary | index.js:150-152 | after a successful job, the response is a demo iff drums, bass and vocals are all unresolved |
| Orchestrator.FalsyResultDegrades | index.js:139 | a missing or falsy `result` reads as `{}` and leads to the demo payload |
| Orchestrator.FailedJobDegrades | index.js:126-129 | a FAILED status ends with the demo payload |
| Orchestrator.TimeoutDegrades | index.js:133 | 60 non-terminal statuses throw the timeout, which is caught into the demo payload |
| Orchestrator.FailedJobScenario | index.js:113-129 | PENDING, pending, FAILED: a demo response, one deletion, six provider requests |
| Orchestrator.UploadFailureScenario | index.js:95-98 | a raising PUT gives the demo payload and deletes the file once through the outer catch |

## Left out

- Express, CORS, multer and dotenv setup, the `/health` route and `app.listen` (index.js:1-33, 172-175) are framework plumbing. Multer's work is reduced to the `uploaded` flag and the initial file state.
- Trimming the configured key (index.js:21) is configuration loading: the key reaches the model already trimmed. The workflow id only appears in the job POST and is left out.
- The axios requests, `fs.readFileSync` / `unlinkSync` / `existsSync` and `sleep(2000)` become the abstract `Remote` outcomes and the boolean `onDisk`. Timing is not modelled.
- A slot reply without `uploadUrl`/`url`/`downloadUrl`, and any provider error status, fold into the step's success flag. They change only the logged reason.
- Upload slot URL and download URL values, the job id, the job name from `Date.now()`, and all console / stdout logging (including `JSON.stringify` of the result) are left out: they are non-deterministic or side-effect only.
- The `sendDemo` reason is kept as a `Reason` tag, but it is only logged, never sent.
- Numbers are integers: `NaN`, `-0` and floats are not modelled.
- Case mapping covers ASCII letters only, not Unicode.
- The engine's `for..in` order (integer-like keys first) is not modelled: an object's key order is the given sequence. Arrays are visited by index under their decimal keys.
- KeyResolver.Normalize: `normalizedObj` is an ordinary object, but the model treats it as a plain map. A result key that lower-cases to `__proto__` goes through the inherited setter at index.js:53 instead of becoming an entry. With an object value it replaces the prototype of `normalizedObj`, so that object's keys become direct hits at index.js:56; with any other value it is ignored. The model stores such a key as an ordinary entry. So for `{"a": {"drums": "y"}, "__proto__": {"drums": "x"}}` the model resolves drums to "y" where the code gives "x". Inherited names such as `constructor` never matter on the label side: no synonym list contains one.
- KeyResolver.Resolve: the recursion at index.js:60 has no depth limit, and the model has no call stack. A result nested deeply enough makes the engine throw a RangeError during extraction. The file has already been deleted at index.js:136, and the outer catch at index.js:165-168 sends the demo payload. `Orchestrator.Decide` instead serves the stems it resolves.
- KeyResolver.FirstNested: the `Json` type allows an object to repeat a key, which an object built by `JSON.parse` cannot do (the last duplicate wins). For such a value the model visits every copy, so `{"a": {"bateria": "x"}, "a": 5}` resolves drums to "x" where the code gives null. For values without repeated keys the model matches the code.
- A non-string `status` that makes `toUpperCase` throw is folded into the generic exception path. So is a status request that raises, modelled as the replies running out.
- Concurrency between requests is not modelled: requests share no mutable state.
- Obtaining the audio by downloading a remote video is not part of this model: `index.js` only handles uploads.
