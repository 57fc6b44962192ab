# Hakeena — a verified model of the dictionary client and its Gemini proxies

Hakeena is a Lebanese-dialect dictionary that runs in the browser. A user types
a word, and the client asks a serverless text proxy for a structured entry: the
word, a quick meaning, an explanation and example sentences. The client caches
each entry per word and interface language, then renders it. Every example and
the word itself get a speak button. A click sends text to a second proxy for
speech synthesis, and the PCM audio that comes back is wrapped in a WAV header
before it is played.

This project models, in Dafny, the parts of that system whose behaviour can be
stated precisely:

- **`Bytes`** (`bytes.dfy`): bytes, the `ToUint8` conversion of typed-array
  stores, and little-endian encoding and decoding. Also the loop of
  `base64ToArrayBuffer`, which copies each character code of the decoded binary
  string into a `Uint8Array`.
- **`Wav`** (`wav.dfy`): `createWavHeader`, as a method filling a 44-byte array
  through `writeString`, `setUint16` and `setUint32`. The thirteen stores are
  made in the source's order and grouped by RIFF chunk into helper methods.
  The method is proved equal to a pure specification of the header, and the
  header is read back by an independent reader. `WavFile` assembles header and PCM as `speakText` does.
- **`JsValue`** (`jsvalue.dfy`): the JSON values the handlers see, and the
  JavaScript semantics they rely on. This covers truthiness, `||`, property
  access, optional chaining (`?.`), and conversion to string in a template
  literal.
- **`JsString`** (`jsstring.dfy`): `String.prototype.trim` over the ECMAScript
  white-space and line-terminator set, `split(sep)[0]`, and the first match of
  `/\(([^)]+)\)/`.
- **`Render`** (`render.dfy`): what `renderResults` shows. For each example
  line it gives the text and language its speak button passes to `speakText`,
  or says the button is hidden.
- **`Client`** (`client.dfy`): a `Client` class holding the interface
  language, the cache `Map` and the view state, with `CallGeminiAPI` and
  `HandleSearch`. Beside it sit a pure specification of one cache lookup and a
  `Session` of any number of lookups, with lemmas about the whole session.
- **`Proxy`**, **`TextProxy`**, **`SpeechProxy`** (`proxy.dfy`,
  `text_proxy.dfy`, `speech_proxy.dfy`): the two serverless handlers. Each is a
  total function from the request, the API key and the outcome of the upstream
  request to the response it sends and the upstream call it makes, if any.

The network, the environment and the browser are parameters. The outcome of a
fetch is an input datatype, the API key is an `Option<string>`, and the
decoded base64 string is the input of the byte loop.

## Model

| member | source | states |
|---|---|---|
| Bytes.ToUint8 | script.js:129 | storing a number in a `Uint8Array` keeps it modulo 256 |
| Bytes.LittleEndian | script.js:206 | a DataView little-endian store of `width` bytes yields exactly `width` bytes |
| Bytes.DecodeLittleEndian | script.js:206 | reading back a little-endian store gives the stored value modulo 256^width (the wrap-around of `setUint32`/`setUint16`) |
| Bytes.LittleEndianDecode | script.js:217 | every byte sequence is the little-endian encoding of the number it decodes to (encoding is onto) |
| Bytes.CharBytes | script.js:128-130 | one byte per character, byte i is the code of character i modulo 256 |
| Bytes.BinaryRoundTrip | script.js:124-131 | for a binary string (codes below 256, as `atob` returns) the bytes are exactly the character codes, and mapping them back to characters gives the string again |
| Bytes.BytesRoundTrip | script.js:124-131 | every byte sequence is produced by the loop from some binary string |
| Bytes.BinaryStringToBytes | script.js:124-132 | the loop returns a fresh array of the string's length whose byte i is the code of character i |
| Wav.ByteRate | script.js:196 | the byte rate of mono 16-bit PCM is twice the sample rate |
| Wav.Write | script.js:199 | a DataView store changes exactly the bytes at `offset..offset+|bytes|` and keeps the buffer's length |
| Wav.RiffDescriptor | script.js:205-207 | the RIFF descriptor (`RIFF`, remaining size, `WAVE`) is 12 bytes |
| Wav.FmtFields | script.js:210-215 | the body of the `fmt ` sub-chunk is 16 bytes |
| Wav.FmtChunk | script.js:208-215 | the `fmt ` sub-chunk with its tag and size is 24 bytes |
| Wav.DataChunkHeader | script.js:216-217 | the `data` sub-chunk header is 8 bytes |
| Wav.Header | script.js:198 | the header is always exactly 44 bytes |
| Wav.RiffLayout | script.js:205-207 | in the descriptor, `RIFF` lies at 0, the remaining size at 4 and `WAVE` at 8 |
| Wav.FmtFieldsLayout | script.js:210-215 | in the `fmt ` body, format, channels, sample rate, byte rate, block align and bits per sample lie at 0, 2, 4, 8, 12 and 14 |
| Wav.FmtLayout | script.js:208-209 | in the `fmt ` sub-chunk, the tag lies at 0, the size 16 at 4 and the body at 8 |
| Wav.DataLayout | script.js:216-217 | in the `data` header, the tag lies at 0 and the byte count at 4 |
| Wav.ChunkLayout | script.js:205-217 | the three chunks lie at offsets 0, 12 and 36 of the header |
| Wav.HeaderLayout | script.js:205-217 | each of the 13 fields lies at its offset: tags at 0, 8, 12, 36; `36+dataLength` at 4; chunk size 16 at 16; format 1 at 20; channels at 22; sample rate at 24; byte rate at 28; block align at 32; bits per sample at 34; `dataLength` at 40 |
| Wav.WriteString | script.js:200-204 | `writeString` stores the character codes of the string at `offset` and leaves every other byte unchanged |
| Wav.SetUint16 | script.js:210 | `setUint16(offset, v, true)` stores the two little-endian bytes of `v` and nothing else |
| Wav.SetUint32 | script.js:206 | `setUint32(offset, v, true)` stores the four little-endian bytes of `v` and nothing else |
| Wav.WriteRiffDescriptor | script.js:205-207 | the first three stores put the RIFF descriptor at offset 0 and touch nothing else |
| Wav.WriteFmtChunk | script.js:208-215 | the eight `fmt ` stores put the `fmt ` sub-chunk at offset 12 and touch nothing else |
| Wav.WriteFmtFields | script.js:210-215 | the six numeric `fmt ` stores put the `fmt ` body at offset 20 and touch nothing else |
| Wav.WriteDataChunkHeader | script.js:216-217 | the last two stores put the `data` header at offset 36 and touch nothing else |
| Wav.WriteWrite | script.js:205-217 | two adjacent stores are one store of their concatenation |
| Wav.WriteWhole | script.js:198 | a store covering the whole 44-byte buffer replaces its zero fill |
| Wav.CreateWavHeader | script.js:193-219 | the method returns a fresh 44-byte array whose contents are exactly the header specification |
| Wav.ReadHeader | script.js:205-216 | the reader accepts a buffer exactly when it has at least 44 bytes and the `RIFF`, `WAVE`, `fmt ` and `data` tags at 0, 8, 12 and 36 |
| Wav.ReadU32 | script.js:206 | a field stored with `setUint32` reads back modulo 2^32, and unchanged when it fits |
| Wav.ReadU16 | script.js:210 | a field stored with `setUint16` reads back modulo 2^16, and unchanged when it fits |
| Wav.ReadSizes | script.js:206 | the RIFF size reads back as `(36+dataLength) mod 2^32`, the fmt size as 16, the data length modulo 2^32 |
| Wav.ReadFormat | script.js:210-215 | the fmt body reads back as PCM, mono, the sample rate and `2*sampleRate` modulo 2^32, block align 2, 16 bits |
| Wav.ReadLaidOut | script.js:205-217 | any 44-byte buffer holding the thirteen fields at their offsets is read back to exactly those fields |
| Wav.ReadHeaderFields | script.js:194-217 | for any inputs the header reads back as chunk size `(36+dataLength) mod 2^32`, fmt size 16, PCM format 1, mono, sample rate and byte rate `2*sampleRate` modulo 2^32, block align 2, 16 bits, data length modulo 2^32 |
| Wav.HeaderRoundTrip | script.js:206 | when `36+dataLength` and the byte rate fit in 32 bits, the header reads back to exactly the data length and sample rate it was built from |
| Wav.TagBytes | script.js:202 | the character codes of `RIFF`, `WAVE`, `fmt ` and `data` |
| Wav.HeaderTags | script.js:205-216 | the bytes `RIFF`, `WAVE`, `fmt ` and `data` appear at offsets 0, 8, 12 and 36 |
| Wav.WavFile | script.js:172-175 | the played file is the header for the PCM's byte length at 24000 Hz followed by the PCM bytes |
| Wav.WavFileDeclaresPcm | script.js:174 | the assembled file declares 24000 Hz mono 16-bit PCM whose data length is exactly the number of bytes after the header |
| JsValue.Or | gemini-function.js:26 | `a \|\| b` is `a` when `a` is truthy and `b` otherwise |
| JsValue.Truthy | gemini-function.js:8 | the values `!x` holds for are exactly `undefined`, `null`, `false`, `0` and `''`, so an empty `prompt` or `text` is rejected like a missing one |
| JsValue.NatToDecimal | gemini-tts-function.js:12 | a number interpolated into a template literal is a non-empty string of decimal digits |
| JsValue.DecimalRoundTrip | gemini-tts-function.js:12 | the decimal text of a number reads back to that number |
| JsValue.ToString | gemini-tts-function.js:12 | `${text}` inserts a string unchanged, a non-negative integer as its decimal numeral, and `undefined` and `null` as those words; an object throws exactly when it has its own `toString` member and otherwise gives `[object Object]`; an array throws exactly when one of its non-nullish elements does |
| JsValue.Get | gemini-function.js:7 | property access on an object gives the member or undefined, on an array the element in range, on a boolean or number undefined |
| JsValue.OptGet | gemini-function.js:26 | `v?.[k]` is undefined on a nullish `v` and ordinary access otherwise |
| JsValue.OptPath | gemini-function.js:26 | a chain of no `?.` steps is the value itself, and a chain of one step is one optional access |
| JsValue.OptPathShortCircuits | gemini-function.js:26 | once a chain of `?.` reaches a nullish link, the whole chain is undefined |
| JsValue.OptPathAppend | gemini-tts-function.js:32 | a chain through `p` then `q` is the chain through `q` continued from the chain through `p` |
| JsString.SkipSpace | script.js:240 | the first non-white-space position from `i`, with only white space skipped |
| JsString.SkipSpaceBack | script.js:240 | the position after the last non-white-space character before `j`, with only white space skipped |
| JsString.IsSpace | script.js:288 | the white space `trim` strips includes space, tab, line feed and carriage return, and never `(`, `)` or `_` |
| JsString.Trim | script.js:288 | `trim()` removes exactly the leading and trailing white space: what it drops is white space, what it keeps neither starts nor ends with white space, and it is empty exactly when the string is all white space |
| JsString.TrimIdempotent | script.js:240 | trimming twice is trimming once |
| JsString.TrimOfTrimmed | script.js:240 | a string that neither starts nor ends with white space is its own trim |
| JsString.BeforeFirst | script.js:240 | `split(sep)[0]` is the longest prefix without `sep`, and is followed by `sep` when shorter than the string |
| JsString.GroupAt | script.js:243 | a match of `\(([^)]+)\)` encloses a capture inside the string that is non-empty and holds no `)` |
| JsString.GroupEndUnique | script.js:243 | a `(` starts at most one match of `\(([^)]+)\)`: its end is the next `)` |
| JsString.CloseFrom | script.js:243 | the position of the next `)` from `k`, or the end of the string |
| JsString.MatchFrom | script.js:243 | the search from `from` finds the leftmost match at or after it, or reports that none exists |
| JsString.FirstGroup | script.js:243-245 | `match(...)` fails exactly when the string has no parenthesised group, and otherwise captures the inside of the leftmost group |
| JsString.FirstGroupShape | script.js:244 | a capture is never empty and holds no `)`, so `match[1]` is always truthy |
| Render.Lang.Tag | script.js:260 | the language tags are two characters without `_` |
| Render.ArabicSpeakText | script.js:240 | the Arabic speak text holds no `(` and neither starts nor ends with white space |
| Render.ArabicSpeakTextOfGloss | script.js:240 | for a line `w`, white space, then `(gloss)`, the Arabic speak text is exactly `w` |
| Render.BeforeFirstOfConcat | script.js:240 | splitting `p + q` at a separator that starts `q` and is absent from `p` gives `p` |
| Render.EnglishSpeakText | script.js:243-249 | the English speak text is absent exactly when the example has no parenthesised group, and is otherwise non-empty and free of `)` |
| Render.ExampleButton | script.js:239-250 | Arabic lines always get a button speaking the Arabic text in Arabic; English lines get one exactly when they have a group, speaking its capture in English, and are hidden otherwise |
| Render.RenderResults | script.js:221-257 | the page shows word, meaning and explanation unchanged, one row per example in order with `- example` and that example's button, and the word's button speaks the word in Arabic |
| Client.CacheKey | script.js:260 | the key is the word, `_`, then the language tag |
| Client.CacheKeyInjective | script.js:260 | two lookups share a cache entry only if word and language are both equal |
| Client.LookupStep | script.js:259-285 | a hit returns the stored entry with no request; a miss issues one; only a successful request stores, under the key; a failure returns null and leaves the cache unchanged; no entry is ever removed or replaced |
| Client.SecondLookupHits | script.js:261 | after a successful lookup, looking up the same word in the same language issues no request and returns the same entry, whatever the network would do |
| Client.SessionKeepsEntries | script.js:277 | over any sequence of lookups, every cached entry stays cached with the same value |
| Client.SessionKeys | script.js:277 | after any sequence of lookups the cache's keys are the initial keys plus the keys of the requests that succeeded |
| Client.SessionFetchesOnce | script.js:261 | over any sequence of lookups, each key is fetched successfully at most once, and never if it was cached at the start |
| Client.Client.constructor | script.js:28-29 | the client starts with an empty cache on the home screen, in the given interface language |
| Client.Client.CallGeminiAPI | script.js:259-285 | the method's new cache, result and request flag are those of the lookup specification; on null it shows the generic error, and the language, screen and alerts are untouched |
| Client.Client.HandleSearch | script.js:287-299 | a word blank after trimming raises the no-word alert and changes nothing else, with no request; otherwise the results screen shows the rendered entry or the generic error, by the lookup specification with the untrimmed word |
| Client.SearchTwice | script.js:287-299 | on a fresh client in either language, searching a word twice after a successful first request issues exactly one request, and none for a blank word |
| Proxy.BodyField | gemini-function.js:7 | `const { name } = req.body \|\| {}` is undefined when the body is falsy and the member (or undefined) when it is an object |
| Proxy.HasKey | gemini-function.js:9-10 | the key counts as missing exactly when it is undefined or the empty string |
| Proxy.ApiUrl | gemini-function.js:11 | the endpoint URL starts with the models base, continues with the model name and ends with the key |
| Proxy.FromFirstPart | gemini-function.js:26 | reading a member of the reply is the optional chain to `candidates[0].content.parts[0]` continued by the member's own path |
| Proxy.FirstPartOfReply | gemini-function.js:26 | on a reply of the documented shape the path `candidates[0].content.parts[0]` reaches the first part |
| Proxy.NoCandidates | gemini-tts-function.js:32 | a reply without `candidates` (or a nullish one) yields undefined at the end of the path |
| TextProxy.ReplyText | gemini-function.js:26 | the text relayed is the first part's text when truthy, and `''` otherwise |
| TextProxy.Payload | gemini-function.js:15-18 | the request body has exactly the members `contents` and `generationConfig` |
| TextProxy.Handle | gemini-function.js:2-32 | 405 for a non-POST, then 400 for a falsy `prompt`, then 500 for a missing key, each with no upstream call; otherwise exactly one call to the flash model with the prompt, whose non-ok status is relayed with `details`, whose success is 200 `{text}`, and whose exception is 500 |
| TextProxy.MethodCheckedFirst | gemini-function.js:3-5 | a non-POST request gets 405 with no upstream call, whatever its body, the key and the upstream service |
| TextProxy.PromptCheckedBeforeKey | gemini-function.js:7-8 | a POST without a truthy prompt, a null body included, gets 400 with no upstream call, whatever the key and the upstream service |
| TextProxy.PayloadCarriesPrompt | gemini-function.js:15-18 | the payload has one content with one part whose text is the prompt verbatim, and asks for `application/json` |
| TextProxy.SuccessIffUpstreamOk | gemini-function.js:20-27 | the response is 200 exactly when the request was forwarded and answered ok; every other response carries an `error` member |
| TextProxy.RelaysCandidateText | gemini-function.js:25-27 | a reply whose first part has text `t`, empty or not, is answered 200 with exactly `t` |
| TextProxy.EmptyTextWithoutCandidates | gemini-function.js:26 | a reply without candidates is answered 200 with `text: ''` |
| SpeechProxy.SpeechPrompt | gemini-tts-function.js:12 | when `lang === 'ar'` the prompt is the accent instruction followed by `${text}`, and it throws exactly when `${text}` does; otherwise it is the text as received |
| SpeechProxy.IsArabic | gemini-tts-function.js:12 | `lang === 'ar'` holds for the string `'ar'` only, with no conversion of other values |
| SpeechProxy.VoiceName | gemini-tts-function.js:17 | the voice is Kore exactly when `lang === 'ar'` and Puck exactly otherwise |
| SpeechProxy.AudioData | gemini-tts-function.js:32 | the audio relayed is the first part's `inlineData.data` when truthy, and null otherwise |
| SpeechProxy.Payload | gemini-tts-function.js:13-20 | the request body has exactly the members `contents`, `generationConfig` and `model` |
| SpeechProxy.Handle | gemini-tts-function.js:2-38 | 405 for a non-POST, then 400 for a falsy `text`, then 500 for a missing key, each with no upstream call; then 500 with no upstream call when building the prompt throws; otherwise exactly one call to the TTS model with the chosen prompt and voice, whose non-ok status is relayed with `details`, whose success is 200 `{audioDataB64}`, and whose exception is 500 |
| SpeechProxy.MethodCheckedFirst | gemini-tts-function.js:3-5 | a non-POST request gets 405 with no upstream call, whatever else holds |
| SpeechProxy.TextCheckedBeforeKey | gemini-tts-function.js:7-8 | a POST without a truthy text gets 400 with no upstream call, whatever the key and the upstream service |
| SpeechProxy.PayloadCarriesPrompt | gemini-tts-function.js:13-16 | the payload carries the prompt as the text of its only part and `AUDIO` as the only response modality |
| SpeechProxy.PayloadCarriesVoice | gemini-tts-function.js:17 | the payload carries the voice as `speechConfig.voiceConfig.prebuiltVoiceConfig.voiceName` |
| SpeechProxy.ArabicGetsAccentAndKore | gemini-tts-function.js:12-17 | for a string text, the forwarded prompt is the accent instruction plus the text and the voice Kore exactly when `lang === 'ar'`, and the text verbatim with Puck otherwise |
| SpeechProxy.SuccessIffUpstreamOk | gemini-tts-function.js:26-33 | the response is 200 exactly when the request was forwarded and answered ok; every other response carries an `error` member |
| SpeechProxy.RelaysInlineData | gemini-tts-function.js:12-33 | a reply whose first part carries non-empty inline data `d` is answered 200 with exactly `d` (empty data gives `'' \|\| null`, that is null), and 500 instead when building the prompt threw |
| SpeechProxy.NullAudioWithoutCandidates | gemini-tts-function.js:12-33 | a reply without candidates is answered 200 with `audioDataB64: null`, not an error, and 500 instead when building the prompt threw |
| SpeechProxy.UnconvertibleText | gemini-tts-function.js:12 | a text with its own `toString` member gets 500 and no upstream call when `lang === 'ar'`, and is forwarded unconverted otherwise |

## Left out

- The DOM and styling are not modelled: `setLanguage`, `toggleView`,
  `showLoading`, `showError`, the translation tables, the Back button and the
  word-of-the-day markup. The view is reduced to a `Screen` and a `Status`.
  Messages are named by their translation key, and `alert` appends to a list.
- `fetchWordOfTheDay` is not modelled separately. It goes through the same
  `callGeminiAPI` cache path that `CallGeminiAPI` models.
- Switching the interface language (`setLanguage`) is not an operation of the
  model. A `Client` is constructed in either language, and its `lang` field
  then stays fixed.
- The browser services are left out: `window.atob`, `SpeechRecognition` and
  the microphone button, `AudioContext.decodeAudioData` and playback, and the
  spinner and button restore in `speakText`. The byte loop starts from the
  decoded binary string.
- The network and the environment are parameters. `fetch` becomes an outcome
  datatype, and so do the JSON parsing of replies and `process.env`. The
  headers of the upstream request are not modelled.
- Client.Client.CallGeminiAPI: the localized prompt templates are not
  modelled, and a successful reply is taken to be a dictionary entry. The
  client caches whatever JSON the endpoint it calls returns. The text proxy in
  this repository answers `{text}`, while the client fetches
  `/.netlify/functions/gemini`, whose deployed code is not part of this model.
- Async interleaving is not modelled: two searches in flight at once, and a
  stale speech response.
- `console.error` logging is left out; it has no stateable effect.
- JsValue.Value: numbers are integers. Non-integer and non-finite numbers, and
  their string forms, are not modelled. A string is a sequence of Dafny
  characters, so UTF-16 surrogate pairs are not represented.
- JsValue.Get: inherited properties such as `length`, and prototype lookups,
  are not modelled. Objects are maps, so the key order of a JSON body is not
  represented.
- JsValue.ToString: the string forms of `-0` and exponent notation are not
  modelled. Numbers are integers here.
- Wav.CreateWavHeader: fractional sample rates are not modelled, because
  `sampleRate` is an integer here. The only caller passes 24000
  (script.js:174).
