# ArciTEK.AI studio core in Dafny

ArciTEK.AI is a creation studio. A React front end has three components:
- a story writer with voice narration;
- a music studio;
- an image lab.

Each component posts to a Flask server whose services write stories, narrate them, synthesise WAV audio and generate images. This project models the sequential logic beneath the markup and the library calls, and proves properties of it.

- **Story service**:
  - the length-to-word-count table and the token cap;
  - the `TITLE:` reply parser, built on Python's `strip`, `split`, `in`, `replace` and `title`;
  - whitespace word counting and the demo story;
  - narration with its 4000-character input limit.
- **Music service**:
  - the enhanced prompt and the result record;
  - the sample count;
  - 24-bit little-endian two's-complement sample encoding and stereo frame layout. Encoding and decoding are proved mutually inverse.
- **Image service**:
  - the style and resolution tables with their defaults, and the enhanced prompt;
  - the upscale decision;
  - the placeholder text and its centring by floor division.
- **Flask handlers**: the four POST routes, as one generic handler over an endpoint description. They are pure functions from the decoded request body to a status code and a JSON body:
  - `dict.get` defaults;
  - the truthiness guard (400);
  - exceptions as 500 `{error: str(e)}`;
  - the 200 body shapes, including the `KeyError` raised when a result key is missing.
- **Studio components**: immutable state records with start/settle transitions for every asynchronous handler, and a `Step` function over user and network events.
  - Every component has an invariant: `loading` holds exactly while a request is in flight, and the selectors hold offered values.
  - The invariant is proved for every event sequence.
  - Cross-layer lemmas connect the components to the handlers and the services. Examples: a 400 answer hides the music result, and a stale narration reappears under a new story.

Modules: `Common` (Option, Call, `dict.get`), `Decimal` (integer formatting), `Text` (Python string operations), `Json` (values, Python and JavaScript truthiness), `Browser` (fetch outcomes, property reads), `StoryService`, `MusicService`, `ImageService`, `App`, `StoryWriter`, `MusicStudio`, `ImageLab`.

Each call into foreign code that can fail is a parameter of the function that makes it. A `Call` either returns a value or raises with a message. The parameters are:
- `chat`, `render` and `speak`: the OpenAI chat, image and speech calls. `render` also covers the download and PIL's open.
- `draw`: drawing the placeholder text with PIL.
- `written`: writing the WAV file.
- `demoSave`: saving the placeholder image.
- `saved`: a flag for whether the story file or the generated image was written. Both writes sit inside a `try` whose failure leads to the demo result, so the message does not matter.

Clock-based file names are parameters too. Two library steps are not parameters. numpy's sine synthesis is replaced by a given list of integer samples; only its error on a negative sample count is modelled. PIL's resize is taken to succeed. A component's network request is an `Outcome`: either the parsed response body, whatever the HTTP status, or a thrown error.

The model follows the code as written:
- there is no failed status in any component (errors are only logged);
- there is no ended state (the audio `onEnded` only clears `isReading`);
- "New Story" clears the story only and keeps the narration url;
- a completed narration sets `isReading` without starting playback;
- a reply with the marker but only one newline loses nothing, while with two or more newlines the second line is dropped.

## Model

| member | source | states |
|---|---|---|
| Common.GetOr | backend/app.py:58-60 | `dict.get`: the stored value when the key is present, the default otherwise |
| Common.RunPreserves | src/components/MusicStudio.jsx:12-37 | a state predicate that every event preserves holds after any sequence of events |
| Decimal.NatToString | backend/services/music_service.py:30 | decimal rendering is non-empty, all digits, with no leading zero |
| Decimal.IntToString | backend/services/music_service.py:30 | the rendering starts with '-' exactly for negative numbers |
| Decimal.NatRoundTrip | backend/services/music_service.py:30 | parsing the rendered digits gives back the natural number |
| Decimal.IntRoundTrip | backend/services/music_service.py:30 | parsing the rendering of any integer gives back that integer |
| Text.LeadingSpace | backend/services/story_service.py:74 | length of the whitespace prefix: all whitespace, and the next character is not |
| Text.TrailingSpace | backend/services/story_service.py:74 | length of the whitespace suffix: all whitespace, and the character before it is not |
| Text.Strip | backend/services/story_service.py:74 | `str.strip`: a contiguous slice with only whitespace outside it and no whitespace at either end |
| Text.StripIdempotent | backend/services/story_service.py:79-80 | stripping twice is stripping once |
| Text.StripOfStripped | backend/services/story_service.py:74 | text with non-space ends is its own strip |
| Text.WordLength | backend/services/story_service.py:86 | length of the leading non-whitespace run |
| Text.Words | backend/services/story_service.py:86 | `str.split()`: every word returned is non-empty and contains no whitespace |
| Text.WordsDropSpace | backend/services/story_service.py:86 | leading whitespace does not change the words |
| Text.WordsDropLetter | backend/services/story_service.py:86 | dropping the first letter of a word removes a word exactly when the word had length one |
| Text.CountWords | backend/services/story_service.py:86 | counting word starts in a single loop gives the number of words of `split()` |
| Text.WordsOfJoin | backend/services/story_service.py:180 | words joined by single spaces split back into the same words |
| Text.ContainsIffOccurs | backend/services/story_service.py:77 | `p in s` holds iff `p` occurs at some index of `s` |
| Text.RemoveAll | backend/services/story_service.py:79 | `str.replace(p, "")` never lengthens, leaves text without `p` unchanged, and removes at least one copy of `p` when `s` contains it |
| Text.RemoveLeadingMarker | backend/services/story_service.py:79 | removing the marker from marker+x gives x when x has no marker |
| Text.IndexOf | backend/services/story_service.py:78 | the first position of a character, or none when absent |
| Text.SplitN | backend/services/story_service.py:78 | `split(c, n)`: 1..n+1 parts that join back to the input, no separator in the cut parts, none in the last when fewer than n+1 |
| Text.Take | backend/services/image_service.py:118 | `s[:n]` is the prefix of length min(n, len s) |
| Text.ToUpper | backend/services/story_service.py:82 | a lower-case letter becomes the upper-case letter at the same alphabet position; other characters are unchanged |
| Text.ToLower | backend/services/story_service.py:82 | an upper-case letter becomes the lower-case letter at the same alphabet position; other characters are unchanged |
| Text.CaseRoundTrip | backend/services/story_service.py:82 | upper-casing then lower-casing a lower-case letter gives it back, and the other way round |
| Text.TitleFrom | backend/services/story_service.py:169 | title-casing continued after a letter or not: same length, case only changes on letters |
| Text.TitleCase | backend/services/story_service.py:82 | `str.title()` on ASCII: a letter is upper case iff it starts the string or follows a non-letter, others untouched |
| Text.TitleCaseIdempotent | backend/services/story_service.py:169 | title-casing twice is title-casing once |
| Text.CaseAgrees | backend/services/story_service.py:169 | two case-variants of a letter with the same case are equal |
| StoryService.TargetWords | backend/services/story_service.py:17-22 | flash 500, short 2000, medium 10000, long 25000, any other key 2000 |
| StoryService.MaxTokens | backend/services/story_service.py:70 | `min(2*wc, 16000)`: at most the cap and at most twice the count, equal to one of them |
| StoryService.MaxTokensByLength | backend/services/story_service.py:70 | the per-length limits: 1000, 4000, 16000, 16000, and 4000 for unknown keys |
| StoryService.StoryRequest | backend/services/story_service.py:63-71 | the chat model, temperature 0.8, the genre's system prompt, and the length's word count in the prompt and the token limit |
| StoryService.ParseReply | backend/services/story_service.py:74-83 | no parse (the IndexError) exactly when the stripped reply has the marker and no newline; without the marker, the title "<Genre> Story" and the stripped reply |
| StoryService.ParseTitleLine | backend/services/story_service.py:77-79 | with the marker, the title is the first line with every marker removed, stripped |
| StoryService.ParseOneNewline | backend/services/story_service.py:80 | with exactly one newline, the content is the second line, stripped |
| StoryService.ParseTwoNewlines | backend/services/story_service.py:80 | with two or more newlines, the content is what follows the second one, stripped |
| StoryService.ParseRequestedFormat | backend/services/story_service.py:53-56 | a reply in the requested `TITLE: t` / blank line / body format parses back to (t, body) |
| StoryService.DemoStory | backend/services/story_service.py:165-188 | title "The <Genre> Tale", the content opens with the prompt, word count of its own content, fixed file name |
| StoryService.FromReply | backend/services/story_service.py:74-103 | the parsed title and content with their own word count, or the demo story when parsing or saving fails |
| StoryService.Generate | backend/services/story_service.py:58-108 | a raised chat call gives the demo story; otherwise the reply is parsed; the word count always matches the content |
| StoryService.MarkerWithoutNewlineGivesDemo | backend/services/story_service.py:105-108 | a reply with the marker and no newline ends in the demo story |
| StoryService.SpeechText | backend/services/story_service.py:126-128 | text up to 4000 characters is unchanged; longer text becomes its first 4000 characters plus "...", 4003 in all |
| StoryService.TruncToInt | backend/services/story_service.py:147 | `int()` of a real truncates toward zero |
| StoryService.SpeechRequestFor | backend/services/story_service.py:132-137 | speech request for tts-1-hd with the voice, the speed and the truncated text |
| StoryService.Narrate | backend/services/story_service.py:161-163 | a raised synthesis is re-raised with its message; success iff synthesis succeeds and speed is non-zero; url "/api/outputs/stories/"+filename |
| MusicService.EnhancedPrompt | backend/services/music_service.py:30 | the enhanced prompt is the user's prompt, ". Genre: ", the genre, ". Duration: approximately ", the decimal duration and " seconds.", each at its position |
| MusicService.TrailingNumber | backend/services/music_service.py:30 | length of the longest suffix of digits and minus signs |
| MusicService.EnhancedPromptStatesDuration | backend/services/music_service.py:30 | reading the number before " seconds." back from the enhanced prompt gives the duration |
| MusicService.NumSamples | backend/services/music_service.py:69 | 96000 samples per second, non-negative iff the duration is |
| MusicService.Generate | backend/services/music_service.py:36-89 | returns iff the duration is non-negative and the WAV write returns; a negative duration raises numpy's sample-count message; a failed write raises its message; otherwise the music url, the duration echoed, WAV, 96kHz, 24-bit |
| MusicService.Sample24 | backend/services/music_service.py:88 | a sample becomes three bytes |
| MusicService.Decode24 | backend/services/music_service.py:88 | any three bytes decode to a value in the signed 24-bit range |
| MusicService.DecodeEncode24 | backend/services/music_service.py:88 | decoding the little-endian two's-complement encoding gives back every 24-bit sample |
| MusicService.EncodeDecode24 | backend/services/music_service.py:88 | encoding the decoded value gives back any three bytes |
| MusicService.ToBytes3 | backend/services/music_service.py:88 | `to_bytes(3, 'little', signed=True)` succeeds iff the value fits, and decodes back to it |
| MusicService.Frame | backend/services/music_service.py:89 | a frame is six bytes: the sample's three bytes for each of the two channels |
| MusicService.Frames | backend/services/music_service.py:86-89 | the data is six bytes per sample |
| MusicService.FramesAt | backend/services/music_service.py:86-89 | the i-th six bytes of the data are the frame of the i-th sample |
| MusicService.WriteFrames | backend/services/music_service.py:86-89 | the frame-writing loop produces the frames of every sample in order |
| MusicService.DecodeFrames | backend/services/music_service.py:86-89 | decoding reads one stereo pair per six bytes |
| MusicService.DecodeFramesRoundTrip | backend/services/music_service.py:86-89 | decoding the written data gives each sample on both channels |
| MusicService.DemoWavData | backend/services/music_service.py:86-89 | writing the samples succeeds iff all fit 24 bits, six bytes per sample |
| MusicService.DemoWavLength | backend/services/music_service.py:64-77 | samples scaled within ±(2^23-1) always encode, into 6·96000·duration bytes |
| ImageService.TargetSize | backend/services/image_service.py:20-25 | hd 1920×1080, 2k 2560×1440, 4k 3840×2160, 8k 7680×4320, any other key 3840×2160 |
| ImageService.UnknownResolutionIs4k | backend/services/image_service.py:75 | an unknown resolution key behaves as 4k |
| ImageService.StyleDescription | backend/services/image_service.py:40-51 | the description from the 8-entry style table, or "high quality artwork" |
| ImageService.EnhancedPrompt | backend/services/image_service.py:52 | the prompt, ", ", then the style description |
| ImageService.Upscaled | backend/services/image_service.py:76-78 | resized to exactly the target iff it is wider or taller than the image, unchanged otherwise |
| ImageService.UpscaledCoversTarget | backend/services/image_service.py:76-78 | after the upscale step the image covers the target in both dimensions, and a second step changes nothing |
| ImageService.SizeLabel | backend/services/image_service.py:95 | the "WxH" label has one 'x'; the digits before it read back as the width and those after it as the height |
| ImageService.FloorDivByTwo | backend/services/image_service.py:124 | Python's `// 2` is Dafny's division by two, with remainder 0 or 1 |
| ImageService.DemoText | backend/services/image_service.py:118 | the placeholder text is the brand lines, the first min(100, len) characters of the prompt, the demo lines and the size label, in that order |
| ImageService.TextPosition | backend/services/image_service.py:121-124 | the text box is centred: the margins on the two sides differ by at most one pixel, and the position is non-negative when the box fits |
| ImageService.DemoImage | backend/services/image_service.py:104-140 | returns iff drawing the text and saving return; otherwise raises the first failure's message; on success the placeholder's url, file name, target-size label and megapixels |
| ImageService.Generate | backend/services/image_service.py:54-102 | the upscaled rendering when rendering and saving succeed, otherwise the placeholder; raises exactly when the fallback is taken and the placeholder raises |
| ImageService.GenerateMeetsTarget | backend/services/image_service.py:75-102 | whenever a result is returned, its reported size is at least the target size |
| Json.TruthinessAgrees | backend/app.py:62 | Python and JavaScript truthiness differ only on empty arrays and objects; a string is truthy iff non-empty |
| Json.PyTruthy | backend/app.py:62 | `not x` holds exactly for None, False, 0, 0.0, the empty string, the empty list and the empty dict |
| Json.JsTruthy | src/components/MusicStudio.jsx:101 | `!x` holds exactly for null, false, 0, 0.0 and the empty string |
| Json.PyTypeName | backend/app.py:58 | the type named in the AttributeError is "dict" exactly for objects |
| Browser.Property | src/components/MusicStudio.jsx:31 | `data.url` throws on null and is undefined for a missing key or a non-object |
| Browser.Delivered | src/components/MusicStudio.jsx:30-33 | a settled request stores the property unless the try block threw |
| Browser.ErrorBodyStoresUndefined | src/components/MusicStudio.jsx:31 | an `{error}` body stores undefined for `url` or `story`, which is falsy |
| App.Lookup | backend/app.py:70-71 | `result[key]` returns the value, or raises KeyError whose message is the quoted key |
| App.Arguments | backend/app.py:58-60 | the required field is None when absent; an optional field takes its default only when its key is absent |
| App.Handle | backend/app.py:56-77 | a non-dict body gives 500 on `get`; a falsy required field gives 400; a raised service or a raised reply gives 500 with that message; 200 exactly when service and reply succeed |
| App.RejectedIgnoresService | backend/app.py:62-63 | a rejected request gets the same non-200 response whatever the service |
| App.ServiceSeesArguments | backend/app.py:58-66 | the response depends on the service only through its answer for the defaulted arguments |
| App.ErrorsCarryOnlyMessage | backend/app.py:76-77 | every non-200 body is `{error: <string>}` and nothing else |
| App.MusicReply | backend/app.py:68-74 | success, url, filename, 'WAV', '96kHz/24-bit'; KeyError on the first missing key |
| App.ImageReply | backend/app.py:104-110 | success, url, filename, resolution, megapixels; a KeyError naming each missing key in the order the dict is built |
| App.StoryReply | backend/app.py:140-147 | success and a story object holding exactly title, content and word_count |
| App.NarrateReply | backend/app.py:177-182 | success, url, filename, duration; a KeyError naming each missing key in the order the dict is built |
| App.HandleMusic | backend/app.py:56-77 | 400 without a truthy prompt; defaults electronic/30; a 200 body has exactly the five music keys |
| App.HandleImage | backend/app.py:92-113 | 400 without a truthy prompt; defaults photorealistic/4k; a 200 body has exactly the five image keys |
| App.HandleStory | backend/app.py:128-150 | 400 without a truthy prompt; defaults sci-fi/short; a 200 body nests title, content, word_count |
| App.HandleNarrate | backend/app.py:165-185 | 400 without truthy text; defaults alloy/1.0; a 200 body has url, filename, duration |
| App.NonObjectBodyFails | backend/app.py:57-58 | a body that is not a JSON object gives 500 on every route |
| App.MusicRequestWithDefaults | backend/app.py:59-74 | a prompt-only request uses genre electronic and 30 seconds; it is answered 200 with the music url when the WAV write returns and 500 with the write's message when it raises |
| App.NegativeDurationFails | backend/app.py:76-77 | a negative duration reaches the service and is answered 500 with the sample-count message for 96000 times the duration |
| App.StoryRequestAnswered | backend/app.py:138-147 | a story request with a prompt is always answered 200, with the word count of the content returned |
| App.StoryAnswered | backend/app.py:140-147 | a story result is passed through under 'story' unchanged |
| App.ZeroSpeedNarrationFails | backend/app.py:184-185 | narration at speed zero is answered 500 "float division by zero" |
| App.NarrationAnswered | backend/app.py:177-182 | successful narration is answered 200 with the story-audio url |
| App.ImageRequestAnswered | backend/app.py:92-113 | an image request with a prompt is answered 200 exactly when the image service returns, then with a size covering the target, and 500 with its message otherwise |
| App.ImageAnswered | backend/app.py:102-110 | for any outcome of the image service: 200 iff it returned, with its resolution passed through; 500 with its message when it raised |
| MusicStudio.GenerateRequest | src/components/MusicStudio.jsx:24-28 | posts exactly the keys prompt, genre and duration, holding the form's prompt, genre and slider value |
| MusicStudio.StartGenerate | src/components/MusicStudio.jsx:19 | sets loading and leaves the result alone |
| MusicStudio.CompleteGenerate | src/components/MusicStudio.jsx:30-36 | stores `data.url` whatever the status, keeps the result on a throw, clears loading on every path |
| MusicStudio.Step | src/components/MusicStudio.jsx:99-101 | a click starts a request iff not loading and the prompt is non-empty |
| MusicStudio.InitialInvariant | src/components/MusicStudio.jsx:12-16 | the initial state satisfies the invariant, shows no result and cannot submit |
| MusicStudio.StepPreservesInvariant | src/components/MusicStudio.jsx:87-93 | every event keeps loading ⇔ pending, a listed genre, and a duration that is a multiple of 5 in [10, 180] |
| MusicStudio.RunPreservesInvariant | src/components/MusicStudio.jsx:18-37 | the invariant holds after any sequence of events |
| MusicStudio.NoOverlappingRequests | src/components/MusicStudio.jsx:101 | while loading, clicks do nothing and only the settle clears loading |
| MusicStudio.ErrorResponseHidesResult | src/components/MusicStudio.jsx:118 | a 400 or 500 answer hides the result panel |
| MusicStudio.ThrowKeepsResult | src/components/MusicStudio.jsx:32-33 | a thrown error keeps the previous result |
| MusicStudio.EnabledRequestAnswered | src/components/MusicStudio.jsx:89-91 | every slider duration is accepted: an enabled click is answered 200 and shows the result exactly when the WAV write returns, and 500 with the write's message otherwise |
| MusicStudio.AnsweredWith | src/components/MusicStudio.jsx:18-37 | for any outcome of the music service: 200 iff it returned, 500 with its message otherwise, and the result is shown exactly after a 200 |
| ImageLab.GenerateRequest | src/components/ImageLab.jsx:23-27 | posts exactly the keys prompt, style and resolution, holding the form's values |
| ImageLab.StartGenerate | src/components/ImageLab.jsx:18 | sets loading and leaves the image alone |
| ImageLab.CompleteGenerate | src/components/ImageLab.jsx:29-35 | stores `data.url` whatever the status, keeps the image on a throw, clears loading on every path |
| ImageLab.Step | src/components/ImageLab.jsx:98-100 | a click starts a request iff not loading and the prompt is non-empty |
| ImageLab.InitialInvariant | src/components/ImageLab.jsx:11-15 | the initial state (photorealistic, 4k) satisfies the invariant and shows no image |
| ImageLab.StepPreservesInvariant | src/components/ImageLab.jsx:89-92 | every event keeps loading ⇔ pending and listed style and resolution values |
| ImageLab.RunPreservesInvariant | src/components/ImageLab.jsx:17-36 | the invariant holds after any sequence of events |
| ImageLab.NoOverlappingRequests | src/components/ImageLab.jsx:100 | while loading, clicks do nothing and only the settle clears loading |
| ImageLab.ChoicesAreKnown | src/components/ImageLab.jsx:70-92 | offered styles and resolutions are keys of the service's tables |
| ImageLab.ErrorResponseHidesResult | src/components/ImageLab.jsx:117 | a 400 or 500 answer hides the image panel |
| ImageLab.EnabledRequestAnswered | src/components/ImageLab.jsx:98-100 | an enabled click is answered 200 and shows the image exactly when the image service returns, and 500 with its message otherwise |
| ImageLab.AnsweredWith | src/components/ImageLab.jsx:17-36 | for any outcome of the image service: 200 iff it returned, 500 with its message otherwise, and the image is shown exactly after a 200 |
| StoryWriter.GenerateRequest | src/components/StoryWriter.jsx:29-33 | posts exactly the keys prompt, genre and length, holding the form's values |
| StoryWriter.StartGenerate | src/components/StoryWriter.jsx:24 | sets loading, leaves story and audio alone |
| StoryWriter.CompleteGenerate | src/components/StoryWriter.jsx:35-42 | stores `data.story` and page 0 whatever the status, leaves both on a throw, clears loading on every path |
| StoryWriter.NarrateRequest | src/components/StoryWriter.jsx:53-57 | posts the selected voice and speed, and `text` exactly when the story has content, holding `story.content` |
| StoryWriter.StartNarrate | src/components/StoryWriter.jsx:46-48 | no change at all without a story, otherwise sets loading |
| StoryWriter.CompleteNarrate | src/components/StoryWriter.jsx:59-66 | stores `data.url` and sets isReading, both unchanged on a throw, clears loading |
| StoryWriter.ToggleReading | src/components/StoryWriter.jsx:69-79 | flips isReading only when the audio element exists, otherwise nothing changes |
| StoryWriter.ToggleTwice | src/components/StoryWriter.jsx:69-79 | toggling twice restores the state |
| StoryWriter.AudioEnded | src/components/StoryWriter.jsx:259 | the end of playback clears isReading only |
| StoryWriter.NewStory | src/components/StoryWriter.jsx:177 | drops the story and changes nothing else; the audio url survives |
| StoryWriter.Step | src/components/StoryWriter.jsx:110-260 | each event acts only when its control is mounted and enabled and its value is offered, and leaves the state unchanged otherwise; a settle completes the pending request, and does nothing when none is pending |
| StoryWriter.InitialInvariant | src/components/StoryWriter.jsx:12-21 | the initial state satisfies the invariant, shows the form and cannot submit |
| StoryWriter.StepPreservesInvariant | src/components/StoryWriter.jsx:110-230 | every event keeps loading ⇔ a pending request, offered genre, length and voice, and speed in [0.5, 2] |
| StoryWriter.RunPreservesInvariant | src/components/StoryWriter.jsx:23-67 | the invariant holds after any sequence of events |
| StoryWriter.NoOverlappingRequests | src/components/StoryWriter.jsx:239 | while loading neither button starts a request and the pending one stays pending |
| StoryWriter.ErrorResponseClosesReader | src/components/StoryWriter.jsx:36 | a 400 or 500 answer to generation stores an undefined story, so the form returns |
| StoryWriter.ErrorResponseToNarration | src/components/StoryWriter.jsx:60-61 | a 400 or 500 answer to narration sets isReading with no audio, and the narrate button is enabled again |
| StoryWriter.StaleNarrationReappears | src/components/StoryWriter.jsx:177 | after New Story and a new story, the old narration's player is mounted again |
| StoryWriter.LengthIsKnown | src/components/StoryWriter.jsx:134-137 | the offered lengths are keys of the service's table |
| StoryWriter.StudioSpeedNeverDividesByZero | src/components/StoryWriter.jsx:224-228 | the slider speed is never zero, so narration does not fail on the estimate |
| StoryWriter.EnabledGeneratePassesGuard | src/components/StoryWriter.jsx:145 | an enabled generate click is never answered 400 |

## Left out

- HTTP transport: `fetch`, Flask routing, CORS, `send_file`, and the `serve_output` and health-check routes. They are I/O; responses are modelled as parsed bodies and statuses.
- The OpenAI chat, image and speech calls, `requests.get`, PIL's open, draw and save, and the file writes: foreign code. They are `Call`-valued parameters, or the `saved` flag where only success matters.
- PIL's resize is taken to succeed. It runs inside the same `try` as the rendering, so a failure would only lead to the placeholder, as a failed rendering does.
- Clock-based file names (`int(time.time())`): they are parameters.
- The `filepath` entries of the result dicts: the handlers never read them.
- Sine-wave synthesis and the numpy float pipeline: floating point. The samples are given as integers and must fit 24 bits, which the 0.3 scale guarantees.
- Whether numpy `int32` scalars support `.to_bytes`: the model uses Python `int.to_bytes(3, 'little', signed=True)`.
- The WAV header written by `wave`: library code. Only the frame data is modelled.
- Floats as reals:
  - ImageService.Megapixels: exact real; the rounding to one decimal is left out.
  - StoryService.EstimatedSeconds: computed in exact reals; the float rounding of the narration duration is left out.
  - The speed slider: its 0.1 step is not modelled, only its range.
- Text.TitleCase: cases ASCII letters only. Python's `str.title()` also cases other Unicode letters.
- Text.IsSpace: covers the characters Python's `str.isspace` accepts. Unicode normalisation is not modelled.
- Browser.Property: error messages of thrown TypeErrors are not modelled beyond the fact of throwing.
- JSON number encoding: `JSON.stringify(1.0)` sends `1`, which Python decodes as an int. The model sends reals. Python's int and float behave alike in the narration arithmetic.
- The content-type check of Flask's `request.json`: it is I/O. The body is the decoded JSON value.
- Download anchors, `window.open`, the PDF stub, the page counter beyond its reset, and all layout.
- src/App.jsx: only a tab selector. It is not part of this model.
