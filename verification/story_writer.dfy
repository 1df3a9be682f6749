/** The story writer component: the form, the reader, the narration player,
    and the request lifecycles of `handleGenerate` and `handleNarrate`, which
    share one `loading` flag. */
module StoryWriter {

  import opened Common
  import opened Json
  import opened Browser
  import App
  import StoryService

  /** Which request, if any, is in flight. */
  datatype Pending = Idle | StoryRequested | NarrationRequested

  datatype State = State(
    prompt: string,
    genre: string,
    length: string,
    loading: bool,
    story: Option<Value>,
    isReading: bool,
    currentPage: int,
    voice: string,
    speed: real,
    audioUrl: Option<Value>,
    pending: Pending)

  const Genres: set<string> :=
    {"sci-fi", "fantasy", "mystery", "thriller", "romance", "horror", "adventure", "literary"}

  const LengthChoices: set<string> := {"flash", "short", "medium", "long"}

  const Voices: set<string> := {"alloy", "echo", "fable", "onyx", "nova", "shimmer"}

  const Initial: State :=
    State("", "sci-fi", "short", false, None, false, 0, "alloy", 1.0, None, Idle)

  /** `!story ? <form> : <reader>`: the reader replaces the form while the
      stored story is truthy. */
  predicate ReaderShown(s: State)
  {
    Shown(s.story)
  }

  /** `disabled={loading || !prompt}`, negated. */
  predicate GenerateEnabled(s: State)
  {
    !s.loading && s.prompt != ""
  }

  /** The narration button sits in the reader while there is no audio url,
      and is disabled while loading. */
  predicate NarrateEnabled(s: State)
  {
    ReaderShown(s) && !Shown(s.audioUrl) && !s.loading
  }

  /** The `<audio id="story-audio">` element and its play/pause button exist
      exactly when the reader is shown and the audio url is truthy. */
  predicate AudioMounted(s: State)
  {
    ReaderShown(s) && Shown(s.audioUrl)
  }

  // ---------------------------------------------------------------------------
  // story generation

  function GenerateRequest(s: State): (body: Value)
    ensures body.JObj? && body.fields.Keys == {"prompt", "genre", "length"}
    ensures body.fields["prompt"] == JStr(s.prompt)
    ensures body.fields["genre"] == JStr(s.genre) && body.fields["length"] == JStr(s.length)
  {
    JObj(map["prompt" := JStr(s.prompt), "genre" := JStr(s.genre), "length" := JStr(s.length)])
  }

  function StartGenerate(s: State): (t: State)
    ensures t.loading && t.pending == StoryRequested
    ensures t.story == s.story && t.audioUrl == s.audioUrl && t.isReading == s.isReading
  {
    s.(loading := true, pending := StoryRequested)
  }

  /** The rest of `handleGenerate`: store `data.story` and go back to page 0
      whatever the status; a thrown error changes neither; `loading` is
      cleared on every path. */
  function CompleteGenerate(s: State, o: Outcome): (t: State)
    ensures !t.loading && t.pending == Idle
    ensures Delivered(o, "story").Some? ==> t.story == Delivered(o, "story").value && t.currentPage == 0
    ensures Delivered(o, "story").None? ==> t.story == s.story && t.currentPage == s.currentPage
    ensures t.audioUrl == s.audioUrl && t.isReading == s.isReading && t.prompt == s.prompt
  {
    var story := Delivered(o, "story");
    if story.Some? then s.(story := story.value, currentPage := 0, loading := false, pending := Idle)
    else s.(loading := false, pending := Idle)
  }

  // ---------------------------------------------------------------------------
  // narration

  /** The body `handleNarrate` posts: `story.content`, the voice and the
      speed. `JSON.stringify` leaves out a member whose value is undefined,
      so a story without `content` posts no `text`. */
  function NarrateRequest(s: State): (body: Value)
    requires ReaderShown(s)
    ensures body.JObj? && "voice" in body.fields && "speed" in body.fields
    ensures body.fields["voice"] == JStr(s.voice) && body.fields["speed"] == JReal(s.speed)
    ensures body.fields.Keys <= {"text", "voice", "speed"}
    ensures "text" in body.fields <==> Property(s.story.value, "content").value.Some?
    ensures "text" in body.fields ==> body.fields["text"] == Property(s.story.value, "content").value.value
  {
    var rest := map["voice" := JStr(s.voice), "speed" := JReal(s.speed)];
    match Property(s.story.value, "content")
    case Returned(Some(text)) => JObj(rest["text" := text])
    case _ => JObj(rest)
  }

  /** The synchronous part of `handleNarrate`: nothing at all without a
      story, otherwise set `loading` and send. */
  function StartNarrate(s: State): (t: State)
    ensures !ReaderShown(s) ==> t == s
    ensures ReaderShown(s) ==>
              t.loading && t.pending == NarrationRequested
              && t.story == s.story && t.audioUrl == s.audioUrl && t.isReading == s.isReading
  {
    if !ReaderShown(s) then s else s.(loading := true, pending := NarrationRequested)
  }

  /** The rest of `handleNarrate`: store `data.url` and mark the narration as
      reading, without starting playback; a thrown error changes neither. */
  function CompleteNarrate(s: State, o: Outcome): (t: State)
    ensures !t.loading && t.pending == Idle
    ensures Delivered(o, "url").Some? ==> t.audioUrl == Delivered(o, "url").value && t.isReading
    ensures Delivered(o, "url").None? ==> t.audioUrl == s.audioUrl && t.isReading == s.isReading
    ensures t.story == s.story && t.currentPage == s.currentPage
  {
    var url := Delivered(o, "url");
    if url.Some? then s.(audioUrl := url.value, isReading := true, loading := false, pending := Idle)
    else s.(loading := false, pending := Idle)
  }

  // ---------------------------------------------------------------------------
  // the player and the reader

  /** `toggleReading`: flips `isReading` when the audio element exists, and
      does nothing otherwise. */
  function ToggleReading(s: State): (t: State)
    ensures AudioMounted(s) ==> t.isReading == !s.isReading && t == s.(isReading := t.isReading)
    ensures !AudioMounted(s) ==> t == s
  {
    if AudioMounted(s) then s.(isReading := !s.isReading) else s
  }

  /** Pressing play/pause twice returns to the same state. */
  lemma ToggleTwice(s: State)
    ensures ToggleReading(ToggleReading(s)) == s
  {
  }

  /** `onEnded`: only `isReading` changes. */
  function AudioEnded(s: State): (t: State)
    ensures !t.isReading && t == s.(isReading := false)
  {
    s.(isReading := false)
  }

  /** "New Story": only the story is dropped; the audio url and the reading
      flag survive. */
  function NewStory(s: State): (t: State)
    ensures !ReaderShown(t)
    ensures t.audioUrl == s.audioUrl && t.isReading == s.isReading && t.loading == s.loading
    ensures t.prompt == s.prompt && t.pending == s.pending && t.currentPage == s.currentPage
    ensures t.genre == s.genre && t.length == s.length && t.voice == s.voice && t.speed == s.speed
  {
    s.(story := None)
  }

  // ---------------------------------------------------------------------------
  // events

  datatype Event =
    | EditPrompt(text: string)
    | PickGenre(genre: string)
    | PickLength(length: string)
    | PickVoice(voice: string)
    | SlideSpeed(speed: real)
    | ClickGenerate
    | ClickNarrate
    | ClickToggle
    | AudioEnd
    | ClickNewStory
    | Settle(outcome: Outcome)

  /** One event, applied only when the control it comes from is mounted and
      enabled: the form's controls while the form is shown, the reader's
      while the reader is shown, the player's while the audio exists. A pick
      must be one of the offered items, the speed within the slider's range. */
  function Step(s: State, e: Event): (t: State)
    ensures e.ClickGenerate? && !ReaderShown(s) && GenerateEnabled(s) ==> t == StartGenerate(s)
    ensures e.ClickGenerate? && (ReaderShown(s) || !GenerateEnabled(s)) ==> t == s
    ensures e.ClickNarrate? && NarrateEnabled(s) ==> t == StartNarrate(s)
    ensures e.ClickNarrate? && !NarrateEnabled(s) ==> t == s
    ensures e.ClickToggle? ==> t == ToggleReading(s)
    ensures e.AudioEnd? && AudioMounted(s) ==> t == AudioEnded(s)
    ensures e.AudioEnd? && !AudioMounted(s) ==> t == s
    ensures e.ClickNewStory? && ReaderShown(s) ==> t == NewStory(s)
    ensures e.ClickNewStory? && !ReaderShown(s) ==> t == s
    ensures e.EditPrompt? && !ReaderShown(s) ==> t == s.(prompt := e.text)
    ensures e.PickGenre? && !ReaderShown(s) && e.genre in Genres ==> t == s.(genre := e.genre)
    ensures e.PickLength? && !ReaderShown(s) && e.length in LengthChoices ==> t == s.(length := e.length)
    ensures (e.EditPrompt? || e.PickGenre? || e.PickLength?) && ReaderShown(s) ==> t == s
    ensures e.PickGenre? && e.genre !in Genres ==> t == s
    ensures e.PickLength? && e.length !in LengthChoices ==> t == s
    ensures e.PickVoice? && ReaderShown(s) && e.voice in Voices ==> t == s.(voice := e.voice)
    ensures e.SlideSpeed? && ReaderShown(s) && 0.5 <= e.speed <= 2.0 ==> t == s.(speed := e.speed)
    ensures (e.PickVoice? || e.SlideSpeed?) && !ReaderShown(s) ==> t == s
    ensures e.PickVoice? && e.voice !in Voices ==> t == s
    ensures e.SlideSpeed? && !(0.5 <= e.speed <= 2.0) ==> t == s
    ensures e.Settle? && s.pending == StoryRequested ==> t == CompleteGenerate(s, e.outcome)
    ensures e.Settle? && s.pending == NarrationRequested ==> t == CompleteNarrate(s, e.outcome)
    ensures e.Settle? && s.pending == Idle ==> t == s
  {
    match e
    case EditPrompt(text) => if !ReaderShown(s) then s.(prompt := text) else s
    case PickGenre(g) => if !ReaderShown(s) && g in Genres then s.(genre := g) else s
    case PickLength(l) => if !ReaderShown(s) && l in LengthChoices then s.(length := l) else s
    case PickVoice(v) => if ReaderShown(s) && v in Voices then s.(voice := v) else s
    case SlideSpeed(x) => if ReaderShown(s) && 0.5 <= x <= 2.0 then s.(speed := x) else s
    case ClickGenerate => if !ReaderShown(s) && GenerateEnabled(s) then StartGenerate(s) else s
    case ClickNarrate => if NarrateEnabled(s) then StartNarrate(s) else s
    case ClickToggle => ToggleReading(s)
    case AudioEnd => if AudioMounted(s) then AudioEnded(s) else s
    case ClickNewStory => if ReaderShown(s) then NewStory(s) else s
    case Settle(o) =>
      match s.pending
      case Idle => s
      case StoryRequested => CompleteGenerate(s, o)
      case NarrationRequested => CompleteNarrate(s, o)
  }

  /** What holds in every reachable state: `loading` exactly while one of the
      two requests is in flight, and the selectors and slider hold values
      they offer. */
  predicate Invariant(s: State)
  {
    (s.loading <==> s.pending != Idle)
    && s.genre in Genres && s.length in LengthChoices && s.voice in Voices
    && 0.5 <= s.speed <= 2.0
  }

  lemma InitialInvariant()
    ensures Invariant(Initial) && !ReaderShown(Initial) && !GenerateEnabled(Initial)
    ensures !AudioMounted(Initial) && !Initial.isReading
  {
  }

  lemma StepPreservesInvariant(s: State, e: Event)
    requires Invariant(s)
    ensures Invariant(Step(s, e))
  {
  }

  lemma RunPreservesInvariant(s: State, events: seq<Event>)
    requires Invariant(s)
    ensures Invariant(Run(Step, s, events))
  {
    forall x, e | Invariant(x)
      ensures Invariant(Step(x, e))
    {
      StepPreservesInvariant(x, e);
    }
    RunPreserves(Step, Invariant, s, events);
  }

  /** At most one request is in flight: while one is pending neither button
      starts another, and only the settle clears `loading`. */
  lemma NoOverlappingRequests(s: State, e: Event)
    requires Invariant(s) && s.loading
    ensures e.ClickGenerate? || e.ClickNarrate? ==> Step(s, e) == s
    ensures !e.Settle? ==> Step(s, e).loading && Step(s, e).pending == s.pending
    ensures e.Settle? ==> !Step(s, e).loading
  {
  }

  // ---------------------------------------------------------------------------
  // consequences

  /** A 400 or 500 answer to generation stores an undefined story, so the
      form comes back and a story that was shown is gone. */
  lemma ErrorResponseClosesReader(s: State, status: int, message: string)
    ensures !ReaderShown(CompleteGenerate(s, Completed(App.ErrorResponse(status, message).body)))
  {
    ErrorBodyStoresUndefined(message, "story");
  }

  /** A 400 or 500 answer to narration stores an undefined url yet still sets
      `isReading`, and the narration button is offered again. */
  lemma ErrorResponseToNarration(s: State, status: int, message: string)
    requires ReaderShown(s)
    ensures var t := CompleteNarrate(s, Completed(App.ErrorResponse(status, message).body));
            t.isReading && !AudioMounted(t) && NarrateEnabled(t)
  {
    ErrorBodyStoresUndefined(message, "url");
  }

  /** The audio url outlives "New Story": after the next story arrives the old
      narration's player is mounted again under the new story. */
  lemma StaleNarrationReappears(s: State, o: Outcome)
    requires Invariant(s) && AudioMounted(s) && !s.loading && s.prompt != ""
    requires Delivered(o, "story").Some? && Shown(Delivered(o, "story").value)
    ensures var t := Run(Step, s, [ClickNewStory, ClickGenerate, Settle(o)]);
            AudioMounted(t) && t.audioUrl == s.audioUrl
  {
    var s1 := Step(s, ClickNewStory);
    assert s1 == NewStory(s);
    var s2 := Step(s1, ClickGenerate);
    assert s2 == StartGenerate(s1);
    var s3 := Step(s2, Settle(o));
    assert s3 == CompleteGenerate(s2, o);
    assert Run(Step, s, [ClickNewStory, ClickGenerate, Settle(o)]) == Run(Step, s1, [ClickGenerate, Settle(o)]);
    assert Run(Step, s1, [ClickGenerate, Settle(o)]) == Run(Step, s2, [Settle(o)]);
    assert Run(Step, s2, [Settle(o)]) == Run(Step, s3, []);
  }

  /** The length selector only offers keys of the length table, so the story
      service's default word count is never used from the studio. */
  lemma LengthIsKnown(s: State)
    requires Invariant(s)
    ensures s.length in StoryService.Lengths
    ensures StoryService.TargetWords(s.length) == StoryService.Lengths[s.length]
  {
  }

  /** The speed slider never reaches zero, so narration requested from the
      studio never fails on the duration estimate. */
  lemma StudioSpeedNeverDividesByZero(s: State, text: string,
                                      speak: StoryService.SpeechRequest -> Call<()>, filename: string)
    requires Invariant(s)
    requires speak(StoryService.SpeechRequestFor(text, s.voice, s.speed)).Returned?
    ensures StoryService.Narrate(text, s.voice, s.speed, speak, filename).Returned?
  {
  }

  /** An enabled generate click posts a non-empty prompt, so the server never
      answers it with 400, whatever the service does. */
  lemma EnabledGeneratePassesGuard(s: State, story: App.Service)
    requires GenerateEnabled(s)
    ensures App.HandleStory(GenerateRequest(s), story).status != 400
  {
    var body := GenerateRequest(s);
    assert App.Arguments(App.StoryEndpoint, body.fields).first == JStr(s.prompt);
  }
}
