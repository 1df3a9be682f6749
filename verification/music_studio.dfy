/** The music studio component: its state, the submit guard, the
    start/settle lifecycle of `handleGenerate`, and the component driven by a
    sequence of user and network events. */
module MusicStudio {

  import opened Common
  import opened Json
  import opened Browser
  import App
  import MusicService

  datatype State = State(
    prompt: string,
    genre: string,
    duration: int,
    loading: bool,
    audioUrl: Option<Value>,
    /** whether a generate request is in flight (the awaited fetch) */
    pending: bool)

  const Genres: set<string> :=
    {"electronic", "orchestral", "jazz", "rock", "hiphop", "ambient", "classical", "reggae"}

  const Initial: State := State("", "electronic", 30, false, None, false)

  /** A value the duration slider can take: a multiple of 5 from 10 to 180. */
  predicate ValidDuration(d: int)
  {
    10 <= d <= 180 && d % 5 == 0
  }

  /** `disabled={loading || !prompt}`, negated. */
  predicate GenerateEnabled(s: State)
  {
    !s.loading && s.prompt != ""
  }

  /** `{audioUrl && ...}`. */
  predicate ResultShown(s: State)
  {
    Shown(s.audioUrl)
  }

  /** The JSON body `handleGenerate` posts. */
  function GenerateRequest(s: State): (body: Value)
    ensures body.JObj? && body.fields.Keys == {"prompt", "genre", "duration"}
    ensures body.fields["prompt"] == JStr(s.prompt) && body.fields["genre"] == JStr(s.genre)
    ensures body.fields["duration"] == JInt(s.duration)
  {
    JObj(map["prompt" := JStr(s.prompt), "genre" := JStr(s.genre), "duration" := JInt(s.duration)])
  }

  /** The synchronous part of `handleGenerate`, up to the awaited fetch. */
  function StartGenerate(s: State): (t: State)
    ensures t.loading && t.pending
    ensures t.audioUrl == s.audioUrl && t.prompt == s.prompt && t.genre == s.genre
            && t.duration == s.duration
  {
    s.(loading := true, pending := true)
  }

  /** The rest of `handleGenerate`: store `data.url` whatever the status,
      keep the old result when the `try` block throws, and clear `loading`
      on every path. */
  function CompleteGenerate(s: State, o: Outcome): (t: State)
    ensures !t.loading && !t.pending
    ensures Delivered(o, "url").Some? ==> t.audioUrl == Delivered(o, "url").value
    ensures Delivered(o, "url").None? ==> t.audioUrl == s.audioUrl
    ensures t.prompt == s.prompt && t.genre == s.genre && t.duration == s.duration
  {
    var url := Delivered(o, "url");
    s.(audioUrl := if url.Some? then url.value else s.audioUrl, loading := false, pending := false)
  }

  datatype Event =
    | EditPrompt(text: string)
    | PickGenre(genre: string)
    | SlideDuration(seconds: int)
    | ClickGenerate
    | Settle(outcome: Outcome)

  /** One event. A click does something only when the button is enabled, a
      pick only when it is one of the offered items, and a settle only when a
      request is in flight. */
  function Step(s: State, e: Event): (t: State)
    ensures e.ClickGenerate? && GenerateEnabled(s) ==> t == StartGenerate(s)
    ensures e.ClickGenerate? && !GenerateEnabled(s) ==> t == s
    ensures e.Settle? && s.pending ==> t == CompleteGenerate(s, e.outcome)
    ensures e.Settle? && !s.pending ==> t == s
  {
    match e
    case EditPrompt(text) => s.(prompt := text)
    case PickGenre(g) => if g in Genres then s.(genre := g) else s
    case SlideDuration(d) => if ValidDuration(d) then s.(duration := d) else s
    case ClickGenerate => if GenerateEnabled(s) then StartGenerate(s) else s
    case Settle(o) => if s.pending then CompleteGenerate(s, o) else s
  }

  /** What holds in every reachable state: `loading` exactly while a request
      is in flight, and the selectors hold values they offer. */
  predicate Invariant(s: State)
  {
    (s.loading <==> s.pending) && s.genre in Genres && ValidDuration(s.duration)
  }

  lemma InitialInvariant()
    ensures Invariant(Initial) && !ResultShown(Initial) && !GenerateEnabled(Initial)
  {
  }

  lemma StepPreservesInvariant(s: State, e: Event)
    requires Invariant(s)
    ensures Invariant(Step(s, e))
  {
  }

  lemma RunPreservesInvariant(s: State, events: seq<Event>)
    requires Invariant(s)
    ensures Invariant(Run(Step, s, events))
  {
    forall x, e | Invariant(x)
      ensures Invariant(Step(x, e))
    {
      StepPreservesInvariant(x, e);
    }
    RunPreserves(Step, Invariant, s, events);
  }

  /** Requests never overlap: while one is in flight a click does nothing,
      and only its settling clears `loading`. */
  lemma NoOverlappingRequests(s: State, e: Event)
    requires Invariant(s) && s.loading
    ensures e.ClickGenerate? ==> Step(s, e) == s
    ensures !e.Settle? ==> Step(s, e).loading
    ensures e.Settle? ==> !Step(s, e).loading
  {
  }

  /** The response body is stored without looking at the status: a 400 or 500
      answer hides the previous result. */
  lemma ErrorResponseHidesResult(s: State, status: int, message: string)
    ensures !ResultShown(CompleteGenerate(s, Completed(App.ErrorResponse(status, message).body)))
  {
    ErrorBodyStoresUndefined(message, "url");
  }

  /** A thrown error leaves the previous result on screen. */
  lemma ThrowKeepsResult(s: State)
    ensures CompleteGenerate(s, Threw).audioUrl == s.audioUrl
  {
  }

  /** Every duration the slider can send is one the music service accepts, so
      an enabled click reaches the service and is answered 200 exactly when
      the WAV file is written, and storing the answer shows the result exactly
      then; a failed write is answered 500 with its message. */
  lemma EnabledRequestAnswered(s: State, filename: string, written: Call<()>, music: App.Service)
    requires Invariant(s) && GenerateEnabled(s)
    requires music(App.Args(JStr(s.prompt), JStr(s.genre), JInt(s.duration)))
             == App.Lift(MusicService.Generate(s.prompt, s.genre, s.duration, filename, written),
                         App.MusicFields)
    ensures var r := App.HandleMusic(GenerateRequest(s), music);
            && (r.status == 200 <==> written.Returned?)
            && (written.Raised? ==> r == App.ErrorResponse(500, written.message))
            && (ResultShown(CompleteGenerate(StartGenerate(s), Completed(r.body))) <==> written.Returned?)
  {
    AnsweredWith(s, MusicService.Generate(s.prompt, s.genre, s.duration, filename, written), music);
  }

  /** The same for any outcome of the music service that a url starting with
      `/` comes back on. */
  lemma AnsweredWith(s: State, g: Call<MusicService.MusicResult>, music: App.Service)
    requires GenerateEnabled(s)
    requires g.Returned? ==> |g.value.url| > 0 && g.value.url[0] == '/'
    requires music(App.Args(JStr(s.prompt), JStr(s.genre), JInt(s.duration))) == App.Lift(g, App.MusicFields)
    ensures var r := App.HandleMusic(GenerateRequest(s), music);
            && (r.status == 200 <==> g.Returned?)
            && (g.Raised? ==> r == App.ErrorResponse(500, g.message))
            && (ResultShown(CompleteGenerate(StartGenerate(s), Completed(r.body))) <==> g.Returned?)
  {
    var body := GenerateRequest(s);
    assert App.Arguments(App.MusicEndpoint, body.fields) == App.Args(JStr(s.prompt), JStr(s.genre), JInt(s.duration));
    if g.Raised? {
      ErrorResponseHidesResult(StartGenerate(s), 500, g.message);
    }
  }
}
