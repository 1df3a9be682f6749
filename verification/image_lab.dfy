/** The image lab component: its state, the submit guard, the start/settle
    lifecycle of `handleGenerate`, and the component driven by a sequence of
    user and network events. */
module ImageLab {

  import opened Common
  import opened Json
  import opened Browser
  import App
  import ImageService

  datatype State = State(
    prompt: string,
    style: string,
    resolution: string,
    loading: bool,
    imageUrl: Option<Value>,
    /** whether a generate request is in flight (the awaited fetch) */
    pending: bool)

  const Styles: set<string> :=
    {"photorealistic", "artistic", "concept-art", "anime", "3d-render", "oil-painting",
     "cyberpunk", "fantasy"}

  const ResolutionChoices: set<string> := {"hd", "2k", "4k", "8k"}

  const Initial: State := State("", "photorealistic", "4k", false, None, false)

  /** `disabled={loading || !prompt}`, negated. */
  predicate GenerateEnabled(s: State)
  {
    !s.loading && s.prompt != ""
  }

  /** `{imageUrl && ...}`. */
  predicate ResultShown(s: State)
  {
    Shown(s.imageUrl)
  }

  /** The JSON body `handleGenerate` posts. */
  function GenerateRequest(s: State): (body: Value)
    ensures body.JObj? && body.fields.Keys == {"prompt", "style", "resolution"}
    ensures body.fields["prompt"] == JStr(s.prompt) && body.fields["style"] == JStr(s.style)
    ensures body.fields["resolution"] == JStr(s.resolution)
  {
    JObj(map["prompt" := JStr(s.prompt), "style" := JStr(s.style), "resolution" := JStr(s.resolution)])
  }

  /** The synchronous part of `handleGenerate`, up to the awaited fetch. */
  function StartGenerate(s: State): (t: State)
    ensures t.loading && t.pending
    ensures t.imageUrl == s.imageUrl && t.prompt == s.prompt && t.style == s.style
            && t.resolution == s.resolution
  {
    s.(loading := true, pending := true)
  }

  /** The rest of `handleGenerate`: store `data.url` whatever the status,
      keep the old image when the `try` block throws, and clear `loading`
      on every path. */
  function CompleteGenerate(s: State, o: Outcome): (t: State)
    ensures !t.loading && !t.pending
    ensures Delivered(o, "url").Some? ==> t.imageUrl == Delivered(o, "url").value
    ensures Delivered(o, "url").None? ==> t.imageUrl == s.imageUrl
    ensures t.prompt == s.prompt && t.style == s.style && t.resolution == s.resolution
  {
    var url := Delivered(o, "url");
    s.(imageUrl := if url.Some? then url.value else s.imageUrl, loading := false, pending := false)
  }

  datatype Event =
    | EditPrompt(text: string)
    | PickStyle(style: string)
    | PickResolution(resolution: string)
    | ClickGenerate
    | Settle(outcome: Outcome)

  /** One event. A click does something only when the button is enabled, a
      pick only when it is one of the offered items, and a settle only when a
      request is in flight. */
  function Step(s: State, e: Event): (t: State)
    ensures e.ClickGenerate? && GenerateEnabled(s) ==> t == StartGenerate(s)
    ensures e.ClickGenerate? && !GenerateEnabled(s) ==> t == s
    ensures e.Settle? && s.pending ==> t == CompleteGenerate(s, e.outcome)
    ensures e.Settle? && !s.pending ==> t == s
  {
    match e
    case EditPrompt(text) => s.(prompt := text)
    case PickStyle(st) => if st in Styles then s.(style := st) else s
    case PickResolution(r) => if r in ResolutionChoices then s.(resolution := r) else s
    case ClickGenerate => if GenerateEnabled(s) then StartGenerate(s) else s
    case Settle(o) => if s.pending then CompleteGenerate(s, o) else s
  }

  /** What holds in every reachable state: `loading` exactly while a request
      is in flight, and the selectors hold values they offer. */
  predicate Invariant(s: State)
  {
    (s.loading <==> s.pending) && s.style in Styles && s.resolution in ResolutionChoices
  }

  lemma InitialInvariant()
    ensures Invariant(Initial) && !ResultShown(Initial) && !GenerateEnabled(Initial)
  {
  }

  lemma StepPreservesInvariant(s: State, e: Event)
    requires Invariant(s)
    ensures Invariant(Step(s, e))
  {
  }

  lemma RunPreservesInvariant(s: State, events: seq<Event>)
    requires Invariant(s)
    ensures Invariant(Run(Step, s, events))
  {
    forall x, e | Invariant(x)
      ensures Invariant(Step(x, e))
    {
      StepPreservesInvariant(x, e);
    }
    RunPreserves(Step, Invariant, s, events);
  }

  /** Requests never overlap: while one is in flight a click does nothing,
      and only its settling clears `loading`. */
  lemma NoOverlappingRequests(s: State, e: Event)
    requires Invariant(s) && s.loading
    ensures e.ClickGenerate? ==> Step(s, e) == s
    ensures !e.Settle? ==> Step(s, e).loading
    ensures e.Settle? ==> !Step(s, e).loading
  {
  }

  /** The selectors only offer keys the image service knows, so its
      fallbacks for unknown styles and resolutions are never taken from the
      studio. */
  lemma ChoicesAreKnown(s: State)
    requires Invariant(s)
    ensures s.style in ImageService.StylePrompts
    ensures s.resolution in ImageService.Resolutions
  {
  }

  /** The response body is stored without looking at the status: a 400 or 500
      answer hides the previous image. */
  lemma ErrorResponseHidesResult(s: State, status: int, message: string)
    ensures !ResultShown(CompleteGenerate(s, Completed(App.ErrorResponse(status, message).body)))
  {
    ErrorBodyStoresUndefined(message, "url");
  }

  /** An enabled click is answered 200 exactly when the image service
      returns, which, since it falls back to its placeholder, fails only when
      the placeholder cannot be drawn or saved; storing the answer shows the
      image exactly then. */
  lemma EnabledRequestAnswered(s: State, render: string -> Call<ImageService.Size>, saved: bool,
                               filename: string, draw: string -> Call<ImageService.Size>,
                               demoSave: Call<()>, demoFilename: string, image: App.Service)
    requires GenerateEnabled(s)
    requires image(App.Args(JStr(s.prompt), JStr(s.style), JStr(s.resolution)))
             == App.Lift(ImageService.Generate(s.prompt, s.style, s.resolution, render, saved, filename,
                                               draw, demoSave, demoFilename), App.ImageFields)
    ensures var g := ImageService.Generate(s.prompt, s.style, s.resolution, render, saved, filename,
                                           draw, demoSave, demoFilename);
            var r := App.HandleImage(GenerateRequest(s), image);
            && (r.status == 200 <==> g.Returned?)
            && (g.Raised? ==> r == App.ErrorResponse(500, g.message))
            && (ResultShown(CompleteGenerate(StartGenerate(s), Completed(r.body))) <==> g.Returned?)
  {
    AnsweredWith(s, ImageService.Generate(s.prompt, s.style, s.resolution, render, saved, filename,
                                          draw, demoSave, demoFilename), image);
  }

  /** The same for any outcome of the image service that a url starting with
      `/` comes back on. */
  lemma AnsweredWith(s: State, g: Call<ImageService.ImageResult>, image: App.Service)
    requires GenerateEnabled(s)
    requires g.Returned? ==> |g.value.url| > 0 && g.value.url[0] == '/'
    requires image(App.Args(JStr(s.prompt), JStr(s.style), JStr(s.resolution))) == App.Lift(g, App.ImageFields)
    ensures var r := App.HandleImage(GenerateRequest(s), image);
            && (r.status == 200 <==> g.Returned?)
            && (g.Raised? ==> r == App.ErrorResponse(500, g.message))
            && (ResultShown(CompleteGenerate(StartGenerate(s), Completed(r.body))) <==> g.Returned?)
  {
    var body := GenerateRequest(s);
    assert App.Arguments(App.ImageEndpoint, body.fields) == App.Args(JStr(s.prompt), JStr(s.style), JStr(s.resolution));
    if g.Raised? {
      ErrorResponseHidesResult(StartGenerate(s), 500, g.message);
    }
  }
}
