/** The four POST handlers of the Flask server, as pure functions from the
    decoded request body to a status code and a JSON body. Each service enters
    as a function of the three values the handler passes it, returning the
    service's result dict or raising. */
module App {

  import opened Common
  import opened Json
  import Text
  import StoryService
  import MusicService
  import ImageService
  import Decimal

  datatype Response = Response(status: int, body: Value)

  type Fields = map<string, Value>

  /** The three values a handler passes to its service, in call order. */
  datatype Args = Args(first: Value, second: Value, third: Value)

  type Service = Args -> Call<Fields>

  /** `jsonify({'error': message}), status`. */
  function ErrorResponse(status: int, message: string): Response
  {
    Response(status, JObj(map["error" := JStr(message)]))
  }

  /** The message of the `AttributeError` raised by `data.get` when the body
      is not a JSON object. */
  function NoGetMessage(body: Value): string
  {
    "'" + PyTypeName(body) + "' object has no attribute 'get'"
  }

  /** `result[key]`: the stored value, or a `KeyError` whose `str` is the
      quoted key. */
  function Lookup(result: Fields, key: string): (c: Call<Value>)
    ensures c.Returned? <==> key in result
    ensures c.Returned? ==> c.value == result[key]
    ensures c.Raised? ==> c.message == "'" + key + "'"
  {
    if key in result then Returned(result[key]) else Raised("'" + key + "'")
  }

  /** What distinguishes one endpoint from another: the field that must be
      truthy and the message when it is not, the two optional fields with
      their defaults, and how the service's result dict becomes the body of
      the 200 response. */
  datatype Endpoint = Endpoint(
    required: string,
    missing: string,
    option1: string,
    default1: Value,
    option2: string,
    default2: Value,
    reply: Fields -> Call<Fields>)

  /** The values read from the request with `data.get`: the required field
      is `None` when absent, an optional field takes its default only when its
      key is absent (an explicit `null` is passed through). */
  function Arguments(ep: Endpoint, data: Fields): (a: Args)
    ensures ep.required in data ==> a.first == data[ep.required]
    ensures ep.required !in data ==> a.first == JNull
    ensures ep.option1 in data ==> a.second == data[ep.option1]
    ensures ep.option1 !in data ==> a.second == ep.default1
    ensures ep.option2 in data ==> a.third == data[ep.option2]
    ensures ep.option2 !in data ==> a.third == ep.default2
  {
    Args(GetOr(data, ep.required, JNull), GetOr(data, ep.option1, ep.default1),
         GetOr(data, ep.option2, ep.default2))
  }

  /** Whether the handler gets as far as calling its service. */
  predicate CallsService(ep: Endpoint, body: Value)
  {
    body.JObj? && PyTruthy(Arguments(ep, body.fields).first)
  }

  /** One handler: read the fields, reject a falsy required field with 400,
      call the service, shape the reply; every exception on the way becomes
      500 with its message. */
  function Handle(ep: Endpoint, body: Value, service: Service): (r: Response)
    ensures !body.JObj? ==> r == ErrorResponse(500, NoGetMessage(body))
    ensures body.JObj? && !CallsService(ep, body) ==> r == ErrorResponse(400, ep.missing)
    ensures CallsService(ep, body) && service(Arguments(ep, body.fields)).Raised? ==>
              r == ErrorResponse(500, service(Arguments(ep, body.fields)).message)
    ensures CallsService(ep, body) && service(Arguments(ep, body.fields)).Returned?
            && ep.reply(service(Arguments(ep, body.fields)).value).Raised? ==>
              r == ErrorResponse(500, ep.reply(service(Arguments(ep, body.fields)).value).message)
    ensures r.status == 200 <==>
              CallsService(ep, body) && service(Arguments(ep, body.fields)).Returned?
              && ep.reply(service(Arguments(ep, body.fields)).value).Returned?
    ensures r.status == 200 ==>
              r.body == JObj(ep.reply(service(Arguments(ep, body.fields)).value).value)
    ensures r.status in {200, 400, 500}
  {
    if !body.JObj? then ErrorResponse(500, NoGetMessage(body))
    else
      var args := Arguments(ep, body.fields);
      if !PyTruthy(args.first) then ErrorResponse(400, ep.missing)
      else
        match service(args)
        case Raised(e) => ErrorResponse(500, e)
        case Returned(result) =>
          match ep.reply(result)
          case Raised(e) => ErrorResponse(500, e)
          case Returned(fields) => Response(200, JObj(fields))
  }

  /** A rejected request gets the same response whatever the service would
      have done: the service is not consulted. */
  lemma RejectedIgnoresService(ep: Endpoint, body: Value, s1: Service, s2: Service)
    requires !CallsService(ep, body)
    ensures Handle(ep, body, s1) == Handle(ep, body, s2)
    ensures Handle(ep, body, s1).status != 200
  {
  }

  /** The response depends on the service only through its answer for the
      values read (with defaults) from the request. */
  lemma ServiceSeesArguments(ep: Endpoint, body: Value, s1: Service, s2: Service)
    requires body.JObj? ==> s1(Arguments(ep, body.fields)) == s2(Arguments(ep, body.fields))
    ensures Handle(ep, body, s1) == Handle(ep, body, s2)
  {
  }

  /** Every non-200 response is `{error: <message>}` and nothing else. */
  lemma ErrorsCarryOnlyMessage(ep: Endpoint, body: Value, service: Service)
    ensures var r := Handle(ep, body, service);
            r.status != 200 ==>
              r.body.JObj? && r.body.fields.Keys == {"error"} && r.body.fields["error"].JStr?
  {
  }

  // ---------------------------------------------------------------------------
  // response shapes

  function MusicReply(result: Fields): (c: Call<Fields>)
    ensures c.Returned? <==> "url" in result && "filename" in result
    ensures "url" !in result ==> c == Raised("'url'")
    ensures "url" in result && "filename" !in result ==> c == Raised("'filename'")
    ensures c.Returned? ==>
              c.value == map["success" := JBool(true), "url" := result["url"],
                             "filename" := result["filename"], "format" := JStr("WAV"),
                             "quality" := JStr("96kHz/24-bit")]
  {
    var url :- Lookup(result, "url");
    var filename :- Lookup(result, "filename");
    Returned(map["success" := JBool(true), "url" := url, "filename" := filename,
                 "format" := JStr("WAV"), "quality" := JStr("96kHz/24-bit")])
  }

  function ImageReply(result: Fields): (c: Call<Fields>)
    ensures c.Returned? <==>
              "url" in result && "filename" in result && "resolution" in result && "megapixels" in result
    ensures "url" !in result ==> c == Raised("'url'")
    ensures "url" in result && "filename" !in result ==> c == Raised("'filename'")
    ensures "url" in result && "filename" in result && "resolution" !in result ==>
              c == Raised("'resolution'")
    ensures ("url" in result && "filename" in result && "resolution" in result
             && "megapixels" !in result) ==> c == Raised("'megapixels'")
    ensures c.Returned? ==>
              c.value == map["success" := JBool(true), "url" := result["url"],
                             "filename" := result["filename"], "resolution" := result["resolution"],
                             "megapixels" := result["megapixels"]]
  {
    var url :- Lookup(result, "url");
    var filename :- Lookup(result, "filename");
    var resolution :- Lookup(result, "resolution");
    var megapixels :- Lookup(result, "megapixels");
    Returned(map["success" := JBool(true), "url" := url, "filename" := filename,
                 "resolution" := resolution, "megapixels" := megapixels])
  }

  /** The story reply nests exactly the title, content and word count. */
  function StoryReply(result: Fields): (c: Call<Fields>)
    ensures c.Returned? <==> "title" in result && "content" in result && "word_count" in result
    ensures "title" !in result ==> c == Raised("'title'")
    ensures "title" in result && "content" !in result ==> c == Raised("'content'")
    ensures "title" in result && "content" in result && "word_count" !in result ==>
              c == Raised("'word_count'")
    ensures c.Returned? ==>
              c.value.Keys == {"success", "story"} && c.value["success"] == JBool(true)
              && c.value["story"] == JObj(map["title" := result["title"], "content" := result["content"],
                                              "word_count" := result["word_count"]])
  {
    var title :- Lookup(result, "title");
    var content :- Lookup(result, "content");
    var wordCount :- Lookup(result, "word_count");
    Returned(map["success" := JBool(true),
                 "story" := JObj(map["title" := title, "content" := content, "word_count" := wordCount])])
  }

  function NarrateReply(result: Fields): (c: Call<Fields>)
    ensures c.Returned? <==> "url" in result && "filename" in result && "duration" in result
    ensures "url" !in result ==> c == Raised("'url'")
    ensures "url" in result && "filename" !in result ==> c == Raised("'filename'")
    ensures "url" in result && "filename" in result && "duration" !in result ==>
              c == Raised("'duration'")
    ensures c.Returned? ==>
              c.value == map["success" := JBool(true), "url" := result["url"],
                             "filename" := result["filename"], "duration" := result["duration"]]
  {
    var url :- Lookup(result, "url");
    var filename :- Lookup(result, "filename");
    var duration :- Lookup(result, "duration");
    Returned(map["success" := JBool(true), "url" := url, "filename" := filename, "duration" := duration])
  }

  const MusicEndpoint: Endpoint :=
    Endpoint("prompt", "Prompt is required", "genre", JStr("electronic"), "duration", JInt(30), MusicReply)
  const ImageEndpoint: Endpoint :=
    Endpoint("prompt", "Prompt is required", "style", JStr("photorealistic"), "resolution", JStr("4k"), ImageReply)
  const StoryEndpoint: Endpoint :=
    Endpoint("prompt", "Prompt is required", "genre", JStr("sci-fi"), "length", JStr("short"), StoryReply)
  const NarrateEndpoint: Endpoint :=
    Endpoint("text", "Text is required", "voice", JStr("alloy"), "speed", JReal(1.0), NarrateReply)

  // ---------------------------------------------------------------------------
  // the four routes

  /** `POST /api/generate-music`. */
  function HandleMusic(body: Value, music: Service): (r: Response)
    ensures body.JObj? && !PyTruthy(GetOr(body.fields, "prompt", JNull)) ==>
              r == ErrorResponse(400, "Prompt is required")
    ensures body.JObj? && PyTruthy(GetOr(body.fields, "prompt", JNull)) ==>
              var args := Args(body.fields["prompt"], GetOr(body.fields, "genre", JStr("electronic")),
                               GetOr(body.fields, "duration", JInt(30)));
              (music(args).Raised? ==> r == ErrorResponse(500, music(args).message))
              && (r.status == 200 <==> music(args).Returned? && MusicReply(music(args).value).Returned?)
    ensures r.status == 200 ==>
              r.body.JObj? && r.body.fields.Keys == {"success", "url", "filename", "format", "quality"}
              && r.body.fields["success"] == JBool(true) && r.body.fields["format"] == JStr("WAV")
              && r.body.fields["quality"] == JStr("96kHz/24-bit")
  {
    Handle(MusicEndpoint, body, music)
  }

  /** `POST /api/generate-image`. */
  function HandleImage(body: Value, image: Service): (r: Response)
    ensures body.JObj? && !PyTruthy(GetOr(body.fields, "prompt", JNull)) ==>
              r == ErrorResponse(400, "Prompt is required")
    ensures body.JObj? && PyTruthy(GetOr(body.fields, "prompt", JNull)) ==>
              var args := Args(body.fields["prompt"], GetOr(body.fields, "style", JStr("photorealistic")),
                               GetOr(body.fields, "resolution", JStr("4k")));
              (image(args).Raised? ==> r == ErrorResponse(500, image(args).message))
              && (r.status == 200 <==> image(args).Returned? && ImageReply(image(args).value).Returned?)
    ensures r.status == 200 ==>
              r.body.JObj? && r.body.fields.Keys == {"success", "url", "filename", "resolution", "megapixels"}
              && r.body.fields["success"] == JBool(true)
  {
    Handle(ImageEndpoint, body, image)
  }

  /** `POST /api/generate-story`. */
  function HandleStory(body: Value, story: Service): (r: Response)
    ensures body.JObj? && !PyTruthy(GetOr(body.fields, "prompt", JNull)) ==>
              r == ErrorResponse(400, "Prompt is required")
    ensures body.JObj? && PyTruthy(GetOr(body.fields, "prompt", JNull)) ==>
              var args := Args(body.fields["prompt"], GetOr(body.fields, "genre", JStr("sci-fi")),
                               GetOr(body.fields, "length", JStr("short")));
              (story(args).Raised? ==> r == ErrorResponse(500, story(args).message))
              && (r.status == 200 <==> story(args).Returned? && StoryReply(story(args).value).Returned?)
    ensures r.status == 200 ==>
              r.body.JObj? && r.body.fields.Keys == {"success", "story"}
              && r.body.fields["story"].JObj?
              && r.body.fields["story"].fields.Keys == {"title", "content", "word_count"}
  {
    Handle(StoryEndpoint, body, story)
  }

  /** `POST /api/narrate-story`. */
  function HandleNarrate(body: Value, narrate: Service): (r: Response)
    ensures body.JObj? && !PyTruthy(GetOr(body.fields, "text", JNull)) ==>
              r == ErrorResponse(400, "Text is required")
    ensures body.JObj? && PyTruthy(GetOr(body.fields, "text", JNull)) ==>
              var args := Args(body.fields["text"], GetOr(body.fields, "voice", JStr("alloy")),
                               GetOr(body.fields, "speed", JReal(1.0)));
              (narrate(args).Raised? ==> r == ErrorResponse(500, narrate(args).message))
              && (r.status == 200 <==> narrate(args).Returned? && NarrateReply(narrate(args).value).Returned?)
    ensures r.status == 200 ==>
              r.body.JObj? && r.body.fields.Keys == {"success", "url", "filename", "duration"}
              && r.body.fields["success"] == JBool(true)
  {
    Handle(NarrateEndpoint, body, narrate)
  }

  /** A body that is not a JSON object fails on `data.get` before anything
      else, on every route. */
  lemma NonObjectBodyFails(body: Value, service: Service)
    requires !body.JObj?
    ensures HandleMusic(body, service) == ErrorResponse(500, NoGetMessage(body))
    ensures HandleImage(body, service) == ErrorResponse(500, NoGetMessage(body))
    ensures HandleStory(body, service) == ErrorResponse(500, NoGetMessage(body))
    ensures HandleNarrate(body, service) == ErrorResponse(500, NoGetMessage(body))
  {
  }

  // ---------------------------------------------------------------------------
  // wiring to the services

  /** The service's result dict, keyed as in the service. */
  function MusicFields(m: MusicService.MusicResult): Fields
  {
    map["url" := JStr(m.url), "filename" := JStr(m.filename), "duration" := JInt(m.duration),
        "format" := JStr(m.format), "sample_rate" := JStr(m.sampleRate), "bit_depth" := JStr(m.bitDepth)]
  }

  function ImageFields(i: ImageService.ImageResult): Fields
  {
    map["url" := JStr(i.url), "filename" := JStr(i.filename), "resolution" := JStr(i.resolution),
        "megapixels" := JReal(i.megapixels)]
  }

  function StoryFields(s: StoryService.StoryResult): Fields
  {
    map["title" := JStr(s.title), "content" := JStr(s.content), "word_count" := JInt(s.wordCount),
        "filename" := JStr(s.filename)]
  }

  function NarrationFields(n: StoryService.Narration): Fields
  {
    map["url" := JStr(n.url), "filename" := JStr(n.filename), "duration" := JInt(n.duration),
        "voice" := JStr(n.voice), "speed" := JReal(n.speed)]
  }

  function Lift<T>(c: Call<T>, f: T -> Fields): Call<Fields>
  {
    match c
    case Raised(e) => Raised(e)
    case Returned(v) => Returned(f(v))
  }

  /** A request carrying only a prompt gets the default genre and duration;
      the music service's WAV comes back as a 200 response, unless writing
      the file fails, which is answered 500 with the write's message. */
  lemma MusicRequestWithDefaults(prompt: string, filename: string, written: Call<()>, music: Service)
    requires prompt != ""
    requires music(Args(JStr(prompt), JStr("electronic"), JInt(30)))
             == Lift(MusicService.Generate(prompt, "electronic", 30, filename, written), MusicFields)
    ensures written.Raised? ==>
              HandleMusic(JObj(map["prompt" := JStr(prompt)]), music) == ErrorResponse(500, written.message)
    ensures written.Returned? ==>
            HandleMusic(JObj(map["prompt" := JStr(prompt)]), music)
            == Response(200, JObj(map["success" := JBool(true),
                                      "url" := JStr("/api/outputs/music/" + filename),
                                      "filename" := JStr(filename), "format" := JStr("WAV"),
                                      "quality" := JStr("96kHz/24-bit")]))
  {
    var body := JObj(map["prompt" := JStr(prompt)]);
    assert Arguments(MusicEndpoint, body.fields) == Args(JStr(prompt), JStr("electronic"), JInt(30));
  }

  /** A negative duration reaches the music service and comes back as 500. */
  lemma NegativeDurationFails(prompt: string, genre: string, duration: int, filename: string,
                              written: Call<()>, music: Service)
    requires prompt != "" && duration < 0
    requires music(Args(JStr(prompt), JStr(genre), JInt(duration)))
             == Lift(MusicService.Generate(prompt, genre, duration, filename, written), MusicFields)
    ensures HandleMusic(JObj(map["prompt" := JStr(prompt), "genre" := JStr(genre),
                                 "duration" := JInt(duration)]), music)
            == ErrorResponse(500, "Number of samples, " + Decimal.IntToString(96000 * duration)
                                  + ", must be non-negative.")
  {
    var body := JObj(map["prompt" := JStr(prompt), "genre" := JStr(genre), "duration" := JInt(duration)]);
    assert Arguments(MusicEndpoint, body.fields) == Args(JStr(prompt), JStr(genre), JInt(duration));
  }

  /** The story route always answers 200 for a non-empty prompt, since the
      story service falls back to its demo story, and the word count it
      reports is that of the content it reports. */
  lemma StoryRequestAnswered(prompt: string, genre: string, length: string,
                             chat: StoryService.ChatRequest -> Call<string>, saved: bool,
                             filename: string, story: Service)
    requires prompt != ""
    requires story(Args(JStr(prompt), JStr(genre), JStr(length)))
             == Returned(StoryFields(StoryService.Generate(prompt, genre, length, chat, saved, filename)))
    ensures var s := StoryService.Generate(prompt, genre, length, chat, saved, filename);
            HandleStory(JObj(map["prompt" := JStr(prompt), "genre" := JStr(genre),
                                 "length" := JStr(length)]), story)
            == Response(200, JObj(map["success" := JBool(true),
                                      "story" := JObj(map["title" := JStr(s.title),
                                                          "content" := JStr(s.content),
                                                          "word_count" := JInt(|Text.Words(s.content)|)])]))
  {
    var s := StoryService.Generate(prompt, genre, length, chat, saved, filename);
    StoryAnswered(prompt, genre, length, s, story);
  }

  lemma StoryAnswered(prompt: string, genre: string, length: string,
                      s: StoryService.StoryResult, story: Service)
    requires prompt != ""
    requires story(Args(JStr(prompt), JStr(genre), JStr(length))) == Returned(StoryFields(s))
    ensures HandleStory(JObj(map["prompt" := JStr(prompt), "genre" := JStr(genre),
                                 "length" := JStr(length)]), story)
            == Response(200, JObj(map["success" := JBool(true),
                                      "story" := JObj(map["title" := JStr(s.title),
                                                          "content" := JStr(s.content),
                                                          "word_count" := JInt(s.wordCount)])]))
  {
    var body := JObj(map["prompt" := JStr(prompt), "genre" := JStr(genre), "length" := JStr(length)]);
    assert Arguments(StoryEndpoint, body.fields) == Args(JStr(prompt), JStr(genre), JStr(length));
  }

  /** Narration at speed zero is synthesised and then fails on the duration
      estimate; the client sees 500 with Python's message. */
  lemma ZeroSpeedNarrationFails(text: string, voice: string, filename: string,
                                speak: StoryService.SpeechRequest -> Call<()>, narrate: Service)
    requires text != ""
    requires speak(StoryService.SpeechRequestFor(text, voice, 0.0)).Returned?
    requires narrate(Args(JStr(text), JStr(voice), JReal(0.0)))
             == Lift(StoryService.Narrate(text, voice, 0.0, speak, filename), NarrationFields)
    ensures HandleNarrate(JObj(map["text" := JStr(text), "voice" := JStr(voice), "speed" := JReal(0.0)]), narrate)
            == ErrorResponse(500, "float division by zero")
  {
    var body := JObj(map["text" := JStr(text), "voice" := JStr(voice), "speed" := JReal(0.0)]);
    assert Arguments(NarrateEndpoint, body.fields) == Args(JStr(text), JStr(voice), JReal(0.0));
  }

  /** Successful narration is answered with the story-audio url. */
  lemma NarrationAnswered(text: string, voice: string, speed: real, filename: string,
                          speak: StoryService.SpeechRequest -> Call<()>, narrate: Service)
    requires text != "" && speed != 0.0
    requires speak(StoryService.SpeechRequestFor(text, voice, speed)).Returned?
    requires narrate(Args(JStr(text), JStr(voice), JReal(speed)))
             == Lift(StoryService.Narrate(text, voice, speed, speak, filename), NarrationFields)
    ensures var r := HandleNarrate(JObj(map["text" := JStr(text), "voice" := JStr(voice),
                                            "speed" := JReal(speed)]), narrate);
            r.status == 200 && r.body.fields["url"] == JStr("/api/outputs/stories/" + filename)
  {
    var body := JObj(map["text" := JStr(text), "voice" := JStr(voice), "speed" := JReal(speed)]);
    assert Arguments(NarrateEndpoint, body.fields) == Args(JStr(text), JStr(voice), JReal(speed));
  }

  /** The image route answers 200 for a non-empty prompt unless the
      placeholder it falls back to cannot be drawn or saved, which is answered
      500 with that failure's message; a 200 answer reports a size at least
      the target size of the requested resolution. */
  lemma ImageRequestAnswered(prompt: string, style: string, resolution: string,
                             render: string -> Call<ImageService.Size>, saved: bool, filename: string,
                             draw: string -> Call<ImageService.Size>, demoSave: Call<()>,
                             demoFilename: string, image: Service)
    requires prompt != ""
    requires image(Args(JStr(prompt), JStr(style), JStr(resolution)))
             == Lift(ImageService.Generate(prompt, style, resolution, render, saved, filename,
                                           draw, demoSave, demoFilename), ImageFields)
    ensures var g := ImageService.Generate(prompt, style, resolution, render, saved, filename,
                                           draw, demoSave, demoFilename);
            var r := HandleImage(JObj(map["prompt" := JStr(prompt), "style" := JStr(style),
                                          "resolution" := JStr(resolution)]), image);
            && (r.status == 200 <==> g.Returned?)
            && (g.Raised? ==> r == ErrorResponse(500, g.message))
            && (r.status == 200 ==>
                  exists s: ImageService.Size ::
                    r.body.fields["resolution"] == JStr(ImageService.SizeLabel(s))
                    && s.width >= ImageService.TargetSize(resolution).width
                    && s.height >= ImageService.TargetSize(resolution).height)
  {
    var g := ImageService.Generate(prompt, style, resolution, render, saved, filename,
                                   draw, demoSave, demoFilename);
    ImageAnswered(prompt, style, resolution, g, image);
    ImageService.GenerateMeetsTarget(prompt, style, resolution, render, saved, filename,
                                     draw, demoSave, demoFilename);
  }

  lemma ImageAnswered(prompt: string, style: string, resolution: string,
                      g: Call<ImageService.ImageResult>, image: Service)
    requires prompt != ""
    requires image(Args(JStr(prompt), JStr(style), JStr(resolution))) == Lift(g, ImageFields)
    ensures var r := HandleImage(JObj(map["prompt" := JStr(prompt), "style" := JStr(style),
                                          "resolution" := JStr(resolution)]), image);
            && (r.status == 200 <==> g.Returned?)
            && (g.Raised? ==> r == ErrorResponse(500, g.message))
            && (g.Returned? ==> r.body.fields["resolution"] == JStr(g.value.resolution))
  {
    var body := JObj(map["prompt" := JStr(prompt), "style" := JStr(style), "resolution" := JStr(resolution)]);
    assert Arguments(ImageEndpoint, body.fields) == Args(JStr(prompt), JStr(style), JStr(resolution));
  }
}
