/** The story service: the target length table, the chat request it sends,
    the parser for the `TITLE:` reply format, the demo story it falls back to,
    and narration with its input truncation. The chat and text-to-speech calls
    are parameters that may raise. */
module StoryService {

  import opened Common
  import opened Text
  import Decimal

  /** Target word counts per story length. */
  const Lengths: map<string, nat> :=
    map["flash" := 500, "short" := 2000, "medium" := 10000, "long" := 25000]

  /** Word count used when the length key is unknown. */
  const DefaultWords: nat := 2000

  /** Cap on the completion size requested from the chat model. */
  const TokenCap: nat := 16000

  const TitleMarker: string := "TITLE:"

  /** Longest narration input, before the ellipsis is appended. */
  const MaxSpeechChars: nat := 4000

  /** `self.lengths.get(length, 2000)`. */
  function TargetWords(length: string): (n: nat)
    ensures length == "flash" ==> n == 500
    ensures length == "short" ==> n == 2000
    ensures length == "medium" ==> n == 10000
    ensures length == "long" ==> n == 25000
    ensures length !in {"flash", "short", "medium", "long"} ==> n == 2000
  {
    GetOr(Lengths, length, DefaultWords)
  }

  /** `min(word_count * 2, 16000)`: twice the target, never above the cap. */
  function MaxTokens(wordCount: nat): (t: nat)
    ensures t <= TokenCap && t <= 2 * wordCount
    ensures t == TokenCap || t == 2 * wordCount
  {
    if 2 * wordCount < TokenCap then 2 * wordCount else TokenCap
  }

  /** The token limit per length: medium and long both hit the cap, an unknown
      key behaves as "short". */
  lemma MaxTokensByLength(length: string)
    ensures MaxTokens(TargetWords(length)) <= 16000
    ensures length == "flash" ==> MaxTokens(TargetWords(length)) == 1000
    ensures length == "short" ==> MaxTokens(TargetWords(length)) == 4000
    ensures length in {"medium", "long"} ==> MaxTokens(TargetWords(length)) == 16000
    ensures length !in Lengths ==> MaxTokens(TargetWords(length)) == 4000
  {
  }

  const ChatModel := "gpt-4.1-mini"

  datatype ChatRequest = ChatRequest(
    model: string,
    system: string,
    user: string,
    temperature: real,
    maxTokens: nat)

  function SystemPrompt(genre: string): string
  {
    SystemOpening + genre + SystemRest
  }

  const SystemOpening := "You are an expert creative writer specializing in "
  const SystemRest := " fiction.\nWrite engaging, well-structured stories with vivid descriptions, "
    + "compelling characters, and strong narrative arcs.\n"
    + "Your writing should be immersive and professional quality."

  /** The opening sentence of the user prompt. */
  function ConceptLine(prompt: string, genre: string): string
  {
    ConceptOpening + genre + ConceptMiddle + prompt
  }

  const ConceptOpening := "Write a "
  const ConceptMiddle := " story based on this concept: "

  /** The requirements and format instructions after the concept sentence. */
  function Requirements(wordCount: nat): string
  {
    RequirementsOpening + Decimal.NatToString(wordCount) + RequirementsRest
  }

  const RequirementsOpening := "\n\nRequirements:\n- Target length: approximately "
  const RequirementsRest := " words\n- Include a compelling title\n"
    + "- Create vivid characters and settings\n"
    + "- Build tension and conflict\n"
    + "- Provide a satisfying resolution\n"
    + "- Use descriptive, engaging prose\n\n"
    + "Format the response as:\n"
    + "TITLE: [Story Title]\n\n"
    + "[Story content]"

  /** The single chat completion `generate` asks for: the target word count
      of the length key goes into the prompt, twice that (capped) into the
      token limit. */
  function StoryRequest(prompt: string, genre: string, length: string): (q: ChatRequest)
    ensures q.model == ChatModel && q.temperature == 0.8
    ensures q.maxTokens == MaxTokens(TargetWords(length)) && q.maxTokens <= TokenCap
    ensures q.system == SystemPrompt(genre)
    ensures q.user == ConceptLine(prompt, genre) + Requirements(TargetWords(length))
  {
    ChatRequest(ChatModel, SystemPrompt(genre),
                ConceptLine(prompt, genre) + Requirements(TargetWords(length)), 0.8,
                MaxTokens(TargetWords(length)))
  }

  datatype Parsed = Parsed(title: string, content: string)

  /** Title and content of a chat reply, or `None` where the source indexes past
      the parts of the split (the reply has the marker but no newline). */
  function ParseReply(reply: string, genre: string): (r: Option<Parsed>)
    ensures r.None? <==> Contains(Strip(reply), TitleMarker) && '\n' !in Strip(reply)
    ensures !Contains(Strip(reply), TitleMarker) ==>
              r == Some(Parsed(TitleCase(genre) + " Story", Strip(reply)))
  {
    var full := Strip(reply);
    if Contains(full, TitleMarker) then
      var parts := SplitN(full, '\n', 2);
      if |parts| < 2 then
        assert full == parts[0];
        None
      else
        var title := Strip(RemoveAll(parts[0], TitleMarker));
        var content := if |parts| > 2 then Strip(parts[2]) else Strip(parts[1]);
        Some(Parsed(title, content))
    else
      Some(Parsed(TitleCase(genre) + " Story", full))
  }

  /** With the marker present, the title is the first line of the stripped
      reply with every marker removed, stripped. */
  lemma ParseTitleLine(reply: string, genre: string, first: string, rest: string)
    requires Contains(Strip(reply), TitleMarker)
    requires Strip(reply) == first + "\n" + rest && '\n' !in first
    ensures ParseReply(reply, genre).Some?
    ensures ParseReply(reply, genre).value.title == Strip(RemoveAll(first, TitleMarker))
  {
    SplitFirstLine(Strip(reply), first, rest);
  }

  /** With the marker and exactly one newline, the content is the second line,
      stripped. */
  lemma ParseOneNewline(reply: string, genre: string, first: string, rest: string)
    requires Contains(Strip(reply), TitleMarker)
    requires Strip(reply) == first + "\n" + rest && '\n' !in first && '\n' !in rest
    ensures ParseReply(reply, genre).Some?
    ensures ParseReply(reply, genre).value.content == Strip(rest)
  {
    SplitFirstLine(Strip(reply), first, rest);
    assert SplitN(Strip(reply), '\n', 2) == [first, rest];
  }

  /** With the marker and two or more newlines, the content is everything after
      the second newline, stripped; the second line is dropped. */
  lemma ParseTwoNewlines(reply: string, genre: string, first: string, second: string, third: string)
    requires Contains(Strip(reply), TitleMarker)
    requires Strip(reply) == first + "\n" + (second + "\n" + third)
    requires '\n' !in first && '\n' !in second
    ensures ParseReply(reply, genre).Some?
    ensures ParseReply(reply, genre).value.content == Strip(third)
  {
    var rest := second + "\n" + third;
    SplitFirstLine(Strip(reply), first, rest);
    SplitFirstLine(rest, second, third);
    assert SplitN(Strip(reply), '\n', 2) == [first] + ([second] + SplitN(third, '\n', 0));
  }

  /** The first cut of a split is at the first newline. */
  lemma SplitFirstLine(s: string, first: string, rest: string)
    requires s == first + "\n" + rest && '\n' !in first
    ensures IndexOf(s, '\n') == Some(|first|)
    ensures forall n: nat :: n > 0 ==> SplitN(s, '\n', n) == [first] + SplitN(rest, '\n', n - 1)
  {
    var i := IndexOf(s, '\n');
    assert s[|first|] == '\n';
    assert forall j :: 0 <= j < |first| ==> s[j] == first[j];
    assert i.Some? && i.value == |first|;
    assert s[..|first|] == first && s[|first| + 1..] == rest;
  }

  /** The format the prompt asks for parses back to its title and content. */
  lemma ParseRequestedFormat(title: string, body: string, genre: string)
    requires !Contains(title, TitleMarker) && '\n' !in title
    requires Strip(title) == title && title != [] && Strip(body) == body && body != []
    ensures ParseReply(TitleMarker + " " + title + "\n\n" + body, genre) == Some(Parsed(title, body))
  {
    var first := TitleMarker + " " + title;
    var reply := first + "\n\n" + body;
    assert first[..|TitleMarker|] == TitleMarker;
    RequestedFormatShape(first, body);
    MarkerLineIsOneLine(title);
    ParseTitleLine(reply, genre, first, "\n" + body);
    ParseTwoNewlines(reply, genre, first, "", body);
    TitleLineOfMarker(title);
    var parsed := ParseReply(reply, genre).value;
    assert parsed.title == title && parsed.content == body;
  }

  lemma MarkerLineIsOneLine(title: string)
    requires '\n' !in title
    ensures '\n' !in TitleMarker + " " + title
  {
    var first := TitleMarker + " " + title;
    assert forall i :: 7 <= i < |first| ==> first[i] == title[i - 7];
  }

  /** A reply in the requested format is already stripped, carries the marker
      and splits at its first two newlines. */
  lemma RequestedFormatShape(first: string, body: string)
    requires StartsWith(first, TitleMarker)
    requires Strip(body) == body && body != []
    ensures var reply := first + "\n\n" + body;
            && Strip(reply) == reply
            && Contains(reply, TitleMarker)
            && reply == first + "\n" + ("\n" + body)
            && reply == first + "\n" + ("" + "\n" + body)
  {
    var reply := first + "\n\n" + body;
    assert reply[0] == first[0] == 'T';
    assert reply[|reply| - 1] == body[|body| - 1];
    StripOfStripped(reply);
    assert reply[..|TitleMarker|] == first[..|TitleMarker|];
  }

  /** The marker, a space and a marker-free title reduce to the title. */
  lemma TitleLineOfMarker(title: string)
    requires !Contains(title, TitleMarker) && Strip(title) == title && title != []
    ensures Strip(RemoveAll(TitleMarker + " " + title, TitleMarker)) == title
  {
    var spaced := " " + title;
    assert spaced[1..] == title;
    assert !StartsWith(spaced, TitleMarker) by { assert spaced[0] != TitleMarker[0]; }
    assert !Contains(spaced, TitleMarker);
    assert TitleMarker + " " + title == TitleMarker + spaced;
    RemoveLeadingMarker(TitleMarker, spaced);
    LeadingSpaceOfTail(spaced);
    assert LeadingSpace(title) == 0;
    assert TrailingSpace(spaced) == 0;
    assert spaced[1..|spaced|] == title;
  }

  datatype StoryResult = StoryResult(
    title: string,
    content: string,
    wordCount: nat,
    filename: string)

  const DemoFilename: string := "demo_story.txt"

  function DemoOpening(prompt: string): string
  {
    "In a world where " + prompt
  }

  function DemoContent(prompt: string, genre: string): string
  {
    DemoOpening(prompt) + DemoBody(genre)
  }

  function DemoBody(genre: string): string
  {
    DemoText1 + DemoText2 + DemoText3 + genre + DemoText4
    + DemoText5 + genre + DemoText6 + DemoText7 + DemoText8
    + DemoText9 + DemoText10 + DemoSignature
  }

  const DemoText1 := ", extraordinary events were about to unfold.\n\n"
  const DemoText2 := "This is a demonstration story generated by ArciTEK.AI. "
  const DemoText3 := "In the full version, this would be a complete, professionally-written "
  const DemoText4 := " story with rich characters, vivid descriptions, and an engaging plot.\n\n"
  const DemoText5 := "The story would explore themes relevant to "
  const DemoText6 := " fiction, creating an immersive experience for the reader. "
  const DemoText7 := "Characters would be well-developed, the setting would be vividly described, "
  const DemoText8 := "and the narrative would build tension leading to a satisfying conclusion.\n\n"
  const DemoText9 := "This demo showcases the story generation and narration capabilities of ArciTEK.AI, "
  const DemoText10 := "powered by advanced AI models and high-quality text-to-speech technology.\n\n"
  const DemoSignature := "infinite♾2025"

  /** The story returned when generation fails: titled "The <Genre> Tale", its
      word count that of its own content, saved under a fixed name. */
  function DemoStory(prompt: string, genre: string): (r: StoryResult)
    ensures r.title == "The " + TitleCase(genre) + " Tale"
    ensures r.wordCount == |Words(r.content)| && r.filename == DemoFilename
    ensures StartsWith(r.content, DemoOpening(prompt))
  {
    var content := DemoContent(prompt, genre);
    assert content[..|DemoOpening(prompt)|] == DemoOpening(prompt);
    StoryResult("The " + TitleCase(genre) + " Tale", content, |Words(content)|, DemoFilename)
  }

  /** What `generate` returns once the chat call has returned `reply`. */
  function FromReply(reply: string, prompt: string, genre: string, saved: bool,
                     filename: string): (r: StoryResult)
    ensures r.wordCount == |Words(r.content)|
    ensures ParseReply(reply, genre).None? || !saved ==> r == DemoStory(prompt, genre)
    ensures ParseReply(reply, genre).Some? && saved ==>
              r.title == ParseReply(reply, genre).value.title
              && r.content == ParseReply(reply, genre).value.content
              && r.filename == filename
  {
    var p := ParseReply(reply, genre);
    if p.Some? && saved then StoryResult(p.value.title, p.value.content, |Words(p.value.content)|, filename)
    else DemoStory(prompt, genre)
  }

  /** `StoryService.generate`. `chat` stands for the chat completion call,
      `saved` for whether writing the story file succeeded, `filename` for the
      clock-based file name. Every failure inside the `try` falls back to the
      demo story, so `generate` itself never raises. */
  function Generate(prompt: string, genre: string, length: string,
                    chat: ChatRequest -> Call<string>, saved: bool, filename: string): (r: StoryResult)
    ensures r.wordCount == |Words(r.content)|
    ensures chat(StoryRequest(prompt, genre, length)).Raised? ==> r == DemoStory(prompt, genre)
    ensures chat(StoryRequest(prompt, genre, length)).Returned? ==>
              r == FromReply(chat(StoryRequest(prompt, genre, length)).value, prompt, genre, saved, filename)
  {
    var answer := chat(StoryRequest(prompt, genre, length));
    if answer.Raised? then DemoStory(prompt, genre)
    else FromReply(answer.value, prompt, genre, saved, filename)
  }

  /** A reply with the marker and no newline ends in the demo story. */
  lemma MarkerWithoutNewlineGivesDemo(prompt: string, genre: string, length: string,
                                      chat: ChatRequest -> Call<string>, saved: bool, filename: string)
    requires chat(StoryRequest(prompt, genre, length)).Returned?
    requires var full := Strip(chat(StoryRequest(prompt, genre, length)).value);
             Contains(full, TitleMarker) && '\n' !in full
    ensures Generate(prompt, genre, length, chat, saved, filename) == DemoStory(prompt, genre)
  {
  }

  // ---------------------------------------------------------------------------
  // narration

  /** The text sent to speech synthesis: at most 4000 characters of the story,
      with "..." appended when it was cut. */
  function SpeechText(text: string): (t: string)
    ensures |text| <= MaxSpeechChars ==> t == text
    ensures |text| > MaxSpeechChars ==>
              |t| == MaxSpeechChars + 3 && t[..MaxSpeechChars] == text[..MaxSpeechChars]
              && t[MaxSpeechChars..] == "..."
    ensures |t| <= MaxSpeechChars + 3
  {
    if |text| > MaxSpeechChars then text[..MaxSpeechChars] + "..." else text
  }

  datatype SpeechRequest = SpeechRequest(model: string, voice: string, input: string, speed: real)

  datatype Narration = Narration(
    url: string,
    filename: string,
    duration: int,
    voice: string,
    speed: real)

  /** Python's `int(x)` on a float: truncation toward zero. */
  function TruncToInt(x: real): (n: int)
    ensures n as real <= x < n as real + 1.0 || n as real - 1.0 < x <= n as real
    ensures x >= 0.0 ==> 0 <= n && n as real <= x
    ensures x <= 0.0 ==> n <= 0 && x <= n as real
  {
    if x >= 0.0 then x.Floor else -((-x).Floor)
  }

  /** Estimated narration length in seconds at 150 words per minute. */
  function EstimatedSeconds(words: nat, speed: real): int
    requires speed != 0.0
  {
    TruncToInt((words as real / 150.0) * 60.0 / speed)
  }

  function SpeechRequestFor(text: string, voice: string, speed: real): (q: SpeechRequest)
    ensures q.model == "tts-1-hd" && q.voice == voice && q.speed == speed
    ensures q.input == SpeechText(text)
  {
    SpeechRequest("tts-1-hd", voice, SpeechText(text), speed)
  }

  /** `StoryService.narrate`. `speak` stands for synthesis and streaming the
      audio to its file. Any exception is re-raised with its own message; there
      is no fallback. Division by a zero speed raises after synthesis. */
  function Narrate(text: string, voice: string, speed: real,
                   speak: SpeechRequest -> Call<()>, filename: string): (r: Call<Narration>)
    ensures speak(SpeechRequestFor(text, voice, speed)).Raised? ==>
              r == Raised(speak(SpeechRequestFor(text, voice, speed)).message)
    ensures r.Returned? <==> speak(SpeechRequestFor(text, voice, speed)).Returned? && speed != 0.0
    ensures r.Returned? ==> r.value.url == "/api/outputs/stories/" + filename
                            && r.value.filename == filename
                            && r.value.voice == voice && r.value.speed == speed
  {
    var request := SpeechRequestFor(text, voice, speed);
    match speak(request)
    case Raised(e) => Raised(e)
    case Returned(_) =>
      if speed == 0.0 then Raised("float division by zero")
      else
        var words := |Words(request.input)|;
        Returned(Narration("/api/outputs/stories/" + filename, filename,
                           EstimatedSeconds(words, speed), voice, speed))
  }
}
