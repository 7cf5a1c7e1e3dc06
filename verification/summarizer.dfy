/** The Summarizer page (pages/2_Summarizer.py): instruction lookups, the
    8000-character cap, prompt assembly, the blank-input guard and the
    placeholder for an empty reply. */
module Summarizer {
  import opened PyStr
  import opened Messages

  const ShortLength: string := "Give a very short summary in 3 bullet points. Max ~40 words total."
  const MediumLength: string := "Give 5 concise bullet points followed by a short paragraph (~100 words)."
  const DetailedLength: string := "Give a detailed summary: key bullet points, a short paragraph (~150 words), and a 1-line takeaway."

  /** `build_length_instruction`: "Short" and "Medium" have their own sentence;
      every other choice, "Detailed" included, gets the detailed one. */
  function LengthInstruction(length: string): (r: string)
    ensures r == ShortLength <==> length == "Short"
    ensures r == MediumLength <==> length == "Medium"
    ensures r == DetailedLength <==> length != "Short" && length != "Medium"
  {
    if length == "Short" then ShortLength
    else if length == "Medium" then MediumLength
    else DetailedLength
  }

  /** The dictionary inside `build_tone_instruction`. */
  const ToneTable: map<string, string> := map[
    "Neutral" := "Use a neutral, informative tone.",
    "Simple" := "Use plain language, easy to understand.",
    "Professional" := "Use clear, professional language suitable for a report.",
    "Casual" := "Use a friendly, conversational tone.",
    "Kid-friendly" := "Explain in very simple words, like to a 10-year-old."
  ]

  /** The `.get` default of `build_tone_instruction`; it is not the "Neutral" entry. */
  const ToneFallback: string := "Use a neutral tone."

  /** `build_tone_instruction`: total; a listed tone gets its table sentence and
      exactly the unlisted tones get the fallback. */
  function ToneInstruction(tone: string): (r: string)
    ensures tone in ToneTable ==> r == ToneTable[tone]
    ensures r == ToneFallback <==> tone !in ToneTable
    ensures r in ToneTable.Values || r == ToneFallback
  {
    if tone in ToneTable then ToneTable[tone] else ToneFallback
  }

  /** The dictionary inside `build_format_instruction`. */
  const FormatTable: map<string, string> := map[
    "Bullets" := "Output bullet points only.",
    "Paragraph" := "Output one short paragraph only.",
    "Bullets + Paragraph" := "Start with bullet points, then a short paragraph.",
    "TL;DR" := "Output a single TL;DR line."
  ]

  /** The `.get` default of `build_format_instruction`. */
  const FormatFallback: string := "Output bullet points only."

  /** `build_format_instruction`: total; an unlisted format gets exactly the
      "Bullets" sentence, and no other listed format shares it. */
  function FormatInstruction(fmt: string): (r: string)
    ensures fmt in FormatTable ==> r == FormatTable[fmt]
    ensures r == FormatTable["Bullets"] <==> fmt == "Bullets" || fmt !in FormatTable
    ensures r in FormatTable.Values
  {
    if fmt in FormatTable then FormatTable[fmt] else FormatFallback
  }

  /** The default `max_chars` of `truncate_text`. */
  const MaxChars: nat := 8000

  /** The text `truncate_text` returns, and whether it emitted its warning. */
  datatype Truncation = Truncation(text: string, truncated: bool)

  /** `truncate_text`: the input if it fits, otherwise its first `maxChars`
      characters together with the truncation warning. */
  function Truncate(txt: string, maxChars: nat): (t: Truncation)
    ensures |t.text| <= maxChars && |t.text| <= |txt| && t.text == txt[..|t.text|]
    ensures t.truncated <==> |txt| > maxChars
    ensures !t.truncated ==> t.text == txt
    ensures t.truncated ==> |t.text| == maxChars
  {
    if |txt| <= maxChars then Truncation(txt, false) else Truncation(txt[..maxChars], true)
  }

  /** The summarizer settings chosen in the sidebar (the temperature is not modelled). */
  datatype Settings = Settings(length: string, tone: string, format: string)

  const Header: string := "You are a helpful summarization assistant."
  const TextLabel: string := "Text to summarize:"
  const SystemPrompt: string := "You summarize text accurately and follow formatting instructions exactly."
  const EmptyInputError: string := "Please paste some text or upload a file."
  const NoResponse: string := "[No response]"

  /** The fixed lines that precede the text in the prompt, in order. */
  function InstructionLines(settings: Settings): seq<string>
  {
    [Header, LengthInstruction(settings.length), ToneInstruction(settings.tone),
     FormatInstruction(settings.format), "", TextLabel]
  }

  /** The text that ends the prompt: the capped text, whose trailing whitespace the
      prompt's final `strip()` removes when the cut falls after a space. */
  function PromptBody(cleanText: string): string
  {
    RStrip(Truncate(cleanText, MaxChars).text)
  }

  /** The user prompt: the instruction lines and then the capped text, one per
      line. Only the capped text is taken from the input, and it closes the prompt. */
  function Prompt(settings: Settings, cleanText: string): (r: string)
    ensures |r| > |PromptBody(cleanText)|
    ensures r[|r| - |PromptBody(cleanText)|..] == PromptBody(cleanText)
    ensures r == Join("\n", InstructionLines(settings)) + "\n" + PromptBody(cleanText)
  {
    var lines := InstructionLines(settings);
    JoinAppend("\n", lines, PromptBody(cleanText));
    Join("\n", lines + [PromptBody(cleanText)])
  }

  /** The text closing the prompt is at most 8000 characters, a prefix of the
      stripped input, and the whole stripped input when that fits. */
  lemma PromptBodyCapped(cleanText: string)
    requires IsStripped(cleanText)
    ensures |PromptBody(cleanText)| <= MaxChars
    ensures PromptBody(cleanText) == cleanText[..|PromptBody(cleanText)|]
    ensures |cleanText| <= MaxChars ==> PromptBody(cleanText) == cleanText
  {
  }

  /** What happens when Summarize is clicked, before any remote call. */
  datatype Prepared = Blank(message: string) | Ready(request: Request, truncated: bool)

  /** The Summarize handler up to the remote call: blank input is refused with
      an error and no request; otherwise the request holds the fixed system
      message and the prompt over the stripped text. */
  function Prepare(settings: Settings, userText: string): (p: Prepared)
    ensures p.Blank? <==> IsBlank(userText)
    ensures p.Blank? ==> p.message == EmptyInputError
    ensures p.Ready? ==> p.truncated == (|Strip(userText)| > MaxChars)
    ensures p.Ready? ==> p.request.model == ModelId
    ensures p.Ready? ==>
              p.request.messages == [Message(System, SystemPrompt), Message(User, Prompt(settings, Strip(userText)))]
  {
    var clean := Strip(userText);
    if clean == [] then Blank(EmptyInputError)
    else
      Ready(Request(ModelId, [Message(System, SystemPrompt), Message(User, Prompt(settings, clean))]),
            Truncate(clean, MaxChars).truncated)
  }

  /** What the page ends with: a refusal, the summary shown, or the client's
      exception; the latter two record whether the truncation warning was shown,
      which happens while the prompt is built, before the call. */
  datatype Outcome =
    | Rejected(message: string)
    | Summary(text: string, truncated: bool)
    | Crashed(message: string, truncated: bool)

  /** One click of Summarize, given what the remote call would return. */
  function Summarize(settings: Settings, userText: string, reply: Reply): (o: Outcome)
    ensures o.Rejected? <==> IsBlank(userText)
    ensures o.Rejected? ==> o.message == EmptyInputError
    ensures o.Summary? ==> o.text != [] && o.truncated == (|Strip(userText)| > MaxChars)
    ensures !IsBlank(userText) && reply.Content? && reply.text != [] ==> o.Summary? && o.text == reply.text
    ensures !IsBlank(userText) && (reply.NoContent? || reply == Content([])) ==> o.Summary? && o.text == NoResponse
    ensures !IsBlank(userText) && reply.Failed? ==> o.Crashed? && o.message == reply.message
    ensures o.Crashed? ==> o.truncated == (|Strip(userText)| > MaxChars)
  {
    match Prepare(settings, userText)
    case Blank(message) => Rejected(message)
    case Ready(_, truncated) =>
      match reply
      case Content(text) => Summary(if text == [] then NoResponse else text, truncated)
      case NoContent => Summary(NoResponse, truncated)
      case Failed(message) => Crashed(message, truncated)
  }
}
