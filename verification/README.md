# AI Assistant Suite: prompt assembly and reply shaping, in Dafny

This project models the logic inside the three tool pages of the AI Assistant Suite.
The suite is a Streamlit app that sends prompts to a hosted LLaMA-3 model.

- **Summarizer** (`pages/2_Summarizer.py`). Three lookups turn the length, tone and
  format choices into instruction sentences. Each lookup has its own fallback.
  The input is stripped and refused when blank. It is then capped at 8000
  characters, and a warning flag is raised when the cap cuts. The prompt is the
  header, the three instructions, a label and the capped text, line by line.
  An empty or absent reply becomes `[No response]`.
- **Chatbot** (`pages/1_Chatbot.py`). The system role is the stripped base text.
  A name clause and a mood clause may follow it. The context is the system message,
  then the four fixed few-shot messages when enabled, then the whole log. A reply
  gets the "✨ " prefix unless it already starts with "✨". The conversation log is a
  class with a clear operation and a turn operation. A turn logs the user message
  and then the decorated reply. The text export has one `Role: content` line per
  message.
- **JSON Extractor** (`pages/3_JSON_Extractor.py`). The comma-separated field list
  is split, each piece is stripped, and empty pieces are dropped. A JSON-shaped
  template is built from the lower-cased field names. The prompt embeds the field
  list, the template and the raw text. The reply is stripped, then every
  "```json" is removed, then every "```". The result is handed to a JSON parser.
  A parse failure becomes an outcome that shows the stripped reply.

Files:

- `pystr.dfy` (module `PyStr`): the Python `str` operations the pages use.
  These are `strip`, `split` on one character, `join`, `replace`, `lower` and
  substring search. They work on `seq<char>`, one code point per `char`, as Python
  counts them.
- `messages.dfy` (module `Messages`): roles, messages, the request and the reply.
- `summarizer.dfy`, `chatbot.dfy`, `extractor.dfy`: one module per page.

The remote call is not modelled. Each page takes the call's result as an input of
type `Reply`. `Content(text)` is the first choice's text. `NoContent` is a content
field that is `None`. `Failed(message)` is an exception raised by the client. JSON
parsing is a parameter `parse: string -> Option<J>`. It returns `None` exactly
where `json.loads` raises `JSONDecodeError`.

Behaviour of the code that the model keeps:

- The length instructions are full sentences.
- The tone fallback "Use a neutral tone." is a different sentence from the table's "Neutral" entry.
- The few-shot block has four messages (two exchanges).
- After a failed parse, the extractor shows the stripped reply (`result`) rather
  than the cleaned text.
- The template puts one entry per line, each indented by four spaces.
- The fences are removed wherever they occur in the reply.
- In the chatbot and the summarizer, an exception from the client is not caught.
  The chatbot logs the user message before the call. So after a failed call the
  log keeps that user message and gains no assistant message.
- In the summarizer, the truncation warning is shown while the prompt is built,
  before the call, so it has been shown even when the call then fails.
- When the extractor's reply content is `None`, `.strip()` raises. The page's outer
  handler catches this and shows it as an error.

## Model

| member | source | states |
|---|---|---|
| Summarizer.LengthInstruction | pages/2_Summarizer.py:44-49 | "Short" and "Medium" each get their own sentence, if and only if chosen; every other string, "Detailed" included, gets the detailed sentence |
| Summarizer.ToneInstruction | pages/2_Summarizer.py:51-59 | total; a listed tone gets its table sentence; the result is the fallback "Use a neutral tone." exactly when the tone is unlisted, so it differs from the "Neutral" entry |
| Summarizer.FormatInstruction | pages/2_Summarizer.py:61-68 | total; a listed format gets its table sentence; the result equals the "Bullets" sentence exactly when the format is "Bullets" or unlisted |
| Summarizer.Truncate | pages/2_Summarizer.py:70-75 | the result is a prefix of the input of at most `max_chars` characters; the warning flag is raised exactly when the input is longer; then the result has exactly `max_chars` characters, otherwise it is the input unchanged |
| Summarizer.Prompt | pages/2_Summarizer.py:113-121 | the prompt is the header, length, tone and format lines, a blank line and "Text to summarize:", then the capped text, joined by line breaks; the capped text closes the prompt |
| Summarizer.PromptBodyCapped | pages/2_Summarizer.py:113-121 | the text closing the prompt has at most 8000 characters, is a prefix of the stripped input, and is the whole stripped input when that fits |
| Summarizer.Prepare | pages/2_Summarizer.py:101-131 | whitespace-only input is refused with its error message and yields no request; otherwise the request holds the fixed system message and the prompt over the stripped text, and the warning flag is raised exactly when the stripped text exceeds 8000 characters |
| Summarizer.Summarize | pages/2_Summarizer.py:101-132 | blank input is refused whatever the reply; a non-empty reply is shown unchanged; an empty or absent reply becomes "[No response]"; the summary shown is never empty; a client exception ends the interaction carrying its message; both a summary and a crash record the truncation warning exactly when the stripped text exceeds 8000 characters |
| Chatbot.SystemRole | pages/1_Chatbot.py:51-55 | the role starts with the stripped base text; a non-empty name puts the name clause right after it; a non-"Neutral" mood puts the mood clause at the end; its length is the base text's plus each clause's only when that clause applies, so an empty name adds no name clause and a "Neutral" mood no mood clause |
| Chatbot.BuildSystemRole | pages/1_Chatbot.py:51-55 | the successive appends build exactly `SystemRole` |
| Chatbot.Context | pages/1_Chatbot.py:82-85 | the context has 1 + (4 or 0) + the log's length messages; the system message comes first, then the four few-shot messages when enabled, and the whole log closes it in order |
| Chatbot.BuildContext | pages/1_Chatbot.py:82-85 | the list concatenations build exactly `Context` |
| Chatbot.ReplyText | pages/1_Chatbot.py:95 | `content or ""`: a text reply is kept as it is; the result is empty exactly when the content is absent or empty |
| Chatbot.Decorate | pages/1_Chatbot.py:95-99 | the result starts with "✨" and ends with the reply, adding at most two characters; a reply already starting with "✨" is unchanged; any other reply, the empty one included, gets exactly "✨ " in front |
| Chatbot.DecorateIdempotent | pages/1_Chatbot.py:98-99 | decorating twice is decorating once |
| Chatbot.Title | pages/1_Chatbot.py:32 | `role.title()` of the stored role name: same length, first letter an ASCII capital, the rest unchanged, and lower-casing it gives back the stored name |
| Chatbot.ExportLines | pages/1_Chatbot.py:32 | one export line per message, `Title(role): content`, in log order |
| Chatbot.ExportText | pages/1_Chatbot.py:32 | the export of an empty log is empty; otherwise it opens with the first message's line and closes with the last message's line |
| Chatbot.ExportTextAppend | pages/1_Chatbot.py:32 | logging one more message appends a line break and its line to the export and leaves the earlier text unchanged |
| Chatbot.ExportTextLines | pages/1_Chatbot.py:32 | when no message content holds a line break, splitting the export at line breaks gives back exactly the per-message lines |
| Chatbot.LoggedAppend | pages/1_Chatbot.py:61 | appending a user or assistant message keeps a log free of system messages |
| Chatbot.ChatLog.constructor | pages/1_Chatbot.py:60-61 | a session starts with an empty log |
| Chatbot.ChatLog.Clear | pages/1_Chatbot.py:27-28 | clearing leaves the log empty |
| Chatbot.ChatLog.Turn | pages/1_Chatbot.py:73-104 | an empty input changes nothing; otherwise the context sent is `Context` over the current settings and the log including the new user message; a completed turn grows the log by exactly the user message and then the decorated reply, with earlier entries unchanged; a failed call leaves only the user message added; the log never holds a system message |
| Extractor.KeepFields | pages/3_JSON_Extractor.py:26 | every kept field is non-empty and has no leading or trailing whitespace |
| Extractor.KeepFieldsWithout | pages/3_JSON_Extractor.py:26 | a character absent from every piece is absent from every kept field |
| Extractor.ParseFields | pages/3_JSON_Extractor.py:26 | every parsed field is non-empty, stripped and comma-free |
| Extractor.ParseFieldsConcat | pages/3_JSON_Extractor.py:26 | parsing keeps input order: the fields of `a + "," + b` are the fields of `a` followed by those of `b` |
| Extractor.ParseJoin | pages/3_JSON_Extractor.py:26 | for non-empty, stripped, comma-free fields, parsing their ", " join gives the same list back |
| Extractor.DefaultFieldsParse | pages/3_JSON_Extractor.py:19-26 | the default box text, `", ".join(default_fields)`, parses to ["Name", "Email", "Phone"] |
| Extractor.Entry | pages/3_JSON_Extractor.py:55 | one entry is four spaces and a quote, the lower-cased field (no ASCII capital left), then `": "..."`; it is 13 characters longer than the field |
| Extractor.Entries | pages/3_JSON_Extractor.py:55 | one template entry per field, in order |
| Extractor.Schema | pages/3_JSON_Extractor.py:55 | the template opens with "{" and a line break and closes with a line break and "}"; with no fields it is exactly "{\n\n}" |
| Extractor.EntryLines | pages/3_JSON_Extractor.py:55 | every entry line but the last ends with a comma |
| Extractor.SchemaLines | pages/3_JSON_Extractor.py:55 | for fields without line breaks, the template's lines are "{", then one line per field holding its lower-cased key entry (comma-terminated except the last), then "}" |
| Extractor.Prompt | pages/3_JSON_Extractor.py:57-66 | the prompt holds, after their fixed lead-ins and in order, the ", "-joined field list, the template and the user text verbatim; its length shows nothing was cut |
| Extractor.RemoveFenceLeavesNone | pages/3_JSON_Extractor.py:81 | after removing every "```", no "```" remains |
| Extractor.Clean | pages/3_JSON_Extractor.py:80-81 | after the cleanup the text contains neither "```" nor "```json" |
| Extractor.CleanFenced | pages/3_JSON_Extractor.py:81 | a reply of the form "```json" + body + "```", with no backtick in the body, is cleaned to exactly the body |
| Extractor.CleanPlain | pages/3_JSON_Extractor.py:81 | a reply without backticks is only stripped |
| Extractor.Prepare | pages/3_JSON_Extractor.py:50-77 | whitespace-only text is refused with its error message and yields no request; otherwise the request holds the fixed system message and the prompt over the parsed fields and the text as given |
| Extractor.Finish | pages/3_JSON_Extractor.py:78-101 | a reply whose cleaned text parses yields the parsed value; one that fails yields the invalid-JSON outcome carrying the stripped reply, never an exception; a `None` content or a client exception yields an error |
| Extractor.Extract | pages/3_JSON_Extractor.py:50-101 | blank text is refused whatever the reply; otherwise the outcome is that of `Finish` |
| Extractor.FencedReply | pages/3_JSON_Extractor.py:78-98 | a fenced reply is parsed from its body; if the body does not parse, the whole stripped reply is shown |
| Extractor.PlainInvalidReply | pages/3_JSON_Extractor.py:78-98 | a backtick-free reply that does not parse is shown stripped, as "not json" is |

## Left out

- Summarizer.Prompt: `textwrap.dedent` is not modelled. The prompt is exactly the lines joined by line breaks when the stripped text has no line break. A multi-line text changes the common indentation that `dedent` removes, and the model does not follow that. The trailing-whitespace effect of the final `strip()` on a cut text is modelled.
- PyStr.Lower: only ASCII capitals are lower-cased. Python's `str.lower()` also maps other Unicode letters.
- Chatbot.Title: `str.title()` is modelled only for the three role names. The log only stores "user" and "assistant".
- Rendering, widgets, the sidebar, `st.stop`/`st.rerun`, download buttons and `Home.py` are pure UI. The chat text export is offered only for a non-empty log; that display condition is not modelled.
- `utils.py` (credential lookup, `.env` loading, client caching and construction) is configuration plumbing over libraries outside this model.
- The remote call itself (network, authentication, rate limits) is replaced by the `Reply` input.
- File upload decoding and PDF page extraction are foreign-library I/O. The pages' text input is a plain string here.
- JSON parsing and `json.dumps` are foreign code. Parsing is a parameter. The chat's JSON export and the pretty-printed extraction download are not modelled.
- Temperatures are floats passed through untouched and are not part of the `Request`.
- The wording of exceptions raised by the client is not modelled; it is carried as an opaque message.
