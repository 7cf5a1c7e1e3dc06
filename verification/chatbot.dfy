/** The Chatbot page (pages/1_Chatbot.py): the personalised system role, the
    context sent on each turn, the "✨" reply marker, and the session's
    conversation log with its clear and text-export operations. */
module Chatbot {
  import opened PyStr
  import opened Messages

  /** The glyph that starts every assistant reply shown and stored. */
  const Marker: char := '✨'

  /** The mood for which no empathy clause is added. */
  const NeutralMood: string := "Neutral"

  /** The clause that asks the model to address the user by name. */
  function NameClause(name: string): string
  {
    " Always call the user '" + name + "'."
  }

  /** The clause that asks for an empathetic answer given the user's mood. */
  function MoodClause(mood: string): string
  {
    " The user feels " + mood + ". Respond in an empathetic, encouraging way."
  }

  /** The sidebar settings read on every rerun (the temperature is not modelled). */
  datatype Settings = Settings(name: string, mood: string, baseRole: string, fewShot: bool)

  /** The personalised system role: the stripped base text, then the name clause
      when a name is given, then the mood clause when the mood is not neutral. */
  function SystemRole(base: string, name: string, mood: string): (r: string)
    ensures |r| >= |Strip(base)| && r[..|Strip(base)|] == Strip(base)
    ensures name == [] && mood == NeutralMood ==> r == Strip(base)
    ensures name != [] ==> |r| >= |Strip(base)| + |NameClause(name)|
    ensures name != [] ==>
              r[|Strip(base)|..|Strip(base)| + |NameClause(name)|] == NameClause(name)
    ensures mood != NeutralMood ==>
              |r| >= |MoodClause(mood)| && r[|r| - |MoodClause(mood)|..] == MoodClause(mood)
    ensures mood == NeutralMood ==>
              r == Strip(base) + (if name == [] then [] else NameClause(name))
    ensures |r| == |Strip(base)| + (if name == [] then 0 else |NameClause(name)|)
                   + (if mood == NeutralMood then 0 else |MoodClause(mood)|)
  {
    Strip(base) + (if name == [] then [] else NameClause(name))
      + (if mood == NeutralMood then [] else MoodClause(mood))
  }

  /** The system role built as the page builds it, by successive appends. */
  method BuildSystemRole(settings: Settings) returns (role: string)
    ensures role == SystemRole(settings.baseRole, settings.name, settings.mood)
  {
    role := Strip(settings.baseRole);
    if settings.name != [] {
      role := role + NameClause(settings.name);
    }
    if settings.mood != NeutralMood {
      role := role + MoodClause(settings.mood);
    }
  }

  /** The fixed two-exchange demonstration inserted when few-shot is on. */
  const FewShotExamples: seq<Message> := [
    Message(User, "What is AI?"),
    Message(Assistant, "AI stands for Artificial Intelligence. It lets computers perform tasks that seem smart—like answering questions or recognizing images."),
    Message(User, "Explain LLM in simple words."),
    Message(Assistant, "An LLM is a Large Language Model that reads tons of text and learns to respond like a human.")
  ]

  /** The context sent to the model: the system message, the few-shot block when
      enabled, then the whole stored history in order. */
  function Context(role: string, fewShot: bool, history: seq<Message>): (ctx: seq<Message>)
    ensures |ctx| == 1 + (if fewShot then 4 else 0) + |history|
    ensures ctx[0] == Message(System, role)
    ensures fewShot ==> ctx[1..5] == FewShotExamples
    ensures ctx[|ctx| - |history|..] == history
  {
    [Message(System, role)] + (if fewShot then FewShotExamples else []) + history
  }

  /** The context built as the page builds it, by list concatenation. */
  method BuildContext(role: string, fewShot: bool, history: seq<Message>) returns (ctx: seq<Message>)
    ensures ctx == Context(role, fewShot, history)
  {
    ctx := [Message(System, role)];
    if fewShot {
      ctx := ctx + FewShotExamples;
    }
    ctx := ctx + history;
  }

  /** The reply's text, `content or ""`. A failed call has no text. */
  function ReplyText(reply: Reply): (r: string)
    requires !reply.Failed?
    ensures reply.Content? ==> r == reply.text
    ensures r == [] <==> reply.NoContent? || reply.text == []
  {
    if reply.Content? then reply.text else []
  }

  /** The marker dedupe: a reply that already starts with the marker is kept,
      any other gets the marker and a space in front. */
  function Decorate(answer: string): (r: string)
    ensures |r| > 0 && r[0] == Marker
    ensures |answer| <= |r| <= |answer| + 2
    ensures r[|r| - |answer|..] == answer
    ensures |answer| > 0 && answer[0] == Marker ==> r == answer
    ensures answer == [] ==> r == [Marker, ' ']
    ensures !(|answer| > 0 && answer[0] == Marker) ==> r == [Marker, ' '] + answer
  {
    if |answer| > 0 && answer[0] == Marker then answer else [Marker, ' '] + answer
  }

  /** Decorating twice is decorating once. */
  lemma DecorateIdempotent(answer: string)
    ensures Decorate(Decorate(answer)) == Decorate(answer)
  {
  }

  /** `role.title()` for the role names the log holds: the stored lower-case
      name with its first letter capitalised. */
  function Title(role: Role): (r: string)
    ensures |r| == |RoleName(role)| && r[1..] == RoleName(role)[1..]
    ensures 'A' <= r[0] <= 'Z' && Lower(r) == RoleName(role)
  {
    match role
    case System => "System"
    case User => "User"
    case Assistant => "Assistant"
  }

  /** One line of the text export, `Role: content`. */
  function ExportLine(m: Message): string
  {
    Title(m.role) + ": " + m.content
  }

  /** The export lines of a history, one per message, in order. */
  function ExportLines(history: seq<Message>): (lines: seq<string>)
    ensures |lines| == |history|
    ensures forall i :: 0 <= i < |history| ==> lines[i] == ExportLine(history[i])
  {
    seq(|history|, i requires 0 <= i < |history| => ExportLine(history[i]))
  }

  /** The text export of the history: its lines joined by line breaks. It opens
      with the first message's line and closes with the last message's line. */
  function ExportText(history: seq<Message>): (r: string)
    ensures history == [] ==> r == []
    ensures |history| >= 1 ==>
              |r| >= |ExportLine(history[0])| && r[..|ExportLine(history[0])|] == ExportLine(history[0])
    ensures |history| >= 1 ==>
              |r| >= |ExportLine(history[|history| - 1])| &&
              r[|r| - |ExportLine(history[|history| - 1])|..] == ExportLine(history[|history| - 1])
  {
    var lines := ExportLines(history);
    assert |history| >= 2 ==>
             Join("\n", lines) == Join("\n", lines[..|lines| - 1]) + "\n" + lines[|lines| - 1] by {
      if |history| >= 2 {
        assert lines == lines[..|lines| - 1] + [lines[|lines| - 1]];
        JoinAppend("\n", lines[..|lines| - 1], lines[|lines| - 1]);
      }
    }
    assert |history| >= 1 ==> Join("\n", lines)[..|lines[0]|] == lines[0] by {
      if |history| >= 1 {
        JoinHead("\n", lines);
      }
    }
    Join("\n", lines)
  }

  /** Logging one more message adds one line at the end of the export and leaves
      the earlier text as it was. */
  lemma ExportTextAppend(history: seq<Message>, m: Message)
    requires |history| >= 1
    ensures ExportText(history + [m]) == ExportText(history) + "\n" + ExportLine(m)
  {
    assert ExportLines(history + [m]) == ExportLines(history) + [ExportLine(m)];
    JoinAppend("\n", ExportLines(history), ExportLine(m));
  }

  /** When no message spans several lines, splitting the export at line breaks
      gives back exactly one line per message, in history order. */
  lemma ExportTextLines(history: seq<Message>)
    requires |history| >= 1
    requires forall i :: 0 <= i < |history| ==> '\n' !in history[i].content
    ensures Split(ExportText(history), '\n') == ExportLines(history)
  {
    var lines := ExportLines(history);
    forall i | 0 <= i < |lines| ensures '\n' !in lines[i] {
      var m := history[i];
      assert lines[i] == Title(m.role) + ": " + m.content;
      assert '\n' !in Title(m.role);
    }
    SplitJoin(lines, '\n');
  }

  /** What one submission of the chat box ends with. */
  datatype TurnOutcome =
    | Idle
    | Answered(context: seq<Message>, answer: string)
    | Crashed(context: seq<Message>, message: string)

  /** True when a history holds only user and assistant turns. */
  predicate Logged(history: seq<Message>)
  {
    forall i :: 0 <= i < |history| ==> history[i].role != System
  }

  /** Appending a user or assistant turn keeps a history free of system messages. */
  lemma LoggedAppend(history: seq<Message>, m: Message)
    requires Logged(history) && m.role != System
    ensures Logged(history + [m])
  {
  }

  /** The session's conversation log (`st.session_state.chatbot_messages`). */
  class ChatLog {
    var messages: seq<Message>

    /** The log holds only user and assistant turns; the system message is never stored. */
    ghost predicate Valid()
      reads this
    {
      Logged(messages)
    }

    /** A new session starts with an empty log. */
    constructor ()
      ensures Valid() && messages == []
    {
      messages := [];
    }

    /** The Clear Chat button. */
    method Clear()
      modifies this
      ensures Valid() && messages == []
    {
      messages := [];
    }

    /** One submission of the chat box. An empty input does nothing. Otherwise the
        user turn is logged, the context is built from the current settings and
        the log, and the reply, once decorated, is logged as the assistant turn.
        When the client raises, the user turn stays logged and nothing else is. */
    method Turn(settings: Settings, userInput: string, reply: Reply) returns (outcome: TurnOutcome)
      requires Valid()
      modifies this
      ensures Valid()
      ensures userInput == [] ==> outcome == Idle && messages == old(messages)
      ensures userInput != [] ==>
                !outcome.Idle? && outcome.context ==
                Context(SystemRole(settings.baseRole, settings.name, settings.mood), settings.fewShot,
                        old(messages) + [Message(User, userInput)])
      ensures userInput != [] && !reply.Failed? ==>
                outcome.Answered? && outcome.answer == Decorate(ReplyText(reply)) &&
                messages == old(messages) + [Message(User, userInput), Message(Assistant, outcome.answer)]
      ensures userInput != [] && reply.Failed? ==>
                outcome == Crashed(outcome.context, reply.message) &&
                messages == old(messages) + [Message(User, userInput)]
    {
      if userInput == [] {
        return Idle;
      }
      var user := Message(User, userInput);
      LoggedAppend(messages, user);
      messages := messages + [user];
      var role := BuildSystemRole(settings);
      var context := BuildContext(role, settings.fewShot, messages);
      if reply.Failed? {
        return Crashed(context, reply.message);
      }
      var assistant := Message(Assistant, Decorate(ReplyText(reply)));
      LoggedAppend(messages, assistant);
      messages := messages + [assistant];
      outcome := Answered(context, assistant.content);
    }
  }
}
