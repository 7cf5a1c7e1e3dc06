/** The JSON Extractor page (pages/3_JSON_Extractor.py): the field list, the
    JSON-shaped template, the prompt, the code-fence cleanup of the reply and the
    parsed / invalid outcome. JSON parsing itself is a parameter. */
module Extractor {
  import opened PyStr
  import opened Messages

  /** The fields the sidebar offers, joined by ", " as the text area's default. */
  const DefaultFields: seq<string> := ["Name", "Email", "Phone"]

  /** The pieces of the split field list that survive: each stripped, blanks dropped. */
  function KeepFields(pieces: seq<string>): (fields: seq<string>)
    ensures |fields| <= |pieces|
    ensures forall i :: 0 <= i < |fields| ==> fields[i] != [] && IsStripped(fields[i])
  {
    if pieces == [] then [] else Kept(pieces[0]) + KeepFields(pieces[1..])
  }

  /** What one piece contributes: its stripped text, unless that is empty. */
  function Kept(piece: string): (r: seq<string>)
    ensures |r| <= 1
    ensures forall i :: 0 <= i < |r| ==> r[i] != [] && IsStripped(r[i])
  {
    if Strip(piece) == [] then [] else [Strip(piece)]
  }

  /** A character absent from every piece is absent from every kept field. */
  lemma {:induction false} KeepFieldsWithout(pieces: seq<string>, c: char)
    requires forall j :: 0 <= j < |pieces| ==> c !in pieces[j]
    ensures forall i :: 0 <= i < |KeepFields(pieces)| ==> c !in KeepFields(pieces)[i]
    decreases |pieces|
  {
    if pieces != [] {
      KeepFieldsWithout(pieces[1..], c);
    }
  }

  /** Keeping the pieces of a concatenation keeps each part's pieces, in order. */
  lemma {:induction false} KeepFieldsConcat(a: seq<string>, b: seq<string>)
    ensures KeepFields(a + b) == KeepFields(a) + KeepFields(b)
    decreases |a|
  {
    if a == [] {
      assert a + b == b;
    } else {
      assert (a + b)[1..] == a[1..] + b;
      KeepFieldsConcat(a[1..], b);
      calc {
        KeepFields(a + b);
        Kept(a[0]) + KeepFields(a[1..] + b);
        Kept(a[0]) + (KeepFields(a[1..]) + KeepFields(b));
        (Kept(a[0]) + KeepFields(a[1..])) + KeepFields(b);
      }
    }
  }

  /** `selected_fields`: the comma-separated list split at commas, each piece
      stripped, empty pieces dropped. Every field is non-empty, carries no
      surrounding whitespace and no comma. */
  function ParseFields(input: string): (fields: seq<string>)
    ensures forall i :: 0 <= i < |fields| ==> fields[i] != [] && IsStripped(fields[i]) && ',' !in fields[i]
  {
    KeepFieldsWithout(Split(input, ','), ',');
    KeepFields(Split(input, ','))
  }

  /** Fields keep their input order: the fields of two comma-separated lists
      joined by a comma are the first list's fields and then the second's. */
  lemma ParseFieldsConcat(a: string, b: string)
    ensures ParseFields(a + "," + b) == ParseFields(a) + ParseFields(b)
  {
    assert a + "," + b == a + [','] + b;
    SplitConcat(a, ',', b);
    KeepFieldsConcat(Split(a, ','), Split(b, ','));
  }

  /** True for a list that parsing returns unchanged: non-empty, stripped,
      comma-free fields. */
  predicate WellFormedFields(fields: seq<string>)
  {
    forall i :: 0 <= i < |fields| ==> fields[i] != [] && IsStripped(fields[i]) && ',' !in fields[i]
  }

  /** Helper for the round trip: leading blanks before the joined list are harmless. */
  lemma {:induction false} KeepJoined(ws: string, fields: seq<string>)
    requires IsBlank(ws) && ',' !in ws && WellFormedFields(fields)
    ensures KeepFields(Split(ws + Join(", ", fields), ',')) == fields
    decreases |fields|, 1
  {
    if fields == [] {
      assert ws + Join(", ", fields) == ws;
      SplitNone(ws, ',');
      assert KeepFields([ws]) == Kept(ws) + KeepFields([]);
    } else if |fields| == 1 {
      assert ws + Join(", ", fields) == ws + fields[0];
      KeepOneField(ws, fields[0]);
    } else {
      KeepJoinedStep(ws, fields);
    }
  }

  /** The inductive step of `KeepJoined`: the first field, then the rest after ", ". */
  lemma {:induction false} KeepJoinedStep(ws: string, fields: seq<string>)
    requires IsBlank(ws) && ',' !in ws && WellFormedFields(fields) && |fields| >= 2
    ensures KeepFields(Split(ws + Join(", ", fields), ',')) == fields
    decreases |fields|, 0
  {
    var f, rest := fields[0], " " + Join(", ", fields[1..]);
    assert ws + Join(", ", fields) == (ws + f) + [','] + rest;
    SplitConcat(ws + f, ',', rest);
    KeepOneField(ws, f);
    KeepFieldsConcat([ws + f], Split(rest, ','));
    assert IsBlank(" ");
    KeepJoined(" ", fields[1..]);
    assert fields == [f] + fields[1..];
  }

  /** One field after leading blanks is one piece, and stripping it gives the field. */
  lemma KeepOneField(ws: string, f: string)
    requires IsBlank(ws) && ',' !in ws && f != [] && IsStripped(f) && ',' !in f
    ensures Split(ws + f, ',') == [ws + f]
    ensures KeepFields([ws + f]) == [f]
  {
    StripLeading(ws, f);
    assert KeepFields([ws + f]) == Kept(ws + f) + KeepFields([]);
    SplitNone(ws + f, ',');
  }

  /** Parsing a list joined by ", " gives the list back. */
  lemma ParseJoin(fields: seq<string>)
    requires WellFormedFields(fields)
    ensures ParseFields(Join(", ", fields)) == fields
  {
    KeepJoined([], fields);
    assert [] + Join(", ", fields) == Join(", ", fields);
  }

  /** The default text of the field box parses to the three default fields. */
  lemma DefaultFieldsParse()
    ensures ParseFields(Join(", ", DefaultFields)) == DefaultFields
  {
    ParseJoin(DefaultFields);
  }

  /** One template entry: four spaces, the lower-cased field as a JSON key, and
      the placeholder value. */
  function Entry(field: string): (r: string)
    ensures |r| == |field| + 13
    ensures r[..5] == "    \"" && r[|r| - 8..] == "\": \"...\""
    ensures r[5..5 + |field|] == Lower(field)
    ensures forall i :: 5 <= i < 5 + |field| ==> !('A' <= r[i] <= 'Z')
  {
    "    \"" + Lower(field) + "\": \"...\""
  }

  /** The template entries, one per field, in order. */
  function Entries(fields: seq<string>): (es: seq<string>)
    ensures |es| == |fields|
    ensures forall i :: 0 <= i < |fields| ==> es[i] == Entry(fields[i])
  {
    seq(|fields|, i requires 0 <= i < |fields| => Entry(fields[i]))
  }

  /** `json_schema`: the entries joined by ",\n" between "{\n" and "\n}". */
  function Schema(fields: seq<string>): (r: string)
    ensures fields == [] ==> r == "{\n\n}"
    ensures |r| >= 4 && r[..2] == "{\n" && r[|r| - 2..] == "\n}"
  {
    "{\n" + Join(",\n", Entries(fields)) + "\n}"
  }

  /** The template's entry lines: every entry but the last is followed by a comma. */
  function EntryLines(es: seq<string>): (lines: seq<string>)
    ensures |lines| == |es|
    ensures forall i :: 0 <= i < |es| - 1 ==> lines[i] == es[i] + ","
    ensures |es| > 0 ==> lines[|es| - 1] == es[|es| - 1]
  {
    if |es| <= 1 then es else [es[0] + ","] + EntryLines(es[1..])
  }

  /** Entries joined by ",\n" split back into the entry lines. */
  lemma {:induction false} SplitEntries(es: seq<string>)
    requires |es| >= 1
    requires forall i :: 0 <= i < |es| ==> '\n' !in es[i]
    ensures Split(Join(",\n", es), '\n') == EntryLines(es)
    decreases |es|
  {
    if |es| == 1 {
      SplitNone(es[0], '\n');
    } else {
      SplitEntries(es[1..]);
      assert Join(",\n", es) == (es[0] + ",") + ['\n'] + Join(",\n", es[1..]);
      SplitConcat(es[0] + ",", '\n', Join(",\n", es[1..]));
      SplitNone(es[0] + ",", '\n');
    }
  }

  /** A field without a line break gives a one-line entry. */
  lemma EntrySingleLine(field: string)
    requires '\n' !in field
    ensures '\n' !in Entry(field)
  {
    var low := Lower(field);
    forall i | 0 <= i < |low| ensures low[i] != '\n' {
      assert field[i] != '\n';
    }
  }

  /** The template has one line per field, in order, between "{" and "}": the
      entry for field i, followed by a comma unless it is the last. */
  lemma SchemaLines(fields: seq<string>)
    requires |fields| >= 1
    requires forall i :: 0 <= i < |fields| ==> '\n' !in fields[i]
    ensures Split(Schema(fields), '\n') == ["{"] + EntryLines(Entries(fields)) + ["}"]
  {
    var es := Entries(fields);
    forall i | 0 <= i < |es| ensures '\n' !in es[i] {
      EntrySingleLine(fields[i]);
    }
    SplitEntries(es);
    var body := Join(",\n", es);
    assert Schema(fields) == "{" + ['\n'] + (body + ['\n'] + "}");
    SplitConcat("{", '\n', body + ['\n'] + "}");
    SplitConcat(body, '\n', "}");
    SplitNone("{", '\n');
    SplitNone("}", '\n');
  }

  const Intro: string := "\n    Extract the following details from the text:\n    "
  const FormatIntro: string := "\n\n    Return ONLY valid JSON in this format:\n    "
  const TextIntro: string := "\n\n    Text:\n    "
  const Closing: string := "\n    "

  /** The user prompt (an f-string without dedent): the ", "-joined field list,
      the template and the raw text, each after its fixed lead-in, the text kept
      whole. */
  function Prompt(fields: seq<string>, userText: string): (r: string)
    ensures var listing, schema := Join(", ", fields), Schema(fields);
            |r| == |Intro| + |listing| + |FormatIntro| + |schema| + |TextIntro| + |userText| + |Closing|
    ensures var listing := Join(", ", fields);
            r[|Intro|..|Intro| + |listing|] == listing
    ensures var start := |Intro| + |Join(", ", fields)| + |FormatIntro|;
            r[start..start + |Schema(fields)|] == Schema(fields)
    ensures r[|r| - |Closing| - |userText|..|r| - |Closing|] == userText
  {
    var listing, schema := Join(", ", fields), Schema(fields);
    var r := Intro + listing + FormatIntro + schema + TextIntro + userText + Closing;
    Middle(Intro, listing, FormatIntro + schema + TextIntro + userText + Closing);
    Middle(Intro + listing + FormatIntro, schema, TextIntro + userText + Closing);
    Middle(Intro + listing + FormatIntro + schema + TextIntro, userText, Closing);
    r
  }

  /** The middle part of a three-part concatenation sits between the other two. */
  lemma Middle(pre: string, mid: string, post: string)
    ensures (pre + mid + post)[|pre|..|pre| + |mid|] == mid
  {
  }

  const Fence: string := "```"
  const JsonFence: string := "```json"

  /** Removing every "```" leaves none: runs of backticks shrink below three and
      stay separated by the other characters. */
  lemma {:induction false} RemoveFenceLeavesNone(s: string)
    ensures !Occurs(Fence, Replace(s, Fence, []))
    decreases |s|
  {
    if |s| >= 3 {
      var r := Replace(s, Fence, []);
      if s[..3] == Fence {
        assert r == Replace(s[3..], Fence, []);
        RemoveFenceLeavesNone(s[3..]);
      } else {
        RemoveFenceLeavesNone(s[1..]);
        var t := Replace(s[1..], Fence, []);
        assert r == [s[0]] + t;
        assert r[1..] == t;
        assert |r| < 3 || r[..3] != Fence by {
          if |r| >= 3 {
            if s[0] != '`' {
              assert r[0] != '`';
            } else if s[1] != '`' {
              ReplaceKeepsHead(s[1..], Fence, []);
              assert r[1] != '`';
            } else {
              assert s[2] != '`';
              if |s| >= 4 {
                assert s[1..][..3][1] == s[2];
                assert t == [s[1]] + Replace(s[2..], Fence, []);
                ReplaceKeepsHead(s[2..], Fence, []);
              }
              assert r[2] != '`';
            }
          }
        }
      }
    }
  }

  /** The cleanup inside `extract_json`: strip, then remove every "```json", then
      every "```". Neither fence is left afterwards. */
  function Clean(text: string): (r: string)
    ensures !Occurs(Fence, r) && !Occurs(JsonFence, r)
  {
    var r := Replace(Replace(Strip(text), JsonFence, []), Fence, []);
    RemoveFenceLeavesNone(Replace(Strip(text), JsonFence, []));
    assert !Occurs(JsonFence, r) by {
      assert JsonFence == Fence + "json";
      if Occurs(JsonFence, r) {
        OccursPrefix(Fence, "json", r);
      }
    }
    r
  }

  /** A body without backticks keeps nothing but itself after "```json" removal
      when followed by a closing fence. */
  lemma {:induction false} KeepBodyAndFence(body: string)
    requires '`' !in body
    ensures Replace(body + Fence, JsonFence, []) == body + Fence
    decreases |body|
  {
    if body != [] {
      KeepBodyAndFence(body[1..]);
      assert (body + Fence)[1..] == body[1..] + Fence;
      assert (body + Fence)[0] == body[0];
    }
  }

  /** The closing fence is all "```" removal takes from a backtick-free body. */
  lemma {:induction false} DropClosingFence(body: string)
    requires '`' !in body
    ensures Replace(body + Fence, Fence, []) == body
    decreases |body|
  {
    if body == [] {
      assert body + Fence == Fence;
    } else {
      DropClosingFence(body[1..]);
      assert (body + Fence)[1..] == body[1..] + Fence;
      assert (body + Fence)[0] == body[0];
    }
  }

  /** A reply wrapped as "```json" body "```" is cleaned to exactly its body. */
  lemma CleanFenced(body: string)
    requires '`' !in body
    ensures Clean(JsonFence + body + Fence) == body
  {
    var s := JsonFence + body + Fence;
    assert IsStripped(s) by {
      assert s[0] == '`' && s[|s| - 1] == '`';
    }
    assert s[..|JsonFence|] == JsonFence;
    assert s[|JsonFence|..] == body + Fence;
    var once := Replace(s, JsonFence, []);
    assert once == Replace(body + Fence, JsonFence, []);
    KeepBodyAndFence(body);
    DropClosingFence(body);
    assert Clean(s) == Replace(once, Fence, []);
  }

  /** A reply without backticks is only stripped by the cleanup. */
  lemma CleanPlain(text: string)
    requires '`' !in text
    ensures Clean(text) == Strip(text)
  {
    var s := Strip(text);
    OccursNeedsHead(JsonFence, s);
    ReplaceAbsent(s, JsonFence, []);
    OccursNeedsHead(Fence, s);
    ReplaceAbsent(s, Fence, []);
  }

  const SystemPrompt: string := "You extract structured data and output ONLY valid JSON."
  const EmptyInputError: string := "Please provide text for extraction."
  /** The message of the exception `None.strip()` raises when the reply has no content. */
  const NoContentError: string := "'NoneType' object has no attribute 'strip'"

  /** What happens when Extract JSON is clicked, before any remote call. */
  datatype Prepared = Blank(message: string) | Ready(request: Request)

  /** The Extract JSON handler up to the remote call: whitespace-only text is
      refused and nothing is sent; otherwise the request holds the fixed system
      message and the prompt over the parsed fields and the text as given. */
  function Prepare(fieldsInput: string, userText: string): (p: Prepared)
    ensures p.Blank? <==> IsBlank(userText)
    ensures p.Blank? ==> p.message == EmptyInputError
    ensures p.Ready? ==> p.request.model == ModelId
    ensures p.Ready? ==>
              p.request.messages == [Message(System, SystemPrompt), Message(User, Prompt(ParseFields(fieldsInput), userText))]
  {
    if Strip(userText) == [] then Blank(EmptyInputError)
    else Ready(Request(ModelId, [Message(System, SystemPrompt), Message(User, Prompt(ParseFields(fieldsInput), userText))]))
  }

  /** How the page ends: a refusal, the parsed value, the raw reply shown after a
      parse failure, or the error text of an exception. */
  datatype Outcome<J> = Rejected(message: string) | Parsed(value: J) | InvalidJson(raw: string) | Error(message: string)

  /** What the page does with the reply, given a JSON parser that yields `None`
      where `json.loads` raises `JSONDecodeError`. A parse failure is an outcome,
      never an exception, and shows the stripped reply, not the cleaned one. */
  function Finish<J>(reply: Reply, parse: string -> Option<J>): (o: Outcome<J>)
    ensures !o.Rejected?
    ensures o.Parsed? <==> reply.Content? && parse(Clean(reply.text)).Some?
    ensures o.Parsed? ==> parse(Clean(reply.text)) == Some(o.value)
    ensures o.InvalidJson? <==> reply.Content? && parse(Clean(reply.text)).None?
    ensures o.InvalidJson? ==> o.raw == Strip(reply.text)
    ensures reply.NoContent? ==> o == Error(NoContentError)
    ensures reply.Failed? ==> o == Error(reply.message)
  {
    match reply
    case Content(text) =>
      var result := Strip(text);
      assert Clean(result) == Clean(text);
      (match parse(Clean(result))
       case Some(value) => Parsed(value)
       case None => InvalidJson(result))
    case NoContent => Error(NoContentError)
    case Failed(message) => Error(message)
  }

  /** One click of Extract JSON, given what the remote call would return. */
  function Extract<J>(fieldsInput: string, userText: string, reply: Reply, parse: string -> Option<J>): (o: Outcome<J>)
    ensures o.Rejected? <==> IsBlank(userText)
    ensures o.Rejected? ==> o.message == EmptyInputError
    ensures !IsBlank(userText) ==> o == Finish(reply, parse)
  {
    match Prepare(fieldsInput, userText)
    case Blank(message) => Rejected(message)
    case Ready(_) => Finish(reply, parse)
  }

  /** A fenced reply is parsed from its body; if that fails the whole stripped
      reply is shown. */
  lemma FencedReply<J>(body: string, parse: string -> Option<J>)
    requires '`' !in body
    ensures parse(body).Some? ==> Finish(Content(JsonFence + body + Fence), parse) == Parsed(parse(body).value)
    ensures parse(body).None? ==>
              Finish(Content(JsonFence + body + Fence), parse) == InvalidJson(JsonFence + body + Fence)
  {
    CleanFenced(body);
    var s := JsonFence + body + Fence;
    assert IsStripped(s) by {
      assert s[0] == '`' && s[|s| - 1] == '`';
    }
  }

  /** A reply without backticks that does not parse is shown stripped. */
  lemma PlainInvalidReply<J>(text: string, parse: string -> Option<J>)
    requires '`' !in text && parse(Strip(text)).None?
    ensures Finish(Content(text), parse) == InvalidJson(Strip(text))
  {
    CleanPlain(text);
  }
}
