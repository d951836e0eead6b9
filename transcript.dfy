/**
 * Reading a JSONL session transcript (agent/session_storage.py, the two static helpers of
 * SessionStorageBackend): the title is taken from the first user entry, the message list from
 * every user and assistant entry. One JSON document per line; `decode` stands for `json.loads`
 * (None when it raises JSONDecodeError).
 */
module Transcript {
  import opened Wrappers
  import opened Text
  import Json

  /** The default `max_length` of `extract_title_from_content`. */
  const DefaultTitleLength: nat := 50

  type Decoder = string -> Option<Json.Value>

  /** A user message text made into a title: stripped, newlines become spaces, long ones cut with "...". */
  function MakeTitle(text: string, maxLength: nat): (t: string)
    ensures |t| <= maxLength + 3
    ensures '\n' !in t
    ensures var full := ReplaceChar(Strip(text), '\n', ' ');
      if |full| <= maxLength then t == full else t == full[..maxLength] + "..."
  {
    var full := ReplaceChar(Strip(text), '\n', ' ');
    if |full| > maxLength then full[..maxLength] + "..." else full
  }

  /** What one line contributes to the title search. */
  datatype TitleStep =
    | SkipLine                  // blank, not JSON, not a user entry, or no usable text
    | FoundTitle(title: string) // the first usable user message
    | Abort                     // an AttributeError, swallowed by the outer `except`: no title at all

  /** The text of a user message dict, `message.get("content", "")`. */
  function MessageContent(message: map<string, Json.Value>): Json.Value {
    if "content" in message then message["content"] else Json.Str("")
  }

  predicate IsEntryOfType(entry: map<string, Json.Value>, kind: string) {
    Json.Get(entry, "type") == Some(Json.Str(kind))
  }

  function TitleStepOf(line: string, maxLength: nat, decode: Decoder): TitleStep {
    var l := Strip(line);
    if l == [] then SkipLine
    else match decode(l)
      case None => SkipLine
      case Some(entry) =>
        if !entry.Obj? then Abort
        else if !(IsEntryOfType(entry.fields, "user") && "message" in entry.fields) then SkipLine
        else
          var message := entry.fields["message"];
          if !message.Obj? then Abort
          else
            var c := MessageContent(message.fields);
            if c.Str? && c.s != "" then FoundTitle(MakeTitle(c.s, maxLength)) else SkipLine
  }

  /** The title found by scanning `lines` in order. */
  function TitleFromLines(lines: seq<string>, maxLength: nat, decode: Decoder): Option<string> {
    if lines == [] then None
    else match TitleStepOf(lines[0], maxLength, decode)
      case SkipLine => TitleFromLines(lines[1..], maxLength, decode)
      case FoundTitle(t) => Some(t)
      case Abort => None
  }

  function TitleOf(content: string, maxLength: nat, decode: Decoder): Option<string> {
    TitleFromLines(Split(content, '\n'), maxLength, decode)
  }

  /** `extract_title_from_content`. */
  method ExtractTitleFromContent(content: string, maxLength: nat, decode: Decoder) returns (title: Option<string>)
    ensures title == TitleOf(content, maxLength, decode)
  {
    var lines := Split(content, '\n');
    var i := 0;
    while i < |lines|
      invariant 0 <= i <= |lines|
      invariant TitleFromLines(lines[i..], maxLength, decode) == TitleOf(content, maxLength, decode)
    {
      assert lines[i..][1..] == lines[i + 1..];
      var line := Strip(lines[i]);
      if line != [] {
        var entry := decode(line);
        if entry.Some? {
          if !entry.value.Obj? {
            return None;
          }
          var fields := entry.value.fields;
          if IsEntryOfType(fields, "user") && "message" in fields {
            if !fields["message"].Obj? {
              return None;
            }
            var msgContent := MessageContent(fields["message"].fields);
            if msgContent.Str? && msgContent.s != "" {
              var t := ReplaceChar(Strip(msgContent.s), '\n', ' ');
              if |t| > maxLength {
                t := t[..maxLength] + "...";
              }
              return Some(t);
            }
          }
        }
      }
      i := i + 1;
    }
    return None;
  }

  /** Every title is at most `maxLength + 3` characters long and lies on one line. */
  lemma {:induction false} TitleBounded(lines: seq<string>, maxLength: nat, decode: Decoder)
    ensures var t := TitleFromLines(lines, maxLength, decode);
      t.Some? ==> |t.value| <= maxLength + 3 && '\n' !in t.value
  {
    if lines != [] && TitleStepOf(lines[0], maxLength, decode) == SkipLine {
      TitleBounded(lines[1..], maxLength, decode);
    }
  }

  /** The title is the first usable user message when every line before it is skipped. */
  lemma {:induction false} FirstUserMessageIsTitle(lines: seq<string>, i: nat, maxLength: nat, decode: Decoder)
    requires i < |lines|
    requires forall j :: 0 <= j < i ==> TitleStepOf(lines[j], maxLength, decode) == SkipLine
    ensures TitleFromLines(lines, maxLength, decode) ==
      match TitleStepOf(lines[i], maxLength, decode)
      case FoundTitle(t) => Some(t)
      case Abort => None
      case SkipLine => TitleFromLines(lines[i + 1..], maxLength, decode)
  {
    if i > 0 {
      FirstUserMessageIsTitle(lines[1..], i - 1, maxLength, decode);
      assert lines[1..][i - 1 + 1..] == lines[i + 1..];
    }
  }

  /** Without any usable user message there is no title. */
  lemma {:induction false} NoUserMessageNoTitle(lines: seq<string>, maxLength: nat, decode: Decoder)
    requires forall j :: 0 <= j < |lines| ==> TitleStepOf(lines[j], maxLength, decode) == SkipLine
    ensures TitleFromLines(lines, maxLength, decode) == None
  {
    if lines != [] {
      NoUserMessageNoTitle(lines[1..], maxLength, decode);
    }
  }

  /** A skipped line (blank, malformed or irrelevant) can be removed without changing the title. */
  lemma {:induction false} SkippedLineIrrelevantForTitle(a: seq<string>, line: string, b: seq<string>, maxLength: nat, decode: Decoder)
    requires TitleStepOf(line, maxLength, decode) == SkipLine
    ensures TitleFromLines(a + [line] + b, maxLength, decode) == TitleFromLines(a + b, maxLength, decode)
  {
    if a == [] {
      assert (a + [line] + b)[1..] == b;
      assert a + b == b;
    } else {
      assert (a + [line] + b)[1..] == a[1..] + [line] + b;
      assert (a + b)[1..] == a[1..] + b;
      SkippedLineIrrelevantForTitle(a[1..], line, b, maxLength, decode);
    }
  }

  /** Blank lines and lines that are not JSON never stop or change the title search. */
  lemma BlankOrMalformedLinesSkipped(line: string, maxLength: nat, decode: Decoder)
    requires Strip(line) == [] || decode(Strip(line)).None?
    ensures TitleStepOf(line, maxLength, decode) == SkipLine
    ensures MessageStepOf(line, decode) == NoMessage
  {
  }

  /** A JSON line that is not a dict: `entry.get` raises. */
  datatype ParseError = EntryNotADict

  /** What one line contributes to the message list. */
  datatype MessageStep = NoMessage | Message(message: Json.Value) | Raise

  function MessageStepOf(line: string, decode: Decoder): MessageStep {
    var l := Strip(line);
    if l == [] then NoMessage
    else match decode(l)
      case None => NoMessage
      case Some(entry) =>
        if !entry.Obj? then Raise
        else if (IsEntryOfType(entry.fields, "user") || IsEntryOfType(entry.fields, "assistant")) && "message" in entry.fields then
          Message(entry.fields["message"])
        else NoMessage
  }

  function PrependMessages(ms: seq<Json.Value>, r: Result<seq<Json.Value>, ParseError>): Result<seq<Json.Value>, ParseError> {
    match r
    case Success(rest) => Success(ms + rest)
    case Failure(e) => Failure(e)
  }

  /** The messages of the user and assistant entries of `lines`, in order, or the error raised. */
  function MessagesFromLines(lines: seq<string>, decode: Decoder): Result<seq<Json.Value>, ParseError> {
    if lines == [] then Success([])
    else match MessageStepOf(lines[0], decode)
      case NoMessage => MessagesFromLines(lines[1..], decode)
      case Message(m) => PrependMessages([m], MessagesFromLines(lines[1..], decode))
      case Raise => Failure(EntryNotADict)
  }

  function MessagesOf(content: string, decode: Decoder): Result<seq<Json.Value>, ParseError> {
    MessagesFromLines(Split(content, '\n'), decode)
  }

  lemma PrependTwice(ms: seq<Json.Value>, m: Json.Value, r: Result<seq<Json.Value>, ParseError>)
    ensures PrependMessages(ms, PrependMessages([m], r)) == PrependMessages(ms + [m], r)
  {
    if r.Success? {
      assert ms + ([m] + r.value) == (ms + [m]) + r.value;
    }
  }

  lemma UnfoldMessages(lines: seq<string>, i: nat, decode: Decoder)
    requires i < |lines|
    ensures MessagesFromLines(lines[i..], decode) ==
      match MessageStepOf(lines[i], decode)
      case NoMessage => MessagesFromLines(lines[i + 1..], decode)
      case Message(m) => PrependMessages([m], MessagesFromLines(lines[i + 1..], decode))
      case Raise => Failure(EntryNotADict)
  {
    assert lines[i..][0] == lines[i];
    assert lines[i..][1..] == lines[i + 1..];
  }

  /** `parse_messages_from_content`. */
  method ParseMessagesFromContent(content: string, decode: Decoder) returns (r: Result<seq<Json.Value>, ParseError>)
    ensures r == MessagesOf(content, decode)
  {
    var messages: seq<Json.Value> := [];
    var lines := Split(content, '\n');
    var i := 0;
    assert lines[i..] == lines;
    match MessagesFromLines(lines, decode) {
      case Success(ms) => assert messages + ms == ms;
      case Failure(_) =>
    }
    while i < |lines|
      invariant 0 <= i <= |lines|
      invariant MessagesOf(content, decode) == PrependMessages(messages, MessagesFromLines(lines[i..], decode))
    {
      UnfoldMessages(lines, i, decode);
      var line := Strip(lines[i]);
      if line != [] {
        var entry := decode(line);
        if entry.Some? {
          if !entry.value.Obj? {
            return Failure(EntryNotADict);
          }
          var fields := entry.value.fields;
          if (IsEntryOfType(fields, "user") || IsEntryOfType(fields, "assistant")) && "message" in fields {
            PrependTwice(messages, fields["message"], MessagesFromLines(lines[i + 1..], decode));
            messages := messages + [fields["message"]];
          }
        }
      }
      i := i + 1;
    }
    assert lines[i..] == [];
    assert messages + [] == messages;
    return Success(messages);
  }

  /** Parsing a concatenation of lines: the messages of the first part, then those of the second. */
  lemma {:induction false} MessagesOfConcat(a: seq<string>, b: seq<string>, decode: Decoder)
    ensures MessagesFromLines(a + b, decode) ==
      match MessagesFromLines(a, decode)
      case Failure(e) => Failure(e)
      case Success(ms) => PrependMessages(ms, MessagesFromLines(b, decode))
  {
    if a == [] {
      assert a + b == b;
      match MessagesFromLines(b, decode) {
        case Success(rest) => assert [] + rest == rest;
        case Failure(_) =>
      }
    } else {
      assert (a + b)[1..] == a[1..] + b;
      MessagesOfConcat(a[1..], b, decode);
      match MessageStepOf(a[0], decode) {
        case NoMessage =>
        case Raise =>
        case Message(m) =>
          match MessagesFromLines(a[1..], decode) {
            case Failure(_) =>
            case Success(ms) =>
              match MessagesFromLines(b, decode) {
                case Failure(_) =>
                case Success(rest) => assert [m] + (ms + rest) == ([m] + ms) + rest;
              }
          }
      }
    }
  }

  /** Parsing never yields more messages than there are lines. */
  lemma {:induction false} MessagesAtMostLines(lines: seq<string>, decode: Decoder)
    ensures MessagesFromLines(lines, decode).Success? ==> |MessagesFromLines(lines, decode).value| <= |lines|
  {
    if lines != [] {
      MessagesAtMostLines(lines[1..], decode);
    }
  }

  /** Parsing fails exactly when some line is a JSON document that is not a dict. */
  lemma {:induction false} MessagesFailOnlyOnNonDict(lines: seq<string>, decode: Decoder)
    ensures MessagesFromLines(lines, decode).Failure? <==>
      exists j :: 0 <= j < |lines| && MessageStepOf(lines[j], decode) == Raise
  {
    if lines != [] {
      MessagesFailOnlyOnNonDict(lines[1..], decode);
      if MessageStepOf(lines[0], decode) != Raise {
        if exists j :: 0 <= j < |lines| && MessageStepOf(lines[j], decode) == Raise {
          var j :| 0 <= j < |lines| && MessageStepOf(lines[j], decode) == Raise;
          assert lines[1..][j - 1] == lines[j];
        }
        if exists j :: 0 <= j < |lines[1..]| && MessageStepOf(lines[1..][j], decode) == Raise {
          var j :| 0 <= j < |lines[1..]| && MessageStepOf(lines[1..][j], decode) == Raise;
          assert lines[j + 1] == lines[1..][j];
        }
      }
    }
  }
}
