/** What a conversation is sent as over the generateContent wire format, read off the
    conversation itself: a result goes under the name of the latest call of its id. */
module GeminiContents {
  import opened Gage
  import opened Gemini
  import GeminiReplay
  import Strings

  /** The name of the latest of these calls with this id. */
  function CalledIn(parts: seq<Part>, id: string): Option<string> {
    if parts == [] then None
    else
      var last := parts[|parts| - 1];
      if last.ToolUsePart? && last.call.id == id then Some(last.call.name) else CalledIn(parts[..|parts| - 1], id)
  }

  /** The name of the latest call of an id in a conversation. */
  function Called(history: seq<Message>, id: string): Option<string> {
    if history == [] then None
    else
      var last := history[|history| - 1];
      var own := if last.role == RoleAssistant then CalledIn(last.content, id) else None;
      if own.Some? then own else Called(history[..|history| - 1], id)
  }

  /** What a part becomes in a message of this role, after `history`. */
  function PieceFor(history: seq<Message>, role: Role, p: Part): seq<ContentPiece> {
    match (role, p)
    case (RoleTool, ToolResultPart(r)) =>
      [Response(match Called(history, r.callID)
                case Some(name) => if name == "" then r.callID else name
                case None => r.callID,
                r.content)]
    case (RoleTool, _) => []
    case (_, TextPart(s)) => [PlainText(s, "")]
    case (RoleAssistant, ReasoningPart(s, sig)) => if sig == "" then [] else [Thought(s, sig)]
    case (RoleAssistant, ToolUsePart(tc)) => [Call(tc.name, if tc.input == "" then "{}" else tc.input, "")]
    case (RoleAssistant, _) => []
    case (_, MediaPart(payload)) => [Media(payload)]
    case (_, _) => []
  }

  function PiecesFor(history: seq<Message>, role: Role, parts: seq<Part>): seq<ContentPiece> {
    if parts == [] then []
    else PiecesFor(history, role, parts[..|parts| - 1]) + PieceFor(history, role, parts[|parts| - 1])
  }

  /** The contents, a message that comes to nothing left out. */
  function Sent(msgs: seq<Message>): seq<Content> {
    if msgs == [] then []
    else
      var history, m := msgs[..|msgs| - 1], msgs[|msgs| - 1];
      var pieces := PiecesFor(history, m.role, m.content);
      Sent(history) + if pieces == [] then [] else [Content(m.role == RoleAssistant, pieces)]
  }

  // ---- the encoder agrees ----

  /** The names on record are those of the latest calls. */
  ghost predicate Knows(names: map<string, string>, history: seq<Message>) {
    forall id :: Called(history, id) == if id in names then Some(names[id]) else None
  }

  lemma {:induction false} NamesCalled(names: map<string, string>, parts: seq<Part>, id: string)
    ensures var own, after := CalledIn(parts, id), Names(names, parts);
            if own.Some? then id in after && after[id] == own.value
            else (id in after <==> id in names) && (id in names ==> after[id] == names[id])
  {
    if parts != [] {
      var n := |parts| - 1;
      NamesCalled(names, parts[..n], id);
      GeminiReplay.NamesSnoc(names, parts[..n], parts[n]);
      assert parts == parts[..n] + [parts[n]];
    }
  }

  lemma {:induction false} HistoryKnown(history: seq<Message>)
    ensures Knows(GeminiReplay.NamesFrom(map[], history), history)
  {
    if history != [] {
      var before, m := history[..|history| - 1], history[|history| - 1];
      HistoryKnown(before);
      assert history == before + [m];
      GeminiReplay.NamesFromSnoc(map[], before, m);
      OneMoreKnown(GeminiReplay.NamesFrom(map[], before), before, m);
    }
  }

  lemma OneMoreKnown(names: map<string, string>, before: seq<Message>, m: Message)
    requires Knows(names, before)
    ensures Knows(NamesAfter(names, m), before + [m])
  {
    var history := before + [m];
    assert history[..|history| - 1] == before;
    forall id
      ensures Called(history, id) == if id in NamesAfter(names, m) then Some(NamesAfter(names, m)[id]) else None
    {
      NamesCalled(names, m.content, id);
      assert Called(before, id) == if id in names then Some(names[id]) else None;
    }
  }

  lemma {:induction false} PiecesAgree(names: map<string, string>, history: seq<Message>, role: Role, parts: seq<Part>)
    requires Knows(names, history)
    ensures PiecesFor(history, role, parts) == MessageParts(names, Message(role, parts))
  {
    if parts != [] {
      var front, last := parts[..|parts| - 1], parts[|parts| - 1];
      PiecesAgree(names, history, role, front);
      assert parts == front + [last];
      MoreParts(names, role, front, last);
      PieceAgrees(names, history, role, last);
    }
  }

  lemma PieceAgrees(names: map<string, string>, history: seq<Message>, role: Role, p: Part)
    requires Knows(names, history)
    ensures PieceFor(history, role, p) == MessageParts(names, Message(role, [p]))
  {
    match role
    case RoleTool =>
      if p.ToolResultPart? {
        var id := p.result.callID;
        assert Called(history, id) == if id in names then Some(names[id]) else None;
        assert PieceFor(history, role, p) == [Response(NameFor(names, id), p.result.content)];
      }
      assert ResultParts(names, [p]) == PieceFor(history, role, p) + ResultParts(names, []);
    case RoleAssistant => assert AssistantParts([p]) == PieceFor(history, role, p) + AssistantParts([]);
    case _ => assert UserParts([p]) == PieceFor(history, role, p) + UserParts([]);
  }

  lemma MoreParts(names: map<string, string>, role: Role, parts: seq<Part>, last: Part)
    ensures MessageParts(names, Message(role, parts + [last]))
         == MessageParts(names, Message(role, parts)) + MessageParts(names, Message(role, [last]))
  {
    match role
    case RoleTool => MoreResults(names, parts, last);
    case RoleAssistant => GeminiReplay.AssistantConcat(parts, [last]);
    case _ => MoreUser(parts, last);
  }

  lemma {:induction false} MoreResults(names: map<string, string>, parts: seq<Part>, last: Part)
    ensures ResultParts(names, parts + [last]) == ResultParts(names, parts) + ResultParts(names, [last])
    decreases |parts|
  {
    if parts == [] {
      assert parts + [last] == [last];
    } else {
      assert (parts + [last])[0] == parts[0] && (parts + [last])[1..] == parts[1..] + [last];
      MoreResults(names, parts[1..], last);
    }
  }

  lemma {:induction false} MoreUser(parts: seq<Part>, last: Part)
    ensures UserParts(parts + [last]) == UserParts(parts) + UserParts([last])
    decreases |parts|
  {
    if parts == [] {
      assert parts + [last] == [last];
    } else {
      assert (parts + [last])[0] == parts[0] && (parts + [last])[1..] == parts[1..] + [last];
      MoreUser(parts[1..], last);
    }
  }

  /** For every conversation: the contents are its messages in order, each part as its
      message's role has it, and each result under the name of the latest call of its id
      before it, or under that id when there is none or it has no name. */
  lemma {:induction false} ContentsAreSent(msgs: seq<Message>)
    ensures Contents(map[], msgs) == Sent(msgs)
  {
    if msgs != [] {
      var history, m := msgs[..|msgs| - 1], msgs[|msgs| - 1];
      var names := GeminiReplay.NamesFrom(map[], history);
      ContentsAreSent(history);
      assert msgs == history + [m];
      GeminiReplay.ContentsSnoc(map[], history, m);
      HistoryKnown(history);
      PiecesAgree(names, history, m.role, m.content);
      assert m == Message(m.role, m.content);
    }
  }
}
