/** The conversation bookkeeping of `EcommerceAgent` (agent.py:155-203). The
    library's chat memory is a plain sequence of tagged messages, and the
    library's agent executor is a function from (input, chat history) to either
    an output or a raised error. */
module Agent {
  import opened Wrappers
  import opened Text
  import opened PyDict

  /** A message in the library's chat memory. Kinds other than human and AI
      messages (system messages, for one) can appear there too. */
  datatype Message =
    | HumanMessage(content: string)
    | AIMessage(content: string)
    | OtherMessage(kind: string, content: string)

  /** One entry of `get_conversation_history`: `{"role": ..., "content": ...}`. */
  datatype Turn = Turn(role: string, content: string)

  /** What one executor invocation does: returns a response whose `output` is
      `text`, or raises an exception whose `str()` is `error`. */
  datatype ExecResult = Output(text: string) | Raised(error: string)

  /** The agent executor, fed the enhanced input and the chat-history string. */
  type Executor = (string, string) -> ExecResult

  const ContextLabel := "\nCustomer Context: "
  const ApologyPrefix := "I apologize, but I encountered an error while processing your request: "

  /** Python truthiness of the optional context argument. */
  predicate HasContext(context: Option<Dict<string, string>>) {
    context.Some? && context.value != []
  }

  // ------------------------------------------------------------- the input

  /** The text handed to the executor: the raw message, followed by the
      rendered context when there is a non-empty one. `repr` is Python's
      `repr` of a string, which renders keys and values inside the dict. */
  function EnhancedInput(message: string, context: Option<Dict<string, string>>, repr: string -> string): (r: string)
    ensures StartsWith(r, message)
    ensures r == message <==> !HasContext(context)
    ensures HasContext(context) ==>
      r[|message|..] == ContextLabel + Render(context.value, repr, repr)
  {
    if HasContext(context) then
      var r := message + ContextLabel + Render(context.value, repr, repr);
      assert r[..|message|] == message;
      r
    else message
  }

  // --------------------------------------------------- the two memory views

  /** The line one message contributes to the chat-history string. */
  function TranscriptLine(m: Message): string {
    match m
    case HumanMessage(c) => "Human: " + c + "\n"
    case AIMessage(c) => "AI: " + c + "\n"
    case OtherMessage(_, _) => ""
  }

  /** The chat-history string: one line per human or AI message, in order. */
  function Transcript(msgs: seq<Message>): string {
    Concat(MapSeq(msgs, TranscriptLine))
  }

  /** The turns of `get_conversation_history`, defined message by message. */
  function History(msgs: seq<Message>): seq<Turn> {
    if msgs == [] then []
    else
      var head := match msgs[0]
        case HumanMessage(c) => [Turn("user", c)]
        case AIMessage(c) => [Turn("assistant", c)]
        case OtherMessage(_, _) => [];
      head + History(msgs[1..])
  }

  lemma {:induction false} TranscriptAppend(a: seq<Message>, b: seq<Message>)
    ensures Transcript(a + b) == Transcript(a) + Transcript(b)
  {
    assert MapSeq(a + b, TranscriptLine) == MapSeq(a, TranscriptLine) + MapSeq(b, TranscriptLine);
    ConcatAppend(MapSeq(a, TranscriptLine), MapSeq(b, TranscriptLine));
  }

  lemma {:induction false} HistoryAppend(a: seq<Message>, b: seq<Message>)
    ensures History(a + b) == History(a) + History(b)
  {
    if a == [] {
      assert a + b == b;
    } else {
      assert (a + b)[0] == a[0];
      assert (a + b)[1..] == a[1..] + b;
      HistoryAppend(a[1..], b);
    }
  }

  /** How a history turn reads in the chat-history string. */
  function TurnLine(t: Turn): string {
    (if t.role == "user" then "Human: " else "AI: ") + t.content + "\n"
  }

  /** The two views of memory agree: the chat-history string handed to the
      executor is exactly the turns of `get_conversation_history`, in the same
      order, with `user` written `Human:` and `assistant` written `AI:`. */
  lemma {:induction false} TranscriptIsHistory(msgs: seq<Message>)
    ensures Transcript(msgs) == Concat(MapSeq(History(msgs), TurnLine))
    ensures forall i :: 0 <= i < |History(msgs)| ==> History(msgs)[i].role in {"user", "assistant"}
  {
    if msgs != [] {
      var rest := msgs[1..];
      assert msgs == [msgs[0]] + rest;
      TranscriptAppend([msgs[0]], rest);
      HistoryAppend([msgs[0]], rest);
      TranscriptIsHistory(rest);
      var h0 := History([msgs[0]]);
      assert [msgs[0]][1..] == [];
      assert MapSeq([msgs[0]], TranscriptLine) == [TranscriptLine(msgs[0])];
      ConcatSingleton(TranscriptLine(msgs[0]));
      assert MapSeq(History(msgs), TurnLine) == MapSeq(h0, TurnLine) + MapSeq(History(rest), TurnLine);
      ConcatAppend(MapSeq(h0, TurnLine), MapSeq(History(rest), TurnLine));
      match msgs[0]
      case HumanMessage(c) =>
        assert MapSeq(h0, TurnLine) == [TurnLine(Turn("user", c))];
        ConcatSingleton(TurnLine(Turn("user", c)));
      case AIMessage(c) =>
        assert MapSeq(h0, TurnLine) == [TurnLine(Turn("assistant", c))];
        ConcatSingleton(TurnLine(Turn("assistant", c)));
      case OtherMessage(_, _) =>
        assert MapSeq(h0, TurnLine) == [];
        assert Concat(MapSeq(h0, TurnLine)) == "";
    }
  }

  /** The loop building the chat-history string (agent.py:162-167). */
  method BuildChatHistory(msgs: seq<Message>) returns (chatHistory: string)
    ensures chatHistory == Transcript(msgs)
  {
    chatHistory := "";
    var i := 0;
    while i < |msgs|
      invariant 0 <= i <= |msgs|
      invariant chatHistory == Transcript(msgs[..i])
    {
      var m := msgs[i];
      if m.HumanMessage? {
        chatHistory := chatHistory + "Human: " + m.content + "\n";
      } else if m.AIMessage? {
        chatHistory := chatHistory + "AI: " + m.content + "\n";
      }
      assert msgs[..i + 1] == msgs[..i] + [msgs[i]];
      TranscriptAppend(msgs[..i], [msgs[i]]);
      assert MapSeq([msgs[i]], TranscriptLine) == [TranscriptLine(msgs[i])];
      ConcatSingleton(TranscriptLine(msgs[i]));
      i := i + 1;
    }
    assert msgs[..i] == msgs;
  }

  /** `get_conversation_history` (agent.py:195-203). */
  method GetConversationHistory(msgs: seq<Message>) returns (history: seq<Turn>)
    ensures history == History(msgs)
  {
    history := [];
    var i := 0;
    while i < |msgs|
      invariant 0 <= i <= |msgs|
      invariant history == History(msgs[..i])
    {
      var m := msgs[i];
      if m.HumanMessage? {
        history := history + [Turn("user", m.content)];
      } else if m.AIMessage? {
        history := history + [Turn("assistant", m.content)];
      }
      assert msgs[..i + 1] == msgs[..i] + [msgs[i]];
      HistoryAppend(msgs[..i], [msgs[i]]);
      assert [msgs[i]][1..] == [];
      i := i + 1;
    }
    assert msgs[..i] == msgs;
  }

  // ------------------------------------------------------------- one turn

  /** `process_message` (agent.py:155-189): builds the enhanced input and the
      chat history, runs the executor, and saves exactly one (raw message,
      reply) pair, on the success path and on the exception path alike. */
  method ProcessMessage(memory: seq<Message>, message: string, context: Option<Dict<string, string>>,
                        exec: Executor, repr: string -> string)
    returns (reply: string, memory': seq<Message>)
    ensures memory' == memory + [HumanMessage(message), AIMessage(reply)]
    ensures exec(EnhancedInput(message, context, repr), Transcript(memory)).Output? ==>
      reply == exec(EnhancedInput(message, context, repr), Transcript(memory)).text
    ensures exec(EnhancedInput(message, context, repr), Transcript(memory)).Raised? ==>
      reply == ApologyPrefix + exec(EnhancedInput(message, context, repr), Transcript(memory)).error
  {
    var enhanced := message;
    if HasContext(context) {
      enhanced := enhanced + ContextLabel + Render(context.value, repr, repr);
    }
    var chatHistory := BuildChatHistory(memory);
    var response := exec(enhanced, chatHistory);
    match response {
      case Output(text) =>
        reply := text;
      case Raised(error) =>
        reply := ApologyPrefix + error;
    }
    memory' := memory + [HumanMessage(message), AIMessage(reply)];
  }

  /** After a turn, both memory views have grown by exactly that turn: the
      history by a user turn with the raw message and an assistant turn with
      the reply, the chat-history string by the matching two lines. */
  lemma TurnExtendsViews(memory: seq<Message>, message: string, reply: string)
    ensures var memory' := memory + [HumanMessage(message), AIMessage(reply)];
      && History(memory') == History(memory) + [Turn("user", message), Turn("assistant", reply)]
      && Transcript(memory') == Transcript(memory) + "Human: " + message + "\nAI: " + reply + "\n"
  {
    var pair := [HumanMessage(message), AIMessage(reply)];
    HistoryAppend(memory, pair);
    TranscriptAppend(memory, pair);
    assert pair[1..] == [AIMessage(reply)];
    assert pair[1..][1..] == [];
    assert History(pair[1..]) == [Turn("assistant", reply)];
    assert History(pair) == [Turn("user", message), Turn("assistant", reply)];
    var lines := MapSeq(pair, TranscriptLine);
    assert lines == ["Human: " + message + "\n", "AI: " + reply + "\n"];
    assert lines[1..] == ["AI: " + reply + "\n"];
    ConcatSingleton("AI: " + reply + "\n");
    assert Transcript(pair) == "Human: " + message + "\n" + "AI: " + reply + "\n";
  }

  /** The user and assistant turns of a run of conversation, interleaved. */
  function Exchanges(messages: seq<string>, replies: seq<string>): seq<Turn>
    requires |messages| == |replies|
  {
    if messages == [] then []
    else
      [Turn("user", messages[0]), Turn("assistant", replies[0])] + Exchanges(messages[1..], replies[1..])
  }

  lemma {:induction false} ExchangesSnoc(messages: seq<string>, replies: seq<string>, m: string, r: string)
    requires |messages| == |replies|
    ensures Exchanges(messages + [m], replies + [r])
      == Exchanges(messages, replies) + [Turn("user", m), Turn("assistant", r)]
  {
    if messages != [] {
      assert (messages + [m])[1..] == messages[1..] + [m];
      assert (replies + [r])[1..] == replies[1..] + [r];
      ExchangesSnoc(messages[1..], replies[1..], m, r);
    }
  }

  /** A session that sends `messages` one after another under the same
      context: every message yields one reply, and the visible history
      gains the user/assistant pairs in the order the messages were sent. */
  method Converse(memory: seq<Message>, messages: seq<string>, context: Option<Dict<string, string>>,
                  exec: Executor, repr: string -> string)
    returns (replies: seq<string>, memory': seq<Message>)
    ensures |replies| == |messages|
    ensures |memory'| == |memory| + 2 * |messages|
    ensures History(memory') == History(memory) + Exchanges(messages, replies)
  {
    replies := [];
    memory' := memory;
    var i := 0;
    while i < |messages|
      invariant 0 <= i <= |messages|
      invariant |replies| == i
      invariant |memory'| == |memory| + 2 * i
      invariant History(memory') == History(memory) + Exchanges(messages[..i], replies)
    {
      var reply, next := ProcessMessage(memory', messages[i], context, exec, repr);
      TurnExtendsViews(memory', messages[i], reply);
      ExchangesSnoc(messages[..i], replies, messages[i], reply);
      assert messages[..i + 1] == messages[..i] + [messages[i]];
      replies := replies + [reply];
      memory' := next;
      i := i + 1;
    }
    assert messages[..i] == messages;
  }

  /** `reset_conversation`: the memory is cleared, so both views are empty. */
  function ResetConversation(memory: seq<Message>): (memory': seq<Message>)
    ensures memory' == []
    ensures History(memory') == [] && Transcript(memory') == ""
  {
    []
  }
}
