/** The HTTP front end: the `/chat` handler that turns whatever the agent
    returns (or raises) into one reply string, the `/` and `/health` status
    endpoints, and the start-up step that builds the tool list. The agent is a
    collaborator: it is a function from what it is sent to what it returns. */
module Api {
  import opened Base
  import opened Text
  import Engine
  import opened Tools

  /** A message in the agent's reply. `Other` stands for every other message
      class (tool, system, ...); its `body` is its `content`, absent when it has no such attribute. */
  datatype Message =
    | Human(content: string)
    | AI(content: string)
    | Other(body: Option<string>, repr: string)

  /** The shapes the agent's response comes in: `None`, a dict (with or without
      the `messages` and `output` keys; `repr` is what `str` gives for it), or any
      other value. */
  datatype Response =
    | NoResponse
    | Dict(messages: Option<seq<Message>>, output: Option<string>, repr: string)
    | NonDict(repr: string)

  /** The three inputs `chat` may send to the agent, in the order it tries them. */
  datatype Payload =
    | HumanMessageList(text: string)  // {"messages": [HumanMessage(content=text)]}
    | TupleList(text: string)         // {"messages": [("user", text)]}
    | InputDict(text: string)         // {"input": text}

  /** One call of `agent.invoke`: it returned a response, or raised an exception with this text. */
  datatype Outcome = Returned(response: Response) | Raised(error: string)

  type Agent = Payload -> Outcome

  /** The `message` field of the request body: a string or an integer. */
  datatype ChatMessage = TextMessage(text: string) | NumberMessage(number: int)

  const NotInitialisedReply: string := "\U{274C} Agent not initialized. Please check backend logs for errors."
  const NoResponseReply: string := "\U{274C} No response from agent"
  const NoMessagesReply: string := "No messages in response"
  /** The warning sign (U+26A0 with its emoji variation selector) the rate-limit reply opens with. */
  const WarningSign: string := "\U{26A0}\U{FE0F}"
  const RateLimitReply: string := WarningSign + " Daily limit reached on Groq. Please try again later."

  // ---------------------------------------------------------------- reply extraction

  /** The backward scan stops at an AI message, whatever its content, or at a
      message that is not human and has non-empty content. */
  predicate Qualifies(m: Message) {
    m.AI? || (m.Other? && m.body.Some? && m.body.value != "")
  }

  /** `getattr(msg, 'content', str(msg))`. */
  function ContentOrRepr(m: Message): string {
    match m
    case Human(c) => c
    case AI(c) => c
    case Other(c, r) => if c.Some? then c.value else r
  }

  /** The position of the last qualifying message, if there is one. */
  function LastQualifying(ms: seq<Message>): (r: Option<nat>)
    ensures r.Some? ==> r.value < |ms| && Qualifies(ms[r.value])
    ensures r.Some? ==> forall j :: r.value < j < |ms| ==> !Qualifies(ms[j])
    ensures r.None? ==> forall j :: 0 <= j < |ms| ==> !Qualifies(ms[j])
    decreases |ms|
  {
    if |ms| == 0 then None
    else if Qualifies(ms[|ms| - 1]) then Some(|ms| - 1)
    else LastQualifying(ms[..|ms| - 1])
  }

  /** The reply read from a `messages` list: the last qualifying message's
      content; failing that the last message's content (or `str` of it); and a
      fixed text for an empty list. */
  function MessagesReply(ms: seq<Message>): string {
    match LastQualifying(ms)
    case Some(k) => ContentOrRepr(ms[k])
    case None => if |ms| == 0 then NoMessagesReply else ContentOrRepr(ms[|ms| - 1])
  }

  /** The `for msg in reversed(...)` loop with its `break` and `else` branch. */
  method LastReply(ms: seq<Message>) returns (reply: string)
    ensures reply == MessagesReply(ms)
  {
    var i := |ms|;
    while i > 0
      invariant 0 <= i <= |ms|
      invariant forall j :: i <= j < |ms| ==> !Qualifies(ms[j])
    {
      i := i - 1;
      var msg := ms[i];
      if Qualifies(msg) {
        reply := ContentOrRepr(msg);
        return;
      }
    }
    if |ms| > 0 {
      reply := ContentOrRepr(ms[|ms| - 1]);
    } else {
      reply := NoMessagesReply;
    }
  }

  /** When some message qualifies, the reply is the content of the last one. */
  lemma ReplyIsLastQualifying(ms: seq<Message>, k: nat)
    requires k < |ms| && Qualifies(ms[k])
    requires forall j :: k < j < |ms| ==> !Qualifies(ms[j])
    ensures MessagesReply(ms) == ContentOrRepr(ms[k])
    ensures ms[k].AI? ==> MessagesReply(ms) == ms[k].content
  {
  }

  /** When no message qualifies, the reply is the last message's content, or its
      `str` when it has none; an empty list gives the fixed text. */
  lemma NoQualifyingFallsBack(ms: seq<Message>)
    requires forall j :: 0 <= j < |ms| ==> !Qualifies(ms[j])
    ensures |ms| == 0 ==> MessagesReply(ms) == NoMessagesReply
    ensures |ms| > 0 ==> MessagesReply(ms) == ContentOrRepr(ms[|ms| - 1])
  {
  }

  /** A message that cannot qualify (a human turn, or a non-AI message with
      empty or no content) appended after a qualifying one does not change the reply. */
  lemma TrailingUnqualifiedIgnored(ms: seq<Message>, m: Message)
    requires !Qualifies(m)
    requires LastQualifying(ms).Some?
    ensures MessagesReply(ms + [m]) == MessagesReply(ms)
  {
  }

  /** The reply `chat` reads from a response that was returned: from the
      messages list when there is one, else from `output`, else `str`. */
  function ExtractReply(resp: Response): (r: string)
    ensures resp.NoResponse? ==> r == NoResponseReply
    ensures resp.Dict? && resp.messages.Some? ==> r == MessagesReply(resp.messages.value)
    ensures resp.Dict? && resp.messages.None? && resp.output.Some? ==> r == resp.output.value
    ensures (resp.Dict? && resp.messages.None? && resp.output.None?) || resp.NonDict? ==> r == resp.repr
  {
    match resp
    case NoResponse => NoResponseReply
    case NonDict(repr) => repr
    case Dict(messages, output, repr) =>
      if messages.Some? then MessagesReply(messages.value)
      else if output.Some? then output.value
      else repr
  }

  /** `messages` wins over `output`: with a messages list, the `output` field
      and the rest of the dict make no difference. */
  lemma MessagesTakePrecedence(ms: seq<Message>, o1: Option<string>, o2: Option<string>, r1: string, r2: string)
    ensures ExtractReply(Dict(Some(ms), o1, r1)) == ExtractReply(Dict(Some(ms), o2, r2)) == MessagesReply(ms)
  {
  }

  /** Without a messages list, the `output` field is the reply; with neither key,
      the dict's `str` is; a value that is not a dict is coerced with `str`; and
      `None` gets the fixed "no response" text. */
  lemma OutputThenStr(o: string, r: string)
    ensures ExtractReply(NoResponse) == NoResponseReply
    ensures ExtractReply(Dict(None, Some(o), r)) == o
    ensures ExtractReply(Dict(None, None, r)) == r
    ensures ExtractReply(NonDict(r)) == r
  {
  }

  /** The worked examples: an assistant turn after the user's is the reply; a
      lone user turn is echoed; an `output` field is used as is; an AI message
      is chosen even when empty, and an empty tool message is skipped. */
  lemma ExtractionExamples()
    ensures ExtractReply(Dict(Some([Human("hi"), AI("hello")]), None, "")) == "hello"
    ensures ExtractReply(Dict(Some([Human("hi")]), None, "")) == "hi"
    ensures ExtractReply(Dict(None, Some("x"), "")) == "x"
    ensures ExtractReply(Dict(Some([]), Some("x"), "")) == NoMessagesReply
    ensures MessagesReply([Other(Some("tool output"), "t"), AI("")]) == ""
    ensures MessagesReply([AI("answer"), Other(Some(""), "t")]) == "answer"
    ensures MessagesReply([AI("answer"), Other(None, "t")]) == "answer"
    ensures MessagesReply([Human("q"), Other(None, "t")]) == "t"
  {
  }

  // ---------------------------------------------------------------- errors

  /** The reply for an exception that is not a rate limit: its text, then a note to check the backend logs. */
  function GenericErrorReply(error: string): string {
    "Error: " + error + "\n\nCheck backend logs for details."
  }

  /** The reply for an exception caught by the handler: the rate-limit text when
      "429" occurs anywhere in its message, otherwise the generic error reply. */
  function ErrorReply(error: string): (r: string)
    ensures r == RateLimitReply <==> exists i :: OccursAt(error, "429", i)
    ensures r != RateLimitReply ==> r == GenericErrorReply(error)
  {
    ContainsAtSomePosition(error, "429");
    GenericErrorDistinct(error);
    if Contains(error, "429") then RateLimitReply else GenericErrorReply(error)
  }

  /** Any error text with 429 somewhere in it gives the rate-limit reply verbatim. */
  lemma RateLimitRecognised(before: string, after: string)
    ensures ErrorReply(before + "429" + after) == RateLimitReply
  {
    ContainsInfix(before, "429", after);
  }

  /** The generic error reply carries the exception text after "Error: " and can
      never be mistaken for the rate-limit reply. */
  lemma GenericErrorDistinct(error: string)
    ensures GenericErrorReply(error) != RateLimitReply
    ensures GenericErrorReply(error)[..7] == "Error: " && GenericErrorReply(error)[7..7 + |error|] == error
  {
    var r := GenericErrorReply(error);
    assert r[0] == 'E';
    assert RateLimitReply[0] == WarningSign[0] == '\U{26A0}';
  }

  // ---------------------------------------------------------------- invocation

  /** `str(request.message)`. */
  function Coerce(m: ChatMessage): (r: string)
    ensures m.TextMessage? ==> r == m.text
    ensures m.NumberMessage? ==> ParseDecimal(r) == Some(m.number)
  {
    match m
    case TextMessage(s) => s
    case NumberMessage(n) => IntToDecimalRoundTrip(n); IntToDecimal(n)
  }

  /** A numeric message reaches the agent as its decimal text: 42 as "42", and
      the number can be read back from it. */
  lemma NumberCoercion(n: int)
    ensures Coerce(NumberMessage(42)) == "42"
    ensures ParseDecimal(Coerce(NumberMessage(n))) == Some(n)
  {
    IntToDecimalRoundTrip(n);
  }

  /** The payloads in the order `chat` tries them. */
  function FallbackOrder(text: string): seq<Payload> {
    [HumanMessageList(text), TupleList(text), InputDict(text)]
  }

  /** The payloads tried, in order, and the outcome of the last one. */
  datatype Invocation = Invocation(attempts: seq<Payload>, outcome: Outcome)

  /** The nested `try` chain: each payload is tried only when the one before it
      raised, and only the last attempt's exception escapes. */
  function InvokeWithFallback(agent: Agent, text: string): (inv: Invocation)
    ensures 1 <= |inv.attempts| <= 3
    ensures inv.attempts == FallbackOrder(text)[..|inv.attempts|]
    ensures inv.outcome == agent(inv.attempts[|inv.attempts| - 1])
    ensures forall k :: 0 <= k < |inv.attempts| - 1 ==> agent(inv.attempts[k]).Raised?
    ensures inv.outcome.Raised? ==> |inv.attempts| == 3
  {
    var first := agent(HumanMessageList(text));
    if first.Returned? then Invocation([HumanMessageList(text)], first)
    else
      var second := agent(TupleList(text));
      if second.Returned? then Invocation([HumanMessageList(text), TupleList(text)], second)
      else Invocation(FallbackOrder(text), agent(InputDict(text)))
  }

  // ---------------------------------------------------------------- endpoints

  /** `chat`: the reply for a request, given the agent (`None` when it failed to
      initialise). It is total: every failure becomes a reply. */
  function Chat(agent: Option<Agent>, message: ChatMessage): (r: string)
    ensures agent.None? ==> r == NotInitialisedReply
    ensures agent.Some? && agent.value(HumanMessageList(Coerce(message))).Returned? ==>
      r == ExtractReply(agent.value(HumanMessageList(Coerce(message))).response)
    ensures agent.Some? && (forall p :: p in FallbackOrder(Coerce(message)) ==> agent.value(p).Raised?) ==>
      r == ErrorReply(agent.value(InputDict(Coerce(message))).error)
  {
    match agent
    case None => NotInitialisedReply
    case Some(invoke) =>
      match InvokeWithFallback(invoke, Coerce(message)).outcome
      case Raised(e) => ErrorReply(e)
      case Returned(resp) => ExtractReply(resp)
  }

  /** Without an agent the reply is fixed, whatever the message. */
  lemma UninitialisedAgentReply(m: ChatMessage)
    ensures Chat(None, m) == NotInitialisedReply
  {
  }

  /** The first payload the agent sees is the coerced message as a human turn. */
  lemma FirstAttemptIsHumanMessage(invoke: Agent, m: ChatMessage)
    ensures InvokeWithFallback(invoke, Coerce(m)).attempts[0] == HumanMessageList(Coerce(m))
    ensures InvokeWithFallback(invoke, Coerce(NumberMessage(42))).attempts[0] == HumanMessageList("42")
  {
  }

  /** The first payload that the agent answers decides the reply. */
  lemma FirstAnswerDecides(invoke: Agent, m: ChatMessage, k: nat)
    requires k < 3
    requires invoke(FallbackOrder(Coerce(m))[k]).Returned?
    requires forall j :: 0 <= j < k ==> invoke(FallbackOrder(Coerce(m))[j]).Raised?
    ensures Chat(Some(invoke), m) == ExtractReply(invoke(FallbackOrder(Coerce(m))[k]).response)
  {
  }

  /** When all three attempts raise, the reply maps the third exception; a 429
      there gives the rate-limit text. */
  lemma AllAttemptsRaise(invoke: Agent, m: ChatMessage)
    requires forall p :: p in FallbackOrder(Coerce(m)) ==> invoke(p).Raised?
    ensures Chat(Some(invoke), m) == ErrorReply(invoke(InputDict(Coerce(m))).error)
    ensures Contains(invoke(InputDict(Coerce(m))).error, "429") ==> Chat(Some(invoke), m) == RateLimitReply
  {
  }

  /** The `/` and `/health` bodies (`message` is present only on `/`). */
  datatype Status = Status(message: Option<string>, status: string, agentInitialised: bool, toolsCount: nat)

  /** `len(tools) if tools else 0`. */
  function ToolsCount(tools: seq<Tool>): nat {
    if |tools| > 0 then |tools| else 0
  }

  /** The `/` body. */
  function Root(agent: Option<Agent>, tools: seq<Tool>): (s: Status)
    ensures s.toolsCount == |tools| && s.agentInitialised == agent.Some? && s.status == "ok"
  {
    Status(Some("Smart Tutor API is running"), "ok", agent.Some?, ToolsCount(tools))
  }

  /** The `/health` body. */
  function Health(agent: Option<Agent>, tools: seq<Tool>): (s: Status)
    ensures s.toolsCount == |tools| && s.agentInitialised == agent.Some? && s.status == "ok"
  {
    Status(None, "ok", agent.Some?, ToolsCount(tools))
  }

  /** Both status endpoints report the number of tools and whether the agent
      exists; when they report no agent, every chat gets the fixed reply. */
  lemma StatusReportsState(agent: Option<Agent>, tools: seq<Tool>, m: ChatMessage)
    ensures Root(agent, tools).toolsCount == Health(agent, tools).toolsCount == |tools|
    ensures Root(agent, tools).agentInitialised == Health(agent, tools).agentInitialised == agent.Some?
    ensures !Health(agent, tools).agentInitialised ==> Chat(agent, m) == NotInitialisedReply
  {
  }

  /** The PDF the backend builds its knowledge base from. */
  const NotesPdf: Engine.Path := "my_notes.pdf"

  /** Start-up: build or load the knowledge base, then make the tools; any
      failure leaves the tool list empty. */
  method LoadTools(fs: Engine.FileSystem, hasTavily: bool) returns (tools: seq<Tool>)
    ensures Engine.GetVectorstore(fs, NotesPdf).Failure? <==> tools == []
    ensures tools != [] ==> tools == [PdfTool] + (if hasTavily then [WebTool] else [])
    ensures ToolsCount(tools) == if Engine.GetVectorstore(fs, NotesPdf).Failure? then 0 else if hasTavily then 2 else 1
  {
    var vs := Engine.GetVectorstore(fs, NotesPdf);
    if vs.Failure? {
      tools := [];
    } else {
      tools := CreateTutorTools(hasTavily);
    }
  }
}
