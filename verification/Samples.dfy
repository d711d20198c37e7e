/** Small answers that settle what the general statements leave open: that their cases occur. */
module Samples {
  import opened GoText
  import opened JsonGrammar
  import opened JsonScanner
  import opened CompletionContract
  import opened JsonReading
  import opened ChatDocument
  import opened AnswerDocument
  import opened BodyVerdict
  import ChatStream
  import Delivery
  import EventStream
  import Machines
  import ResponseCompletion
  import StreamEvents
  import StreamVerdict

  // ---- Writing documents -----------------------------------------------------------------

  function Field(front: Members, key: bytes, value: Value): Members {
    AddMember(front, "", key, "", "", value, "")
  }

  /** `{"choices":[choice]}` */
  function Answer(choice: Members): Document {
    Document("", Obj(Field(NoMembers, "choices", Arr(AddItem(NoItems, "", Obj(choice, ""), ""), "")), ""), "")
  }

  function Choice(message: Members, reason: bytes): Members {
    Field(Field(NoMembers, "message", Obj(message, "")), "finish_reason", Str(reason))
  }

  /** No requirements on the answer. */
  const ANY := Requirements(0, Unspecified, "", None, 0)

  /** `{"choices":[{"message":{"content":"a"},"finish_reason":"stop"}]}` */
  const SAID: Members := Field(NoMembers, "content", Str("a"))
  const SPOKEN: Members := Choice(SAID, "stop")
  const SPOKEN_ANSWER: Document := Answer(SPOKEN)

  /** The same with the message
      `{"tool_calls":[{"id":"1","type":"function","function":{"name":"f","arguments":"{}"},"name":"g"}]}`
      and the reason `tool_calls`, to a request that offers only the tool g. */
  const FUNCTION: Value := Obj(Field(Field(NoMembers, "name", Str("f")), "arguments", Str("{}")), "")
  const UNNAMED: Members := Field(Field(Field(NoMembers, "id", Str("1")), "type", Str("function")), "function", FUNCTION)
  const RENAMED: Value := WithName(Obj(UNNAMED, ""), "g")
  const CALLING: Members := Field(NoMembers, "tool_calls", Arr(AddItem(NoItems, "", RENAMED, ""), ""))
  const CALLED: Members := Choice(CALLING, "tool_calls")
  const RENAMED_ANSWER: Document := Answer(CALLED)
  const ONLY_G := Requirements(0, Unspecified, "", Some({"g"}), 0)

  // ---- Their names ---------------------------------------------------------------------------

  predicate StandsForItself(s: bytes) {
    StringBody(s) && Unquote(s) == s && KeyName(s) == s && NameOf(s) == s && Shown(s) == s && |s| <= 13
  }

  lemma WordStands(s: bytes)
    requires Plain(s) && |s| <= 13
    ensures StandsForItself(s)
  {
    PlainText(s);
    hide Unquote, StringBody, KeyName, NameOf;
  }

  lemma LongWords()
    ensures StandsForItself("choices") && StandsForItself("message") && StandsForItself("content") && StandsForItself("finish_reason")
            && StandsForItself("tool_calls") && StandsForItself("function") && StandsForItself("arguments")
  {
    hide StandsForItself;
    WordStands("choices");
    WordStands("message");
    WordStands("content");
    WordStands("finish_reason");
    WordStands("tool_calls");
    WordStands("function");
    WordStands("arguments");
  }

  lemma ShortWords()
    ensures StandsForItself("id") && StandsForItself("type") && StandsForItself("name") && StandsForItself("a") && StandsForItself("stop")
            && StandsForItself("f") && StandsForItself("g") && StandsForItself("1") && StandsForItself("{}")
  {
    hide StandsForItself;
    WordStands("id");
    WordStands("type");
    WordStands("name");
    WordStands("a");
    WordStands("stop");
    WordStands("f");
    WordStands("g");
    WordStands("1");
    WordStands("{}");
  }

  // ---- They are within the limits ----------------------------------------------------------------

  predicate Fitting(v: Value, depth: nat) {
    WellFormed(v) && WithinLimits(v) && Depth(v) <= depth
  }

  predicate MembersFitting(ms: Members, depth: nat, names: set<bytes>) {
    WellFormedMembers(ms) && MembersWithinLimits(ms) && MembersDepth(ms) <= depth && TrackedNames(ms) <= names
  }

  lemma FieldFits(ms: Members, key: bytes, v: Value, depth: nat, names: set<bytes>)
    requires MembersFitting(ms, depth, names) && Fitting(v, depth) && StandsForItself(key) && key !in names
    ensures MembersFitting(Field(ms, key, v), depth, names + {key})
  {
    hide Unquote, StringBody, KeyName, NameOf, Tracked, Shown, WellFormed, WithinLimits, Depth;
    var more := Field(ms, key, v);
    assert WellFormedMembers(more) && MembersWithinLimits(more);
  }

  lemma NoneFit(depth: nat)
    ensures MembersFitting(NoMembers, depth, {})
  {
  }

  lemma TextFits(s: bytes, depth: nat)
    requires StandsForItself(s)
    ensures Fitting(Str(s), depth)
  {
    hide Unquote, StringBody, KeyName, NameOf, Shown;
  }

  lemma ObjectFits(ms: Members, depth: nat, names: set<bytes>)
    requires MembersFitting(ms, depth, names)
    ensures Fitting(Obj(ms, ""), depth + 1)
  {
    hide WellFormedMembers, MembersWithinLimits, MembersDepth, TrackedNames;
  }

  lemma ListFits(v: Value, depth: nat)
    requires Fitting(v, depth)
    ensures Fitting(Arr(AddItem(NoItems, "", v, ""), ""), depth + 1)
  {
    var items := AddItem(NoItems, "", v, "");
    assert WellFormedItems(NoItems) && ItemsWithinLimits(NoItems) && ItemsDepth(NoItems) == 0;
    assert WellFormedItems(items) && ItemsWithinLimits(items) && ItemsDepth(items) == Depth(v);
  }

  lemma AnswerFits(message: Members, reason: bytes, depth: nat, names: set<bytes>)
    requires MembersFitting(message, depth, names) && StandsForItself(reason) && depth <= 100
    ensures Acceptable(Answer(Choice(message, reason)))
  {
    hide Fitting, MembersFitting, StandsForItself;
    LongWords();
    ShortWords();
    NoneFit(depth + 1);
    ObjectFits(message, depth, names);
    FieldFits(NoMembers, "message", Obj(message, ""), depth + 1, {});
    TextFits(reason, depth + 1);
    assert "finish_reason" !in {} + {"message"} by { assert "finish_reason"[0] == 'f' && "message"[0] == 'm'; }
    FieldFits(Field(NoMembers, "message", Obj(message, "")), "finish_reason", Str(reason), depth + 1, {} + {"message"});
    ObjectFits(Choice(message, reason), depth + 1, {} + {"message"} + {"finish_reason"});
    ListFits(Obj(Choice(message, reason), ""), depth + 2);
    NoneFit(depth + 3);
    var choices := Arr(AddItem(NoItems, "", Obj(Choice(message, reason), ""), ""), "");
    FieldFits(NoMembers, "choices", choices, depth + 3, {});
    ObjectFits(Field(NoMembers, "choices", choices), depth + 3, {} + {"choices"});
    FitsIsAcceptable(Answer(Choice(message, reason)), depth + 4);
  }

  lemma FitsIsAcceptable(d: Document, depth: nat)
    requires Fitting(d.root, depth) && d.root.Obj? && d.head == "" && d.foot == "" && depth <= MAX_DEPTH
    ensures Acceptable(d)
  {
    hide WellFormed, WithinLimits, Depth;
  }

  // ---- They are complete -----------------------------------------------------------------------------

  lemma AnswerRoot(choice: Members)
    ensures var root := Answer(choice).root.members;
      ChoicesOf(root) == [choice] && RootGood(Chat, root) && !ReportsError(Chat, root) && PlainRoot(root)
  {
    LongWords();
    ShortWords();
    hide Unquote, StringBody, KeyName, NameOf, Shown;
    var value := Arr(AddItem(NoItems, "", Obj(choice, ""), ""), "");
    assert Objects(NoItems) == [] && Objects(value.items) == [] + [choice];
    assert ChoicesAllowed(Chat, NoItems) && ChoicesAllowed(Chat, value.items);
    assert ChoicesOf(NoMembers) == [] && [] + [choice] == [choice];
    assert "choices"[0] == 'c' && "error"[0] == 'e';
    assert RootGood(Chat, NoMembers) && !ReportsError(Chat, NoMembers) && PlainRoot(NoMembers);
  }

  /** An answer of one choice is complete when the choice is. */
  lemma OneChoiceComplete(req: Requirements, choice: Members)
    requires req.expectedChoices == 0 && ChoiceComplete(Chat, req, choice) && FinishedAt(choice, false) && |ChoiceCalls(choice)| <= 1
    ensures ChatComplete(req, Answer(choice).root.members)
  {
    AnswerRoot(choice);
    hide ChoiceComplete, FinishedAt, ChoiceCalls, ChoicesOf, RootGood, ReportsError, PlainRoot, Answer;
    var choices := [choice];
    assert choices[..0] == [] && AllCalls([]) == [] && AllCalls(choices) == [] + ChoiceCalls(choice);
  }

  /** What the two members of such a choice come to. */
  lemma ChoiceSays(req: Requirements, message: Members, reason: bytes)
    requires StandsForItself(reason) && req.expectedChoices == 0 && req.maxToolCalls == 0 && req.toolMode != RequiredTools && reason != ""
    requires MessageComplete(Chat, req, Obj(message, "")) && (|MessageCalls(message)| > 0 <==> ToolFinish(reason))
    ensures var choice := Choice(message, reason);
      ChoiceComplete(Chat, req, choice) && FinishedAt(choice, false) && ChoiceCalls(choice) == MessageCalls(message)
  {
    LongWords();
    ShortWords();
    hide Unquote, StringBody, KeyName, NameOf, Shown, MessageComplete, MessageCalls, Count;
    var first := Field(NoMembers, "message", Obj(message, ""));
    assert "message"[0] == 'm' && "finish_reason"[0] == 'f' && "index"[0] == 'i';
    assert ChoiceMembersGood(Chat, req, NoMembers) && ChoiceMembersGood(Chat, req, first);
    assert HasMessage(first) && CallCount(first, 0) == |MessageCalls(message)|;
    assert ChoiceCalls(NoMembers) == [] && ChoiceCalls(first) == [] + MessageCalls(message);
    var choice := Choice(message, reason);
    assert ChoiceCalls(choice) == ChoiceCalls(first) + [];
  }

  /** The plain answer: in order, and nothing hidden in it. */
  lemma SpokenAnswer()
    ensures Acceptable(SPOKEN_ANSWER) && PlainRoot(SPOKEN_ANSWER.root.members) && ChatComplete(ANY, SPOKEN_ANSWER.root.members)
    ensures AcceptsBody(Chat, ANY, false, DocumentText(SPOKEN_ANSWER))
  {
    hide Acceptable, PlainRoot, ChatComplete, AcceptsBody, DocumentText, StandsForItself, Fitting, MembersFitting, SAID, Choice, Answer, MessageComplete,
      MessageCalls, ChoiceComplete, FinishedAt, ChoiceCalls;
    LongWords();
    ShortWords();
    SaidFits();
    SaidComplete();
    AnswerFits(SAID, "stop", 0, {"content"});
    ChoiceSays(ANY, SAID, "stop");
    OneChoiceComplete(ANY, SPOKEN);
    AnswerRoot(SPOKEN);
    PlainBody(Chat, ANY, false, SPOKEN_ANSWER);
  }

  lemma SaidFits()
    ensures MembersFitting(SAID, 0, {"content"})
  {
    hide Fitting, MembersFitting, StandsForItself;
    LongWords();
    ShortWords();
    NoneFit(0);
    TextFits("a", 0);
    FieldFits(NoMembers, "content", Str("a"), 0, {});
    assert {} + {"content"} == {"content"};
  }

  lemma SaidComplete()
    ensures MessageComplete(Chat, ANY, Obj(SAID, "")) && MessageCalls(SAID) == []
  {
    LongWords();
    ShortWords();
    hide Unquote, StringBody, KeyName, NameOf, Shown, LegacyComplete, CallsComplete, CallIds;
    assert "content"[0] == 'c' && "tool_calls"[0] == 't' && "function_call"[0] == 'f';
    assert MessageCalls(NoMembers) == [] && MessageMembersGood(Chat, ANY, NoMembers);
  }

  /** It is refused as soon as an error is written under an empty key, or under one of more
      than 512 bytes; the members of the root itself are as complete as before. */
  lemma HiddenErrors(key: bytes)
    requires key == "" || key == seq(513, _ => 'a')
    ensures var e := WithError(SPOKEN_ANSWER, key);
      Acceptable(e) && ChatComplete(ANY, e.root.members) && !AcceptsBody(Chat, ANY, false, DocumentText(e))
  {
    hide Acceptable, ChatComplete, AcceptsBody, DocumentText, SPOKEN_ANSWER, HiddenKey, StringBody;
    SpokenAnswer();
    HidingKey(key);
    EmptyKeysMatter(Chat, ANY, false, SPOKEN_ANSWER, key);
  }

  lemma HidingKey(key: bytes)
    requires key == "" || key == seq(513, _ => 'a')
    ensures StringBody(key) && HiddenKey(key)
  {
    assert Plain(key);
    PlainText(key);
    hide StringBody;
    if key == "" { assert Unquote("") == ""; }
  }

  // ---- A call under another name ---------------------------------------------------------------------

  /** The checker accepts a call of a function that was not offered, because another name
      is written behind it. */
  lemma RenamedCallAccepted()
    ensures Acceptable(RENAMED_ANSWER) && AcceptsBody(Chat, ONLY_G, false, DocumentText(RENAMED_ANSWER))
    ensures ChoicesOf(RENAMED_ANSWER.root.members) == [CALLED]
    ensures LastFunction(RENAMED.members) == Some(FUNCTION) && FunctionName(FUNCTION) == "f" && !AcceptsTool(ONLY_G, "f")
    ensures CallName(RENAMED.members, "") == "g"
  {
    hide Acceptable, PlainRoot, ChatComplete, AcceptsBody, DocumentText, StandsForItself, Fitting, MembersFitting, RENAMED, FUNCTION, Choice, Answer,
      MessageComplete, MessageCalls, ChoiceComplete, FinishedAt, ChoiceCalls, ChoicesOf, AcceptsTool, CallName, FunctionName, LastFunction, CALLING;
    LongWords();
    ShortWords();
    CallingFits();
    CallingComplete();
    RenamedComplete();
    AnswerFits(CALLING, "tool_calls", 4, {"tool_calls"});
    ChoiceSays(ONLY_G, CALLING, "tool_calls");
    OneChoiceComplete(ONLY_G, CALLED);
    AnswerRoot(CALLED);
    PlainBody(Chat, ONLY_G, false, RENAMED_ANSWER);
  }

  lemma FunctionFits()
    ensures Fitting(FUNCTION, 1)
  {
    hide Fitting, MembersFitting, StandsForItself;
    LongWords();
    ShortWords();
    NoneFit(0);
    TextFits("f", 0);
    FieldFits(NoMembers, "name", Str("f"), 0, {});
    TextFits("{}", 0);
    assert "arguments" !in {} + {"name"} by { assert "arguments"[0] == 'a' && "name"[0] == 'n'; }
    FieldFits(Field(NoMembers, "name", Str("f")), "arguments", Str("{}"), 0, {} + {"name"});
    ObjectFits(Field(Field(NoMembers, "name", Str("f")), "arguments", Str("{}")), 0, {} + {"name"} + {"arguments"});
  }

  lemma UnnamedFits() returns (names: set<bytes>)
    ensures MembersFitting(UNNAMED, 1, names) && "name" !in names
  {
    hide Fitting, MembersFitting, StandsForItself, FUNCTION;
    assert "id"[0] == 'i' && "type"[0] == 't' && "function"[0] == 'f' && "name"[0] == 'n';
    LongWords();
    ShortWords();
    NoneFit(1);
    TextFits("1", 1);
    FieldFits(NoMembers, "id", Str("1"), 1, {});
    TextFits("function", 1);
    var a := Field(NoMembers, "id", Str("1"));
    FieldFits(a, "type", Str("function"), 1, {} + {"id"});
    FunctionFits();
    FieldFits(Field(a, "type", Str("function")), "function", FUNCTION, 1, {} + {"id"} + {"type"});
    names := {} + {"id"} + {"type"} + {"function"};
  }

  lemma CallingFits()
    ensures MembersFitting(CALLING, 4, {"tool_calls"})
  {
    hide Fitting, MembersFitting, StandsForItself, UNNAMED;
    LongWords();
    ShortWords();
    var names := UnnamedFits();
    TextFits("g", 1);
    FieldFits(UNNAMED, "name", Str("g"), 1, names);
    ObjectFits(Field(UNNAMED, "name", Str("g")), 1, names + {"name"});
    ListFits(RENAMED, 2);
    Deeper(Arr(AddItem(NoItems, "", RENAMED, ""), ""), 3, 4);
    NoneFit(4);
    FieldFits(NoMembers, "tool_calls", Arr(AddItem(NoItems, "", RENAMED, ""), ""), 4, {});
    assert {} + {"tool_calls"} == {"tool_calls"};
  }

  lemma Deeper(v: Value, depth: nat, more: nat)
    requires Fitting(v, depth) && depth <= more
    ensures Fitting(v, more)
  {
  }

  lemma FunctionGoes()
    ensures FUNCTION.Obj? && FunctionGood(Chat, FUNCTION.members) && FunctionName(FUNCTION) == "f" && FunctionArguments(Chat, FUNCTION)
  {
    LongWords();
    ShortWords();
    ChatStream.BracesAreArguments();
    hide Unquote, StringBody, KeyName, NameOf, Shown, ValidArguments;
    assert "name"[0] == 'n' && "id"[0] == 'i' && "call_id"[0] == 'c' && "arguments"[0] == 'a';
    var first := Field(NoMembers, "name", Str("f"));
    assert ShortIdentities(NoMembers) && ShortIdentities(first) && ArgumentsComplete(NoMembers) && ArgumentsComplete(first);
    assert StringAt(first, "name", "") == "f" && StringAt(FUNCTION.members, "name", "") == "f";
    assert ShortIdentities(FUNCTION.members);
    assert ArgumentsComplete(FUNCTION.members);
    assert HasMember(FUNCTION.members, "arguments");
  }

  lemma RenamedComplete()
    ensures RENAMED.Obj? && CallComplete(Chat, ONLY_G, RENAMED) && CallName(RENAMED.members, "") == "g" && CallId(RENAMED) == "1"
    ensures LastFunction(RENAMED.members) == Some(FUNCTION) && FunctionName(FUNCTION) == "f" && !AcceptsTool(ONLY_G, "f")
  {
    LongWords();
    ShortWords();
    FunctionGoes();
    hide Unquote, StringBody, KeyName, NameOf, Shown, FUNCTION, FunctionGood, FunctionName, FunctionArguments;
    assert "name"[0] == 'n' && "id"[0] == 'i' && "call_id"[0] == 'c' && "type"[0] == 't' && "function"[0] == 'f' && "f" != "g";
    var first := Field(NoMembers, "id", Str("1"));
    var second := Field(first, "type", Str("function"));
    assert CallMembersGood(Chat, NoMembers) && CallMembersGood(Chat, first) && CallMembersGood(Chat, second);
    assert CallMembersGood(Chat, UNNAMED) && CallArguments(Chat, UNNAMED, false);
    assert StringAt(first, "id", "") == "1" && StringAt(second, "id", "") == "1" && StringAt(UNNAMED, "id", "") == "1";
    assert StringAt(second, "type", "") == "function" && StringAt(UNNAMED, "type", "") == "function";
  }

  lemma CallingComplete()
    ensures MessageComplete(Chat, ONLY_G, Obj(CALLING, "")) && MessageCalls(CALLING) == ["1"]
  {
    LongWords();
    ShortWords();
    RenamedComplete();
    hide Unquote, StringBody, KeyName, NameOf, Shown, CallComplete, CallId, RENAMED, LegacyComplete, CallName, LastFunction, FunctionName;
    assert "tool_calls"[0] == 't' && "function_call"[0] == 'f';
    assert CallsComplete(Chat, ONLY_G, NoItems) && CallIds(NoItems) == [];
    assert CallIds(AddItem(NoItems, "", RENAMED, "")) == [] + ["1"];
    assert MessageCalls(NoMembers) == [] && MessageMembersGood(Chat, ONLY_G, NoMembers);
  }

  // ---- A stream that may not be split ------------------------------------------------------------------

  /** A chunk that says something and finishes the choice 0. */
  const TALKING := StreamEvents.ChatChoice(StreamEvents.Index(0), Some("stop"), StreamEvents.Piece("a"), StreamEvents.Missing, [], None)

  const TALK: bytes := EventStream.Rendered("", "{}") + EventStream.Rendered("", StreamVerdict.DONE)

  predicate Talks(e: StreamEvents.StreamEvent) {
    e.kind == "" && !e.failure && e.choices == [TALKING]
  }

  /** A decoder for which every object is the same event. */
  function Always(e: StreamEvents.StreamEvent): StreamEvents.Decoder {
    (event, data) => Some(e)
  }

  lemma TalkIsRead()
    ensures EventStream.Frame(EventStream.OPEN, TALK)
            == Machines.Advance(EventStream.OPEN, [EventStream.Dispatch("", "{}"), EventStream.Dispatch("", StreamVerdict.DONE)])
    ensures EventStream.Rest(TALK) == ""
  {
    hide EventStream.Rendered, EventStream.Step, EventStream.RawLine;
    EventStream.RenderedIsRead("", "{}");
    EventStream.RenderedIsRead("", StreamVerdict.DONE);
    Machines.RunParts(EventStream.Step, EventStream.OPEN, EventStream.Rendered("", "{}"), EventStream.Rendered("", StreamVerdict.DONE),
                      EventStream.OPEN, [EventStream.Dispatch("", "{}")]);
    EventStream.FrameByLine(EventStream.EMPTY, TALK);
  }

  lemma TalkStep()
    ensures ChatStream.ChoiceStep(ANY, StreamEvents.NO_TOOLS, TALKING)
            == Machines.Advance(StreamEvents.NO_TOOLS.(choices := map[0 := StreamEvents.NO_CHOICE.(payload := true, finished := true)]), [])
    ensures ChatStream.Enter(ChatStream.NO_LEDGER, TALKING) == Machines.Advance(ChatStream.Ledger({0}, 1, {0}, 1), [])
  {
    assert ChatStream.ModernIds(map[]) == {};
  }

  lemma TalkEvent(e: StreamEvents.StreamEvent)
    requires Talks(e)
    ensures var r := StreamVerdict.ChatEvent(ANY, StreamVerdict.NEW_STREAM, e);
      r.Advance? && r.events == [] && !r.next.terminal && ChatStream.MayEnd(ANY, r.next.tools, r.next.ledger)
  {
    hide ChatStream.ChoiceStep, ChatStream.Enter, Machines.Run, TALKING, ANY;
    TalkStep();
    Machines.RunOne(ChatStream.ChoiceStepper(ANY), StreamEvents.NO_TOOLS, TALKING);
    Machines.RunOne(ChatStream.Enter, ChatStream.NO_LEDGER, TALKING);
    TalkMayEnd(StreamEvents.NO_TOOLS.(choices := map[0 := StreamEvents.NO_CHOICE.(payload := true, finished := true)]),
               ChatStream.Ledger({0}, 1, {0}, 1));
  }

  lemma TalkMayEnd(t: StreamEvents.Tools, l: ChatStream.Ledger)
    requires t.choices.Keys == {0} && t.choices[0].finished && l.choices == 1 && l.finishedChoices == 1
    ensures ChatStream.MayEnd(ANY, t, l)
  {
    assert 0 in t.choices;
  }

  lemma TalkEvents(e: StreamEvents.StreamEvent) returns (s: StreamVerdict.StreamState)
    requires Talks(e)
    ensures StreamVerdict.Events(Chat, ANY, Always(e), StreamVerdict.NEW_STREAM,
                                 [EventStream.Dispatch("", "{}"), EventStream.Dispatch("", StreamVerdict.DONE)]) == Machines.Advance(s, [])
    ensures s.terminal
  {
    hide StreamVerdict.ChatEvent, ChatStream.MayEnd, Accepts, Machines.Run, ANY;
    TalkEvent(e);
    ChatStream.BracesAreAccepted();
    var a, b := EventStream.Dispatch("", "{}"), EventStream.Dispatch("", StreamVerdict.DONE);
    var step := StreamVerdict.Eventer(Chat, ANY, Always(e));
    var s1 := StreamVerdict.ChatEvent(ANY, StreamVerdict.NEW_STREAM, e).next;
    s := s1.(terminal := true);
    assert "{}"[0] != StreamVerdict.DONE[0];
    assert step(StreamVerdict.NEW_STREAM, a) == Machines.Advance(s1, []);
    assert step(s1, b) == Machines.Advance(s, []);
    Machines.RunOne(step, StreamVerdict.NEW_STREAM, a);
    Machines.RunStep(step, StreamVerdict.NEW_STREAM, [a, b], 1);
    assert [a, b][..1] == [a] && [a, b][..2] == [a, b];
  }

  lemma TalkAccepted(e: StreamEvents.StreamEvent)
    requires Talks(e)
    ensures StreamVerdict.AcceptsStream(Chat, ANY, Always(e), TALK)
  {
    hide StreamVerdict.EventStep, Talks, TALK, TrimSpace, ANY;
    TalkIsRead();
    var _ := TalkEvents(e);
    Delivery.FedEvents(Chat, ANY, Always(e), TALK);
    Delivery.NothingIsTrimmed();
    hide Machines.Run, StreamVerdict.Bytes, StreamVerdict.Eventer;
  }

  /** A stream that is accepted, followed by a comment line: delivered when it arrives at once,
      refused when the line is split behind its colon. */
  lemma SplitIsRefused(c: ResponseCompletion.ResponseCompletion, e: StreamEvents.StreamEvent)
    requires c.stream && c.operation == Chat && c.requirements == ANY && c.decode == Always(e) && Talks(e)
    ensures StreamVerdict.AcceptsStream(Chat, ANY, c.decode, TALK + ":\n")
    ensures Delivery.EndsAt(c, [TALK + ":\n"], 1) && forall i :: 0 <= i <= 2 ==> !Delivery.EndsAt(c, [TALK + ":", "\n"], i)
  {
    hide StreamVerdict.AcceptsStream, Delivery.EndsAt, TALK, ANY, Talks;
    TalkAccepted(e);
    TalkIsRead();
    Delivery.SplitsMatter(c, TALK);
  }
}
