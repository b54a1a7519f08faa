/** The AI-assistant chat page: an append-only message log, a typing flag and
    an input buffer. A send appends the user's trimmed text and schedules a
    simulated reply; the reply, delivered later by the event loop, appends a
    bot message built from a fixed template. */
module Chatbot {
  import opened JsBuiltins

  datatype Sender = User | Bot

  datatype Message = Message(id: int, sender: Sender, text: string)

  /** A reply callback waiting on the timer, with what it captured when the
      message was sent: the log length at that render and the trimmed text. */
  datatype PendingReply = PendingReply(lengthAtSend: nat, content: string)

  /** The page's state. `timers` holds the scheduled reply callbacks in the
      order they fire: all use the same delay, so they fire first-in,
      first-out. */
  datatype ChatState = ChatState(
    messages: seq<Message>,
    inputValue: string,
    isTyping: bool,
    timers: seq<PendingReply>)

  const Greeting: string :=
    "Hello! I'm your MOSDAC AI assistant. I can help you find satellite data, explore missions, and navigate our knowledge base. What would you like to know?"

  const QuickSuggestions: seq<string> := [
    "Show me recent satellite missions",
    "Find data for Mumbai, India",
    "Browse documentation for Cartosat-3"
  ]

  const ReplyOpening: string := "Thank you for your question about \""
  const ReplyClosing: string :=
    "\". Let me analyze this and provide you with insights based on the available data."

  /** The bot's reply to `content`. */
  function ReplyText(content: string): string {
    ReplyOpening + content + ReplyClosing
  }

  /** The page as first rendered: the greeting alone, nothing typed. */
  function Initial(): ChatState {
    ChatState([Message(1, Bot, Greeting)], "", false, [])
  }

  /** `handleSendMessage(text)`. It does not look at `isTyping`. */
  function Send(s: ChatState, text: string): ChatState {
    var content := Trim(text);
    if content == [] then s
    else
      var length := |s.messages|;
      ChatState(s.messages + [Message(length + 1, User, content)], "", true,
                s.timers + [PendingReply(length, content)])
  }

  /** The earliest scheduled reply callback runs. */
  function Reply(s: ChatState): ChatState
    requires s.timers != []
  {
    var p := s.timers[0];
    ChatState(s.messages + [Message(p.lengthAtSend + 2, Bot, ReplyText(p.content))],
              s.inputValue, false, s.timers[1..])
  }

  /** The submit button's enable rule. */
  predicate SendEnabled(s: ChatState) {
    Trim(s.inputValue) != [] && !s.isTyping
  }

  /** The quick suggestions are shown while only the greeting is in the log. */
  predicate SuggestionsOffered(s: ChatState) {
    |s.messages| <= 1
  }

  /** What a user or the event loop can do to the page. */
  datatype Event =
    | Typed(text: string)         // the input's change handler
    | Submitted                   // the form is submitted (button or Enter)
    | SuggestionClicked(k: nat)   // quick suggestion `k` is clicked
    | TimerFired                  // the earliest reply timer elapses

  /** One event as the page lets it through: a disabled submit button blocks
      the form, hidden suggestions cannot be clicked, and a timer fires only
      when one is scheduled. */
  function Step(s: ChatState, e: Event): ChatState {
    match e
    case Typed(text) => s.(inputValue := text)
    case Submitted => if SendEnabled(s) then Send(s, s.inputValue) else s
    case SuggestionClicked(k) =>
      if SuggestionsOffered(s) && k < |QuickSuggestions| then Send(s, QuickSuggestions[k]) else s
    case TimerFired => if s.timers != [] then Reply(s) else s
  }

  /** The page after a sequence of events. */
  function Run(s: ChatState, events: seq<Event>): ChatState
    decreases |events|
  {
    if events == [] then s else Run(Step(s, events[0]), events[1..])
  }

  /** Every message's id is its 1-based position in the log. */
  predicate IdsArePositions(messages: seq<Message>) {
    forall i :: 0 <= i < |messages| ==> messages[i].id == i + 1
  }

  /** The invariant of every state the page can reach: the greeting stays
      first, ids are positions, at most one reply is pending, `isTyping` says
      whether one is, and the pending reply belongs to the last message. */
  predicate Consistent(s: ChatState) {
    && |s.messages| >= 1
    && s.messages[0] == Message(1, Bot, Greeting)
    && IdsArePositions(s.messages)
    && |s.timers| <= 1
    && (s.isTyping <==> s.timers != [])
    && (s.timers != [] ==> 1 <= s.timers[0].lengthAtSend && s.timers[0].lengthAtSend + 1 == |s.messages|)
  }

  /** The reply text holds the user's text verbatim between the quotes, so
      different texts get different replies. */
  lemma ReplyTextQuotes(content: string, other: string)
    ensures ReplyText(content)[|ReplyOpening|..|ReplyOpening| + |content|] == content
    ensures ReplyText(content) == ReplyText(other) ==> content == other
  {
    var r := ReplyText(content);
    assert r[|ReplyOpening|..|ReplyOpening| + |content|] == content;
    if r == ReplyText(other) {
      assert |other| == |content|;
      assert ReplyText(other)[|ReplyOpening|..|ReplyOpening| + |other|] == other;
    }
  }

  /** The first render: exactly one message, the greeting from the bot with
      id 1; nothing typed, nothing pending, suggestions shown. */
  lemma InitialState()
    ensures Consistent(Initial())
    ensures Initial().messages == [Message(1, Bot, Greeting)]
    ensures !Initial().isTyping && Initial().inputValue == [] && Initial().timers == []
    ensures SuggestionsOffered(Initial()) && !SendEnabled(Initial())
  {
    InitialConsistent();
    TrimEmpty();
  }

  /** The first render satisfies the invariant. */
  lemma InitialConsistent()
    ensures Consistent(Initial())
  {
    assert IdsArePositions(Initial().messages);
  }

  /** Sending empty or white-space-only text changes nothing. */
  lemma SendBlankIsNoOp(s: ChatState, text: string)
    requires Blank(text)
    ensures Send(s, text) == s
  {
    TrimEnds(text);
  }

  /** A send with some non-white-space text appends exactly one user message
      holding the trimmed text, with id `old length + 1`; it leaves earlier
      messages untouched, clears the input, sets `isTyping` and schedules one
      reply that remembers the old length and the trimmed text. */
  lemma SendAppendsUserMessage(s: ChatState, text: string)
    requires !Blank(text)
    ensures var t := Send(s, text);
      && |t.messages| == |s.messages| + 1
      && t.messages[..|s.messages|] == s.messages
      && t.messages[|s.messages|] == Message(|s.messages| + 1, User, Trim(text))
      && t.inputValue == [] && t.isTyping
      && t.timers == s.timers + [PendingReply(|s.messages|, Trim(text))]
    ensures Trim(text) != [] && Trim(Trim(text)) == Trim(text)
  {
    TrimEnds(text);
    TrimIdempotent(text);
  }

  /** A reply appends exactly one bot message, with the id after the one its
      send gave the user message and the template around the user's text; it
      clears `isTyping` and leaves the input alone. */
  lemma ReplyAppendsBotMessage(s: ChatState)
    requires s.timers != []
    ensures var t := Reply(s);
      && t.messages[..|s.messages|] == s.messages
      && t.messages[|s.messages|..] ==
           [Message(s.timers[0].lengthAtSend + 2, Bot, ReplyText(s.timers[0].content))]
      && !t.isTyping && t.inputValue == s.inputValue && t.timers == s.timers[1..]
  {
    var t := Reply(s);
    assert t.messages[|s.messages|..] == [t.messages[|s.messages|]];
  }

  /** In a consistent state the reply's id is one more than the user message
      it answers, and the reply lands right after it. */
  lemma ReplyAnswersLastMessage(s: ChatState)
    requires Consistent(s) && s.timers != []
    ensures Reply(s).messages[|s.messages|].id == s.messages[|s.messages| - 1].id + 1
    ensures IdsArePositions(Reply(s).messages)
  {
  }

  /** While a reply is pending the log holds the greeting and a user message,
      so the quick suggestions are never offered while typing. */
  lemma SuggestionsOnlyWhenIdle(s: ChatState)
    requires Consistent(s) && SuggestionsOffered(s)
    ensures !s.isTyping
  {
  }

  /** After the first real send the quick suggestions are gone for good. */
  lemma SuggestionsGoneAfterSend(s: ChatState, text: string, events: seq<Event>)
    requires |s.messages| >= 1 && !Blank(text)
    ensures !SuggestionsOffered(Send(s, text))
    ensures !SuggestionsOffered(Run(Send(s, text), events))
  {
    SendAppendsUserMessage(s, text);
    RunExtendsLog(Send(s, text), events);
  }

  /** Every event keeps the earlier log as a prefix of the new one. */
  lemma StepExtendsLog(s: ChatState, e: Event)
    ensures |Step(s, e).messages| >= |s.messages|
    ensures Step(s, e).messages[..|s.messages|] == s.messages
  {
  }

  lemma {:induction false} RunExtendsLog(s: ChatState, events: seq<Event>)
    ensures |Run(s, events).messages| >= |s.messages|
    ensures Run(s, events).messages[..|s.messages|] == s.messages
    decreases |events|
  {
    if events != [] {
      var t := Step(s, events[0]);
      StepExtendsLog(s, events[0]);
      RunExtendsLog(t, events[1..]);
      assert Run(s, events).messages[..|t.messages|][..|s.messages|] == t.messages[..|s.messages|];
    }
  }

  /** The button enable rule: exactly when the trimmed input is non-empty and
      no reply is pending. */
  lemma SendEnabledRule(s: ChatState)
    ensures SendEnabled(s) <==> !Blank(s.inputValue) && !s.isTyping
  {
    TrimEnds(s.inputValue);
  }

  /** A send let through by the page's gates (an enabled button or an offered
      suggestion) keeps the state consistent. */
  lemma GatedSendKeepsConsistent(s: ChatState, text: string)
    requires Consistent(s) && !s.isTyping
    ensures Consistent(Send(s, text))
  {
    var t := Send(s, text);
    if Trim(text) != [] {
      forall i | 0 <= i < |t.messages|
        ensures t.messages[i].id == i + 1
      {
        if i < |s.messages| {
          assert t.messages[i] == s.messages[i];
        }
      }
    }
  }

  /** Every event the page lets through keeps the state consistent. */
  lemma StepKeepsConsistent(s: ChatState, e: Event)
    requires Consistent(s)
    ensures Consistent(Step(s, e))
  {
    match e
    case Typed(_) =>
    case Submitted =>
      if SendEnabled(s) {
        GatedSendKeepsConsistent(s, s.inputValue);
      }
    case SuggestionClicked(k) =>
      if SuggestionsOffered(s) && k < |QuickSuggestions| {
        GatedSendKeepsConsistent(s, QuickSuggestions[k]);
      }
    case TimerFired =>
      if s.timers != [] {
        var t := Reply(s);
        forall i | 0 <= i < |t.messages|
          ensures t.messages[i].id == i + 1
        {
          if i < |s.messages| {
            assert t.messages[i] == s.messages[i];
          }
        }
      }
  }

  lemma {:induction false} RunKeepsConsistent(s: ChatState, events: seq<Event>)
    requires Consistent(s)
    ensures Consistent(Run(s, events))
    decreases |events|
  {
    if events != [] {
      StepKeepsConsistent(s, events[0]);
      RunKeepsConsistent(Step(s, events[0]), events[1..]);
    }
  }

  /** Whatever the user does and whenever the timers fire, every message's id
      is its position in the log: ids are unique and strictly increasing,
      whoever sent the message. */
  lemma IdsUniqueAndIncreasing(events: seq<Event>)
    ensures var log := Run(Initial(), events).messages;
      && IdsArePositions(log)
      && forall i, j :: 0 <= i < j < |log| ==> log[i].id < log[j].id
  {
    InitialState();
    RunKeepsConsistent(Initial(), events);
  }

  /** Why the gate matters: `handleSendMessage` called a second time while a
      reply is pending gives that reply the id the second user message
      already holds. The page never does this: its button is disabled and its
      suggestions are hidden while a reply is pending. */
  lemma SendWhileTypingRepeatsId(s: ChatState, first: string, second: string)
    requires Consistent(s) && !s.isTyping && !Blank(first) && !Blank(second)
    ensures |Send(Send(s, first), second).timers| == 2
    ensures var t := Reply(Send(Send(s, first), second));
      var n := |s.messages|;
      && |t.messages| == n + 3
      && t.messages[n + 1].sender == User && t.messages[n + 2].sender == Bot
      && t.messages[n + 1].id == t.messages[n + 2].id == n + 2
      && !Consistent(Send(Send(s, first), second))
  {
    var n := |s.messages|;
    var s1 := Send(s, first);
    SendAppendsUserMessage(s, first);
    var s2 := Send(s1, second);
    SendAppendsUserMessage(s1, second);
    ReplyAfterTwoSends(s2, n);
  }

  /** Two user messages sent, the first one's reply fires: it takes the id
      of the second user message. */
  lemma ReplyAfterTwoSends(s: ChatState, n: nat)
    requires |s.messages| == n + 2 && s.messages[n + 1].sender == User && s.messages[n + 1].id == n + 2
    requires |s.timers| == 2 && s.timers[0].lengthAtSend == n
    ensures var t := Reply(s);
      && |t.messages| == n + 3
      && t.messages[n + 1].sender == User && t.messages[n + 2].sender == Bot
      && t.messages[n + 1].id == t.messages[n + 2].id == n + 2
    ensures !Consistent(s)
  {
  }

  /** The chat page as a component with state. The methods mirror the
      handlers; the submit button's enable rule and the suggestions' display
      rule are preconditions of the handlers they guard, since the page only
      calls those handlers while the control is usable. */
  class ChatbotPage {
    var messages: seq<Message>
    var inputValue: string
    var isTyping: bool
    var timers: seq<PendingReply>

    function State(): ChatState
      reads this
    {
      ChatState(messages, inputValue, isTyping, timers)
    }

    ghost predicate Valid()
      reads this
    {
      Consistent(State())
    }

    constructor ()
      ensures State() == Initial() && Valid()
    {
      messages := [Message(1, Bot, Greeting)];
      inputValue := "";
      isTyping := false;
      timers := [];
      InitialState();
    }

    /** The input's change handler. */
    method OnInputChange(text: string)
      modifies this
      ensures State() == Step(old(State()), Typed(text))
      ensures old(Valid()) ==> Valid()
    {
      inputValue := text;
    }

    /** `handleSendMessage(text)`, unguarded: it appends and schedules even
      while a reply is pending. */
    method HandleSendMessage(text: string)
      modifies this
      ensures State() == Send(old(State()), text)
    {
      ghost var before := State();
      var content := Trim(text);
      if content == [] {
        return;
      }
      var length := |messages|;
      ghost var after := ChatState(messages + [Message(length + 1, User, content)], "", true,
                                   timers + [PendingReply(length, content)]);
      assert Send(before, text) == after;
      messages := messages + [Message(length + 1, User, content)];
      inputValue := "";
      isTyping := true;
      timers := timers + [PendingReply(length, content)];
      assert State() == after;
    }

    /** The form's submit handler, which runs only while the button is
      enabled. */
    method Submit()
      requires SendEnabled(State())
      modifies this
      ensures State() == Step(old(State()), Submitted)
      ensures old(Valid()) ==> Valid()
    {
      ghost var before := State();
      HandleSendMessage(inputValue);
      if Consistent(before) {
        StepKeepsConsistent(before, Submitted);
      }
    }

    /** A quick-suggestion button, present only while suggestions are
      offered. */
    method ClickSuggestion(k: nat)
      requires SuggestionsOffered(State()) && k < |QuickSuggestions|
      requires Valid()
      modifies this
      ensures State() == Step(old(State()), SuggestionClicked(k))
      ensures Valid()
    {
      ghost var before := State();
      SuggestionsOnlyWhenIdle(before);
      HandleSendMessage(QuickSuggestions[k]);
      StepKeepsConsistent(before, SuggestionClicked(k));
    }

    /** The reply callback: the earliest scheduled timer has elapsed. */
    method ReplyReady()
      requires timers != []
      modifies this
      ensures State() == Reply(old(State()))
      ensures old(Valid()) ==> Valid()
    {
      ghost var before := State();
      var pending := timers[0];
      timers := timers[1..];
      messages := messages + [Message(pending.lengthAtSend + 2, Bot, ReplyText(pending.content))];
      isTyping := false;
      if Consistent(before) {
        StepKeepsConsistent(before, TimerFired);
      }
    }
  }
}
