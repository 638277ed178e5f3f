/** The support chat widget: the text field's state with its send and
    key-press handlers, and what the widget shows for its props. */
module SupportChat {
  import opened Wrappers

  // ---------------------------------------------------------------------
  // String.prototype.trim
  // ---------------------------------------------------------------------

  /** The characters that `trim` removes: ECMAScript's WhiteSpace (tab,
      vertical tab, form feed, space, no-break space, byte order mark and
      the space separators of Unicode category Zs) and LineTerminator
      (line feed, carriage return, line and paragraph separators). */
  predicate IsWhitespace(c: char)
  {
    c == '\t' || c == '\n' || c == '\U{B}' || c == '\U{C}' || c == '\r' || c == ' ' ||
    c == '\U{A0}' || c == '\U{1680}' || ('\U{2000}' <= c <= '\U{200A}') ||
    c == '\U{2028}' || c == '\U{2029}' || c == '\U{202F}' || c == '\U{205F}' ||
    c == '\U{3000}' || c == '\U{FEFF}'
  }

  /** Every character of `s` is whitespace (true of the empty string). */
  predicate IsBlank(s: string)
  {
    forall i :: 0 <= i < |s| ==> IsWhitespace(s[i])
  }

  /** `s` without its leading whitespace. */
  function TrimStart(s: string): (r: string)
    ensures |r| <= |s| && r == s[|s| - |r|..]
    ensures r != [] ==> !IsWhitespace(r[0])
    ensures IsBlank(s[..|s| - |r|])
  {
    if s == [] then s
    else if IsWhitespace(s[0]) then TrimStart(s[1..])
    else s
  }

  /** `s` without its trailing whitespace. */
  function TrimEnd(s: string): (r: string)
    ensures |r| <= |s| && r == s[..|r|]
    ensures r != [] ==> !IsWhitespace(r[|r| - 1])
    ensures IsBlank(s[|r|..])
  {
    if s == [] then s
    else if IsWhitespace(s[|s| - 1]) then
      var r := TrimEnd(s[..|s| - 1]);
      assert s[|r|..] == s[..|s| - 1][|r|..] + [s[|s| - 1]];
      r
    else s
  }

  /** `s.trim()`: falsy, the empty string, exactly when `s` is blank, and
      otherwise neither starting nor ending with whitespace. */
  function Trim(s: string): (r: string)
    ensures r == "" <==> IsBlank(s)
    ensures r != "" ==> !IsWhitespace(r[0]) && !IsWhitespace(r[|r| - 1])
  {
    TrimmedEmptyIffBlank(s);
    TrimEnd(TrimStart(s))
  }

  /** Trimming both ends leaves nothing exactly when `s` is blank. */
  lemma TrimmedEmptyIffBlank(s: string)
    ensures TrimEnd(TrimStart(s)) == "" <==> IsBlank(s)
  {
    if IsBlank(s) {
      BlankTrimsToEmpty(s);
    }
    if TrimEnd(TrimStart(s)) == "" {
      var t := TrimStart(s);
      assert t[0..] == t;
      assert |t| == 0;
      assert s[..|s|] == s;
    }
  }

  /** Trimming the start of a blank string leaves nothing. */
  lemma {:induction false} BlankTrimsToEmpty(s: string)
    requires IsBlank(s)
    ensures TrimStart(s) == ""
  {
    if s != [] {
      BlankTrimsToEmpty(s[1..]);
    }
  }

  // ---------------------------------------------------------------------
  // The text field and its handlers
  // ---------------------------------------------------------------------

  /** The widget's one piece of state, `inputValue`, with the calls made to
      the `onSendMessage` callback recorded in order. */
  class ChatInput {
    var inputValue: string
    var sent: seq<string>

    /** Only text that is not blank is ever sent. */
    ghost predicate Valid()
      reads this
    {
      forall i :: 0 <= i < |sent| ==> !IsBlank(sent[i])
    }

    /** The state right after mounting: an empty field, nothing sent. */
    constructor ()
      ensures Valid()
      ensures inputValue == "" && sent == []
    {
      inputValue := "";
      sent := [];
    }

    /** `handleSend` (the send button and Enter): when the trimmed input is
        non-empty, send the input as typed, untrimmed, and clear the field;
        otherwise do nothing. */
    method HandleSend()
      requires Valid()
      modifies this
      ensures Valid()
      ensures Trim(old(inputValue)) != "" ==> sent == old(sent) + [old(inputValue)] && inputValue == ""
      ensures Trim(old(inputValue)) == "" ==> sent == old(sent) && inputValue == old(inputValue)
    {
      if Trim(inputValue) != "" {
        sent := sent + [inputValue];
        inputValue := "";
      }
    }

    /** `handleKeyPress`: Enter without Shift prevents the default action
        and sends; every other key, and Shift+Enter, changes nothing. */
    method HandleKeyPress(key: string, shiftKey: bool) returns (defaultPrevented: bool)
      requires Valid()
      modifies this
      ensures Valid()
      ensures defaultPrevented <==> key == "Enter" && !shiftKey
      ensures defaultPrevented && Trim(old(inputValue)) != "" ==>
        sent == old(sent) + [old(inputValue)] && inputValue == ""
      ensures !defaultPrevented || Trim(old(inputValue)) == "" ==>
        sent == old(sent) && inputValue == old(inputValue)
    {
      defaultPrevented := false;
      if key == "Enter" && !shiftKey {
        defaultPrevented := true;
        HandleSend();
      }
    }

    /** The field's `onChange`: the input becomes exactly the event's value. */
    method HandleChange(value: string)
      requires Valid()
      modifies this
      ensures Valid()
      ensures inputValue == value && sent == old(sent)
    {
      inputValue := value;
    }
  }

  /** A session at the keyboard on a fresh widget: type blank text and press
      Enter, type " hi " and press Shift+Enter, then "a", then click send
      twice. Only " hi " is sent, once, with its spaces, and the field ends
      empty. */
  method BlankAndShiftEnterSendNothing() returns (sent: seq<string>, field: string)
    ensures sent == [" hi "] && field == ""
  {
    var chat := new ChatInput();
    chat.HandleChange(" \t ");
    assert IsBlank(" \t ");
    assert Trim(" \t ") == "";
    var prevented := chat.HandleKeyPress("Enter", false);
    assert prevented && chat.sent == [] && chat.inputValue == " \t ";
    chat.HandleChange(" hi ");
    assert " hi "[1] == 'h' && !IsWhitespace('h');
    assert !IsBlank(" hi ");
    assert Trim(" hi ") != "";
    prevented := chat.HandleKeyPress("Enter", true);
    assert !prevented && chat.sent == [];
    prevented := chat.HandleKeyPress("a", false);
    assert !prevented && chat.sent == [];
    chat.HandleSend();
    assert chat.sent == [" hi "] && chat.inputValue == "";
    assert Trim("") == "";
    chat.HandleSend();
    sent, field := chat.sent, chat.inputValue;
  }

  // ---------------------------------------------------------------------
  // What the widget shows
  // ---------------------------------------------------------------------

  datatype MessageType = User | Assistant | System

  /** A chat message. `timestamp` is an ISO date string. */
  datatype Message = Message(id: string, messageType: MessageType, content: string, timestamp: string)

  /** The two readings of the clock taken when the module is loaded, one
      for each default message; they need not be equal. */
  datatype LoadTimes = LoadTimes(first: string, second: string)

  /** The messages shown when none are passed, stamped with the load times. */
  function DefaultMessages(loadTime: LoadTimes): seq<Message>
  {
    [ Message("1", System, "Welcome to Safe Social Support! How can I help you today?", loadTime.first),
      Message("2", Assistant, "I'm here to help you with any safety concerns or questions you might have.", loadTime.second) ]
  }

  /** Flex alignment of a message row. */
  datatype Justify = JustifyStart | JustifyEnd

  /** The user's own messages are right-aligned, all others left-aligned. */
  function Alignment(t: MessageType): (j: Justify)
    ensures j == JustifyEnd <==> t == User
  {
    if t == User then JustifyEnd else JustifyStart
  }

  const UserBubble: string := "bg-primary text-primary-foreground"
  const SystemBubble: string := "bg-muted"
  const AssistantBubble: string := "bg-secondary"

  /** The bubble's colour classes, one per message type. */
  function BubbleClasses(t: MessageType): (c: string)
    ensures c == UserBubble <==> t == User
    ensures c == SystemBubble <==> t == System
    ensures c == AssistantBubble <==> t == Assistant
  {
    assert |UserBubble| == 34 && |SystemBubble| == 8 && |AssistantBubble| == 12;
    match t
    case User => UserBubble
    case System => SystemBubble
    case Assistant => AssistantBubble
  }

  /** One rendered message, keyed by the message id; `systemBadge` says
      whether the "System Message" badge is shown. */
  datatype Bubble = Bubble(key: string, justify: Justify, classes: string, systemBadge: bool, content: string, timestamp: string)

  function BubbleOf(m: Message): Bubble
  {
    Bubble(m.id, Alignment(m.messageType), BubbleClasses(m.messageType),
      m.messageType == System, m.content, m.timestamp)
  }

  /** `messages.map(...)`: one bubble per message, in order. */
  function Bubbles(messages: seq<Message>): (bs: seq<Bubble>)
    ensures |bs| == |messages|
    ensures forall i :: 0 <= i < |messages| ==> bs[i] == BubbleOf(messages[i])
  {
    if messages == [] then [] else [BubbleOf(messages[0])] + Bubbles(messages[1..])
  }

  /** The message list and the text field, shown while not minimised. */
  datatype ChatBody = ChatBody(bubbles: seq<Bubble>, input: string)

  /** The icon of the minimise button. */
  datatype ToggleIcon = MaximizeIcon | MinimizeIcon

  /** The card: its size classes, the toggle icon and, unless minimised, the body. */
  datatype ChatCard = ChatCard(size: string, toggleIcon: ToggleIcon, body: Option<ChatBody>)

  /** The props that decide what is shown; absent ones take their defaults. */
  datatype ChatProps = ChatProps(messages: Option<seq<Message>>, isOpen: Option<bool>, isMinimized: Option<bool>)

  const MinimizedSize: string := "w-[360px] h-[60px]"
  const ExpandedSize: string := "w-[360px] h-[500px]"

  /** The widget for `props` with the field holding `inputValue`: nothing
      when closed; otherwise the card, whose body is hidden when minimised. */
  function Render(props: ChatProps, inputValue: string, loadTime: LoadTimes): (view: Option<ChatCard>)
    ensures view.None? <==> !props.isOpen.GetOr(true)
  {
    if !props.isOpen.GetOr(true) then None
    else
      var minimized := props.isMinimized.GetOr(false);
      var messages := props.messages.GetOr(DefaultMessages(loadTime));
      Some(ChatCard(
        if minimized then MinimizedSize else ExpandedSize,
        if minimized then MaximizeIcon else MinimizeIcon,
        if minimized then None else Some(ChatBody(Bubbles(messages), inputValue))))
  }

  /** Closed, the widget renders nothing at all. */
  lemma ClosedRendersNothing(props: ChatProps, inputValue: string, loadTime: LoadTimes)
    requires props.isOpen == Some(false)
    ensures Render(props, inputValue, loadTime) == None
  {
  }

  /** Open and minimised: only the header bar, 60 px high, with the maximise icon. */
  lemma MinimizedHidesBody(props: ChatProps, inputValue: string, loadTime: LoadTimes)
    requires props.isOpen != Some(false) && props.isMinimized == Some(true)
    ensures Render(props, inputValue, loadTime) == Some(ChatCard(MinimizedSize, MaximizeIcon, None))
  {
    assert props.isOpen.GetOr(true) && props.isMinimized.GetOr(false);
  }

  /** Open and expanded: every message in order, each aligned, coloured and
      badged by its type, and the field showing exactly `inputValue`. */
  lemma ExpandedShowsMessagesAndInput(props: ChatProps, inputValue: string, loadTime: LoadTimes)
    requires props.isOpen != Some(false) && props.isMinimized != Some(true)
    ensures var view := Render(props, inputValue, loadTime);
      var messages := props.messages.GetOr(DefaultMessages(loadTime));
      view.Some? && view.value.size == ExpandedSize && view.value.body.Some? &&
      view.value.body.value.input == inputValue &&
      |view.value.body.value.bubbles| == |messages| &&
      forall i :: 0 <= i < |messages| ==>
        var b := view.value.body.value.bubbles[i];
        b.key == messages[i].id && b.content == messages[i].content &&
        (b.justify == JustifyEnd <==> messages[i].messageType == User) &&
        (b.systemBadge <==> messages[i].messageType == System) &&
        b.classes == BubbleClasses(messages[i].messageType)
  {
  }

  /** With no props the widget is open and expanded and starts with the
      system greeting, left-aligned and badged, then the assistant's note. */
  lemma DefaultWidget(loadTime: LoadTimes)
    ensures var view := Render(ChatProps(None, None, None), "", loadTime);
      view.Some? && view.value.body.Some? &&
      view.value.body.value.bubbles ==
        [ Bubble("1", JustifyStart, SystemBubble, true,
            "Welcome to Safe Social Support! How can I help you today?", loadTime.first),
          Bubble("2", JustifyStart, AssistantBubble, false,
            "I'm here to help you with any safety concerns or questions you might have.", loadTime.second) ]
  {
    var bs := Bubbles(DefaultMessages(loadTime));
    assert |bs| == 2;
  }
}
