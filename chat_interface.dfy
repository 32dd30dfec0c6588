/** The chat assistant (src/components/Chatbot/ChatInterface.jsx): the
    keyword classifier behind `getBotResponse` and the message list that
    `handleSendMessage` extends. */
module ChatInterface {
  import opened Common
  import opened QuickActions

  // ---------------------------------------------------------------------
  // Replies

  /** The reply chosen for a message, one per branch of `getBotResponse`. */
  datatype Topic = Colleges | Quiz | Streams | Scholarships | Help | General

  /** A suggested follow-up shown under a reply: its label and its tag. */
  datatype ReplyAction = ReplyAction(text: string, action: string)

  datatype Reply = Reply(text: string, actions: seq<ReplyAction>)

  /** The branch of `getBotResponse`: the message is lowered once, then the
      keyword groups are tried in order and the first one with a keyword
      occurring in it decides. */
  function Classify(userMessage: string): Topic
  {
    var message := Lower(userMessage);
    if Contains(message, "college") || Contains(message, "admission") then Colleges
    else if Contains(message, "quiz") || Contains(message, "test") || Contains(message, "assessment") then Quiz
    else if Contains(message, "stream") || Contains(message, "science") || Contains(message, "commerce")
      || Contains(message, "arts") then Streams
    else if Contains(message, "scholarship") || Contains(message, "financial") then Scholarships
    else if Contains(message, "help") || Contains(message, "support") then Help
    else General
  }

  /** The keyword groups, in the order they are tried, with the topic each
      selects. */
  const KeywordGroups: seq<(Topic, seq<string>)> := [
    (Colleges, ["college", "admission"]),
    (Quiz, ["quiz", "test", "assessment"]),
    (Streams, ["stream", "science", "commerce", "arts"]),
    (Scholarships, ["scholarship", "financial"]),
    (Help, ["help", "support"])
  ]

  /** Some keyword of the group occurs in the (lowered) message. */
  predicate Mentions(message: string, keywords: seq<string>)
  {
    exists k :: k in keywords && Contains(message, k)
  }

  /** Reference first-match classifier over a table of groups. */
  function FirstMentioned(message: string, groups: seq<(Topic, seq<string>)>): Topic
  {
    if groups == [] then General
    else if Mentions(message, groups[0].1) then groups[0].0
    else FirstMentioned(message, groups[1..])
  }

  lemma MentionsTwo(m: string, a: string, b: string)
    ensures Mentions(m, [a, b]) <==> Contains(m, a) || Contains(m, b)
  {
    if Contains(m, a) { assert a in [a, b]; }
    if Contains(m, b) { assert b in [a, b]; }
  }

  lemma MentionsThree(m: string, a: string, b: string, c: string)
    ensures Mentions(m, [a, b, c]) <==> Contains(m, a) || Contains(m, b) || Contains(m, c)
  {
    if Contains(m, a) { assert a in [a, b, c]; }
    if Contains(m, b) { assert b in [a, b, c]; }
    if Contains(m, c) { assert c in [a, b, c]; }
  }

  lemma MentionsFour(m: string, a: string, b: string, c: string, d: string)
    ensures Mentions(m, [a, b, c, d]) <==> Contains(m, a) || Contains(m, b) || Contains(m, c) || Contains(m, d)
  {
    if Contains(m, a) { assert a in [a, b, c, d]; }
    if Contains(m, b) { assert b in [a, b, c, d]; }
    if Contains(m, c) { assert c in [a, b, c, d]; }
    if Contains(m, d) { assert d in [a, b, c, d]; }
  }

  /** The if-chain is the first-match classifier over `KeywordGroups`. */
  lemma ClassifyIsFirstMatch(userMessage: string)
    ensures Classify(userMessage) == FirstMentioned(Lower(userMessage), KeywordGroups)
  {
    var m := Lower(userMessage);
    MentionsTwo(m, "college", "admission");
    MentionsThree(m, "quiz", "test", "assessment");
    MentionsFour(m, "stream", "science", "commerce", "arts");
    MentionsTwo(m, "scholarship", "financial");
    MentionsTwo(m, "help", "support");
    var g4 := [(Help, ["help", "support"])];
    var g3 := [(Scholarships, ["scholarship", "financial"])] + g4;
    var g2 := [(Streams, ["stream", "science", "commerce", "arts"])] + g3;
    var g1 := [(Quiz, ["quiz", "test", "assessment"])] + g2;
    var g0 := [(Colleges, ["college", "admission"])] + g1;
    assert g0 == KeywordGroups;
    assert g4[1..] == [] && g3[1..] == g4 && g2[1..] == g3 && g1[1..] == g2 && g0[1..] == g1;
    assert FirstMentioned(m, g4) == if Contains(m, "help") || Contains(m, "support") then Help else General;
    assert FirstMentioned(m, g3) ==
      if Contains(m, "scholarship") || Contains(m, "financial") then Scholarships else FirstMentioned(m, g4);
    assert FirstMentioned(m, g2) == if Contains(m, "stream") || Contains(m, "science") || Contains(m, "commerce")
      || Contains(m, "arts") then Streams else FirstMentioned(m, g3);
    assert FirstMentioned(m, g1) ==
      if Contains(m, "quiz") || Contains(m, "test") || Contains(m, "assessment") then Quiz else FirstMentioned(m, g2);
    assert FirstMentioned(m, g0) ==
      if Contains(m, "college") || Contains(m, "admission") then Colleges else FirstMentioned(m, g1);
  }

  /** The first-match classifier picks group `i` exactly when group `i` is
      mentioned and no earlier group is. */
  lemma {:induction false} FirstMentionedPicks(message: string, groups: seq<(Topic, seq<string>)>, i: nat)
    requires i < |groups|
    requires Mentions(message, groups[i].1)
    requires forall j :: 0 <= j < i ==> !Mentions(message, groups[j].1)
    ensures FirstMentioned(message, groups) == groups[i].0
  {
    if i > 0 {
      assert !Mentions(message, groups[0].1);
      FirstMentionedPicks(message, groups[1..], i - 1);
    }
  }

  /** The first-match classifier falls through exactly when no group is
      mentioned, given that no group selects the fall-through topic. */
  lemma {:induction false} FirstMentionedFallsThrough(message: string, groups: seq<(Topic, seq<string>)>)
    requires forall j :: 0 <= j < |groups| ==> groups[j].0 != General
    ensures FirstMentioned(message, groups) == General <==>
      forall j :: 0 <= j < |groups| ==> !Mentions(message, groups[j].1)
  {
    if groups != [] {
      FirstMentionedFallsThrough(message, groups[1..]);
      assert forall j :: 1 <= j < |groups| ==> groups[j] == groups[1..][j - 1];
    }
  }

  /** The first keyword group mentioned decides, in the fixed order. */
  lemma FirstGroupWins(userMessage: string, i: nat)
    requires i < |KeywordGroups|
    requires Mentions(Lower(userMessage), KeywordGroups[i].1)
    requires forall j :: 0 <= j < i ==> !Mentions(Lower(userMessage), KeywordGroups[j].1)
    ensures Classify(userMessage) == KeywordGroups[i].0
  {
    ClassifyIsFirstMatch(userMessage);
    FirstMentionedPicks(Lower(userMessage), KeywordGroups, i);
  }

  /** The default reply is given exactly when no keyword occurs. */
  lemma DefaultIffNoKeyword(userMessage: string)
    ensures Classify(userMessage) == General <==>
      forall j :: 0 <= j < |KeywordGroups| ==> !Mentions(Lower(userMessage), KeywordGroups[j].1)
  {
    ClassifyIsFirstMatch(userMessage);
    FirstMentionedFallsThrough(Lower(userMessage), KeywordGroups);
  }

  /** Two messages that differ only in the case of their letters. */
  predicate SameIgnoringCase(a: string, b: string)
  {
    |a| == |b| && forall i :: 0 <= i < |a| ==> LowerChar(a[i]) == LowerChar(b[i])
  }

  /** Classification ignores case. */
  lemma ClassifyIgnoresCase(a: string, b: string)
    requires SameIgnoringCase(a, b)
    ensures Classify(a) == Classify(b)
  {
    assert Lower(a) == Lower(b);
  }

  /** The reply text of each branch. */
  const CollegesReply := "I can help you find colleges! 🏛️ You can use our College Finder to search for government colleges in your area. What stream are you interested in?"
  const QuizReply := "Great! Our career quiz can help you discover your ideal stream. 📝 It takes just 5 minutes and provides personalized recommendations."
  const StreamsReply := "Choosing the right stream is crucial! 🎯 Based on your interests and aptitude, I can help you explore different career paths."
  const ScholarshipsReply := "I can help you find scholarships! 💰 There are many government and private scholarships available for students."
  const HelpReply := "I'm here to help with all your career and education questions! 🤝 Here are some things I can assist you with:"
  const GeneralReply := "Thanks for your question! 😊 I'm here to help with career guidance, college information, and educational planning. What would you like to know more about?"

  function ReplyText(t: Topic): string
  {
    match t
    case Colleges => CollegesReply
    case Quiz => QuizReply
    case Streams => StreamsReply
    case Scholarships => ScholarshipsReply
    case Help => HelpReply
    case General => GeneralReply
  }

  /** The follow-ups of each branch; their tags never repeat. */
  function ReplyActions(t: Topic): (r: seq<ReplyAction>)
    ensures |r| == (if t == Quiz then 2 else if t == Help then 4 else 3)
    ensures forall i, j :: 0 <= i < j < |r| ==> r[i].action != r[j].action
  {
    match t
    case Colleges =>
      [ReplyAction("Find Engineering Colleges", "colleges_engineering"),
       ReplyAction("Find Medical Colleges", "colleges_medical"),
       ReplyAction("Find Science Colleges", "colleges_science")]
    case Quiz =>
      [ReplyAction("Take Career Quiz", "take_quiz"),
       ReplyAction("View Quiz Results", "view_results")]
    case Streams =>
      [ReplyAction("Science Stream Info", "stream_science"),
       ReplyAction("Commerce Stream Info", "stream_commerce"),
       ReplyAction("Arts Stream Info", "stream_arts")]
    case Scholarships =>
      [ReplyAction("Merit Scholarships", "scholarships_merit"),
       ReplyAction("Need-based Aid", "scholarships_need"),
       ReplyAction("State Scholarships", "scholarships_state")]
    case Help =>
      [ReplyAction("College Information", "help_colleges"),
       ReplyAction("Career Guidance", "help_career"),
       ReplyAction("Quiz Support", "help_quiz"),
       ReplyAction("Technical Issues", "help_technical")]
    case General =>
      [ReplyAction("Find Colleges", "find_colleges"),
       ReplyAction("Take Career Quiz", "take_quiz"),
       ReplyAction("Get Career Advice", "career_advice")]
  }

  /** `getBotResponse`. */
  function GetBotResponse(userMessage: string): Reply
  {
    Reply(ReplyText(Classify(userMessage)), ReplyActions(Classify(userMessage)))
  }

  // ---------------------------------------------------------------------
  // The conversation

  datatype Sender = User | Bot

  /** A chat message; user messages carry no follow-ups. */
  datatype Message = Message(id: int, text: string, sender: Sender, actions: seq<ReplyAction>)

  const Greeting := Message(1, "Hi! I'm your CareerCompass assistant. How can I help you today? 🎓", Bot, [])

  /** Message `i` of the list has id `i + 1`. */
  predicate NumberedInOrder(messages: seq<Message>)
  {
    forall i :: 0 <= i < |messages| ==> messages[i].id == i + 1
  }

  /** Ids numbered in order never repeat. */
  lemma NumberedIdsDistinct(messages: seq<Message>, i: nat, j: nat)
    requires NumberedInOrder(messages)
    requires i < j < |messages|
    ensures messages[i].id != messages[j].id
  {
  }

  /** Two messages numbered next keep the list numbered in order. */
  lemma NumberedExtend(messages: seq<Message>, first: Message, second: Message)
    requires NumberedInOrder(messages)
    requires first.id == |messages| + 1 && second.id == |messages| + 2
    ensures NumberedInOrder(messages + [first] + [second])
  {
  }

  /** The text `handleSendMessage(text = inputText)` sends: the argument when
      one is passed, the input box otherwise. */
  function SentText(text: Option<string>, inputText: string): string
  {
    if text.Some? then text.value else inputText
  }

  /** `!text.trim()`: the text is white space only. */
  function TrimsToEmpty(text: string): (r: bool)
    ensures r <==> Blank(text)
  {
    TrimEmptyIffBlank(text);
    Trim(text) == ""
  }

  /** The text a click hands to `handleSendMessage`: a follow-up under a
      reply passes its label; a quick-action event passes its `text`, which
      a navigate event does not have, so the input box is sent instead. */
  function EventText(e: ActionEvent): (r: Option<string>)
    ensures r.None? <==> e.NavigateEvent?
  {
    match e
    case NavigateEvent(_) => None
    case QueryEvent(text) => Some(text)
  }

  /** The stream `<QuickActions>` sees in the chat: it is rendered without a
      `userProfile`, so `userProfile?.stream` is undefined. */
  const ChatProfileStream: string := ""

  /** Whatever the user's profile holds, the chat offers the four default
      buttons: the quiz link first, then three questions, with distinct ids. */
  lemma ChatOffersDefaults()
    ensures GetQuickActions(ChatProfileStream) == DefaultActions
    ensures |GetQuickActions(ChatProfileStream)| == 4
    ensures GetQuickActions(ChatProfileStream)[0].kind == Navigate("/quiz")
    ensures forall i :: 1 <= i < 4 ==> GetQuickActions(ChatProfileStream)[i].kind.Ask?
    ensures DistinctIds(GetQuickActions(ChatProfileStream))
  {
    QuickActionIdsDistinct(ChatProfileStream);
  }

  /** The chat component's state. The typing delay is taken as immediate,
      so between sends the assistant is never typing. */
  class ChatSession {
    var messages: seq<Message>
    var inputText: string
    var isTyping: bool

    ghost predicate Valid()
      reads this
    {
      NumberedInOrder(messages) && !isTyping
    }

    constructor()
      ensures Valid()
      ensures messages == [Greeting] && inputText == "" && !isTyping
    {
      messages := [Greeting];
      inputText := "";
      isTyping := false;
    }

    /** The input box's `onChange`. */
    method SetInputText(text: string)
      modifies this
      ensures inputText == text
      ensures messages == old(messages) && isTyping == old(isTyping)
    {
      inputText := text;
    }

    /** `handleSendMessage`: blank text sends nothing; otherwise the user's
        message gets the next id, the input is cleared and the reply to it
        follows with the id after that. */
    method SendMessage(text: Option<string>) returns (sent: bool)
      requires Valid()
      modifies this
      ensures Valid()
      ensures sent <==> !Blank(SentText(text, old(inputText)))
      ensures !sent ==> messages == old(messages) && inputText == old(inputText)
      ensures sent ==> inputText == ""
      ensures sent ==> (messages == old(messages) +
        [Message(|old(messages)| + 1, SentText(text, old(inputText)), User, [])] +
        [Message(|old(messages)| + 2, GetBotResponse(SentText(text, old(inputText))).text, Bot,
          GetBotResponse(SentText(text, old(inputText))).actions)])
    {
      var t := SentText(text, inputText);
      if TrimsToEmpty(t) {
        return false;
      }
      var len := |messages|;
      ghost var before := messages;
      var userMessage := Message(len + 1, t, User, []);
      messages := messages + [userMessage];
      inputText := "";
      isTyping := true;
      var response := GetBotResponse(t);
      var botMessage := Message(len + 2, response.text, Bot, response.actions);
      messages := messages + [botMessage];
      isTyping := false;
      sent := true;
      NumberedExtend(before, userMessage, botMessage);
    }

    /** `handleQuickAction(action)`: `handleSendMessage(action.text)`, with
        the same effect as `SendMessage`. */
    method HandleQuickAction(text: Option<string>) returns (sent: bool)
      requires Valid()
      modifies this
      ensures Valid()
      ensures sent <==> !Blank(SentText(text, old(inputText)))
      ensures !sent ==> messages == old(messages) && inputText == old(inputText)
      ensures sent ==> inputText == ""
      ensures sent ==> (messages == old(messages) +
        [Message(|old(messages)| + 1, SentText(text, old(inputText)), User, [])] +
        [Message(|old(messages)| + 2, GetBotResponse(SentText(text, old(inputText))).text, Bot,
          GetBotResponse(SentText(text, old(inputText))).actions)])
    {
      sent := SendMessage(text);
    }
  }
}
