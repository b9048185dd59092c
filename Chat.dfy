/**
 * The chat screen with the "Mr. Karry" assistant: an append-only message log, the input
 * field, the typing and recording flags, and the keyword cascade that picks a reply.
 */
module MrKarry {
  import opened Wrappers
  import opened Text

  datatype Sender = User | Ai

  datatype MessageType = TextMessage | VoiceMessage

  /** A chat message; the timestamp is not modelled. */
  datatype Message = Message(id: string, content: string, sender: Sender, kind: MessageType)

  /** The assistant's greeting every chat log starts with. */
  const Welcome: Message := Message("1", "Hey there! \U{00F0}\U{0178}\U{2018}\U{2039} I'm Mr. Karry, your friendly AI productivity assistant. I'm here to help you organize your tasks, boost your productivity, and make your day more efficient. What can I help you with today?", Ai, TextMessage)

  /** The topics of the keyword cascade, in the order the cascade tests them. */
  datatype Topic = Greeting | Tasks | Schedule | Stress | Focus | Goals | Thanks

  /** The number of topics. */
  const TopicCount: nat := 7

  /** The position of a topic in the cascade. */
  function Rank(t: Topic): (r: nat)
    ensures r < TopicCount
  {
    match t
    case Greeting => 0
    case Tasks => 1
    case Schedule => 2
    case Stress => 3
    case Focus => 4
    case Goals => 5
    case Thanks => 6
  }

  /** The three keywords whose presence selects a topic. */
  function Keywords(t: Topic): (ks: seq<string>)
    ensures |ks| == 3
  {
    match t
    case Greeting => ["hello", "hi", "hey"]
    case Tasks => ["task", "todo", "organize"]
    case Schedule => ["schedule", "time", "calendar"]
    case Stress => ["stress", "overwhelm", "busy"]
    case Focus => ["focus", "distraction", "concentrate"]
    case Goals => ["goal", "achieve", "success"]
    case Thanks => ["thank", "awesome", "great"]
  }

  /** The lower-cased input `includes` one of the topic's keywords. */
  predicate Mentions(lower: string, t: Topic) {
    var ks := Keywords(t);
    Contains(lower, ks[0]) || Contains(lower, ks[1]) || Contains(lower, ks[2])
  }

  /** The `if` cascade of `getAIResponse`: the first topic, in cascade order, that the input mentions. */
  function Classify(lower: string): (r: Option<Topic>)
    ensures r.Some? ==> Mentions(lower, r.value) && forall u :: Rank(u) < Rank(r.value) ==> !Mentions(lower, u)
    ensures r.None? ==> forall u :: !Mentions(lower, u)
  {
    if Mentions(lower, Greeting) then Some(Greeting)
    else if Mentions(lower, Tasks) then Some(Tasks)
    else if Mentions(lower, Schedule) then Some(Schedule)
    else if Mentions(lower, Stress) then Some(Stress)
    else if Mentions(lower, Focus) then Some(Focus)
    else if Mentions(lower, Goals) then Some(Goals)
    else if Mentions(lower, Thanks) then Some(Thanks)
    else None
  }

  /** The first topic the input mentions wins: it is chosen exactly when no earlier topic is mentioned. */
  lemma FirstMatchWins(lower: string, t: Topic)
    ensures Classify(lower) == Some(t) <==>
      Mentions(lower, t) && forall u :: Rank(u) < Rank(t) ==> !Mentions(lower, u)
    ensures Classify(lower) == None <==> forall u :: !Mentions(lower, u)
  {
    match t
    case Greeting =>
    case Tasks =>
      assert Rank(Greeting) < Rank(t);
    case Schedule =>
      assert Rank(Greeting) < Rank(Tasks) < Rank(t);
    case Stress =>
      assert Rank(Greeting) < Rank(Tasks) < Rank(Schedule) < Rank(t);
    case Focus =>
      assert Rank(Greeting) < Rank(Tasks) < Rank(Schedule) < Rank(Stress) < Rank(t);
    case Goals =>
      assert Rank(Greeting) < Rank(Tasks) < Rank(Schedule) < Rank(Stress) < Rank(Focus) < Rank(t);
    case Thanks =>
      assert Rank(Greeting) < Rank(Tasks) < Rank(Schedule) < Rank(Stress) < Rank(Focus) < Rank(Goals) < Rank(t);
  }

  /** The number of fallback replies. */
  const FallbackCount: nat := 6

  /** What `getAIResponse` answers: the reply of a topic, or the fallback reply with the given index. */
  datatype Answer = OnTopic(topic: Topic) | Fallback(index: nat)

  /**
   * The decision `getAIResponse(input)` makes. `pick` stands for
   * `Math.floor(Math.random() * 6)`; it is only used when no topic matches.
   */
  function Respond(input: string, pick: nat): (a: Answer)
    requires pick < FallbackCount
    ensures a.OnTopic? ==> Mentions(ToLower(input), a.topic)
    ensures a.Fallback? ==> a.index == pick && forall u :: !Mentions(ToLower(input), u)
  {
    match Classify(ToLower(input))
    case Some(t) => OnTopic(t)
    case None => Fallback(pick)
  }

  /**
   * The input is answered on topic `t` exactly when `t` is the first topic it mentions, and
   * with the picked fallback reply exactly when it mentions no topic at all.
   */
  lemma RespondCases(input: string, pick: nat, t: Topic)
    requires pick < FallbackCount
    ensures Respond(input, pick) == OnTopic(t) <==>
      Mentions(ToLower(input), t) && forall u :: Rank(u) < Rank(t) ==> !Mentions(ToLower(input), u)
    ensures Respond(input, pick) == Fallback(pick) <==> forall u :: !Mentions(ToLower(input), u)
  {
    FirstMatchWins(ToLower(input), t);
  }

  /** The answer does not depend on letter case: lower-casing the input first changes nothing. */
  lemma RespondIgnoresCase(input: string, pick: nat)
    requires pick < FallbackCount
    ensures Respond(ToLower(input), pick) == Respond(input, pick)
  {
    ToLowerIdempotent(input);
  }

  /**
   * "achieve" contains "hi", so an input about achieving a goal mentions the goals topic
   * and is still answered with the greeting.
   */
  lemma AchieveIsAGreeting(input: string, pick: nat)
    requires pick < FallbackCount
    requires Contains(ToLower(input), "achieve")
    ensures Mentions(ToLower(input), Goals)
    ensures Respond(input, pick) == OnTopic(Greeting)
  {
    var lower := ToLower(input);
    var i :| 0 <= i <= |lower| - 7 && OccursAt(lower, "achieve", i);
    assert lower[i..i + 7] == "achieve";
    assert lower[i + 2] == 'h' && lower[i + 3] == 'i';
    assert lower[i + 2..i + 4] == "hi";
    assert OccursAt(lower, "hi", i + 2);
  }

  /** The canned reply for each topic. */
  function TopicReply(t: Topic): string {
    match t
    case Greeting => "Hello! " + "\U{00F0}\U{0178}\U{02DC}\U{0160} Great to chat with you! " + "I'm excited to help you be more productive today. " + "What's on your mind?"
    case Tasks => "Perfect! " + "\U{00F0}\U{0178}\U{201C}\U{2039} I love helping with task management! " + "Here are some quick tips: Start by prioritizing your most important tasks, break large projects into smaller steps, and set realistic deadlines. " + "Want me to help you create a specific task plan?"
    case Schedule => "Time management is my specialty! " + "\U{00E2}\U{00B0} I recommend time-blocking your calendar, setting aside focused work periods, and including breaks. " + "Would you like me to suggest a daily schedule template that works for your goals?"
    case Stress => "I understand that feeling! " + "\U{00F0}\U{0178}\U{00A4}\U{2014} When things get overwhelming, try the 'brain dump' technique - write everything down, then prioritize just 3 main things for today. " + "Remember, progress over perfection! " + "How can I help you feel more in control?"
    case Focus => "Great question! " + "\U{00F0}\U{0178}\U{017D}\U{00AF} For better focus, try the Pomodoro technique (25 min focused work + 5 min break), eliminate digital distractions, and create a dedicated workspace. " + "What's your biggest distraction right now?"
    case Goals => "I love goal-oriented thinking! " + "\U{00F0}\U{0178}\U{017D}\U{00AF} The key is making goals SMART: Specific, Measurable, Achievable, Relevant, and Time-bound. " + "Break big goals into weekly milestones. " + "What goal are you working towards?"
    case Thanks => "Aww, thank you! " + "\U{00F0}\U{0178}\U{02DC}\U{0160} That really makes my day! " + "I'm here whenever you need productivity support, motivation, or just someone to brainstorm with. " + "Keep being amazing!"
  }

  /** `defaultResponses[i]`: the fallback replies, one of which is picked at random when no keyword matches. */
  function FallbackReply(i: nat): string
    requires i < FallbackCount
  {
    match i
    case 0 => "That's a fantastic question! " + "\U{00F0}\U{0178}\U{0152}\U{0178} Let me help you tackle that challenge. " + "Based on what you've shared, I'd recommend starting with small, manageable steps that build momentum."
    case 1 => "I love your thinking! " + "\U{00F0}\U{0178}\U{2019}\U{00A1} Here's my take: productivity isn't about doing more, it's about doing what matters most. " + "Let's find the best approach for your unique situation."
    case 2 => "Great point! " + "\U{00F0}\U{0178}\U{0161}\U{20AC} I've helped many people with similar challenges. " + "The key is finding systems that work with your natural habits, not against them. " + "What's your current workflow like?"
    case 3 => "You're asking all the right questions! " + "\U{00F0}\U{0178}\U{017D}\U{00AF} Success comes from consistent small actions. " + "I'd suggest we break this down into actionable steps you can start today."
    case 4 => "I'm excited to help with this! " + "\U{00E2}\U{0161}\U{00A1} From my experience, the most effective approach combines smart planning with flexible execution. " + "What's your biggest challenge right now?"
    case 5 => "This is exactly the kind of productivity puzzle I love solving! " + "\U{00F0}\U{0178}\U{00A7}\U{00A9} Let's create a personalized strategy that fits your lifestyle and goals. " + "Tell me more about what you're working on!"
  }

  /** The text of an answer. */
  function AnswerText(a: Answer): string
    requires a.Fallback? ==> a.index < FallbackCount
  {
    match a
    case OnTopic(t) => TopicReply(t)
    case Fallback(i) => FallbackReply(i)
  }

  /**
   * `getAIResponse(input)`: the canned reply of the first topic the input mentions, or the
   * fallback reply `pick` when it mentions none.
   */
  function Reply(input: string, pick: nat): (r: string)
    requires pick < FallbackCount
    ensures forall t :: Classify(ToLower(input)) == Some(t) ==> r == TopicReply(t)
    ensures Classify(ToLower(input)).None? ==> r == FallbackReply(pick)
  {
    AnswerText(Respond(input, pick))
  }

  /** The four "Quick Starters" buttons of the sidebar send these texts. */
  const QuickStarters: seq<string> := [
    "Help me organize my tasks for today",
    "I need motivation to stay productive",
    "How can I manage my time better?",
    "I'm feeling overwhelmed, can you help?"
  ]

  /** The state of the chat screen. */
  class ChatScreen {
    var messages: seq<Message>
    var input: string
    var isTyping: bool
    var isRecording: bool
    /** Whether `mediaRecorderRef.current` holds a recorder. */
    var hasRecorder: bool
    /** The contents of the sent messages whose delayed reply has not been delivered yet, in sending order. */
    var pending: seq<string>
    /** The message the log starts with. */
    const greeting: Message

    /** The log is never empty and always starts with the greeting. */
    ghost predicate Valid()
      reads this
    {
      |messages| >= 1 && messages[0] == greeting
    }

    constructor ()
      ensures Valid() && greeting == Welcome
      ensures messages == [Welcome] && input == ""
      ensures !isTyping && !isRecording && !hasRecorder && pending == []
    {
      greeting := Welcome;
      messages := [Welcome];
      input := "";
      isTyping := false;
      isRecording := false;
      hasRecorder := false;
      pending := [];
    }

    /** Typing into the message input. */
    method SetInput(text: string)
      modifies this`input
      ensures input == text
    {
      input := text;
    }

    /**
     * The first half of `handleSendMessage(content, kind)`: blank content changes nothing;
     * otherwise the user's message goes at the end of the log, the input is cleared, the
     * typing indicator turns on and the reply is scheduled. `id` stands for `Date.now()`.
     */
    method SendMessage(content: string, kind: MessageType, id: string)
      requires Valid()
      modifies this`messages, this`input, this`isTyping, this`pending
      ensures Valid()
      ensures IsBlank(content) ==>
        messages == old(messages) && input == old(input) && isTyping == old(isTyping) && pending == old(pending)
      ensures !IsBlank(content) ==>
        && messages == old(messages) + [Message(id, content, User, kind)]
        && input == "" && isTyping
        && pending == old(pending) + [content]
    {
      if !IsBlank(content) {
        Post(Message(id, content, User, kind));
        input := "";
        isTyping := true;
        pending := pending + [content];
      }
    }

    /**
     * The timer of the `k`-th scheduled reply fires (the delays are random, so any scheduled
     * reply may come first): the assistant's answer to that content goes at the end of the
     * log and the typing indicator turns off. `pick` is the random fallback index.
     */
    method DeliverReply(k: nat, pick: nat, id: string)
      requires Valid()
      requires k < |pending| && pick < FallbackCount
      modifies this`messages, this`isTyping, this`pending
      ensures Valid()
      ensures messages == old(messages) + [Message(id, Reply(old(pending)[k], pick), Ai, TextMessage)]
      ensures !isTyping
      ensures pending == old(pending)[..k] + old(pending)[k + 1..]
    {
      isTyping := false;
      var content := pending[k];
      pending := pending[..k] + pending[k + 1..];
      Post(Message(id, Reply(content, pick), Ai, TextMessage));
    }

    /** `setMessages(prev => [...prev, m])`: the message goes at the end of the log. */
    method Post(m: Message)
      requires Valid()
      modifies this`messages
      ensures Valid()
      ensures messages == old(messages) + [m]
    {
      messages := messages + [m];
    }

    /** `handleKeyPress`: Enter without Shift sends the current input as text; any other key does nothing. */
    method KeyPress(key: string, shift: bool, id: string)
      requires Valid()
      modifies this`messages, this`input, this`isTyping, this`pending
      ensures Valid()
      ensures key == "Enter" && !shift && !IsBlank(old(input)) ==>
        && messages == old(messages) + [Message(id, old(input), User, TextMessage)]
        && input == "" && isTyping && pending == old(pending) + [old(input)]
      ensures key != "Enter" || shift || IsBlank(old(input)) ==>
        messages == old(messages) && input == old(input) && isTyping == old(isTyping) && pending == old(pending)
    {
      if key == "Enter" && !shift {
        SendMessage(input, TextMessage, id);
      }
    }

    /** The send button sends the current input as text. */
    method SendButton(id: string)
      requires Valid()
      modifies this`messages, this`input, this`isTyping, this`pending
      ensures Valid()
      ensures !IsBlank(old(input)) ==>
        && messages == old(messages) + [Message(id, old(input), User, TextMessage)]
        && input == "" && isTyping && pending == old(pending) + [old(input)]
      ensures IsBlank(old(input)) ==>
        messages == old(messages) && input == old(input) && isTyping == old(isTyping) && pending == old(pending)
    {
      SendMessage(input, TextMessage, id);
    }

    /** A "Quick Starters" button sends its fixed text. */
    method QuickStart(i: nat, id: string)
      requires Valid() && i < |QuickStarters|
      modifies this`messages, this`input, this`isTyping, this`pending
      ensures Valid()
      ensures messages == old(messages) + [Message(id, QuickStarters[i], User, TextMessage)]
      ensures input == "" && isTyping && pending == old(pending) + [QuickStarters[i]]
    {
      var text := QuickStarters[i];
      assert text[0] == 'H' || text[0] == 'I';
      SendMessage(text, TextMessage, id);
    }

    /** "Clear Chat" keeps only the first message of the log; scheduled replies still arrive. */
    method ClearChat()
      requires Valid()
      modifies this`messages
      ensures Valid()
      ensures messages == [old(messages)[0]]
    {
      messages := [messages[0]];
    }

    /**
     * `startRecording`: `granted` says whether the browser granted the microphone. On success a
     * recorder exists and recording is on; on refusal nothing changes.
     */
    method StartRecording(granted: bool)
      modifies this`hasRecorder, this`isRecording
      ensures granted ==> hasRecorder && isRecording
      ensures !granted ==> hasRecorder == old(hasRecorder) && isRecording == old(isRecording)
    {
      if granted {
        hasRecorder := true;
        isRecording := true;
      }
    }

    /** `stopRecording`: only with a recorder and recording on does it do anything, and then recording stops. */
    method StopRecording()
      modifies this`isRecording
      ensures old(hasRecorder && isRecording) ==> !isRecording
      ensures !old(hasRecorder && isRecording) ==> isRecording == old(isRecording)
    {
      if hasRecorder && isRecording {
        isRecording := false;
      }
    }

    /** The microphone button stops a running recording and starts one otherwise. */
    method MicrophoneButton(granted: bool)
      modifies this`hasRecorder, this`isRecording
      ensures old(isRecording) && old(hasRecorder) ==> !isRecording && hasRecorder
      ensures old(isRecording) && !old(hasRecorder) ==> isRecording && !hasRecorder
      ensures !old(isRecording) ==>
        if granted then hasRecorder && isRecording else hasRecorder == old(hasRecorder) && !isRecording
    {
      if isRecording {
        StopRecording();
      } else {
        StartRecording(granted);
      }
    }
  }
}
