/** The chat page of the web client (frontend/src/pages/Chatbot.js): the
    client-side keyword fallback used when the server cannot be reached, and
    the message list and conversation history the page keeps. */
module ChatbotPage {
  import opened Text
  import opened Selection
  import opened RuleChain
  import opened Wrappers

  /** The branches of `getEnhancedFallbackResponse`. */
  datatype Category = Crisis | Greeting | Anxiety | Depression | Stress | Anger | Loneliness | Sleep | Default

  /** The fixed text of the crisis branch. */
  const CrisisReply: string :=
    "I'm very concerned about what you're sharing. Your safety is the most important thing. Please reach out to emergency services or a crisis helpline immediately. In India, you can call Vandrevala Foundation at 1860-2662-345 or the national emergency number 112."

  /** The reply lists of the other branches. */
  const GreetingReplies: seq<string> := [
    "Hello! I'm MindCare AI. I'm here to support your mental wellness journey with empathy and evidence-based strategies. What would you like to talk about today?",
    "Hi there! I'm your mental health companion. Whether you need coping strategies, emotional support, or just someone to listen without judgment, I'm here for you.",
    "Welcome! I'm trained in mental health support and here to help you navigate your feelings and build resilience. How can I support you right now?"
  ]

  const AnxietyReplies: seq<string> := [
    "I understand anxiety can feel overwhelming, like you're carrying a heavy weight. Let's try the 5-4-3-2-1 grounding technique together: Notice 5 things you can see around you, 4 things you can touch, 3 things you can hear, 2 things you can smell, and 1 thing you can taste. This helps anchor you in the present moment when worries about the future feel too big.",
    "When anxiety strikes, remember it's your body's way of trying to protect you. The 4-7-8 breathing technique can help calm your nervous system: Breathe in through your nose for 4 seconds, hold for 7 seconds, exhale through your mouth for 8 seconds. Repeat this 3-4 times. Notice how your body begins to relax with each exhale.",
    "Anxiety often comes from worrying about what might happen. Try this perspective shift: Ask yourself 'What's actually happening right now?' rather than 'What might happen?' Focus on the present reality, not future possibilities. What's one small, kind thing you can do for yourself in this moment?"
  ]

  const DepressionReplies: seq<string> := [
    "I hear you're going through a difficult time. Depression can make everything feel heavy and overwhelming, like you're moving through thick fog. Remember that your feelings are valid, and even small steps like brushing your teeth, drinking water, or opening a window are significant accomplishments worth acknowledging.",
    "When depression makes motivation feel impossible, try the 'five-minute rule': Commit to an activity for just five minutes. Often, starting is the hardest part. If after five minutes you want to stop, that's okay - you've already accomplished something. If you continue, that's a bonus. This approach respects your energy levels while building momentum.",
    "You're not alone in this struggle. Many people experience depression, and it's okay to not be okay. The fact that you're reaching out shows incredible strength. Consider reaching out to trusted friends, family, or mental health professionals for additional support. Sometimes sharing the load makes it easier to carry."
  ]

  const StressReplies: seq<string> := [
    "Stress can really accumulate and affect both mind and body. Let's try progressive muscle relaxation: Tense each muscle group for 5 seconds, then release completely. Start from your toes and work upward - feet, calves, thighs, glutes, stomach, hands, arms, shoulders, neck, and face. Notice the difference between tension and relaxation in each area.",
    "When stress builds up, sometimes externalizing it can help. Try the 'circle of control' exercise: Draw two circles. In the inner circle, list things you can control (your reactions, self-care, boundaries). In the outer circle, list things you can't control (others' actions, past events, certain outcomes). Focus your energy on the inner circle where you have influence.",
    "Remember the three R's of stress management: Recognize your stress signals early (irritability, fatigue, tension), Reduce exposure to stressors when possible (set boundaries, delegate tasks), and build Resilience through consistent self-care practices (sleep, nutrition, movement, connection)."
  ]

  const AngerReplies: seq<string> := [
    "Anger is a natural emotion that signals something important to us feels threatened or unfair. When you feel anger rising, try the 'time out' method - remove yourself from the situation for 10-15 minutes to cool down before responding. This space can help you respond rather than react.",
    "Physical release can help with anger's energy. Try squeezing a stress ball, punching a pillow, or doing vigorous exercise like running or jumping jacks. The goal is to release the physical energy of anger in a safe way that doesn't harm yourself or others.",
    "Use 'I feel' statements to express anger constructively: 'I feel angry when... because... I would prefer...' This helps communicate your needs without blaming others and increases the chance of being understood."
  ]

  const LonelinessReplies: seq<string> := [
    "Feeling lonely can be incredibly painful, like there's an empty space where connection should be. Remember that loneliness is a common human experience, and it doesn't mean you're unlikeable or unworthy of connection. Many people feel lonely even when surrounded by others.",
    "Start with small social connections that feel manageable: Smile at a stranger, make brief eye contact with someone, send a simple 'thinking of you' text to an old friend, or leave a kind comment online. Small interactions can build momentum for larger connections.",
    "Consider joining online communities related to your interests - book clubs, gaming groups, hobby forums. Sometimes digital connections can be comfortable stepping stones to in-person relationships. What activities or topics genuinely interest you?"
  ]

  const SleepReplies: seq<string> := [
    "Sleep difficulties often accompany emotional struggles. Try establishing a 'wind down' routine 60 minutes before bed: dim lights, no screens, gentle stretching, reading a physical book, or listening to calm music. This signals to your brain that it's time to rest.",
    "If you can't sleep, instead of staying in bed frustrated, try the 15-minute rule: If you're not asleep after 15-20 minutes, get up, go to another room, do something calming in dim light (read, listen to soft music), then return to bed when you feel sleepy. This helps associate your bed with sleep rather than frustration.",
    "Practice the 4-7-8 breathing in bed: Inhale 4 seconds, hold 7, exhale 8. This triggers the relaxation response and can help quiet racing thoughts. Imagine your thoughts as clouds passing by - acknowledge them without holding on."
  ]

  const DefaultReplies: seq<string> := [
    "Thank you for sharing that with me. It takes courage to talk about these things. How has this been affecting your daily life and relationships?",
    "I appreciate you opening up. Mental health is a journey with both challenges and moments of growth. What kind of support would be most helpful for you right now - practical strategies, emotional validation, or something else?",
    "That sounds really difficult to navigate. Remember that reaching out for support is a sign of strength and self-awareness. What's one small thing that usually helps you feel even slightly better or more grounded?",
    "I'm listening carefully to what you're sharing. Sometimes just expressing our thoughts and feelings out loud can provide some relief and clarity. Would you like to explore this further together?",
    "Thank you for trusting me with this. Your feelings are valid and important. What would be most supportive for you in this moment - practical coping strategies, emotional support, or just having someone listen with care?",
    "I hear the pain and challenge in what you're sharing. It's okay to not have all the answers right now. What do you need most in this moment to feel supported and understood?",
    "You're dealing with a lot right now. Remember to be gentle with yourself - healing and growth aren't linear processes. What would feel like a kind, manageable step forward from here?"
  ]


  /** The replies a branch chooses from; the crisis branch has one. */
  function Responses(c: Category): (list: seq<string>)
    ensures |list| >= 1
  {
    match c
    case Crisis => [CrisisReply]
    case Greeting => GreetingReplies
    case Anxiety => AnxietyReplies
    case Depression => DepressionReplies
    case Stress => StressReplies
    case Anger => AngerReplies
    case Loneliness => LonelinessReplies
    case Sleep => SleepReplies
    case Default => DefaultReplies
  }

  /** The tests of `getEnhancedFallbackResponse` in order, each on the
      lower-cased message; crisis first, greeting second. */
  function ClientRules(): seq<Rule<Category>>
  {
    [ Rule(Crisis, [], ["suicide", "kill myself", "end it all", "want to die", "not worth living"]),
      Rule(Greeting, [], ["hello", "hi", "hey", "greetings"]),
      Rule(Anxiety, [], ["anxious", "anxiety", "nervous", "worried", "panic", "overthink"]),
      Rule(Depression, [], ["depress", "sad", "down", "hopeless", "empty", "miserable", "blue"]),
      Rule(Stress, [], ["stress", "overwhelm", "pressure", "burnout", "too much"]),
      Rule(Anger, [], ["angry", "mad", "furious", "rage", "annoyed", "frustrated"]),
      Rule(Loneliness, [], ["lonely", "alone", "isolated", "no friends", "no one cares"]),
      Rule(Sleep, [], ["can't sleep", "insomnia", "tired", "exhausted", "sleep problem", "awake"])
    ]
  }

  function FallbackCategory(message: string): Category
  {
    FirstMatch(ClientRules(), Default, "", Lower(message))
  }

  /** The reply `getEnhancedFallbackResponse` evidently intends: a uniform
      pick, with `u` standing for `Math.random()`, from the list of the
      branch the message selects. */
  function EnhancedFallback(message: string, u: Draw): (r: string)
    ensures r in Responses(FallbackCategory(message))
  {
    Pick(Responses(FallbackCategory(message)), u)
  }

  /** `getEnhancedFallbackResponse` as written. The stress branch scales the
      draw by `depressionResponses.length`, but that constant is declared
      inside the depression branch's block, so the stress branch throws a
      `ReferenceError` instead of answering (`None`). Every other branch
      answers as intended. */
  function FallbackAsWritten(message: string, u: Draw): (r: Option<string>)
    ensures r.None? <==> FallbackCategory(message) == Stress
    ensures r.Some? ==> r.value == EnhancedFallback(message, u) && r.value in Responses(FallbackCategory(message))
  {
    if FallbackCategory(message) == Stress then None else Some(EnhancedFallback(message, u))
  }

  /** The fallback with the stress branch repaired: it always answers. */
  function RepairedFallback(message: string, u: Draw): Option<string>
  {
    Some(EnhancedFallback(message, u))
  }

  /** The two natural repairs agree: scaling by the stress list's own length
      (the intended definition) and making the depression list visible to
      the stress branch pick the same reply, because the lists have the same
      length. */
  lemma EitherRepairAgrees(message: string, u: Draw)
    requires FallbackCategory(message) == Stress
    ensures |Responses(Depression)| == |Responses(Stress)|
    ensures EnhancedFallback(message, u) == StressReplies[PickIndex(|DepressionReplies|, u)]
  {
  }

  /** A crisis phrase always gets the fixed helpline text, whatever else the
      message holds. */
  lemma CrisisPhraseGetsHelpline(message: string, k: int)
    requires 0 <= k < |ClientRules()[0].messageWords|
    requires Contains(Lower(message), ClientRules()[0].messageWords[k])
    ensures FallbackCategory(message) == Crisis
    ensures EnhancedFallback(message, 0.0) == CrisisReply
  {
    ContainsAnyAt(Lower(message), ClientRules()[0].messageWords, k);
    FirstFiringDecides(ClientRules(), Default, "", Lower(message), 0);
  }

  /** The greeting test comes second and has no history condition: without a
      crisis phrase, "hi" anywhere in the message gives a greeting. */
  lemma HiAnywhereIsAGreeting(message: string)
    requires !ContainsAny(Lower(message), ClientRules()[0].messageWords)
    requires Contains(Lower(message), "hi")
    ensures FallbackCategory(message) == Greeting
  {
    ContainsAnyAt(Lower(message), ClientRules()[1].messageWords, 1);
    FirstFiringDecides(ClientRules(), Default, "", Lower(message), 1);
  }

  /** The default replies are used exactly when no test matches. */
  lemma DefaultWhenNothingMatches(message: string)
    ensures FallbackCategory(message) == Default <==>
              forall k :: 0 <= k < |ClientRules()| ==> !Fires(ClientRules()[k], "", Lower(message))
    ensures FallbackCategory(message) == Default ==> EnhancedFallback(message, 0.0) == DefaultReplies[0]
  {
    var rules := ClientRules();
    forall k | 0 <= k < |rules| ensures rules[k].topic != Default {
      assert k in {0, 1, 2, 3, 4, 5, 6, 7};
    }
  }

  datatype Sender = User | Bot

  /** A bubble of the message list; ids, timestamps and the `type` tag are not modelled. */
  datatype ChatMessage = ChatMessage(text: string, sender: Sender)

  datatype Role = UserRole | Assistant

  /** An entry of the conversation history sent to the server. */
  datatype Turn = Turn(role: Role, content: string)

  /** The greeting the message list starts with. */
  const Welcome: string :=
    "Hello! I'm your MindCare AI assistant, trained in mental health support. I'm here to listen, provide emotional support, and offer evidence-based coping strategies. How are you feeling today?"

  /** The history alternates user and assistant turns, starting with the user. */
  predicate Paired(history: seq<Turn>)
  {
    |history| % 2 == 0 &&
    forall i :: 0 <= i < |history| ==> history[i].role == (if i % 2 == 0 then UserRole else Assistant)
  }

  /** The bot bubble a finished request adds: one bubble with the answer, or
      none when `getAIResponse` rejected and the handler stopped. */
  function BotBubbles(answer: Option<string>): seq<ChatMessage>
  {
    if answer.Some? then [ChatMessage(answer.value, Bot)] else []
  }

  /** The state of the `Chatbot` component. `fallback` is the page's
      `getEnhancedFallbackResponse`, fixed when the page is built; `None`
      stands for a fallback that throws. */
  class ChatbotPage {
    var messages: seq<ChatMessage>
    var inputMessage: string
    var conversationStarted: bool
    var error: string
    var conversationHistory: seq<Turn>
    const fallback: (string, Draw) -> Option<string>

    /** The list is never empty (it starts with the welcome bubble) and the
        history holds whole user/assistant pairs. */
    predicate Valid()
      reads this
    {
      |messages| >= 1 && messages[0] == ChatMessage(Welcome, Bot) && Paired(conversationHistory)
    }

    /** The page as written. */
    constructor ()
      ensures Valid()
      ensures fallback == FallbackAsWritten
      ensures messages == [ChatMessage(Welcome, Bot)]
      ensures inputMessage == "" && !conversationStarted && error == "" && conversationHistory == []
    {
      fallback := FallbackAsWritten;
      messages := [ChatMessage(Welcome, Bot)];
      inputMessage := "";
      conversationStarted := false;
      error := "";
      conversationHistory := [];
    }

    /** The page with the stress branch of its fallback repaired. */
    constructor Repaired()
      ensures Valid()
      ensures fallback == RepairedFallback
      ensures messages == [ChatMessage(Welcome, Bot)]
      ensures inputMessage == "" && !conversationStarted && error == "" && conversationHistory == []
    {
      fallback := RepairedFallback;
      messages := [ChatMessage(Welcome, Bot)];
      inputMessage := "";
      conversationStarted := false;
      error := "";
      conversationHistory := [];
    }

    /** The turns a request adds to the history: the user's message and the
        assistant's reply after a success, nothing after a failure. */
    function Exchange(message: string, reply: Option<string>): seq<Turn>
    {
      if reply.Some? then [Turn(UserRole, message), Turn(Assistant, reply.value)] else []
    }

    /** The error banner after a request: cleared on success, the connection
        notice on failure (set before the fallback runs, so also when it
        throws). */
    function ErrorAfter(reply: Option<string>): string
    {
      if reply.Some? then "" else "Connection issue - using enhanced responses"
    }

    /** What `getAIResponse` settles with: the server's reply when there is
        one, the page's own fallback otherwise; `None` when it rejects. */
    function Answer(message: string, reply: Option<string>, u: Draw): Option<string>
      reads this
    {
      if reply.Some? then reply else fallback(message, u)
    }

    /** `getAIResponse(userMessage)`: `reply` is the server's answer when the
        request succeeded with `success: true`, `None` for any failure. The
        result is `None` when the returned promise rejects, which only a
        throwing fallback after a failed request can cause. */
    method GetAIResponse(userMessage: string, reply: Option<string>, u: Draw) returns (text: Option<string>)
      requires Valid()
      modifies this
      ensures Valid()
      ensures text == Answer(userMessage, reply, u)
      ensures reply.Some? ==> text == reply
      ensures text.None? ==> reply.None?
      ensures reply.Some? ==>
                error == "" &&
                conversationHistory == old(conversationHistory) + [Turn(UserRole, userMessage), Turn(Assistant, reply.value)]
      ensures reply.None? ==>
                error == "Connection issue - using enhanced responses" &&
                conversationHistory == old(conversationHistory)
      ensures messages == old(messages) && inputMessage == old(inputMessage)
      ensures conversationStarted == old(conversationStarted)
    {
      error := "";
      match reply
      case Some(response) =>
        conversationHistory := conversationHistory + [Turn(UserRole, userMessage), Turn(Assistant, response)];
        text := reply;
      case None =>
        error := "Connection issue - using enhanced responses";
        text := fallback(userMessage, u);
    }

    /** `handleSendMessage`: blank input is ignored; otherwise the input goes
        out as a user bubble and the box is cleared; the reply follows as a
        bot bubble unless `getAIResponse` rejects, which ends the handler. */
    method HandleSendMessage(reply: Option<string>, u: Draw)
      requires Valid()
      modifies this
      ensures Valid()
      ensures IsBlank(old(inputMessage)) ==>
                messages == old(messages) && conversationHistory == old(conversationHistory) &&
                inputMessage == old(inputMessage) && conversationStarted == old(conversationStarted) &&
                error == old(error)
      ensures !IsBlank(old(inputMessage)) ==>
                messages == old(messages) + [ChatMessage(old(inputMessage), User)] +
                            BotBubbles(Answer(old(inputMessage), reply, u)) &&
                inputMessage == "" && conversationStarted
      ensures !IsBlank(old(inputMessage)) ==>
                conversationHistory == old(conversationHistory) + Exchange(old(inputMessage), reply) &&
                error == ErrorAfter(reply)
    {
      if IsBlank(inputMessage) {
        return;
      }
      var sent := inputMessage;
      messages := messages + [ChatMessage(sent, User)];
      inputMessage := "";
      conversationStarted := true;
      var answer := GetAIResponse(sent, reply, u);
      if answer.None? {
        return;
      }
      messages := messages + [ChatMessage(answer.value, Bot)];
    }

    /** `handleQuickAction`: the same exchange for a canned prompt, with no
        blank check and no change to the input box. */
    method HandleQuickAction(action: string, reply: Option<string>, u: Draw)
      requires Valid()
      modifies this
      ensures Valid()
      ensures messages == old(messages) + [ChatMessage(action, User)] + BotBubbles(Answer(action, reply, u))
      ensures inputMessage == old(inputMessage) && conversationStarted
      ensures conversationHistory == old(conversationHistory) + Exchange(action, reply)
      ensures error == ErrorAfter(reply)
    {
      messages := messages + [ChatMessage(action, User)];
      conversationStarted := true;
      var answer := GetAIResponse(action, reply, u);
      if answer.None? {
        return;
      }
      messages := messages + [ChatMessage(answer.value, Bot)];
    }
  }

  /** On the page as written, a failed request shows the enhanced fallback
      for every message except one that selects the stress branch, which
      gets no answer at all. */
  lemma FailedRequestShowsFallback(page: ChatbotPage, message: string, u: Draw)
    requires page.fallback == FallbackAsWritten
    ensures FallbackCategory(message) != Stress ==>
              page.Answer(message, None, u) == Some(EnhancedFallback(message, u)) &&
              EnhancedFallback(message, u) in Responses(FallbackCategory(message))
    ensures FallbackCategory(message) == Stress ==> page.Answer(message, None, u) == None
  {
  }

  /** The quick-action prompt of that name. */
  const OverwhelmedAction: string := "I'm feeling overwhelmed"

  /** The quick action "I'm feeling overwhelmed" selects the stress branch,
      so with the server unreachable the page as written shows the user's
      bubble and then nothing: `getAIResponse` rejects. */
  lemma OverwhelmedGoesUnanswered(page: ChatbotPage, u: Draw)
    requires page.fallback == FallbackAsWritten
    ensures FallbackCategory(OverwhelmedAction) == Stress
    ensures page.Answer(OverwhelmedAction, None, u) == None
    ensures BotBubbles(page.Answer(OverwhelmedAction, None, u)) == []
  {
    OverwhelmedIsStress();
  }

  lemma OverwhelmedIsStress()
    ensures FallbackCategory(OverwhelmedAction) == Stress
  {
    var m := Lower(OverwhelmedAction);
    OverwhelmedLower();
    OverwhelmedFacts(m);
    FirstFiringDecides(ClientRules(), Default, "", m, 4);
  }

  lemma OverwhelmedLower()
    ensures Lower(OverwhelmedAction) == OverwhelmedLowered
  {
    var a, b, c := "I'm ", "feeling ", "overwhelmed";
    assert a + b + c == OverwhelmedAction;
    LowerConcat(a + b, c);
    LowerConcat(a, b);
    assert Lower(a) == "i'm ";
    assert Lower(b) == b;
    assert Lower(c) == c;
    assert "i'm " + b + c == OverwhelmedLowered;
  }

  const OverwhelmedLowered: string := "i'm feeling overwhelmed"

  lemma OverwhelmedFacts(m: string)
    requires m == OverwhelmedLowered
    ensures FirstFiring(ClientRules(), 4, "", m)
  {
    var rules := ClientRules();
    OverwhelmedNotCrisis(m);
    OverwhelmedNotGreeting(m);
    OverwhelmedNotAnxiety(m);
    OverwhelmedNotDepression(m);
    assert MatchesAt(m, "overwhelm", 12);
    ContainsAnyAt(m, rules[4].messageWords, 1);
    forall j | 0 <= j < 4 ensures !Fires(rules[j], "", m) {
      assert j in {0, 1, 2, 3};
    }
  }

  lemma OverwhelmedNotCrisis(m: string)
    requires m == OverwhelmedLowered
    ensures !ContainsAny(m, ClientRules()[0].messageWords)
  {
    NotContainsChar(m, "suicide", 0);
    NotContainsChar(m, "kill myself", 0);
    NotContainsChar(m, "end it all", 5);
    NotContainsChar(m, "want to die", 1);
    NotContainsChar(m, "not worth living", 2);
  }

  lemma OverwhelmedNotGreeting(m: string)
    requires m == OverwhelmedLowered
    ensures !ContainsAny(m, ClientRules()[1].messageWords)
  {
    OverwhelmedPairs(m);
    NotContainsPair(m, "hello", 3);
    NotContainsPair(m, "hi", 0);
    NotContainsChar(m, "hey", 2);
    NotContainsChar(m, "greetings", 4);
  }

  lemma OverwhelmedNotAnxiety(m: string)
    requires m == OverwhelmedLowered
    ensures !ContainsAny(m, ClientRules()[2].messageWords)
  {
    OverwhelmedPairs(m);
    NotContainsChar(m, "anxious", 0);
    NotContainsChar(m, "anxiety", 0);
    NotContainsChar(m, "nervous", 5);
    NotContainsPair(m, "worried", 0);
    NotContainsChar(m, "panic", 0);
    NotContainsChar(m, "overthink", 4);
  }

  lemma OverwhelmedNotDepression(m: string)
    requires m == OverwhelmedLowered
    ensures !ContainsAny(m, ClientRules()[3].messageWords)
  {
    OverwhelmedPairs(m);
    NotContainsChar(m, "depress", 2);
    NotContainsChar(m, "sad", 0);
    NotContainsPair(m, "down", 0);
    NotContainsChar(m, "hopeless", 2);
    NotContainsChar(m, "empty", 2);
    NotContainsChar(m, "miserable", 2);
    NotContainsChar(m, "blue", 0);
  }

  /** The neighbouring pairs "lo", "hi", "wo" and "do" never occur. */
  lemma OverwhelmedPairs(m: string)
    requires m == OverwhelmedLowered
    ensures forall i :: 0 <= i && i + 1 < |m| ==> !(m[i] == 'l' && m[i + 1] == 'o')
    ensures forall i :: 0 <= i && i + 1 < |m| ==> !(m[i] == 'h' && m[i + 1] == 'i')
    ensures forall i :: 0 <= i && i + 1 < |m| ==> !(m[i] == 'w' && m[i + 1] == 'o')
    ensures forall i :: 0 <= i && i + 1 < |m| ==> !(m[i] == 'd' && m[i + 1] == 'o')
  {
    forall i | 0 <= i && i + 1 < |m|
      ensures !(m[i] == 'l' && m[i + 1] == 'o') && !(m[i] == 'h' && m[i + 1] == 'i')
      ensures !(m[i] == 'w' && m[i + 1] == 'o') && !(m[i] == 'd' && m[i + 1] == 'o')
    {
      assert i in {0, 1, 2, 3, 4, 5, 6, 7, 8, 9, 10, 11, 12, 13, 14, 15, 16, 17, 18, 19, 20, 21};
    }
  }

  /** On the repaired page, a failed request always gets an answer: the
      branch's own reply list, picked uniformly; the overwhelmed prompt gets
      a stress reply. */
  lemma RepairedPageAlwaysAnswers(page: ChatbotPage, message: string, u: Draw)
    requires page.fallback == RepairedFallback
    ensures page.Answer(message, None, u).Some?
    ensures page.Answer(message, None, u).value in Responses(FallbackCategory(message))
    ensures page.Answer(OverwhelmedAction, None, u).value in StressReplies
  {
    OverwhelmedIsStress();
  }
}
