/** The reply engine of the chat route (backend/routes/chatbot.js): a fixed
    table of replies per category, a keyword classifier that looks at the
    message and at the last four history entries, and the `POST /message`
    guard around it. */
module ChatbotRoute {
  import opened Text
  import opened Selection
  import opened RuleChain
  import opened Wrappers

  /** The keys of the `aiResponses` table. */
  datatype Category =
    | Greetings | Anxiety | Depression | Stress | Anger | Loneliness | Sleep
    | Motivation | SelfEsteem | Relationships | Crisis | GeneralSupport

  /** The entries of the `aiResponses` table. */
  const GreetingsReplies: seq<string> := [
    "Hello! I'm your MindCare AI assistant. I'm trained to provide mental health support, coping strategies, and empathetic listening. How are you feeling right now?",
    "Welcome to MindCare! I'm here to offer emotional support and evidence-based mental health guidance. Whatever you're experiencing, I'll listen without judgment and help you find ways forward.",
    "Hi there! I'm your mental wellness companion. Whether you need someone to talk to, practical coping techniques, or just a moment of calm understanding, I'm here for you."
  ]

  const AnxietyReplies: seq<string> := [
    "I understand anxiety can feel overwhelming, like you're carrying a heavy weight. Let's try the 5-4-3-2-1 grounding technique together: Look around and name 5 things you can see, 4 things you can touch, 3 things you can hear, 2 things you can smell, and 1 thing you can taste. This sensory awareness can help bring you back to the present moment when worries feel too big.",
    "When anxiety strikes, remember the 4-7-8 breathing technique: Inhale quietly through your nose for 4 seconds, hold your breath for 7 seconds, and exhale completely through your mouth for 8 seconds. Repeat this 3-4 times. This activates your parasympathetic nervous system, signaling safety to your body and calming the fight-or-flight response.",
    "Anxiety often comes from worrying about future possibilities. Try this perspective shift: Ask yourself 'What's actually happening right now?' rather than 'What might happen?' Focus on the present reality, not future scenarios. What's one small, manageable thing you can do right now to feel even 1% more grounded?"
  ]

  const DepressionReplies: seq<string> := [
    "I hear you're going through a difficult time. Depression can make everything feel heavy and overwhelming, like moving through thick fog. Remember that your feelings are valid, and even small accomplishments like getting out of bed, brushing your teeth, or drinking water are meaningful steps worth acknowledging.",
    "When depression makes motivation feel impossible, try the 'five-minute rule': Commit to an activity for just five minutes. Often, starting is the hardest part. If after five minutes you want to stop, that's completely okay - you've already accomplished something significant. If you continue, that's a bonus. This approach respects your energy levels while building gentle momentum.",
    "You're not alone in this struggle. Many people experience depression, and it's okay to not be okay. The fact that you're reaching out shows incredible strength and self-awareness. Consider reaching out to trusted friends, family, or mental health professionals for additional support. Sometimes sharing the emotional load makes it easier to carry."
  ]

  const StressReplies: seq<string> := [
    "Stress can really accumulate and affect both mind and body. Let's try progressive muscle relaxation: Tense each muscle group for 5 seconds, then release completely. Start from your toes and work upward - feet, calves, thighs, glutes, stomach, hands, arms, shoulders, neck, and face. Notice the difference between tension and relaxation in each area. This practice helps release physical stress stored in the body.",
    "When stress builds up, sometimes externalizing it can help. Try the 'circle of control' exercise: Draw two circles. In the inner circle, list things you can control (your reactions, self-care, boundaries, effort). In the outer circle, list things you can't control (others' actions, past events, certain outcomes). Focus your energy on the inner circle where you have actual influence and let go of what's outside your control.",
    "Remember the three R's of stress management: Recognize your stress signals early (irritability, fatigue, muscle tension, sleep changes), Reduce your exposure to stressors when possible (set boundaries, delegate tasks, say no), and build Resilience through consistent self-care practices (adequate sleep, balanced nutrition, regular movement, social connection)."
  ]

  const AngerReplies: seq<string> := [
    "Anger is a natural emotion that signals something important to us feels threatened or unfair. When you feel anger rising, try the 'time out' method - remove yourself from the situation for 10-15 minutes to cool down before responding. Use this time to breathe, walk, or splash cold water on your face. This space can help you respond thoughtfully rather than react impulsively.",
    "Physical release can help with anger's intense energy. Try squeezing a stress ball, punching a pillow, or doing vigorous exercise like running, jumping jacks, or dancing. The goal is to release the physical energy of anger in a safe way that doesn't harm yourself or others. Afterwards, you can address the situation more calmly.",
    "Use 'I feel' statements to express anger constructively: 'I feel angry when... because... I would prefer...' This framework helps communicate your needs and boundaries without blaming others, which increases the chance of being understood and finding resolution."
  ]

  const LonelinessReplies: seq<string> := [
    "Feeling lonely can be incredibly painful, like there's an empty space where connection should be. Remember that loneliness is a common human experience, and it doesn't mean you're unlikeable or unworthy of connection. Many people feel lonely even when surrounded by others - it's about the quality, not just quantity, of connections.",
    "Start with small social connections that feel manageable: Smile at a stranger, make brief eye contact with someone, send a simple 'thinking of you' text to an old friend, or leave a kind comment online. Small, low-pressure interactions can build momentum and confidence for larger connections over time.",
    "Consider joining online communities related to your genuine interests - book clubs, gaming groups, hobby forums, or support groups. Sometimes digital connections can be comfortable stepping stones to in-person relationships. What activities or topics have you enjoyed in the past?"
  ]

  const SleepReplies: seq<string> := [
    "Sleep difficulties often accompany emotional struggles. Try establishing a consistent 'wind down' routine 60 minutes before bed: dim lights, no screens, gentle stretching, reading a physical book, listening to calm music, or taking a warm bath. This signals to your brain that it's time to shift from doing mode to resting mode.",
    "If you can't sleep, instead of staying in bed frustrated, try the 15-minute rule: If you're not asleep after 15-20 minutes, get up, go to another room, do something calming in dim light (read, listen to soft music, gentle stretching), then return to bed when you feel sleepy. This helps associate your bed with sleep rather than frustration and wakefulness.",
    "Practice the 4-7-8 breathing technique in bed: Inhale through your nose for 4 seconds, hold for 7 seconds, exhale through your mouth for 8 seconds. This triggers the relaxation response and can help quiet racing thoughts. Imagine your thoughts as clouds passing by - acknowledge them without holding on or following them."
  ]

  const MotivationReplies: seq<string> := [
    "When motivation feels elusive, focus on 'activation' rather than motivation. Action often comes before feeling motivated. What's one tiny step you could take right now? Even opening a document, putting on workout clothes, or gathering materials counts as progress.",
    "Use the 'two-minute rule' - if a task takes less than two minutes, do it immediately. This builds momentum and creates small wins. For larger tasks, break them into 'micro-tasks' - instead of 'clean kitchen', try 'put away 5 items' or 'wipe one counter'. Small completions create a sense of accomplishment.",
    "Connect tasks to your values and 'why'. Instead of 'I should exercise', try 'I'm moving my body because I value health and feeling energized'. Or instead of 'I have to work', try 'I'm taking this step toward my goals because I value growth and contribution'. Connecting to deeper meaning can reignite motivation."
  ]

  const SelfEsteemReplies: seq<string> := [
    "Low self-esteem often comes from focusing on perceived flaws while overlooking strengths. Try the 'three good things' exercise: Each day, write down three things you did well or handled effectively, no matter how small. This practice gradually shifts focus toward your capabilities and positive qualities.",
    "Practice replacing harsh self-criticism with compassionate self-talk. When you notice negative self-talk, ask 'Would I say this to a friend I care about?' If not, rephrase it with the same kindness and understanding you'd offer someone you love. You deserve that same compassion.",
    "Create an 'accomplishment jar' - write down small achievements, positive moments, and things you're proud of on slips of paper. When you need a self-esteem boost, read through them. This tangible reminder of your strengths and progress can be powerfully affirming."
  ]

  const RelationshipsReplies: seq<string> := [
    "Healthy communication involves both expressing yourself clearly and listening to understand. Practice active listening - focus completely on understanding the other person's perspective and feelings before formulating your response. This builds trust and mutual understanding.",
    "Setting clear boundaries is essential for healthy relationships. Identify what you're comfortable with and communicate it respectfully using 'I' statements: 'I feel uncomfortable when... I would prefer...' or 'I need... to feel respected in this relationship.' Boundaries protect your wellbeing while maintaining connection.",
    "Practice empathy by genuinely trying to understand the other person's feelings and perspective, even when you disagree. This doesn't mean abandoning your own needs or boundaries. Empathy helps de-escalate conflicts and find common ground while honoring both people's experiences."
  ]

  const CrisisReplies: seq<string> := [
    "I'm very concerned about what you're sharing. Your safety is the most important thing right now. Please reach out to emergency services or a crisis helpline immediately. In India, you can call Vandrevala Foundation at 1860-2662-345 or the national emergency number 112. You don't have to face this alone - there are people trained to help right now.",
    "This sounds very serious, and I want to make sure you get proper support immediately. Please contact emergency services or a crisis helpline right away. Your life matters, and there are people who can help you through this difficult time. You deserve support and care.",
    "I'm deeply concerned about your safety. Please connect with emergency services or a crisis support line immediately - they're specifically trained to help in situations like this. Your wellbeing is crucial, and professional support is available right now."
  ]

  const GeneralSupportReplies: seq<string> := [
    "Thank you for sharing that with me. It takes courage to talk about these things, and I appreciate you trusting me. How has this been affecting your daily life and overall sense of wellbeing?",
    "I appreciate you opening up about this. Mental health journeys often have both challenges and moments of growth - what you're experiencing is valid and understandable. What kind of support would feel most helpful for you right now?",
    "That sounds really challenging to navigate. Remember that seeking support and talking about difficult experiences shows strength and self-awareness, not weakness. What's one small thing that usually helps you feel even slightly more grounded or comforted?",
    "I'm listening carefully to what you're sharing. Sometimes just expressing our thoughts and feelings out loud can provide some relief and clarity. Would you like to explore this further together, or would you prefer some specific coping strategies right now?",
    "Thank you for trusting me with this. Your feelings matter, and whatever you're experiencing is valid. What would be most supportive for you in this moment - practical strategies, emotional validation, space to process, or something else entirely?",
    "I hear the difficulty and pain in what you're sharing. It's okay to not have all the answers or know exactly what you need right now. What do you think might help you feel even a little bit supported or understood in this moment?",
    "You're dealing with a lot right now. Remember to be gentle with yourself - healing and growth aren't linear processes, and it's okay to have difficult days. What would feel like a kind, manageable step forward from where you are right now?"
  ]


  /** `aiResponses[c]`: the replies the route may answer with for a category. */
  function Responses(c: Category): (list: seq<string>)
    ensures |list| >= 3
  {
    match c
    case Greetings => GreetingsReplies
    case Anxiety => AnxietyReplies
    case Depression => DepressionReplies
    case Stress => StressReplies
    case Anger => AngerReplies
    case Loneliness => LonelinessReplies
    case Sleep => SleepReplies
    case Motivation => MotivationReplies
    case SelfEsteem => SelfEsteemReplies
    case Relationships => RelationshipsReplies
    case Crisis => CrisisReplies
    case GeneralSupport => GeneralSupportReplies
  }

  /** The crisis pattern, tested first. */
  function CrisisWords(): seq<string>
  {
    ["suicide", "kill myself", "end it all", "want to die", "not worth living", "harm myself", "ending it"]
  }

  /** The greeting pattern, honoured only at the start of a conversation. */
  function GreetingWords(): seq<string>
  {
    ["hello", "hi", "hey", "greetings", "good morning", "good afternoon"]
  }

  /** The topic rules in the order they are tried: the words looked for in the
      recent context, then the alternatives of the pattern tested on the message. */
  function TopicRules(): seq<Rule<Category>>
  {
    [ Rule(Anxiety, ["anxious", "worry", "panic"],
           ["anxious", "anxiety", "nervous", "worried", "panic", "overwhelmed", "scared", "fear", "overthink"]),
      Rule(Depression, ["depress", "sad", "hopeless"],
           ["depress", "sad", "down", "hopeless", "empty", "miserable", "blue", "unhappy", "worthless"]),
      Rule(Stress, ["stress", "overwhelm", "pressure"],
           ["stress", "overwhelm", "pressure", "burnout", "too much", "can't handle", "exhausted"]),
      Rule(Anger, ["angry", "mad", "frustrat"],
           ["angry", "mad", "furious", "rage", "annoyed", "frustrated", "pissed", "irritated"]),
      Rule(Loneliness, ["lonely", "alone", "isolated"],
           ["lonely", "alone", "isolated", "no friends", "no one cares", " disconnected"]),
      Rule(Sleep, ["sleep", "tired", "insomnia"],
           ["can't sleep", "insomnia", "tired", "exhausted", "sleep problem", "awake", "wake up"]),
      Rule(Motivation, ["motivat", "procrastinate", "stuck"],
           ["motivat", "procrastinat", "lazy", "unproductive", "can't start", "no energy", "stuck"]),
      Rule(SelfEsteem, ["self-esteem", "confidence", "worth"],
           ["ugly", "stupid", "worthless", "not good enough", "hate myself", "low confidence", "inadequate"]),
      Rule(Relationships, ["relationship", "friend", "partner"],
           ["relationship", "friend", "partner", "family", "communication", "argument", "fight", "conflict"])
    ]
  }

  /** The recent context: the last four history entries joined by a space and
      lower-cased. */
  function Context(history: seq<string>): string
  {
    Lower(Join(TakeLast(history, 4), " "))
  }

  /** The category `getAIResponse` answers from. */
  function Classify(message: string, history: seq<string>): Category
  {
    var m := Lower(message);
    if ContainsAny(m, CrisisWords()) then Crisis
    else if ContainsAny(m, GreetingWords()) && |history| < 2 then Greetings
    else FirstMatch(TopicRules(), GeneralSupport, Context(history), m)
  }

  /** `getAIResponse(message, history)`, with `u` standing for `Math.random()`. */
  function GetAIResponse(message: string, history: seq<string>, u: Draw): (r: string)
    ensures r in Responses(Classify(message, history))
  {
    Pick(Responses(Classify(message, history)), u)
  }

  /** The topic rules never answer with a crisis or a greeting reply. */
  lemma TopicChainCategory(context: string, message: string)
    ensures FirstMatch(TopicRules(), GeneralSupport, context, message) !in {Crisis, Greetings}
  {
    var rules := TopicRules();
    forall k | 0 <= k < |rules| ensures rules[k].topic !in {Crisis, Greetings} {
      assert k in {0, 1, 2, 3, 4, 5, 6, 7, 8};
    }
  }

  /** The crisis reply is chosen exactly when the message holds a crisis phrase;
      the history plays no part in it. */
  lemma CrisisExactlyOnCrisisWords(message: string, history: seq<string>)
    ensures Classify(message, history) == Crisis <==> ContainsAny(Lower(message), CrisisWords())
  {
    TopicChainCategory(Context(history), Lower(message));
  }

  /** A greeting reply is chosen exactly for a greeting without crisis words at
      the start of a conversation (fewer than two history entries). */
  lemma GreetingGate(message: string, history: seq<string>)
    ensures Classify(message, history) == Greetings <==>
              !ContainsAny(Lower(message), CrisisWords()) &&
              ContainsAny(Lower(message), GreetingWords()) && |history| < 2
  {
    TopicChainCategory(Context(history), Lower(message));
  }

  /** Without crisis words, and past the greeting gate, the topic rules decide. */
  lemma TopicRulesDecide(message: string, history: seq<string>)
    requires !ContainsAny(Lower(message), CrisisWords())
    requires !ContainsAny(Lower(message), GreetingWords()) || |history| >= 2
    ensures Classify(message, history) == FirstMatch(TopicRules(), GeneralSupport, Context(history), Lower(message))
  {
  }

  /** Only the last four history entries matter: what came before them never
      changes the category. */
  lemma OnlyLastFourEntriesCount(message: string, older1: seq<string>, older2: seq<string>, recent: seq<string>)
    requires |recent| >= 4
    ensures Classify(message, older1 + recent) == Classify(message, older2 + recent)
  {
    assert TakeLast(older1 + recent, 4) == recent[|recent| - 4..];
    assert TakeLast(older2 + recent, 4) == recent[|recent| - 4..];
  }

  /** A context keyword in one of the last four entries selects its topic even
      when the message holds a keyword of a later rule: "worry" in the recent
      history gives an anxiety reply. */
  lemma ContextWorrySelectsAnxiety(message: string, history: seq<string>, j: int)
    requires !ContainsAny(Lower(message), CrisisWords())
    requires !ContainsAny(Lower(message), GreetingWords()) || |history| >= 2
    requires |history| - 4 <= j < |history| && 0 <= j
    requires Contains(Lower(history[j]), "worry")
    ensures Classify(message, history) == Anxiety
  {
    var recent := TakeLast(history, 4);
    var i := j - (|history| - |recent|);
    assert recent[i] == history[j];
    JoinInfix(recent, " ", i);
    var x, y :| Join(recent, " ") == x + recent[i] + y;
    LowerInfix(x, recent[i], y, "worry");
    ContainsAnyAt(Context(history), TopicRules()[0].contextWords, 1);
    FirstFiringDecides(TopicRules(), GeneralSupport, Context(history), Lower(message), 0);
  }

  /** The stress rule comes before the sleep rule, so "exhausted" never gets a
      sleep reply. */
  lemma ExhaustedIsNeverSleep(message: string, history: seq<string>)
    requires Contains(Lower(message), "exhausted")
    ensures Classify(message, history) != Sleep
  {
    var rules := TopicRules();
    var m := Lower(message);
    if !ContainsAny(m, CrisisWords()) && !(ContainsAny(m, GreetingWords()) && |history| < 2) {
      ContainsAnyAt(m, rules[2].messageWords, 6);
      FiringShadowsLater(rules, GeneralSupport, Context(history), m, 2);
    }
  }

  /** The depression rule comes before the self-esteem rule, so "worthless"
      never gets a self-esteem reply. */
  lemma WorthlessIsNeverSelfEsteem(message: string, history: seq<string>)
    requires Contains(Lower(message), "worthless")
    ensures Classify(message, history) != SelfEsteem
  {
    var rules := TopicRules();
    var m := Lower(message);
    if !ContainsAny(m, CrisisWords()) && !(ContainsAny(m, GreetingWords()) && |history| < 2) {
      ContainsAnyAt(m, rules[1].messageWords, 8);
      FiringShadowsLater(rules, GeneralSupport, Context(history), m, 1);
    }
  }

  /** The general replies are the answer exactly when no rule applies. */
  lemma GeneralSupportWhenNothingMatches(message: string, history: seq<string>)
    ensures Classify(message, history) == GeneralSupport <==>
              !ContainsAny(Lower(message), CrisisWords()) &&
              !(ContainsAny(Lower(message), GreetingWords()) && |history| < 2) &&
              forall k :: 0 <= k < |TopicRules()| ==> !Fires(TopicRules()[k], Context(history), Lower(message))
  {
    var rules := TopicRules();
    forall k | 0 <= k < |rules| ensures rules[k].topic != GeneralSupport {
      assert k in {0, 1, 2, 3, 4, 5, 6, 7, 8};
    }
  }

  /** Matching is plain substring search on the lower-cased message: the "hi"
      inside "think" makes this message a greeting in a new conversation. */
  lemma ThinkIsAGreeting()
    ensures Classify("I think I'm anxious", []) == Greetings
  {
    var m := Lower("I think I'm anxious");
    assert m == "i think i'm anxious";
    ThinkFacts(m);
  }

  lemma ThinkFacts(m: string)
    requires m == "i think i'm anxious"
    ensures !ContainsAny(m, CrisisWords()) && ContainsAny(m, GreetingWords())
  {
    NotContainsChar(m, "suicide", 3);
    NotContainsChar(m, "kill myself", 2);
    NotContainsChar(m, "end it all", 0);
    NotContainsChar(m, "want to die", 0);
    NotContainsChar(m, "not worth living", 4);
    NotContainsChar(m, "harm myself", 2);
    NotContainsChar(m, "ending it", 0);
    assert MatchesAt(m, "hi", 3);
    ContainsAnyAt(m, GreetingWords(), 1);
  }

  /** The same holds for "everything", which hides "hi": a first message
      about worrying gets a greeting, not an anxiety reply. */
  lemma EverythingIsAGreeting()
    ensures Classify("I can't stop worrying about everything", []) == Greetings
  {
    var a, b, c := "I can't stop ", "worrying ", "about everything";
    assert a + b + c == "I can't stop worrying about everything";
    LowerConcat(a + b, c);
    LowerConcat(a, b);
    EverythingFacts(Lower(a), Lower(b), Lower(c));
  }

  lemma EverythingFacts(a: string, b: string, c: string)
    requires a == "i can't stop " && b == "worrying " && c == "about everything"
    ensures !ContainsAny(a + b + c, CrisisWords()) && ContainsAny(a + b + c, GreetingWords())
  {
    var m := a + b + c;
    EverythingLacksLetters(a, b, c);
    NotContainsChar(m, "suicide", 5);
    NotContainsChar(m, "kill myself", 0);
    NotContainsChar(m, "end it all", 2);
    NotContainsChar(m, "want to die", 8);
    NotContainsChar(m, "not worth living", 10);
    NotContainsChar(m, "harm myself", 3);
    NotContainsChar(m, "ending it", 2);
    assert MatchesAt(c, "hi", 12);
    ContainsInfix(a + b, c, "", "hi");
    assert a + b + c + "" == m;
    ContainsAnyAt(m, GreetingWords(), 1);
  }

  lemma EverythingLacksLetters(a: string, b: string, c: string)
    requires a == "i can't stop " && b == "worrying " && c == "about everything"
    ensures forall x :: x in "dklm" ==> x !in a + b + c
  {
  }

  /** A crisis phrase wins over everything else in the message. */
  lemma EndItAllIsACrisis(history: seq<string>)
    ensures Classify("I want to end it all", history) == Crisis
  {
    var m := Lower("I want to end it all");
    assert m == "i want to end it all";
    assert MatchesAt(m, "end it all", 10);
    ContainsAnyAt(m, CrisisWords(), 2);
  }

  /** The body of a `POST /message` request. A `None` message is a missing or
      null field (both fail `!message`); a `None` history is a missing field,
      which the destructuring default turns into `[]`. */
  datatype Request = Request(message: Option<string>, conversationHistory: Option<seq<string>>)

  datatype Response =
    | BadRequest(error: string)
    | Reply(response: string)

  /** The `POST /message` handler: a missing or empty message is refused with
      400, anything else (white space included) is answered; a missing history
      counts as empty. */
  function PostMessage(req: Request, u: Draw): (r: Response)
    ensures r.BadRequest? <==> req.message == None || req.message == Some("")
    ensures r.BadRequest? ==> r.error == "Message is required"
    ensures r.Reply? ==>
              var history := if req.conversationHistory.Some? then req.conversationHistory.value else [];
              r.response in Responses(Classify(req.message.value, history))
  {
    if req.message == None || req.message == Some("") then BadRequest("Message is required")
    else
      var history := if req.conversationHistory.Some? then req.conversationHistory.value else [];
      Reply(GetAIResponse(req.message.value, history, u))
  }

  /** A message of white space only is not refused by this route. */
  lemma BlankMessageIsAnswered(u: Draw)
    ensures PostMessage(Request(Some("   "), None), u).Reply?
  {
  }
}
