/** The Express application (backend/server.js): the keyword fallback used
    when no language-model client answers, the `POST /api/chatbot/message`
    endpoint around it, and the input guards of the register, login and
    verify endpoints. The database, bcrypt and JWT calls are parameters. */
module ServerApp {
  import opened Text
  import opened Selection
  import opened RuleChain
  import opened Wrappers

  /** The keys of the `fallbackResponses` table. */
  datatype Category = Anxiety | Depression | Stress | Sleep | Motivation | General | Greetings

  /** The entries of the `fallbackResponses` table. */
  const AnxietyReplies: seq<string> := [
    "I understand you're feeling anxious. Let's try the 5-4-3-2-1 grounding technique together: \n\n🔹 **5 things you can see** (look around)\n🔹 **4 things you can touch** (feel textures)\n🔹 **3 things you can hear** (listen carefully)\n🔹 **2 things you can smell** (breathe deeply)\n🔹 **1 thing you can taste** (focus on taste)\n\nThis brings you back to the present moment. 🌟",
    "When anxiety strikes, try the **4-7-8 breathing technique**:\n\n🌬️ Inhale through your nose for 4 seconds\n⏳ Hold your breath for 7 seconds\n😮‍💨 Exhale through your mouth for 8 seconds\n\nRepeat this 4 times. This activates your body's relaxation response and calms your nervous system. 💫",
    "Anxiety often comes from worrying about the future. Let's practice **mindful grounding**:\n\n✨ Place both feet flat on the floor\n✨ Feel the connection with the ground\n✨ Notice your breath moving in and out\n✨ Name one safe thing in this moment\n\nYou are safe right here, right now. 🛡️"
  ]

  const DepressionReplies: seq<string> := [
    "I hear you're going through a difficult time. Depression can make everything feel heavy. Remember:\n\n🌱 Your feelings are valid\n🌱 This moment won't last forever\n🌱 Even small steps are victories\n🌱 You are stronger than you feel\n\nTry the **'five-minute rule'** today: just commit to one small activity for five minutes. 🕐",
    "When depression makes motivation hard, try **behavioral activation**:\n\n📝 Break tasks into tiny steps\n🎯 Focus on just starting, not finishing\n💖 Be gentle with yourself\n🌈 Celebrate small wins\n\nWhat's one tiny thing you could do in the next 10 minutes? 🌟",
    "You're not alone in this struggle. Many people experience depression, and it's okay to not be okay. \n\n**Self-care ideas for today**:\n\n☀️ Open a window for fresh air\n💧 Drink a glass of water\n📞 Text one trusted person\n🌿 Step outside for 2 minutes\n\nYou deserve care and support. 🤝"
  ]

  const StressReplies: seq<string> := [
    "Stress can really take a toll. Let's try **progressive muscle relaxation**:\n\n💪 Tense each muscle group for 5 seconds\n😌 Release completely and notice the difference\n🦶 Start from your toes up to your head\n🌊 Feel the wave of relaxation\n\nThis helps release physical tension. 🏖️",
    "When stress builds up, try the **'stress container' exercise**:\n\n📦 Imagine your stress as water in a container\n🚰 What small things can let some water out?\n⏰ Even 5 minutes of deep breathing helps\n🎨 Creative activities release pressure\n\nWhat's one small stress-reliever you could try? 💧",
    "Remember the **three R's of stress management**:\n\n🔍 **Recognize** your stress signals\n📉 **Reduce** exposure to stressors when possible\n💪 **Build Resilience** through self-care\n\nWhat's one boundary you could set today? 🛡️"
  ]

  const SleepReplies: seq<string> := [
    "Sleep issues are common with mental health challenges. Try the **10-3-2-1-0 method**:\n\n❌ No caffeine 10 hours before bed\n🍽️ No food/alcohol 3 hours before\n💼 No work 2 hours before\n📱 No screens 1 hour before\n⏰ No snooze button!\n\nYour brain needs rest to heal. 🌙",
    "For better sleep, create a **relaxing bedtime routine**:\n\n🛁 Warm bath or shower\n📖 Read a physical book\n🎵 Calming music or sounds\n🌿 Lavender or chamomile tea\n🧘 Gentle stretching\n\nYour body will learn to associate these with sleep. 🛌",
    "If you can't sleep, don't fight it. Try this:\n\n🛏️ Get up after 20 minutes\n📚 Do something calming (no screens)\n☕ Warm caffeine-free drink\n📝 Write down racing thoughts\n🔙 Return to bed when sleepy\n\nThe pressure to sleep can make it harder. Trust your body. 🌠"
  ]

  const MotivationReplies: seq<string> := [
    "Motivation comes and goes like the weather. Instead of waiting for motivation, try **tiny habits**:\n\n🎯 What's one thing you could do in 10 minutes?\n📈 Progress, not perfection\n🌟 Build momentum with small wins\n💫 Action often comes before motivation\n\nWhat's your 'one-inch picture frame' for today? 🖼️",
    "Break big tasks into **'one-inch picture frames'**:\n\n🔍 Instead of the whole project\n🎯 Focus on the very next small step\n🏆 Celebrate starting, not just finishing\n🌱 Small consistent actions build big results\n\nWhat's the smallest possible next step? 📝",
    "Remember your **'why'**. Reconnect with your deeper reasons:\n\n❤️ What matters most to you?\n🎯 How does this align with your values?\n🌟 What's the positive impact?\n💫 Let your purpose guide your actions\n\nYour 'why' can reignite motivation when willpower runs low. 🔥"
  ]

  const GeneralReplies: seq<string> := [
    "Thank you for sharing that with me. It takes courage to talk about mental health. \n\n**Questions to reflect on**:\n\n💭 How has this been affecting your daily life?\n🌱 What's one thing that usually helps you feel even 1% better?\n🌟 What kind of support are you looking for right now?\n\nI'm here to listen and support you. 🌈",
    "I appreciate you opening up. Mental health is a journey with ups and downs.\n\n**Consider trying**:\n\n📝 Journaling your thoughts and feelings\n🎵 Music that matches or improves your mood\n🌳 A short walk in nature\n💝 One small act of self-kindness\n\nWhat resonates with you today? 💫",
    "That sounds challenging. Remember that **seeking help is strength**, not weakness.\n\n**Today, you could**:\n\n✅ Acknowledge your feelings without judgment\n💖 Speak to yourself like a good friend\n🌱 Take one small step forward\n🤝 Reach out for support\n\nYou're doing better than you think. 🌟"
  ]

  const GreetingsReplies: seq<string> := [
    "Hello! I'm MindCare AI, your mental health companion. 🌟\n\nI'm here to provide compassionate support, coping strategies, and a listening ear. Whether you need to talk, learn mindfulness techniques, or get through a tough moment, I'm here for you 24/7.\n\nHow are you feeling today? 💭",
    "Welcome to MindCare! I'm your AI mental health assistant. 💫\n\nI can help with:\n\n🧘 Stress management techniques\n😊 Mood tracking and understanding\n🌱 Coping strategies for anxiety/depression\n💤 Sleep improvement tips\n🎯 Motivation and goal setting\n\nWhat's on your mind right now? 🌈",
    "Hi there! I'm MindCare AI, designed to support your mental wellness journey. 🛡️\n\nI provide:\n\n🔹 Evidence-based mental health support\n🔹 Practical coping strategies\n🔹 Mindfulness and grounding exercises\n🔹 Emotional validation and understanding\n🔹 Crisis resources when needed\n\nHow can I support you today? 💖"
  ]


  /** `fallbackResponses[c]`. */
  function FallbackResponses(c: Category): (list: seq<string>)
    ensures |list| == 3
  {
    match c
    case Anxiety => AnxietyReplies
    case Depression => DepressionReplies
    case Stress => StressReplies
    case Sleep => SleepReplies
    case Motivation => MotivationReplies
    case General => GeneralReplies
    case Greetings => GreetingsReplies
  }

  /** The branches of `getFallbackResponse` in order; every pattern is tested
      on the lower-cased message only. */
  function FallbackRules(): seq<Rule<Category>>
  {
    [ Rule(Greetings, [], ["hello", "hi", "hey", "greetings", "start"]),
      Rule(Anxiety, [], ["anxious", "anxiety", "worried", "nervous", "panic", "overwhelmed"]),
      Rule(Depression, [], ["depress", "sad", "hopeless", "empty", "down", "blue", "worthless"]),
      Rule(Stress, [], ["stress", "overwhelm", "pressure", "burnout", "tension"]),
      Rule(Sleep, [], ["sleep", "insomnia", "tired", "exhausted", "fatigue"]),
      Rule(Motivation, [], ["motivat", "procrastinat", "lazy", "unproductive", "stuck"])
    ]
  }

  /** The category `getFallbackResponse` answers from. */
  function FallbackCategory(message: string): Category
  {
    FirstMatch(FallbackRules(), General, "", Lower(message))
  }

  /** `getFallbackResponse(message)`, with `u` standing for `Math.random()`. */
  function GetFallbackResponse(message: string, u: Draw): (r: string)
    ensures r in FallbackResponses(FallbackCategory(message))
  {
    Pick(FallbackResponses(FallbackCategory(message)), u)
  }

  /** The greeting pattern is tested first and there is no crisis rule: any
      greeting word, "start" included, gives a greeting reply. */
  lemma GreetingWordsWin(message: string, k: int)
    requires 0 <= k < |FallbackRules()[0].messageWords|
    requires Contains(Lower(message), FallbackRules()[0].messageWords[k])
    ensures FallbackCategory(message) == Greetings
  {
    ContainsAnyAt(Lower(message), FallbackRules()[0].messageWords, k);
    FirstFiringDecides(FallbackRules(), General, "", Lower(message), 0);
  }

  /** "I can't start" is answered with a greeting. */
  lemma CantStartIsAGreeting()
    ensures FallbackCategory("I can't start") == Greetings
  {
    var m := Lower("I can't start");
    assert m == "i can't start";
    assert MatchesAt(m, "start", 8);
    GreetingWordsWin("I can't start", 4);
  }

  /** "overwhelmed" is an anxiety word, tested before the stress rule: it
      gives a greeting or an anxiety reply, never a stress reply. */
  lemma OverwhelmedIsNeverStress(message: string)
    requires Contains(Lower(message), "overwhelmed")
    ensures FallbackCategory(message) in {Greetings, Anxiety}
  {
    var rules := FallbackRules();
    ContainsAnyAt(Lower(message), rules[1].messageWords, 5);
    FiringShadowsLater(rules, General, "", Lower(message), 1);
  }

  lemma OverwhelmedIsAnxiety()
    ensures FallbackCategory("overwhelmed") == Anxiety
  {
    var m := Lower("overwhelmed");
    assert m == "overwhelmed";
    var rules := FallbackRules();
    NotContainsPair(m, "hello", 2);
    NotContainsChar(m, "hi", 1);
    NotContainsChar(m, "hey", 2);
    NotContainsChar(m, "greetings", 0);
    NotContainsChar(m, "start", 0);
    assert !Fires(rules[0], "", m);
    assert MatchesAt(m, "overwhelmed", 0);
    ContainsAnyAt(m, rules[1].messageWords, 5);
    FirstFiringDecides(rules, General, "", m, 1);
  }

  /** "overwhelming" misses every earlier pattern and reaches the stress rule
      through "overwhelm". */
  lemma OverwhelmingIsStress()
    ensures FallbackCategory("overwhelming") == Stress
  {
    var m := Lower("overwhelming");
    assert m == "overwhelming";
    var rules := FallbackRules();
    NotContainsPair(m, "hello", 2);
    NotContainsPair(m, "hi", 0);
    NotContainsChar(m, "hey", 2);
    NotContainsChar(m, "greetings", 8);
    NotContainsChar(m, "start", 0);
    assert !Fires(rules[0], "", m);
    NotContainsChar(m, "anxious", 0);
    NotContainsChar(m, "anxiety", 0);
    NotContainsChar(m, "worried", 6);
    NotContainsChar(m, "nervous", 6);
    NotContainsChar(m, "panic", 0);
    NotContainsChar(m, "overwhelmed", 10);
    assert !Fires(rules[1], "", m);
    NotContainsChar(m, "depress", 0);
    NotContainsChar(m, "sad", 0);
    NotContainsChar(m, "hopeless", 2);
    NotContainsChar(m, "empty", 2);
    NotContainsChar(m, "down", 0);
    NotContainsChar(m, "blue", 0);
    NotContainsChar(m, "worthless", 3);
    assert !Fires(rules[2], "", m);
    assert MatchesAt(m, "overwhelm", 0);
    ContainsAnyAt(m, rules[3].messageWords, 1);
    FirstFiringDecides(rules, General, "", m, 3);
  }

  /** The general replies are the answer exactly when no pattern matches. */
  lemma GeneralWhenNothingMatches(message: string)
    ensures FallbackCategory(message) == General <==>
              forall k :: 0 <= k < |FallbackRules()| ==> !Fires(FallbackRules()[k], "", Lower(message))
  {
    var rules := FallbackRules();
    forall k | 0 <= k < |rules| ensures rules[k].topic != General {
      assert k in {0, 1, 2, 3, 4, 5};
    }
  }

  /** The `message` field of the request body: absent or another falsy value,
      a string, or a truthy value that is not a string. */
  datatype MessageField = Absent | Text(s: string) | NonText

  /** The language-model client: not configured, or configured with the
      outcome of its call (`None` when the call throws). */
  datatype Client = NoClient | Configured(outcome: Option<string>)

  datatype ChatResponse =
    | ChatRejected(error: string)
    | ChatAnswered(response: string, usingOpenAI: bool)

  /** The fixed text of the outer `catch`. */
  const Apology: string :=
    "I appreciate you reaching out. I'm having some technical difficulties right now, but please know that your feelings are valid. If you need immediate support, consider contacting a mental health professional."

  /** `POST /api/chatbot/message`. A non-string message makes `trim` throw,
      which the outer handler turns into the apology. */
  function ChatEndpoint(message: MessageField, client: Client, u: Draw): (r: ChatResponse)
    ensures r.ChatRejected? <==> message == Absent || (message.Text? && IsBlank(message.s))
    ensures r.ChatRejected? ==> r.error == "Message is required"
    ensures message == NonText ==> r == ChatAnswered(Apology, false)
    ensures message.Text? && !IsBlank(message.s) ==>
              r.ChatAnswered? && r.usingOpenAI == client.Configured? &&
              (if client.Configured? && client.outcome.Some? then r.response == client.outcome.value
               else r.response in FallbackResponses(FallbackCategory(message.s)))
  {
    match message
    case Absent => ChatRejected("Message is required")
    case NonText => ChatAnswered(Apology, false)
    case Text(s) =>
      if s == "" || IsBlank(s) then ChatRejected("Message is required")
      else
        var response :=
          if client.Configured? && client.outcome.Some? then client.outcome.value
          else GetFallbackResponse(s, u);
        ChatAnswered(response, client.Configured?)
  }

  /** The flag reports a configured client even when the client threw and
      the keyword fallback produced the answer. */
  lemma FlagFollowsConfiguration(s: string, u: Draw)
    requires !IsBlank(s)
    ensures var r := ChatEndpoint(Text(s), Configured(None), u);
            r.ChatAnswered? && r.response == GetFallbackResponse(s, u) && r.usingOpenAI
    ensures var r := ChatEndpoint(Text(s), NoClient, u);
            r.ChatAnswered? && r.response == GetFallbackResponse(s, u) && !r.usingOpenAI
  {
    assert s != "";
  }

  /** A message that trims to nothing is refused before any classification. */
  lemma BlankMessageRejected(s: string, client: Client, u: Draw)
    requires Trim(s) == ""
    ensures ChatEndpoint(Text(s), client, u) == ChatRejected("Message is required")
  {
    TrimSpec(s);
  }

  /** `!value` for a string field: missing or empty. */
  predicate Falsy(field: Option<string>)
  {
    field == None || field == Some("")
  }

  datatype AuthResponse =
    | AuthRejected(status: nat, error: string)
    | Registered(email: string)
    | LoggedIn(email: string)

  /** `POST /api/auth/register` against a user table mapping each email to its
      stored password hash; `hash` stands for bcrypt. The guards run in order:
      required fields, password length, email already taken. */
  function Register(users: map<string, string>, fullName: Option<string>, email: Option<string>,
                    password: Option<string>, hash: string -> string): (result: (AuthResponse, map<string, string>))
    ensures Falsy(fullName) || Falsy(email) || Falsy(password) ==>
              result == (AuthRejected(400, "All fields are required"), users)
    ensures !(Falsy(fullName) || Falsy(email) || Falsy(password)) && Utf16Length(password.value) < 6 ==>
              result == (AuthRejected(400, "Password must be at least 6 characters"), users)
    ensures !(Falsy(fullName) || Falsy(email) || Falsy(password)) && Utf16Length(password.value) >= 6 &&
            email.value in users ==>
              result == (AuthRejected(400, "User already exists with this email"), users)
    ensures result.0.AuthRejected? ==> result.1 == users
    ensures result.0.Registered? <==>
              !Falsy(fullName) && !Falsy(email) && !Falsy(password) &&
              Utf16Length(password.value) >= 6 && email.value !in users
    ensures result.0.Registered? ==>
              result.0.email == email.value && result.1 == users[email.value := hash(password.value)]
  {
    if Falsy(fullName) || Falsy(email) || Falsy(password) then
      (AuthRejected(400, "All fields are required"), users)
    else if Utf16Length(password.value) < 6 then
      (AuthRejected(400, "Password must be at least 6 characters"), users)
    else if email.value in users then
      (AuthRejected(400, "User already exists with this email"), users)
    else
      (Registered(email.value), users[email.value := hash(password.value)])
  }

  /** Registering an email that is already taken changes nothing, whatever the
      other fields hold. */
  lemma DuplicateEmailInsertsNothing(users: map<string, string>, fullName: Option<string>, email: string,
                                     password: Option<string>, hash: string -> string)
    requires email in users
    ensures Register(users, fullName, Some(email), password, hash).1 == users
    ensures Register(users, fullName, Some(email), password, hash).0.AuthRejected?
  {
  }

  /** `POST /api/auth/login`; `matches` stands for `bcrypt.compare`. */
  function Login(users: map<string, string>, email: Option<string>, password: Option<string>,
                 matches: (string, string) -> bool): (r: AuthResponse)
    ensures Falsy(email) || Falsy(password) ==> r == AuthRejected(400, "Email and password are required")
    ensures r.LoggedIn? <==>
              !Falsy(email) && !Falsy(password) && email.value in users &&
              matches(password.value, users[email.value])
    ensures !Falsy(email) && !Falsy(password) && !r.LoggedIn? ==> r == AuthRejected(400, "Invalid email or password")
    ensures r.LoggedIn? ==> r.email == email.value
  {
    if Falsy(email) || Falsy(password) then AuthRejected(400, "Email and password are required")
    else if email.value !in users then AuthRejected(400, "Invalid email or password")
    else if !matches(password.value, users[email.value]) then AuthRejected(400, "Invalid email or password")
    else LoggedIn(email.value)
  }

  /** An unknown email and a wrong password get the very same answer, so the
      response does not reveal which emails are registered. */
  lemma LoginHidesUnknownEmail(users: map<string, string>, unknown: string, known: string, password: string,
                               matches: (string, string) -> bool)
    requires unknown != "" && password != "" && unknown !in users
    requires known != "" && known in users && !matches(password, users[known])
    ensures Login(users, Some(unknown), Some(password), matches) ==
            Login(users, Some(known), Some(password), matches) ==
            AuthRejected(400, "Invalid email or password")
  {
  }

  /** `authHeader && authHeader.split(' ')[1]`, truthy: the second
      space-separated field of the header when it is present and non-empty. */
  function BearerToken(header: Option<string>): (token: Option<string>)
    ensures token.Some? ==> token.value != "" && header.Some? &&
                            |Split(header.value, ' ')| >= 2 && token.value == Split(header.value, ' ')[1]
    ensures token.None? ==> header.None? || |Split(header.value, ' ')| < 2 || Split(header.value, ' ')[1] == ""
  {
    if header.None? || header.value == "" then None
    else
      var parts := Split(header.value, ' ');
      if |parts| >= 2 && parts[1] != "" then Some(parts[1]) else None
  }

  /** A header of the usual shape yields the token after the scheme. */
  lemma BearerTokenOfScheme(scheme: string, token: string, rest: string)
    requires ' ' !in scheme && ' ' !in token && token != ""
    ensures BearerToken(Some(scheme + " " + token + rest)) == Some(token) <==> rest == [] || rest[0] == ' '
  {
    var h := scheme + " " + token + rest;
    assert h == scheme + [' '] + (token + rest);
    SplitFirstField(scheme, token + rest, ' ');
    if rest == [] {
      SplitNoSeparator(token, ' ');
      assert token + rest == token;
    } else if rest[0] == ' ' {
      assert token + rest == token + [' '] + rest[1..];
      SplitFirstField(token, rest[1..], ' ');
    } else {
      SplitFieldLonger(token, rest, ' ');
    }
  }

  /** When the text after a separator-free prefix does not start with the
      separator, the first field is longer than the prefix. */
  lemma {:induction false} SplitFieldLonger(a: string, b: string, c: char)
    requires c !in a && b != [] && b[0] != c
    ensures |Split(a + b, c)[0]| > |a|
  {
    if a == [] {
      assert (a + b) == b;
      assert Split(b, c)[0] == [b[0]] + Split(b[1..], c)[0];
    } else {
      SplitFieldLonger(a[1..], b, c);
      assert (a + b)[1..] == a[1..] + b;
    }
  }

  datatype VerifyResponse =
    | VerifyRejected(status: nat, error: string)
    | VerifiedUser(userId: int)

  /** `GET /api/auth/verify`: `decode` stands for `jwt.verify` (the user id of
      a valid token) and `ids` for the user table. */
  function Verify(header: Option<string>, decode: string -> Option<int>, ids: set<int>): (r: VerifyResponse)
    ensures BearerToken(header).None? <==> r == VerifyRejected(401, "Access token required")
    ensures r.VerifiedUser? <==>
              BearerToken(header).Some? && decode(BearerToken(header).value).Some? &&
              decode(BearerToken(header).value).value in ids
    ensures r.VerifiedUser? ==> r.userId == decode(BearerToken(header).value).value
    ensures r == VerifyRejected(403, "Invalid or expired token") <==>
              BearerToken(header).Some? && decode(BearerToken(header).value).None?
    ensures r == VerifyRejected(401, "User not found") <==>
              BearerToken(header).Some? && decode(BearerToken(header).value).Some? &&
              decode(BearerToken(header).value).value !in ids
  {
    match BearerToken(header)
    case None => VerifyRejected(401, "Access token required")
    case Some(token) =>
      match decode(token)
      case None => VerifyRejected(403, "Invalid or expired token")
      case Some(id) => if id in ids then VerifiedUser(id) else VerifyRejected(401, "User not found")
  }

  /** A missing header, or one without a second field, never reaches the token check. */
  lemma NoTokenNoAccess(scheme: string, decode: string -> Option<int>, ids: set<int>)
    requires ' ' !in scheme
    ensures Verify(None, decode, ids) == VerifyRejected(401, "Access token required")
    ensures Verify(Some(scheme), decode, ids) == VerifyRejected(401, "Access token required")
  {
    SplitNoSeparator(scheme, ' ');
  }
}
