/**
  The chat HTTP route: a canned reply chosen by ordered keyword rules over
  the lower-cased message, and the `POST` guard around it.
 */
module ChatRoute {
  import opened Text

  /** Which rule produced the reply. */
  datatype Category = Identity | Greeting | Wellbeing | Weather | Time | Help | Fallback

  /** The identity phrases, exactly as the route lists them (one has an upper-case `I`). */
  const IdentityPhrases: seq<string> := [
    "who are you",
    "what are you",
    "what is your name",
    "what should I call you",
    "introduce yourself",
    "tell me about yourself"
  ]

  const IdentityReply := "Hello! I am ChatAI, your helpful AI assistant. I'm here to help you with questions, provide information, and have conversations. How can I assist you today?"
  const GreetingReply := "Hello! How can I help you today?"
  const WellbeingReply := "I'm doing well, thank you for asking! How are you doing?"
  const WeatherReply := "I don't have access to real-time weather data, but I'd recommend checking a weather app or website for current conditions in your area."
  const TimeReply := "I don't have access to real-time data, but you can check the current time on your device or search for world clocks online."
  const HelpReply := "I'm here to help! You can ask me questions about various topics, and I'll do my best to provide helpful information and responses."
  const FallbackHead := "Thank you for your message: \""
  const FallbackTail := "\". I understand you're interested in this topic. While I'm a simple AI assistant, I'm here to help with questions and provide information. Is there something specific you'd like to know more about?"

  /** The rules of `generateAIResponse`, tested in source order on lower-cased text. */
  function ClassifyLowered(lm: string): Category {
    if ContainsAny(lm, IdentityPhrases) then Identity
    else if Contains(lm, "hello") || Contains(lm, "hi") then Greeting
    else if Contains(lm, "how are you") then Wellbeing
    else if Contains(lm, "weather") then Weather
    else if Contains(lm, "time") then Time
    else if Contains(lm, "help") then Help
    else Fallback
  }

  function Classify(message: string): Category {
    ClassifyLowered(Lower(message))
  }

  /** The reply for a category: fixed text, except that the default quotes the message. */
  function ReplyFor(c: Category, message: string): (r: string)
    ensures |r| > 0
    ensures c == Fallback ==>
      && |r| == |FallbackHead| + |message| + |FallbackTail|
      && r[..|FallbackHead|] == FallbackHead
      && r[|FallbackHead|..|FallbackHead| + |message|] == message
      && r[|FallbackHead| + |message|..] == FallbackTail
  {
    match c
    case Identity => IdentityReply
    case Greeting => GreetingReply
    case Wellbeing => WellbeingReply
    case Weather => WeatherReply
    case Time => TimeReply
    case Help => HelpReply
    case Fallback => FallbackHead + message + FallbackTail
  }

  /**
    `generateAIResponse`: total, never empty, and the default reply quotes
    the original (not lower-cased) message between fixed text.
   */
  function GenerateAIResponse(message: string): (r: string)
    ensures |r| > 0
    ensures Classify(message) == Fallback ==>
      |r| == |FallbackHead| + |message| + |FallbackTail| && r[|FallbackHead|..|FallbackHead| + |message|] == message
  {
    ReplyFor(Classify(message), message)
  }

  // ---------------------------------------------------------------------------
  // A reference statement of the rules: an ordered table and "first rule whose
  // keyword occurs wins", phrased with occurrences rather than with `Contains`.

  datatype Rule = Rule(category: Category, keywords: seq<string>)

  const Rules: seq<Rule> := [
    Rule(Identity, IdentityPhrases),
    Rule(Greeting, ["hello", "hi"]),
    Rule(Wellbeing, ["how are you"]),
    Rule(Weather, ["weather"]),
    Rule(Time, ["time"]),
    Rule(Help, ["help"])
  ]

  ghost predicate Fires(lm: string, i: int) {
    0 <= i < |Rules| && exists k, p :: 0 <= k < |Rules[i].keywords| && OccursAt(lm, Rules[i].keywords[k], p)
  }

  ghost predicate FirstFires(lm: string, i: int) {
    Fires(lm, i) && forall j :: 0 <= j < i ==> !Fires(lm, j)
  }

  lemma FiresIffContainsAny(lm: string, i: int)
    requires 0 <= i < |Rules|
    ensures Fires(lm, i) <==> ContainsAny(lm, Rules[i].keywords)
  {
    var kws := Rules[i].keywords;
    forall k | 0 <= k < |kws|
      ensures Contains(lm, kws[k]) <==> exists p :: OccursAt(lm, kws[k], p)
    {
      ContainsIffOccurs(lm, kws[k]);
    }
  }

  lemma RulesAgreeWithChecks(lm: string)
    ensures Fires(lm, 0) <==> ContainsAny(lm, IdentityPhrases)
    ensures Fires(lm, 1) <==> Contains(lm, "hello") || Contains(lm, "hi")
    ensures Fires(lm, 2) <==> Contains(lm, "how are you")
    ensures Fires(lm, 3) <==> Contains(lm, "weather")
    ensures Fires(lm, 4) <==> Contains(lm, "time")
    ensures Fires(lm, 5) <==> Contains(lm, "help")
  {
    FiresIffContainsAny(lm, 0);
    FiresIffContainsAny(lm, 1);
    FiresIffContainsAny(lm, 2);
    FiresIffContainsAny(lm, 3);
    FiresIffContainsAny(lm, 4);
    FiresIffContainsAny(lm, 5);
  }

  /**
    The category chosen is exactly that of the first rule with a keyword
    occurring in the lower-cased message, and the default exactly when no
    rule has one.
   */
  lemma ClassifyIsFirstMatch(message: string)
    ensures forall i :: 0 <= i < |Rules| ==> (Classify(message) == Rules[i].category <==> FirstFires(Lower(message), i))
    ensures Classify(message) == Fallback <==> forall i :: 0 <= i < |Rules| ==> !Fires(Lower(message), i)
  {
    var lm := Lower(message);
    forall i | 0 <= i < |Rules|
      ensures Classify(message) == Rules[i].category <==> FirstFires(lm, i)
    {
      FirstMatchAt(lm, i);
    }
    FallbackWhenNoneFires(lm);
  }

  lemma FirstMatchAt(lm: string, i: int)
    requires 0 <= i < |Rules|
    ensures ClassifyLowered(lm) == Rules[i].category <==> FirstFires(lm, i)
  {
    RulesAgreeWithChecks(lm);
    assert FirstFires(lm, i) <==> Fires(lm, i) && forall j :: 0 <= j < i ==> !Fires(lm, j);
    if i == 0 {
      assert Rules[0].category == Identity;
    } else if i == 1 {
      assert Rules[1].category == Greeting;
    } else if i == 2 {
      assert Rules[2].category == Wellbeing;
    } else if i == 3 {
      assert Rules[3].category == Weather;
    } else if i == 4 {
      assert Rules[4].category == Time;
    } else {
      assert Rules[5].category == Help;
    }
  }

  lemma FallbackWhenNoneFires(lm: string)
    ensures ClassifyLowered(lm) == Fallback <==> forall i :: 0 <= i < |Rules| ==> !Fires(lm, i)
  {
    RulesAgreeWithChecks(lm);
    if ClassifyLowered(lm) == Fallback {
      forall i | 0 <= i < |Rules|
        ensures !Fires(lm, i)
      {
      }
    }
  }

  /** The reply depends on the message only through its lower-cased form, except for the quoted default. */
  lemma CaseInsensitive(m1: string, m2: string)
    requires Lower(m1) == Lower(m2)
    ensures Classify(m1) == Classify(m2)
    ensures Classify(m1) != Fallback ==> GenerateAIResponse(m1) == GenerateAIResponse(m2)
  {
  }

  /** Lower-casing the message first never changes the rule that answers it. */
  lemma ClassifyIgnoresCase(message: string)
    ensures Classify(Lower(message)) == Classify(message)
  {
    LowerIdempotent(message);
  }

  /** The phrase "what should I call you" can never match the lower-cased message. */
  lemma CallYouPhraseNeverMatches(message: string)
    ensures !Contains(Lower(message), IdentityPhrases[3])
  {
    UpperNeverInLower(message, IdentityPhrases[3], 12);
  }

  /** So the identity rule behaves as if that phrase were not in the list. */
  lemma IdentityIgnoresCallYouPhrase(message: string)
    ensures ContainsAny(Lower(message), IdentityPhrases)
        <==> ContainsAny(Lower(message), IdentityPhrases[..3] + IdentityPhrases[4..])
  {
    var lm := Lower(message);
    var rest := IdentityPhrases[..3] + IdentityPhrases[4..];
    CallYouPhraseNeverMatches(message);
    if ContainsAny(lm, IdentityPhrases) {
      var i :| 0 <= i < |IdentityPhrases| && Contains(lm, IdentityPhrases[i]);
      assert i != 3;
      if i < 3 {
        assert rest[i] == IdentityPhrases[i];
      } else {
        assert rest[i - 1] == IdentityPhrases[i];
      }
    }
    if ContainsAny(lm, rest) {
      var i :| 0 <= i < |rest| && Contains(lm, rest[i]);
      if i < 3 {
        assert rest[i] == IdentityPhrases[i];
      } else {
        assert rest[i] == IdentityPhrases[i + 1];
      }
    }
  }

  /** A message containing "hi" anywhere is answered by the identity or the greeting reply. */
  lemma HiShadowsLaterRules(message: string)
    requires Contains(Lower(message), "hi")
    ensures Classify(message) == Identity || Classify(message) == Greeting
    ensures GenerateAIResponse(message) != WeatherReply
    ensures GenerateAIResponse(message) != TimeReply
    ensures GenerateAIResponse(message) != HelpReply
  {
  }

  /**
    "this weather" (already lower case) holds "hi" inside "this", so it is
    greeted rather than told about the weather.
   */
  lemma ThisWeatherIsGreeted()
    ensures ClassifyLowered("this weather") == Greeting
  {
    ThisWeatherHasNoIdentityPhrase();
    assert Contains("this weather", "hi");
  }

  lemma ThisWeatherHasNoIdentityPhrase()
    ensures !ContainsAny("this weather", IdentityPhrases)
  {
    forall i | 0 <= i < |IdentityPhrases|
      ensures !Contains("this weather", IdentityPhrases[i])
    {
    }
  }

  // ---------------------------------------------------------------------------
  // The POST handler.

  /** A JSON value as the request body's field holds it; `Undefined` is a missing field. */
  datatype Json = Undefined | Null | Bool(b: bool) | Number(n: int) | Str(s: string) | Composite

  /**
    JavaScript truthiness of a parsed JSON value: everything is truthy except
    the five falsy values a JSON field can hold.
   */
  function Truthy(j: Json): (t: bool)
    ensures !t <==> j in {Undefined, Null, Bool(false), Number(0), Str("")}
  {
    match j
    case Undefined => false
    case Null => false
    case Bool(b) => b
    case Number(n) => n != 0
    case Str(s) => |s| > 0
    case Composite => true
  }

  /**
    The request after `request.json()` and destructuring. `Unreadable` is a
    body that throws there (not JSON, or `null`).
   */
  datatype Request = Unreadable | Body(message: Json, conversationId: Json)

  datatype Response =
    | Ok(response: string, conversationId: Json)
    | BadRequest(error: string)
    | ServerError(error: string)

  function Status(r: Response): nat {
    match r
    case Ok(_, _) => 200
    case BadRequest(_) => 400
    case ServerError(_) => 500
  }

  /**
    `POST`: a falsy message is a 400; a string message gets the canned reply
    and the conversation id echoed back; a message of any other truthy kind
    has no `toLowerCase`, throws, and is caught as a 500.
   */
  function Post(req: Request): (r: Response)
    ensures req.Unreadable? ==> r == ServerError("Internal server error")
    ensures req.Body? ==> (Status(r) == 400 <==> !Truthy(req.message))
    ensures Status(r) == 400 ==> r == BadRequest("Message is required")
    ensures r.Ok? <==> req.Body? && req.message.Str? && req.message.s != ""
    ensures r.Ok? ==> r.response == GenerateAIResponse(req.message.s) && r.conversationId == req.conversationId
    ensures r.ServerError? ==> r.error == "Internal server error"
  {
    match req
    case Unreadable => ServerError("Internal server error")
    case Body(message, conversationId) =>
      if !Truthy(message) then BadRequest("Message is required")
      else if message.Str? then Ok(GenerateAIResponse(message.s), conversationId)
      else ServerError("Internal server error")
  }
}
