/**
 * The guide chatbot of static/js/chatbot.js: the keyword router that answers a
 * message (`getBotResponse`, `matchesIntent`, `detectCrisis`), the page
 * detection, the quick-action buttons, and the open/closed state and message
 * log of the chat window.
 */
module Chatbot {
  import opened Wrappers

  // ---------------------------------------------------------------------------
  // Strings: lower case, substring search, trimming
  // ---------------------------------------------------------------------------

  /** `toLowerCase` on one character; only ASCII letters change. */
  function LowerChar(c: char): char
  {
    if 'A' <= c <= 'Z' then (c as int + 32) as char else c
  }

  function Lower(s: string): (r: string)
    ensures |r| == |s| && forall i :: 0 <= i < |s| ==> r[i] == LowerChar(s[i])
  {
    seq(|s|, i requires 0 <= i < |s| => LowerChar(s[i]))
  }

  /** Lower-casing twice changes nothing more. */
  lemma LowerIdempotent(s: string)
    ensures Lower(Lower(s)) == Lower(s)
  {
    assert forall i :: 0 <= i < |s| ==> Lower(Lower(s))[i] == Lower(s)[i];
  }

  /** `s.includes(sub)`. */
  function Contains(s: string, sub: string): bool
    decreases |s|
  {
    if |sub| > |s| then false
    else if s[..|sub|] == sub then true
    else Contains(s[1..], sub)
  }

  /** `sub` occurs in `s` at position `i`. */
  ghost predicate OccursAt(s: string, sub: string, i: int)
  {
    0 <= i && i + |sub| <= |s| && s[i..i + |sub|] == sub
  }

  /** The search finds `sub` exactly when it occurs somewhere in `s`. */
  lemma {:induction false} ContainsIff(s: string, sub: string)
    ensures Contains(s, sub) <==> exists i :: OccursAt(s, sub, i)
    decreases |s|
  {
    if |sub| > |s| {
    } else if s[..|sub|] == sub {
      assert OccursAt(s, sub, 0);
    } else {
      ContainsIff(s[1..], sub);
      if Contains(s[1..], sub) {
        var i :| OccursAt(s[1..], sub, i);
        assert s[1..][i..i + |sub|] == s[i + 1..i + 1 + |sub|];
        assert OccursAt(s, sub, i + 1);
      }
      if exists i :: OccursAt(s, sub, i) {
        var i :| OccursAt(s, sub, i);
        assert i != 0;
        assert s[1..][i - 1..i - 1 + |sub|] == s[i..i + |sub|];
        assert OccursAt(s[1..], sub, i - 1);
      }
    }
  }

  /** The characters `String.prototype.trim` removes. */
  predicate IsSpace(c: char)
  {
    c == ' ' || '\t' <= c <= '\r' || c == '\U{00A0}' || c == '\U{1680}' || '\U{2000}' <= c <= '\U{200A}'
    || c == '\U{2028}' || c == '\U{2029}' || c == '\U{202F}' || c == '\U{205F}' || c == '\U{3000}' || c == '\U{FEFF}'
  }

  function TrimStart(s: string): string
  {
    if s != [] && IsSpace(s[0]) then TrimStart(s[1..]) else s
  }

  function TrimEnd(s: string): string
  {
    if s != [] && IsSpace(s[|s| - 1]) then TrimEnd(s[..|s| - 1]) else s
  }

  /** `trim()`: the message without surrounding white space. */
  function Trim(s: string): string
  {
    TrimEnd(TrimStart(s))
  }

  /** Trimming the start drops leading white space only. */
  lemma {:induction false} TrimStartShape(s: string)
    ensures |TrimStart(s)| <= |s| && TrimStart(s) == s[|s| - |TrimStart(s)|..]
    ensures TrimStart(s) != [] ==> !IsSpace(TrimStart(s)[0])
    ensures forall i :: 0 <= i < |s| - |TrimStart(s)| ==> IsSpace(s[i])
  {
    if s != [] && IsSpace(s[0]) {
      TrimStartShape(s[1..]);
      assert forall i :: 1 <= i < |s| ==> s[i] == s[1..][i - 1];
    }
  }

  /** Trimming the end drops trailing white space only. */
  lemma {:induction false} TrimEndShape(s: string)
    ensures |TrimEnd(s)| <= |s| && TrimEnd(s) == s[..|TrimEnd(s)|]
    ensures TrimEnd(s) != [] ==> !IsSpace(TrimEnd(s)[|TrimEnd(s)| - 1])
    ensures forall i :: |TrimEnd(s)| <= i < |s| ==> IsSpace(s[i])
  {
    if s != [] && IsSpace(s[|s| - 1]) {
      TrimEndShape(s[..|s| - 1]);
    }
  }

  /** Where the trimmed message starts in the input. */
  ghost function TrimOffset(s: string): int
  {
    |s| - |TrimStart(s)|
  }

  /** Trimming keeps a contiguous part of the input that neither starts nor ends with white space. */
  lemma TrimShape(s: string)
    ensures 0 <= TrimOffset(s) && TrimOffset(s) + |Trim(s)| <= |s|
    ensures Trim(s) == s[TrimOffset(s)..TrimOffset(s) + |Trim(s)|]
    ensures Trim(s) != [] ==> !IsSpace(Trim(s)[0]) && !IsSpace(Trim(s)[|Trim(s)| - 1])
  {
    var t := TrimStart(s);
    TrimStartShape(s);
    TrimEndShape(t);
    var a := |s| - |t|;
    assert Trim(s) == s[a..][..|Trim(s)|];
    assert s[a..][..|Trim(s)|] == s[a..a + |Trim(s)|];
  }

  /** The trimmed message is empty exactly when the input is all white space. */
  lemma TrimEmpty(s: string)
    ensures Trim(s) == [] <==> forall i :: 0 <= i < |s| ==> IsSpace(s[i])
  {
    var t := TrimStart(s);
    TrimStartShape(s);
    TrimEndShape(t);
    if t != [] {
      assert TrimEnd(t) != [] by {
        assert !IsSpace(t[0]);
      }
      assert s[|s| - |t|] == t[0];
    }
  }

  // ---------------------------------------------------------------------------
  // Intents
  // ---------------------------------------------------------------------------

  /** `keywords.some(keyword => message.includes(keyword))`. */
  function MatchesIntent(message: string, keywords: seq<string>): bool
  {
    if keywords == [] then false
    else Contains(message, keywords[0]) || MatchesIntent(message, keywords[1..])
  }

  /** An intent matches exactly when one of its keywords occurs in the message. */
  lemma {:induction false} MatchesIntentIff(message: string, keywords: seq<string>)
    ensures MatchesIntent(message, keywords) <==> exists k :: k in keywords && Contains(message, k)
  {
    if keywords != [] {
      var rest := keywords[1..];
      MatchesIntentIff(message, rest);
      assert keywords == [keywords[0]] + rest;
      if Contains(message, keywords[0]) {
        assert keywords[0] in keywords;
      }
      if MatchesIntent(message, rest) {
        var k :| k in rest && Contains(message, k);
        assert k in keywords;
      }
      if !MatchesIntent(message, keywords) {
        forall k | k in keywords ensures !Contains(message, k) {
          if k != keywords[0] {
            assert k in rest;
          }
        }
      }
    }
  }

  const CrisisKeywords: seq<string> := ["suicide", "kill myself", "die", "end it", "no point"]

  /** `detectCrisis`: one of the five crisis phrases occurs in the message. */
  function DetectCrisis(message: string): bool
  {
    MatchesIntent(message, CrisisKeywords)
  }

  /** A crisis is detected exactly when one of the five phrases occurs in the message. */
  lemma DetectCrisisIff(message: string)
    ensures DetectCrisis(message) <==> exists k :: k in CrisisKeywords && Contains(message, k)
  {
    MatchesIntentIff(message, CrisisKeywords);
  }

  /** `detectCurrentPage` on `window.location.pathname`. */
  function DetectCurrentPage(path: string): (page: string)
    ensures page == "assessment" <==> Contains(path, "questions")
    ensures page == "progress" <==> !Contains(path, "questions") && Contains(path, "progress")
    ensures page == "selfcare" <==> !Contains(path, "questions") && !Contains(path, "progress") && Contains(path, "selfcare")
    ensures page == "home" <==> !Contains(path, "questions") && !Contains(path, "progress") && !Contains(path, "selfcare")
  {
    if Contains(path, "questions") then "assessment"
    else if Contains(path, "progress") then "progress"
    else if Contains(path, "selfcare") then "selfcare"
    else "home"
  }

  // ---------------------------------------------------------------------------
  // Replies
  // ---------------------------------------------------------------------------

  /** A quick-action button: its caption and its `data-action` value. */
  datatype QuickAction = QuickAction(caption: string, value: string)

  /** A reply: its text, the page to open afterwards, and its quick-action buttons. */
  datatype Response = Response(text: string, navigate: Option<string>, quickActions: Option<seq<QuickAction>>)

  /** The rules of `getBotResponse`, in the order they are tried. */
  datatype Rule = OpenAssessment | OpenSelfCare | OpenProgress | Crisis | Greeting | Stress | Breathing
                | FamilyTrauma | Financial | Career | Fallback

  const Rules: seq<Rule> := [OpenAssessment, OpenSelfCare, OpenProgress, Crisis, Greeting, Stress, Breathing,
                             FamilyTrauma, Financial, Career, Fallback]

  const AssessmentWords: seq<string> := ["assessment", "test", "quiz"]
  const AssessmentVerbs: seq<string> := ["take", "start", "open", "go to"]
  const SelfCareWords: seq<string> := ["self care", "selfcare", "tips"]
  const SelfCareVerbs: seq<string> := ["open", "go to", "show"]
  const ProgressWords: seq<string> := ["progress", "track", "stats"]
  const ProgressVerbs: seq<string> := ["open", "go to", "view", "show"]
  const GreetingWords: seq<string> := ["hi", "hello", "hey", "namaste"]
  const StressWords: seq<string> := ["stress", "anxious", "worried", "overwhelmed"]
  const BreathingWords: seq<string> := ["breath", "breathe", "pranayama"]
  const CareerWords: seq<string> := ["career", "work"]

  /** When a rule applies to the lower-cased message, stated over the keyword lists. */
  predicate Fires(rule: Rule, msg: string)
  {
    match rule
    case OpenAssessment => MatchesIntent(msg, AssessmentWords) && MatchesIntent(msg, AssessmentVerbs)
    case OpenSelfCare => MatchesIntent(msg, SelfCareWords) && MatchesIntent(msg, SelfCareVerbs)
    case OpenProgress => MatchesIntent(msg, ProgressWords) && MatchesIntent(msg, ProgressVerbs)
    case Crisis => DetectCrisis(msg)
    case Greeting => MatchesIntent(msg, GreetingWords)
    case Stress => MatchesIntent(msg, StressWords)
    case Breathing => MatchesIntent(msg, BreathingWords)
    case FamilyTrauma => Contains(msg, "family trauma")
    case Financial => Contains(msg, "financial")
    case Career => MatchesIntent(msg, CareerWords)
    case Fallback => true
  }

  const AssessmentReply := "Opening the Trauma Assessment for you... \U{1F4CB}"
  const SelfCareReply := "Taking you to the Self-Care section... \U{1F9D8}"
  const ProgressReply := "Opening your Progress Tracker... \U{1F4CA}"
  const CrisisReply := "I hear your pain. Please reach out to a professional or someone you trust. \n\n\U{1F198} KIRAN Helpline: 1800-599-0019 (24/7)"
  const GreetingReply := "Namaste! \U{1F64F} I'm your wellness guide. How are you feeling right now?"
  const StressReply := "It's okay to feel this way. Let's take a moment. Would you like a quick breathing exercise?"
  const BreathingReply := "Inhale slowly (4s)... Hold (4s)... Exhale (6s). \nFocus only on your breath. Repeat this 3 times."
  const FamilyReply := "Family trauma stems from conflicts, loss, or deep-rooted emotional gaps within the home. It often affects how we connect with others."
  const FinancialReply := "Financial stress isn't just about money—it's about security. It can cause constant low-grade anxiety affecting sleep and focus."
  const CareerReply := "Career anxiety often comes from pressure to perform or fear of failure. Remember: Your worth is more than your productivity."
  const FallbackReply := "I'm here to listen. You can ask me to open pages like 'Assessment' or 'Self Care', or tell me how you're feeling."

  /** The reply each rule gives. */
  function Reply(rule: Rule): Response
  {
    match rule
    case OpenAssessment => Response(AssessmentReply, Some("/questions/"), None)
    case OpenSelfCare => Response(SelfCareReply, Some("/selfcare/"), None)
    case OpenProgress => Response(ProgressReply, Some("/progress/"), None)
    case Crisis => Response(CrisisReply, None, None)
    case Greeting =>
      Response(GreetingReply, None, Some([QuickAction("Stress", "I am stressed"), QuickAction("Anxiety", "I feel anxious"),
                                          QuickAction("Just passing by", "Just exploring")]))
    case Stress =>
      Response(StressReply, None, Some([QuickAction("Yes, breathe", "breathing"), QuickAction("No, talk more", "I want to talk")]))
    case Breathing =>
      Response(BreathingReply, None, Some([QuickAction("Feeling better", "I feel better"), QuickAction("Still anxious", "Still anxious")]))
    case FamilyTrauma => Response(FamilyReply, None, Some([QuickAction("Check my pattern", "take-assessment")]))
    case Financial => Response(FinancialReply, None, Some([QuickAction("Check my pattern", "take-assessment")]))
    case Career => Response(CareerReply, None, Some([QuickAction("Check my pattern", "take-assessment")]))
    case Fallback =>
      Response(FallbackReply, None, Some([QuickAction("Take Assessment", "/questions/"), QuickAction("Self Care Tips", "/selfcare/")]))
  }

  /**
   * The tests of `getBotResponse` on the lower-cased message, in source order:
   * the rule whose reply is returned. Each `a || b || c` chain of `includes`
   * tests is written as `MatchesIntent` over the list of its phrases (see
   * `NavigationTests`).
   */
  function Route(msg: string): Rule
  {
    if MatchesIntent(msg, AssessmentWords) && MatchesIntent(msg, AssessmentVerbs) then OpenAssessment
    else if MatchesIntent(msg, SelfCareWords) && MatchesIntent(msg, SelfCareVerbs) then OpenSelfCare
    else if MatchesIntent(msg, ProgressWords) && MatchesIntent(msg, ProgressVerbs) then OpenProgress
    else if DetectCrisis(msg) then Crisis
    else if MatchesIntent(msg, GreetingWords) then Greeting
    else if MatchesIntent(msg, StressWords) then Stress
    else if MatchesIntent(msg, BreathingWords) then Breathing
    else if Contains(msg, "family trauma") then FamilyTrauma
    else if Contains(msg, "financial") then Financial
    else if MatchesIntent(msg, CareerWords) then Career
    else Fallback
  }

  /** `getBotResponse`: the reply of the rule the lower-cased message selects. */
  function GetBotResponse(userMessage: string): Response
  {
    Reply(Route(Lower(userMessage)))
  }

  /** The position of the first rule that applies; the fallback always does. */
  ghost function FirstFiring(msg: string): (k: nat)
    ensures k < |Rules| && Fires(Rules[k], msg)
    ensures forall j :: 0 <= j < k ==> !Fires(Rules[j], msg)
  {
    FirstFiringFrom(msg, 0)
  }

  ghost function FirstFiringFrom(msg: string, from: nat): (k: nat)
    requires from < |Rules|
    ensures from <= k < |Rules| && Fires(Rules[k], msg)
    ensures forall j :: from <= j < k ==> !Fires(Rules[j], msg)
    decreases |Rules| - from
  {
    if Fires(Rules[from], msg) then from else FirstFiringFrom(msg, from + 1)
  }

  lemma MatchesThree(msg: string, a: string, b: string, c: string)
    ensures MatchesIntent(msg, [a, b, c]) == (Contains(msg, a) || Contains(msg, b) || Contains(msg, c))
  {
    assert [a, b, c][1..] == [b, c];
    MatchesTwo(msg, b, c);
  }

  lemma MatchesFour(msg: string, a: string, b: string, c: string, d: string)
    ensures MatchesIntent(msg, [a, b, c, d]) == (Contains(msg, a) || Contains(msg, b) || Contains(msg, c) || Contains(msg, d))
  {
    assert [a, b, c, d][1..] == [b, c, d];
    MatchesThree(msg, b, c, d);
  }

  lemma MatchesTwo(msg: string, a: string, b: string)
    ensures MatchesIntent(msg, [a, b]) == (Contains(msg, a) || Contains(msg, b))
  {
    assert [a, b][1..] == [b];
    assert [b][1..] == [];
    assert MatchesIntent(msg, [b]) == (Contains(msg, b) || MatchesIntent(msg, []));
  }

  /** Each rule's keyword-list test is the chain of `includes` tests the source writes out. */
  lemma NavigationTests(msg: string)
    ensures Fires(OpenAssessment, msg) == ((Contains(msg, "assessment") || Contains(msg, "test") || Contains(msg, "quiz"))
              && (Contains(msg, "take") || Contains(msg, "start") || Contains(msg, "open") || Contains(msg, "go to")))
    ensures Fires(OpenSelfCare, msg) == ((Contains(msg, "self care") || Contains(msg, "selfcare") || Contains(msg, "tips"))
              && (Contains(msg, "open") || Contains(msg, "go to") || Contains(msg, "show")))
    ensures Fires(OpenProgress, msg) == ((Contains(msg, "progress") || Contains(msg, "track") || Contains(msg, "stats"))
              && (Contains(msg, "open") || Contains(msg, "go to") || Contains(msg, "view") || Contains(msg, "show")))
    ensures Fires(Career, msg) == (Contains(msg, "career") || Contains(msg, "work"))
  {
    MatchesThree(msg, "assessment", "test", "quiz");
    MatchesFour(msg, "take", "start", "open", "go to");
    MatchesThree(msg, "self care", "selfcare", "tips");
    MatchesThree(msg, "open", "go to", "show");
    MatchesThree(msg, "progress", "track", "stats");
    MatchesFour(msg, "open", "go to", "view", "show");
    MatchesTwo(msg, "career", "work");
  }

  /** The reply is the one of the first rule, in the fixed order, that applies to the lower-cased message. */
  lemma FirstMatchWins(userMessage: string)
    ensures GetBotResponse(userMessage) == Reply(Rules[FirstFiring(Lower(userMessage))])
  {
    RouteIsFirstFiring(Lower(userMessage));
  }

  /** The if-chain of `Route` selects the first rule of `Rules` that fires. */
  lemma RouteIsFirstFiring(msg: string)
    ensures Route(msg) == Rules[FirstFiring(msg)]
  {
    var k := FirstFiring(msg);
    assert Fires(Rules[k], msg);
    if k == 0 {
    } else if k == 1 {
      assert !Fires(Rules[0], msg);
    } else if k == 2 {
      assert !Fires(Rules[0], msg) && !Fires(Rules[1], msg);
    } else {
      assert !Fires(Rules[0], msg) && !Fires(Rules[1], msg) && !Fires(Rules[2], msg);
      if k == 3 {
      } else if k == 4 {
        assert !Fires(Rules[3], msg);
      } else if k == 5 {
        assert !Fires(Rules[3], msg) && !Fires(Rules[4], msg);
      } else if k == 6 {
        assert !Fires(Rules[3], msg) && !Fires(Rules[4], msg) && !Fires(Rules[5], msg);
      } else {
        assert !Fires(Rules[3], msg) && !Fires(Rules[4], msg) && !Fires(Rules[5], msg) && !Fires(Rules[6], msg);
        if k == 7 {
        } else if k == 8 {
          assert !Fires(Rules[7], msg);
        } else if k == 9 {
          assert !Fires(Rules[7], msg) && !Fires(Rules[8], msg);
        } else {
          assert !Fires(Rules[7], msg) && !Fires(Rules[8], msg) && !Fires(Rules[9], msg);
        }
      }
    }
  }

  /** Matching runs on the lower-cased message, so the case of the input does not matter. */
  lemma CaseInsensitive(userMessage: string)
    ensures GetBotResponse(Lower(userMessage)) == GetBotResponse(userMessage)
  {
    LowerIdempotent(userMessage);
  }

  /** A reply opens a page exactly when a navigation rule chose it. */
  lemma OnlyNavigationNavigates(rule: Rule)
    ensures Reply(rule).navigate.Some? <==> rule in {OpenAssessment, OpenSelfCare, OpenProgress}
  {
  }

  /** The reply opens `/questions/` exactly when an assessment word and an opening verb both occur. */
  lemma OpensAssessmentIff(userMessage: string)
    ensures GetBotResponse(userMessage).navigate == Some("/questions/")
        <==> MatchesIntent(Lower(userMessage), AssessmentWords) && MatchesIntent(Lower(userMessage), AssessmentVerbs)
  {
  }

  /** The crisis reply comes only when no navigation rule fired first, and then whenever a crisis phrase occurs. */
  lemma CrisisAfterNavigation(userMessage: string)
    ensures var msg := Lower(userMessage);
      Rules[FirstFiring(msg)] == Crisis
      <==> !Fires(OpenAssessment, msg) && !Fires(OpenSelfCare, msg) && !Fires(OpenProgress, msg) && DetectCrisis(msg)
  {
    var msg := Lower(userMessage);
    var k := FirstFiring(msg);
    if !Fires(OpenAssessment, msg) && !Fires(OpenSelfCare, msg) && !Fires(OpenProgress, msg) && DetectCrisis(msg) {
      assert Fires(Rules[3], msg);
      assert Rules[0] == OpenAssessment && Rules[1] == OpenSelfCare && Rules[2] == OpenProgress;
    }
  }

  /** The fallback reply offers exactly two direct links, the assessment and the self-care page. */
  lemma FallbackOffersTwoLinks()
    ensures Reply(Fallback).quickActions.Some?
    ensures |Reply(Fallback).quickActions.value| == 2
    ensures Reply(Fallback).quickActions.value[0].value == "/questions/"
    ensures Reply(Fallback).quickActions.value[1].value == "/selfcare/"
    ensures Reply(Fallback).navigate.None?
  {
  }

  // ---------------------------------------------------------------------------
  // Quick actions
  // ---------------------------------------------------------------------------

  /** The `actionMap` of `handleQuickAction`: the message a named action sends. */
  function ActionMessage(action: string): (m: Option<string>)
    ensures m.Some? <==> action in {"take-assessment", "view-progress", "self-care", "breathing"}
  {
    if action == "take-assessment" then Some("I want to take the assessment")
    else if action == "view-progress" then Some("Show me my progress")
    else if action == "self-care" then Some("I need self-care tips")
    else if action == "breathing" then Some("Teach me a breathing exercise")
    else None
  }

  /** A value starting with `/` is a direct link (`action.startsWith('/')`). */
  predicate IsLink(action: string)
  {
    |action| > 0 && action[0] == '/'
  }

  // ---------------------------------------------------------------------------
  // Chat window state
  // ---------------------------------------------------------------------------

  /** An entry of `messages`: sender, text and ISO time stamp. */
  datatype Message = Message(sender: string, text: string, time: string)

  /** The `welcomeText` table, with `home` as the fallback. */
  function WelcomeText(page: string): string
  {
    if page == "assessment" then "This assessment helps us understand your needs. Take your time."
    else if page == "progress" then "Here is your journey so far. Consistency is key!"
    else if page == "selfcare" then "Explore these heritage-inspired practices for peace."
    else "Welcome to UMatter. \U{1F64F} How can I support your wellness today?"
  }

  /**
   * The `UMatterChatbot` object: whether the window is open, the message log,
   * and the page it was created on. Time stamps are passed in; the typing
   * delay is not modelled, so the bot's reply is logged right after the user's
   * message.
   */
  class Chat {
    var isOpen: bool
    var messages: seq<Message>
    const currentPage: string

    constructor(path: string)
      ensures !isOpen && messages == [] && currentPage == DetectCurrentPage(path)
    {
      isOpen := false;
      messages := [];
      currentPage := DetectCurrentPage(path);
    }

    /** `toggleChat`: opens a closed window and closes an open one. */
    method ToggleChat()
      modifies this
      ensures isOpen == !old(isOpen)
      ensures messages == old(messages)
    {
      isOpen := !isOpen;
    }

    /** `addMessage`: exactly one entry is appended to the log. */
    method AddMessage(sender: string, text: string, time: string)
      modifies this
      ensures messages == old(messages) + [Message(sender, text, time)]
      ensures isOpen == old(isOpen)
    {
      messages := messages + [Message(sender, text, time)];
    }

    /**
     * `sendMessage` on the input box's value: white space alone adds nothing;
     * otherwise the trimmed message and the bot's reply to it are logged, and
     * the reply's page, if any, is returned to be opened.
     */
    method SendMessage(input: string, time: string, replyTime: string) returns (navigate: Option<string>)
      modifies this
      ensures isOpen == old(isOpen)
      ensures Trim(input) == [] ==> messages == old(messages) && navigate.None?
      ensures Trim(input) != [] ==>
                messages == old(messages) + [Message("user", Trim(input), time),
                                             Message("bot", GetBotResponse(Trim(input)).text, replyTime)]
                && navigate == GetBotResponse(Trim(input)).navigate
    {
      var message := Trim(input);
      if message == [] {
        return None;
      }
      AddMessage("user", message, time);
      var response := GetBotResponse(message);
      AddMessage("bot", response.text, replyTime);
      navigate := response.navigate;
    }

    /** `handleQuickAction`: a named action sends its canned message; any other does nothing. */
    method HandleQuickAction(action: string, time: string, replyTime: string) returns (navigate: Option<string>)
      modifies this
      ensures isOpen == old(isOpen)
      ensures ActionMessage(action).None? ==> messages == old(messages) && navigate.None?
      ensures ActionMessage(action).Some? ==>
                var m := ActionMessage(action).value;
                messages == old(messages) + [Message("user", m, time), Message("bot", GetBotResponse(m).text, replyTime)]
                && navigate == GetBotResponse(m).navigate
    {
      var m := ActionMessage(action);
      navigate := None;
      if m.Some? {
        assert Trim(m.value) == m.value;
        navigate := SendMessage(m.value, time, replyTime);
      }
    }

    /** A click on a quick-action button: a direct link is opened at once, anything else handled as an action. */
    method ClickQuickAction(action: string, time: string, replyTime: string) returns (navigate: Option<string>)
      modifies this
      ensures isOpen == old(isOpen)
      ensures IsLink(action) ==> navigate == Some(action) && messages == old(messages)
      ensures !IsLink(action) && ActionMessage(action).None? ==> navigate.None? && messages == old(messages)
      ensures !IsLink(action) && ActionMessage(action).Some? ==>
                var m := ActionMessage(action).value;
                messages == old(messages) + [Message("user", m, time), Message("bot", GetBotResponse(m).text, replyTime)]
                && navigate == GetBotResponse(m).navigate
    {
      if IsLink(action) {
        return Some(action);
      }
      navigate := HandleQuickAction(action, time, replyTime);
    }

    /** `sendWelcomeMessage`: only into an empty log, with the text for the current page. */
    method SendWelcomeMessage(time: string)
      modifies this
      ensures isOpen == old(isOpen)
      ensures old(messages) != [] ==> messages == old(messages)
      ensures old(messages) == [] ==> messages == [Message("bot", WelcomeText(currentPage), time)]
    {
      if |messages| > 0 {
        return;
      }
      AddMessage("bot", WelcomeText(currentPage), time);
    }
  }
}
