/** The top-level handlers (src/server.js:73-157): four `hears` registrations,
    tried in the order they are registered; the first that matches a message
    handles it, and no other does. */
module Hears {
  import opened Wrappers
  import opened Replies
  import opened Dialogue

  /** The kind of event a message arrives as. The bot registers handlers for
      the first three only. */
  datatype Context = DirectMessage | DirectMention | Mention | Ambient

  datatype Message = Message(text: string, user: string, context: Context)

  /** A pattern given to `hears`: a keyword, tested by the chat library's
      matcher, or the regular expression `^.*`, which matches every text
      (`.*` may match the empty string). */
  datatype Pattern = Keyword(word: string) | MatchAll

  datatype Handler = Greet | Food | Help | CatchAll

  datatype Registration = Registration(handler: Handler, patterns: seq<Pattern>, contexts: set<Context>)

  const Addressed: set<Context> := {DirectMessage, DirectMention, Mention}

  /** The handlers in registration order. */
  const Registry: seq<Registration> := [
    Registration(Greet, [Keyword("hello"), Keyword("hi"), Keyword("howdy")], Addressed),
    Registration(Food, [Keyword("hungry"), Keyword("food"), Keyword("restaurant")], Addressed),
    Registration(Help, [Keyword("help")], Addressed),
    Registration(CatchAll, [MatchAll], Addressed)
  ]

  /** Whether `p` matches `text`; `keyword(w, text)` is the library's test of
      a keyword against a text. */
  predicate PatternMatches(p: Pattern, text: string, keyword: (string, string) -> bool)
  {
    match p
    case Keyword(w) => keyword(w, text)
    case MatchAll => true
  }

  predicate HearsMessage(r: Registration, m: Message, keyword: (string, string) -> bool)
  {
    m.context in r.contexts &&
    exists i :: 0 <= i < |r.patterns| && PatternMatches(r.patterns[i], m.text, keyword)
  }

  /** The handler of the first registration, from `regs`, that hears `m`. */
  function FirstHeard(regs: seq<Registration>, m: Message, keyword: (string, string) -> bool): (h: Option<Handler>)
    ensures h.Some? ==> exists i :: 0 <= i < |regs| && regs[i].handler == h.value
  {
    if regs == [] then None
    else if HearsMessage(regs[0], m, keyword) then Some(regs[0].handler)
    else
      var h := FirstHeard(regs[1..], m, keyword);
      assert h.Some? ==> exists i :: 1 <= i < |regs| && regs[i].handler == h.value by {
        if h.Some? {
          var j :| 0 <= j < |regs[1..]| && regs[1..][j].handler == h.value;
          assert regs[j + 1].handler == h.value;
        }
      }
      h
  }

  /** First match wins: the handler chosen is that of a registration that
      hears the message and that no earlier registration hears; and nothing
      is chosen exactly when no registration hears it. */
  lemma {:induction false} FirstHeardIsFirst(regs: seq<Registration>, m: Message, keyword: (string, string) -> bool)
    ensures FirstHeard(regs, m, keyword).None? <==>
      forall i :: 0 <= i < |regs| ==> !HearsMessage(regs[i], m, keyword)
    ensures FirstHeard(regs, m, keyword).Some? ==>
      exists i :: 0 <= i < |regs| && HearsMessage(regs[i], m, keyword) &&
        regs[i].handler == FirstHeard(regs, m, keyword).value &&
        forall j :: 0 <= j < i ==> !HearsMessage(regs[j], m, keyword)
  {
    if regs != [] && !HearsMessage(regs[0], m, keyword) {
      var rest := regs[1..];
      FirstHeardIsFirst(rest, m, keyword);
      if FirstHeard(rest, m, keyword).Some? {
        var i :| 0 <= i < |rest| && HearsMessage(rest[i], m, keyword) &&
          rest[i].handler == FirstHeard(rest, m, keyword).value &&
          forall j :: 0 <= j < i ==> !HearsMessage(rest[j], m, keyword);
        assert regs[i + 1] == rest[i];
        forall j | 0 <= j < i + 1
          ensures !HearsMessage(regs[j], m, keyword)
        {
          if j > 0 { assert regs[j] == rest[j - 1]; }
        }
      } else {
        forall i | 0 <= i < |regs|
          ensures !HearsMessage(regs[i], m, keyword)
        {
          if i > 0 { assert regs[i] == rest[i - 1]; }
        }
      }
    }
  }

  /** The handler the bot runs for a message, if any. */
  function Dispatch(m: Message, keyword: (string, string) -> bool): Option<Handler>
  {
    FirstHeard(Registry, m, keyword)
  }

  predicate AnyKeyword(words: seq<string>, text: string, keyword: (string, string) -> bool)
  {
    exists i :: 0 <= i < |words| && keyword(words[i], text)
  }

  /** What each registration hears, in terms of the keyword test. */
  lemma RegistryHears(m: Message, keyword: (string, string) -> bool)
    ensures HearsMessage(Registry[0], m, keyword) <==>
      m.context in Addressed && AnyKeyword(["hello", "hi", "howdy"], m.text, keyword)
    ensures HearsMessage(Registry[1], m, keyword) <==>
      m.context in Addressed && AnyKeyword(["hungry", "food", "restaurant"], m.text, keyword)
    ensures HearsMessage(Registry[2], m, keyword) <==> m.context in Addressed && keyword("help", m.text)
    ensures HearsMessage(Registry[3], m, keyword) <==> m.context in Addressed
  {
    var r := Registry;
    assert PatternMatches(r[3].patterns[0], m.text, keyword);
    var greet := ["hello", "hi", "howdy"];
    if m.context in Addressed && AnyKeyword(greet, m.text, keyword) {
      var i :| 0 <= i < 3 && keyword(greet[i], m.text);
      assert PatternMatches(r[0].patterns[i], m.text, keyword);
    }
    if HearsMessage(r[0], m, keyword) {
      var i :| 0 <= i < 3 && PatternMatches(r[0].patterns[i], m.text, keyword);
      assert keyword(greet[i], m.text);
    }
    var food := ["hungry", "food", "restaurant"];
    if m.context in Addressed && AnyKeyword(food, m.text, keyword) {
      var i :| 0 <= i < 3 && keyword(food[i], m.text);
      assert PatternMatches(r[1].patterns[i], m.text, keyword);
    }
    if HearsMessage(r[1], m, keyword) {
      var i :| 0 <= i < 3 && PatternMatches(r[1].patterns[i], m.text, keyword);
      assert keyword(food[i], m.text);
    }
    if m.context in Addressed && keyword("help", m.text) {
      assert PatternMatches(r[2].patterns[0], m.text, keyword);
    }
  }

  /** The dispatch order in full: a greeting word wins over everything, a
      food word over help, "help" over the catch-all; the catch-all takes
      every other addressed message; an unaddressed message gets no handler. */
  lemma DispatchOrder(m: Message, keyword: (string, string) -> bool)
    ensures m.context !in Addressed ==> Dispatch(m, keyword) == None
    ensures m.context in Addressed ==>
      Dispatch(m, keyword) ==
        if AnyKeyword(["hello", "hi", "howdy"], m.text, keyword) then Some(Greet)
        else if AnyKeyword(["hungry", "food", "restaurant"], m.text, keyword) then Some(Food)
        else if keyword("help", m.text) then Some(Help)
        else Some(CatchAll)
  {
    RegistryHears(m, keyword);
    FirstHeardIsFirst(Registry, m, keyword);
    var h := Dispatch(m, keyword);
    if h.Some? {
      var i :| 0 <= i < |Registry| && HearsMessage(Registry[i], m, keyword) &&
        Registry[i].handler == h.value &&
        forall j :: 0 <= j < i ==> !HearsMessage(Registry[j], m, keyword);
      assert i == 0 || !HearsMessage(Registry[0], m, keyword);
      assert i <= 1 || !HearsMessage(Registry[1], m, keyword);
      assert i <= 2 || !HearsMessage(Registry[2], m, keyword);
    } else {
      assert !HearsMessage(Registry[3], m, keyword);
    }
  }

  /** Every addressed message gets a handler: the catch-all, registered
      last, hears every text. */
  lemma DispatchTotal(m: Message, keyword: (string, string) -> bool)
    requires m.context in Addressed
    ensures Dispatch(m, keyword).Some?
  {
    FirstHeardIsFirst(Registry, m, keyword);
    assert PatternMatches(Registry[3].patterns[0], m.text, keyword);
    assert HearsMessage(Registry[3], m, keyword);
  }

  /** The one message a handler sends at once. `userName` is what the user
      lookup answered (a name, or nothing on failure). The food handler's
      message is the opening question of the conversation it starts. */
  function HandlerReply(h: Handler, userName: Option<string>): Reply
  {
    match h
    case Greet => Greeting(userName)
    case Food => Say(OpeningQuestion)
    case Help => Say(HelpText)
    case CatchAll => Say(NotUnderstood)
  }

  /** An addressed message with a greeting word is greeted: by name when
      the user lookup answered, with "Hello there!" otherwise. */
  lemma GreetingWordIsGreeted(m: Message, keyword: (string, string) -> bool, userName: Option<string>)
    requires m.context in Addressed
    requires AnyKeyword(["hello", "hi", "howdy"], m.text, keyword)
    ensures Dispatch(m, keyword) == Some(Greet)
    ensures var r := HandlerReply(Greet, userName);
      "Hello" <= r.text && r.attachments == [] &&
      (r.text == GenericGreeting <==> userName.None?) &&
      (userName.Some? ==>
        "Hello, " <= r.text && r.text[7..|r.text| - 1] == userName.value && r.text[|r.text| - 1] == '!')
  {
    DispatchOrder(m, keyword);
  }

  /** An addressed message with a food word and no greeting word goes to the
      food handler, which `Hear` answers by starting a conversation. */
  lemma FoodWordOpensDialogue(m: Message, keyword: (string, string) -> bool)
    requires m.context in Addressed
    requires !AnyKeyword(["hello", "hi", "howdy"], m.text, keyword)
    requires AnyKeyword(["hungry", "food", "restaurant"], m.text, keyword)
    ensures Dispatch(m, keyword) == Some(Food)
  {
    DispatchOrder(m, keyword);
  }

  /** A message that is addressed to the bot and carries neither a greeting
      nor a food word is answered with the help text or the catch-all
      apology. */
  lemma NoKeywordGetsHelpOrApology(m: Message, keyword: (string, string) -> bool, userName: Option<string>)
    requires m.context in Addressed
    requires !AnyKeyword(["hello", "hi", "howdy"], m.text, keyword)
    requires !AnyKeyword(["hungry", "food", "restaurant"], m.text, keyword)
    ensures var h := Dispatch(m, keyword);
      h.Some? &&
      HandlerReply(h.value, userName) == Say(if keyword("help", m.text) then HelpText else NotUnderstood)
  {
    DispatchOrder(m, keyword);
  }

  /** Handles a message that no conversation is waiting on: picks the
      handler, sends its message, and, for a food word, starts a
      conversation that has asked its first question. */
  method Hear(m: Message, keyword: (string, string) -> bool, userName: Option<string>,
              u: Utterances, search: Query -> SearchOutcome)
    returns (reply: Option<Reply>, convo: Conversation?)
    ensures Dispatch(m, keyword).None? ==> reply.None? && convo == null
    ensures Dispatch(m, keyword).Some? ==> reply == Some(HandlerReply(Dispatch(m, keyword).value, userName))
    ensures convo != null <==> Dispatch(m, keyword) == Some(Food)
    ensures convo != null ==>
      fresh(convo) && convo.Valid() && convo.state == AwaitingConfirmation &&
      convo.sent == [reply.value] && convo.utterances == u && convo.search == search
  {
    var h := Dispatch(m, keyword);
    convo := null;
    if h.None? {
      reply := None;
    } else {
      reply := Some(HandlerReply(h.value, userName));
      if h.value == Food {
        convo := new Conversation.Start(u, search);
      }
    }
  }
}
