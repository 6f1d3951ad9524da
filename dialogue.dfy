/** The food-recommendation dialogue (src/server.js:84-148): a conversation
    that asks whether the user wants a recommendation, then the type of food,
    then the location, and answers with one search result. */
module Dialogue {
  import opened Wrappers
  import opened Replies

  /** Where the conversation stands: which question the user is answering,
      or how it ended. The food type, once given, travels with the state. */
  datatype State =
    | AwaitingConfirmation
    | AwaitingFoodType
    | AwaitingLocation(foodType: string)
    | Cancelled
    | Completed

  predicate Terminal(s: State)
  {
    s.Cancelled? || s.Completed?
  }

  /** How far the dialogue has got; no step moves it back. */
  function Stage(s: State): nat
  {
    match s
    case AwaitingConfirmation => 0
    case AwaitingFoodType => 1
    case AwaitingLocation(_) => 2
    case Cancelled => 3
    case Completed => 3
  }

  /** The chat library's yes and no recognisers. The confirmation question
      lists the yes handler first, so a text both accept counts as yes. */
  datatype Utterances = Utterances(yes: string -> bool, no: string -> bool)

  /** What one answer does: the next state, the one message sent for it, and
      the search made, if any. */
  datatype Effect = Effect(next: State, reply: Reply, query: Option<Query>)

  function QueryList(q: Option<Query>): seq<Query>
  {
    if q.Some? then [q.value] else []
  }

  /** One answer to the conversation's current question. `search` stands for
      the business-search service, queried with the captured texts. */
  function Step(s: State, text: string, u: Utterances, search: Query -> SearchOutcome): Effect
    requires !Terminal(s)
  {
    match s
    case AwaitingConfirmation =>
      if u.yes(text) then Effect(AwaitingFoodType, Say(FoodTypeQuestion), None)
      else if u.no(text) then Effect(Cancelled, Say(BadChoice), None)
      else Effect(AwaitingConfirmation, Say(NotUnderstood), None)
    case AwaitingFoodType =>
      Effect(AwaitingLocation(text), Say(LocationQuestion), None)
    case AwaitingLocation(foodType) =>
      var q := Query(foodType, text);
      Effect(Completed, SearchReply(search(q)), Some(q))
  }

  /** What one answer does, in terms of the question it answers: the
      dialogue never moves back; it stays put exactly on an answer to the
      confirmation question that is neither yes nor no; it is cancelled
      exactly on a no there; and it searches exactly when it is given the
      location, with the food type and the location as given. */
  lemma StepMovesForward(s: State, text: string, u: Utterances, search: Query -> SearchOutcome)
    requires !Terminal(s)
    ensures var e := Step(s, text, u, search);
      && Stage(e.next) >= Stage(s)
      && (e.next == s <==> s.AwaitingConfirmation? && !u.yes(text) && !u.no(text))
      && (e.next == Cancelled <==> s.AwaitingConfirmation? && !u.yes(text) && u.no(text))
      && (e.query.Some? <==> s.AwaitingLocation?)
      && (e.query.Some? ==> e.query == Some(Query(s.foodType, text)) && e.next == Completed)
      && (s.AwaitingFoodType? ==> e.next == AwaitingLocation(text))
  {
  }

  /** The record of a conversation fed a sequence of user messages: the state
      it ends in, the messages it sent, the searches it made, and how many of
      the user messages it took before it ended. */
  datatype Trace = Trace(final: State, replies: seq<Reply>, searches: seq<Query>, consumed: nat)

  /** Feeds the user messages `ts` one by one, from state `s`, until they run
      out or the conversation ends; an ended conversation takes no more. It
      is written as "all but the last message, then the last one", the way
      a live conversation grows. */
  function Run(s: State, ts: seq<string>, u: Utterances, search: Query -> SearchOutcome): Trace
    decreases |ts|
  {
    if ts == [] then Trace(s, [], [], 0)
    else
      var t := Run(s, ts[..|ts| - 1], u, search);
      if Terminal(t.final) then t
      else
        var e := Step(t.final, ts[|ts| - 1], u, search);
        Trace(e.next, t.replies + [e.reply], t.searches + QueryList(e.query), t.consumed + 1)
  }

  /** Each message the conversation takes gets exactly one message back, it
      stops taking messages only once it has ended, and it never moves back. */
  lemma {:induction false} RunOneReplyEach(s: State, ts: seq<string>, u: Utterances, search: Query -> SearchOutcome)
    ensures var t := Run(s, ts, u, search);
      |t.replies| == t.consumed <= |ts| &&
      (t.consumed < |ts| ==> Terminal(t.final)) &&
      Stage(t.final) >= Stage(s)
    decreases |ts|
  {
    if ts != [] {
      var prefix := ts[..|ts| - 1];
      RunOneReplyEach(s, prefix, u, search);
      var t := Run(s, prefix, u, search);
      if !Terminal(t.final) {
        StepMovesForward(t.final, ts[|ts| - 1], u, search);
      }
    }
  }

  /** A conversation searches at most once: exactly once if it reaches
      Completed while being fed, never otherwise. */
  lemma {:induction false} RunAtMostOneSearch(s: State, ts: seq<string>, u: Utterances, search: Query -> SearchOutcome)
    ensures var t := Run(s, ts, u, search);
      |t.searches| == (if t.final.Completed? && !s.Completed? then 1 else 0)
    decreases |ts|
  {
    if ts != [] {
      var prefix := ts[..|ts| - 1];
      RunAtMostOneSearch(s, prefix, u, search);
      RunOneReplyEach(s, prefix, u, search);
      var t := Run(s, prefix, u, search);
      if !Terminal(t.final) {
        StepMovesForward(t.final, ts[|ts| - 1], u, search);
      }
    }
  }

  /** One more message to a conversation that has not ended adds that
      message's one reply and its search, if any. */
  lemma RunLast(s: State, ts: seq<string>, text: string, u: Utterances, search: Query -> SearchOutcome)
    requires !Terminal(Run(s, ts, u, search).final)
    ensures var t := Run(s, ts, u, search); var e := Step(t.final, text, u, search);
      Run(s, ts + [text], u, search) ==
        Trace(e.next, t.replies + [e.reply], t.searches + QueryList(e.query), t.consumed + 1)
  {
    assert (ts + [text])[..|ts|] == ts;
  }

  /** Once the conversation has ended, further messages change nothing. */
  lemma {:induction false} RunStaysEnded(s: State, xs: seq<string>, ys: seq<string>, u: Utterances, search: Query -> SearchOutcome)
    requires Terminal(Run(s, xs, u, search).final)
    ensures Run(s, xs + ys, u, search) == Run(s, xs, u, search)
    decreases |ys|
  {
    if ys != [] {
      var zs := xs + ys;
      var ys' := ys[..|ys| - 1];
      assert zs[..|zs| - 1] == xs + ys';
      RunStaysEnded(s, xs, ys', u, search);
    } else {
      assert xs + ys == xs;
    }
  }

  /** Answers that are neither yes nor no never move the dialogue on: each
      gets the apology, nothing is asked and nothing is searched. */
  lemma {:induction false} RunUnclassified(ts: seq<string>, u: Utterances, search: Query -> SearchOutcome)
    requires forall i :: 0 <= i < |ts| ==> !u.yes(ts[i]) && !u.no(ts[i])
    ensures var t := Run(AwaitingConfirmation, ts, u, search);
      t.final == AwaitingConfirmation && t.searches == [] && t.consumed == |ts| &&
      |t.replies| == |ts| && forall i :: 0 <= i < |t.replies| ==> t.replies[i] == Say(NotUnderstood)
    decreases |ts|
  {
    if ts != [] {
      var prefix := ts[..|ts| - 1];
      assert forall i :: 0 <= i < |prefix| ==> prefix[i] == ts[i];
      RunUnclassified(prefix, u, search);
    }
  }

  /** A no to the confirmation question ends the conversation with "Bad
      choice.": no further question, no search, and later messages are not
      taken. */
  lemma RunDeclined(no: string, rest: seq<string>, u: Utterances, search: Query -> SearchOutcome)
    requires !u.yes(no) && u.no(no)
    ensures Run(AwaitingConfirmation, [no] + rest, u, search) == Trace(Cancelled, [Say(BadChoice)], [], 1)
  {
    assert [no][..0] == [];
    assert Run(AwaitingConfirmation, [no], u, search) == Trace(Cancelled, [Say(BadChoice)], [], 1);
    RunStaysEnded(AwaitingConfirmation, [no], rest, u, search);
  }

  /** A yes, then any food type, then any location: the food question, the
      location question, then the formatted result of the one search made
      with exactly those two texts, and the conversation is over; later
      messages are not taken. */
  lemma RunAccepted(yes: string, food: string, place: string, rest: seq<string>, u: Utterances, search: Query -> SearchOutcome)
    requires u.yes(yes)
    ensures Run(AwaitingConfirmation, [yes, food, place] + rest, u, search) ==
      Trace(Completed,
            [Say(FoodTypeQuestion), Say(LocationQuestion), SearchReply(search(Query(food, place)))],
            [Query(food, place)], 3)
  {
    RunRetriedThenAccepted([], yes, food, place, u, search);
    assert [] + [yes, food, place] == [yes, food, place];
    RunStaysEnded(AwaitingConfirmation, [yes, food, place], rest, u, search);
  }

  /** A yes to the confirmation question asks for the food type. */
  lemma RunThenYes(prefix: seq<string>, yes: string, u: Utterances, search: Query -> SearchOutcome)
    requires Run(AwaitingConfirmation, prefix, u, search).final == AwaitingConfirmation
    requires u.yes(yes)
    ensures var t := Run(AwaitingConfirmation, prefix, u, search);
      Run(AwaitingConfirmation, prefix + [yes], u, search) ==
        Trace(AwaitingFoodType, t.replies + [Say(FoodTypeQuestion)], t.searches, t.consumed + 1)
  {
    RunLast(AwaitingConfirmation, prefix, yes, u, search);
  }

  /** Any food type is taken and the location is asked for. */
  lemma RunThenFoodType(prefix: seq<string>, food: string, u: Utterances, search: Query -> SearchOutcome)
    requires Run(AwaitingConfirmation, prefix, u, search).final == AwaitingFoodType
    ensures var t := Run(AwaitingConfirmation, prefix, u, search);
      Run(AwaitingConfirmation, prefix + [food], u, search) ==
        Trace(AwaitingLocation(food), t.replies + [Say(LocationQuestion)], t.searches, t.consumed + 1)
  {
    RunLast(AwaitingConfirmation, prefix, food, u, search);
  }

  /** Any location is taken, the one search is made with the food type and
      the location, and its reply ends the conversation. */
  lemma RunThenLocation(prefix: seq<string>, food: string, place: string, u: Utterances, search: Query -> SearchOutcome)
    requires Run(AwaitingConfirmation, prefix, u, search).final == AwaitingLocation(food)
    ensures var t := Run(AwaitingConfirmation, prefix, u, search);
      Run(AwaitingConfirmation, prefix + [place], u, search) ==
        Trace(Completed, t.replies + [SearchReply(search(Query(food, place)))],
              t.searches + [Query(food, place)], t.consumed + 1)
  {
    RunLast(AwaitingConfirmation, prefix, place, u, search);
  }

  /** From the confirmation question, a yes, a food type and a location
      complete the dialogue. */
  lemma RunConfirmedThenAnswered(prefix: seq<string>, yes: string, food: string, place: string, u: Utterances, search: Query -> SearchOutcome)
    requires Run(AwaitingConfirmation, prefix, u, search).final == AwaitingConfirmation
    requires u.yes(yes)
    ensures var t := Run(AwaitingConfirmation, prefix, u, search);
      Run(AwaitingConfirmation, prefix + [yes, food, place], u, search) ==
        Trace(Completed,
              t.replies + [Say(FoodTypeQuestion), Say(LocationQuestion), SearchReply(search(Query(food, place)))],
              t.searches + [Query(food, place)], t.consumed + 3)
  {
    var t := Run(AwaitingConfirmation, prefix, u, search);
    var p1 := prefix + [yes];
    var p2 := p1 + [food];
    var p3 := p2 + [place];
    RunThenYes(prefix, yes, u, search);
    RunThenFoodType(p1, food, u, search);
    RunThenLocation(p2, food, place, u, search);
    assert p3 == prefix + [yes, food, place];
    assert t.replies + [Say(FoodTypeQuestion)] + [Say(LocationQuestion)] + [SearchReply(search(Query(food, place)))] ==
      t.replies + [Say(FoodTypeQuestion), Say(LocationQuestion), SearchReply(search(Query(food, place)))];
  }

  /** The whole dialogue: any number of unrecognised answers, then a yes,
      a food type and a location, give one apology per unrecognised answer
      followed by the two questions and the search reply, and one search
      with exactly the food type and location given. */
  lemma RunRetriedThenAccepted(others: seq<string>, yes: string, food: string, place: string, u: Utterances, search: Query -> SearchOutcome)
    requires forall i :: 0 <= i < |others| ==> !u.yes(others[i]) && !u.no(others[i])
    requires u.yes(yes)
    ensures var t := Run(AwaitingConfirmation, others + [yes, food, place], u, search);
      t.final == Completed && t.searches == [Query(food, place)] && t.consumed == |others| + 3 &&
      t.replies == Run(AwaitingConfirmation, others, u, search).replies +
        [Say(FoodTypeQuestion), Say(LocationQuestion), SearchReply(search(Query(food, place)))]
  {
    RunUnclassified(others, u, search);
    RunConfirmedThenAnswered(others, yes, food, place, u, search);
  }

  /** A no after any number of unrecognised answers: one apology each, then
      "Bad choice."; the conversation is cancelled, nothing is searched, and
      later messages are not taken. */
  lemma RunRetriedThenDeclined(others: seq<string>, no: string, rest: seq<string>, u: Utterances, search: Query -> SearchOutcome)
    requires forall i :: 0 <= i < |others| ==> !u.yes(others[i]) && !u.no(others[i])
    requires !u.yes(no) && u.no(no)
    ensures var t := Run(AwaitingConfirmation, others + [no] + rest, u, search);
      t.final == Cancelled && t.searches == [] && t.consumed == |others| + 1 &&
      t.replies == Run(AwaitingConfirmation, others, u, search).replies + [Say(BadChoice)]
  {
    RunUnclassified(others, u, search);
    RunLast(AwaitingConfirmation, others, no, u, search);
    RunStaysEnded(AwaitingConfirmation, others + [no], rest, u, search);
  }

  /** One food-recommendation conversation with one user. `heard`, `sent`
      and `searches` record what it has received, sent and searched for, and
      Valid() ties them and the current state to Run. */
  class Conversation {
    const utterances: Utterances
    const search: Query -> SearchOutcome
    var state: State
    ghost var heard: seq<string>
    ghost var sent: seq<Reply>
    ghost var searches: seq<Query>

    ghost predicate Valid()
      reads this
    {
      var t := Run(AwaitingConfirmation, heard, utterances, search);
      && state == t.final
      && t.consumed == |heard|
      && sent == [Say(OpeningQuestion)] + t.replies
      && searches == t.searches
    }

    /** Starts the conversation by asking the confirmation question. */
    constructor Start(u: Utterances, search: Query -> SearchOutcome)
      ensures Valid()
      ensures utterances == u && this.search == search
      ensures state == AwaitingConfirmation && heard == [] && searches == []
      ensures sent == [Say(OpeningQuestion)]
    {
      utterances, this.search := u, search;
      state := AwaitingConfirmation;
      heard, sent, searches := [], [Say(OpeningQuestion)], [];
    }

    /** Delivers one user message to the question the conversation is
        waiting on; returns the one message sent in answer and the search
        made, if any. */
    method Advance(text: string) returns (reply: Reply, query: Option<Query>)
      requires Valid() && !Terminal(state)
      modifies this
      ensures Valid()
      ensures Effect(state, reply, query) == Step(old(state), text, utterances, search)
      ensures heard == old(heard) + [text] && sent == old(sent) + [reply]
      ensures searches == old(searches) + QueryList(query) && |searches| <= 1
    {
      ghost var e := Step(state, text, utterances, search);
      query := None;
      match state {
        case AwaitingConfirmation =>
            if utterances.yes(text) {
            state, reply := AwaitingFoodType, Say(FoodTypeQuestion);
          } else if utterances.no(text) {
            state, reply := Cancelled, Say(BadChoice);
          } else {
            reply := Say(NotUnderstood);
          }
        case AwaitingFoodType =>
          state, reply := AwaitingLocation(text), Say(LocationQuestion);
        case AwaitingLocation(foodType) =>
          var q := Query(foodType, text);
          reply := SearchReply(search(q));
          state, query := Completed, Some(q);
      }
      assert Effect(state, reply, query) == e;
      assert (heard + [text])[..|heard|] == heard;
      heard, sent, searches := heard + [text], sent + [reply], searches + QueryList(query);
      RunAtMostOneSearch(AwaitingConfirmation, heard, utterances, search);
    }
  }
}
