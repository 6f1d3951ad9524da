/** The outbound messages of the bot: the fixed sentences it sends, the
    greeting, and the reply built from a business search
    (src/server.js:73-157). Everything here is a pure function of its inputs. */
module Replies {
  import opened Wrappers

  /** A Slack message attachment as the bot fills it in. */
  datatype Attachment = Attachment(title: string, titleLink: string, text: string, imageUrl: string)

  /** An outbound message: its text and its attachments. */
  datatype Reply = Reply(text: string, attachments: seq<Attachment>)

  /** One business record of a search response. The rating is kept as the
      text a template literal renders it to; the bot never computes with it. */
  datatype Business = Business(name: string, url: string, rating: string, imageUrl: string)

  /** What the search promise settles to: rejected (network error, bad
      credentials, a body without a business list), or resolved with the
      ordered business list of the response body. */
  datatype SearchOutcome = Rejected | Resolved(businesses: seq<Business>)

  /** The one search the dialogue makes: what to eat and where. */
  datatype Query = Query(term: string, location: string)

  /** The exception the `.then` callback raises when it reads a field of an
      element that is not there. */
  datatype Exception = TypeError

  const OpeningQuestion: string := "Do you want restaurant recommendations near you?"
  const FoodTypeQuestion: string := "Great! What type of food would you like?"
  const LocationQuestion: string := "Where are you right now? "
  const BadChoice: string := "Bad choice."
  const NotUnderstood: string := "Sorry, I do not understand what you are saying."
  const HelpText: string := "Hi! If you say hi to me, I will say hi back to you. Otherwise, to get a restaurant recommendation, tell me you are hungry!"
  const FoundText: string := "Here is a restaurant in the area"
  const NoRestaurants: string := "No restaurants found. Sorry."
  const GenericGreeting: string := "Hello there!"

  /** A reply that is plain text. */
  function Say(text: string): Reply
  {
    Reply(text, [])
  }

  /** The greeting: the user's name when the user lookup answered, a generic
      greeting otherwise. The two forms cannot be confused, and the name can
      be read back out of the text. */
  function Greeting(name: Option<string>): (r: Reply)
    ensures r.attachments == []
    ensures "Hello" <= r.text
    ensures r.text == GenericGreeting <==> name.None?
    ensures name.Some? ==>
      |r.text| == |name.value| + 8 && "Hello, " <= r.text &&
      r.text[7..|r.text| - 1] == name.value && r.text[|r.text| - 1] == '!'
  {
    match name
    case Some(n) =>
      var t := "Hello, " + n + "!";
      assert t[5] == ',' != GenericGreeting[5];
      assert t[7..|t| - 1] == n;
      Say(t)
    case None => Say(GenericGreeting)
  }

  /** The text `Rating: ${rating} stars`; the rating can be read back out of it. */
  function RatingText(rating: string): (r: string)
    ensures |r| == |rating| + 14
    ensures "Rating: " <= r && r[8..|r| - 6] == rating && r[|r| - 6..] == " stars"
  {
    var t := "Rating: " + rating + " stars";
    assert t[8..|t| - 6] == rating;
    assert t[|t| - 6..] == " stars";
    t
  }

  /** The attachment built from one business record. */
  function Card(b: Business): Attachment
  {
    Attachment(b.name, b.url, RatingText(b.rating), b.imageUrl)
  }

  /** The `.then` callback as written: it reads `businesses[0]` without
      checking that the list has an element, so on an empty list it throws. */
  function OnResolved(businesses: seq<Business>): Result<Reply, Exception>
  {
    if |businesses| == 0 then Thrown(TypeError)
    else Ok(Reply(FoundText, [Card(businesses[0])]))
  }

  /** The reply the search promise chain sends: the `.then` reply when the
      search resolved and the callback did not throw, the `.catch` apology
      otherwise. A non-empty result gives exactly one attachment, built from
      the first business only; a rejection or an empty list gives the
      apology with no attachment. */
  function SearchReply(outcome: SearchOutcome): (r: Reply)
    ensures outcome.Resolved? && |outcome.businesses| > 0 ==>
      r.text == FoundText && r.attachments == [Card(outcome.businesses[0])]
    ensures !(outcome.Resolved? && |outcome.businesses| > 0) ==> r == Say(NoRestaurants)
    ensures r.attachments != [] <==> outcome.Resolved? && |outcome.businesses| > 0
  {
    match outcome
    case Rejected => Say(NoRestaurants)
    case Resolved(businesses) =>
      match OnResolved(businesses)
      case Ok(reply) => reply
      case Thrown(_) => Say(NoRestaurants)
  }

  /** The attachment describes the first business: its title is the name,
      its link the URL, its image the image URL, and its text carries the
      rating. */
  lemma SearchReplyDescribesFirst(outcome: SearchOutcome)
    requires outcome.Resolved? && |outcome.businesses| > 0
    ensures var r := SearchReply(outcome); var b := outcome.businesses[0];
      |r.attachments| == 1 &&
      r.attachments[0].title == b.name && r.attachments[0].titleLink == b.url &&
      r.attachments[0].imageUrl == b.imageUrl &&
      r.attachments[0].text[8..|r.attachments[0].text| - 6] == b.rating
  {
  }
}
