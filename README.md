# Slack food-recommendation bot: the message handlers and the food dialogue

This project models the message handling of a small Slack bot (`src/server.js`). The model is written in Dafny and its properties are proved. The bot registers four handlers, which are tried in order:

1. a greeting ("hello", "hi", "howdy"),
2. a food request ("hungry", "food", "restaurant"),
3. "help",
4. a catch-all `^.*`.

All four listen to direct messages, direct mentions and mentions. The first handler that matches a message answers it. The food handler starts a three-question conversation:

1. Does the user want a recommendation? A yes moves on. A no ends it with "Bad choice.". Any other answer gets an apology and the question stays open.
2. What type of food? Any text is accepted.
3. Where is the user? Any text is accepted.

After the third answer, the bot makes one business search with the two texts. It replies with the first business found as an attachment, or with "No restaurants found. Sorry.".

Modules:

- `Wrappers` (`wrappers.dfy`): `Option` and `Result`.
- `Replies` (`replies.dfy`): the fixed sentences, the greeting, and the reply built from the outcome of the search promise chain. These are all pure functions.
- `Dialogue` (`dialogue.dfy`): the conversation's `State`, the one-answer transition `Step`, and `Run`, which feeds a sequence of user messages and records replies and searches. It also holds the `Conversation` class, whose `Advance` method updates its state in place and is proved against `Step`. A ghost history in the class is tied to `Run` by `Valid()`.
- `Hears` (`hears.dfy`): the handler registry in registration order, first-match dispatch, the reply of each handler, and `Hear`. `Hear` handles a message and, for a food word, creates the conversation.

The outside world enters the model as parameters:

- The chat library's keyword test is a function `keyword(word, text)`. The model does not assume any case or substring rule for it.
- The catch-all pattern `^.*` is modelled as matching every text. The regular expression `.*` matches the empty prefix of any string.
- The yes and no recognisers are two functions, `Utterances.yes` and `Utterances.no`. The yes handler is listed first, so a text that both accept counts as yes.
- The Slack user lookup is an `Option<string>` holding the user's name.
- The business search is a function from the query (term, location) to its outcome. The outcome is either a rejected promise or a resolved list of businesses. The conversation receives this function when it starts. A conversation searches at most once, so a fixed function loses nothing.
- The rating is kept as the text it renders to.

Where the code decides, the model follows the code:

- The location question is `"Where are you right now? "`, with a trailing space.
- An answer to the confirmation question that is neither yes nor no gets the apology. The conversation stays on that question and the question is not asked again. The code calls neither `convo.next` nor `convo.repeat` there.
- There is no third kind of ending: a conversation ends only by being cancelled or completed.
- An empty business list gets the apology because reading `businesses[0].name` throws inside `.then` and the `.catch` handles it. `Replies.OnResolved` models that throw explicitly.

## Model

| member | source | states |
|---|---|---|
| Replies.Greeting | src/server.js:74-79 | the greeting has no attachment; it is "Hello there!" exactly when the user lookup gave no result; otherwise it is "Hello, " followed by the user's name and "!" (prefix, name, closing "!" and length are all stated) |
| Replies.RatingText | src/server.js:111 | the attachment text is "Rating: " + rating + " stars", and the rating can be read back from it |
| Replies.SearchReply | src/server.js:102-121 | a resolved search with at least one business gives "Here is a restaurant in the area" with exactly one attachment, built from the first business only; a rejected search or an empty list gives exactly "No restaurants found. Sorry." with no attachment; an attachment is present if and only if the list was non-empty |
| Replies.Card | src/server.js:108-113 | the attachment built from one business; `SearchReplyDescribesFirst` states its title, link, image and rating text, and `RatingText` pins the rating text |
| Replies.OnResolved | src/server.js:102-115 | the `.then` callback as written: it throws on an empty list because it reads `businesses[0]` unchecked; `SearchReply` states the reply this gives after the `.catch` |
| Replies.SearchReplyDescribesFirst | src/server.js:106-114 | the attachment's title is the first business's name, its link the URL, its image the image URL, and its text carries the rating |
| Dialogue.Step | src/server.js:89-146 | one answer to the open question: on the confirmation question a yes sends the food question, a no sends "Bad choice." and cancels, and anything else sends the apology and stays; any text is taken as the food type and the location question is sent; any text is taken as the location, and the one search is made and its reply sent. `StepMovesForward` states its properties and `Conversation.Advance` is proved against it |
| Dialogue.StepMovesForward | src/server.js:86-146 | one answer never moves the dialogue back; the state stays the same exactly on an answer to the confirmation question that is neither yes nor no; a no there (and not yes) cancels; any text is taken as the food type; a search is made exactly on the location answer, with the captured food type and the location text, and completes the dialogue |
| Dialogue.Run | src/server.js:86-146 | feeds user messages to the conversation until they run out or it ends; `RunOneReplyEach`, `RunAtMostOneSearch`, `RunStaysEnded`, `RunUnclassified`, `RunDeclined`, `RunRetriedThenDeclined`, `RunAccepted` and `RunRetriedThenAccepted` state its properties |
| Dialogue.RunOneReplyEach | src/server.js:86-146 | every message the conversation takes gets exactly one message back; it stops taking messages only once it has ended; it never moves back |
| Dialogue.RunAtMostOneSearch | src/server.js:101-102 | a conversation searches exactly once if it completes and never otherwise |
| Dialogue.RunStaysEnded | src/server.js:117-137 | after "Bad choice." or the search reply, the conversation takes no further message |
| Dialogue.RunUnclassified | src/server.js:140-144 | answers that are neither yes nor no each get "Sorry, I do not understand what you are saying.", ask nothing new, search nothing, and leave the conversation on the confirmation question |
| Dialogue.RunDeclined | src/server.js:133-138 | a no as the first answer sends "Bad choice." and ends the conversation; no further question, no search |
| Dialogue.RunRetriedThenDeclined | src/server.js:133-144 | a no after any number of unrecognised answers: one apology each, then "Bad choice."; the conversation is cancelled, nothing is searched, and later messages are not taken |
| Dialogue.RunAccepted | src/server.js:89-130 | yes, a food type and a location give "Great! What type of food would you like?", "Where are you right now? " and the search reply; the one search uses exactly the food-type and location texts; the conversation then ends |
| Dialogue.RunConfirmedThenAnswered | src/server.js:89-130 | from the open confirmation question, a yes, a food type and a location add the food question, the location question and the search reply, add one search on exactly those two texts, and complete the conversation |
| Dialogue.RunRetriedThenAccepted | src/server.js:86-146 | any number of unrecognised answers, then yes, food type and location, give the apologies followed by the two questions and the search reply, with one search on exactly the given texts |
| Dialogue.Conversation.Start | src/server.js:85-88 | a new conversation has asked "Do you want restaurant recommendations near you?" and nothing else, and waits for the confirmation answer |
| Dialogue.Conversation.Advance | src/server.js:89-146 | delivering a message updates the state and sends one reply and at most one search, as `Step` says; the ghost history stays tied to `Run`, and the conversation never has more than one search |
| Hears.Dispatch | src/server.js:73-157 | the handler of the first registration that hears the message; `FirstHeardIsFirst` and `DispatchOrder` characterise it |
| Hears.FirstHeard | src/server.js:73-157 | a chosen handler is the handler of some registration |
| Hears.FirstHeardIsFirst | src/server.js:73-157 | first match wins: the chosen handler's registration hears the message and no earlier one does; nothing is chosen exactly when no registration hears it |
| Hears.RegistryHears | src/server.js:73-155 | each of the four registrations hears exactly the addressed messages that carry one of its keywords; the catch-all hears every addressed message |
| Hears.DispatchOrder | src/server.js:73-157 | greeting beats food, food beats help, help beats the catch-all, and the catch-all takes every other addressed message; a message in any other context gets no handler |
| Hears.DispatchTotal | src/server.js:155-157 | every direct message, direct mention and mention gets a handler |
| Hears.GreetingWordIsGreeted | src/server.js:73-81 | an addressed message with a greeting word goes to the greeting handler, which answers "Hello, " + name + "!" (prefix, name and closing "!" stated) when the lookup answered and "Hello there!" otherwise |
| Hears.HandlerReply | src/server.js:74-156 | the message each handler sends: the greeting (lines 76-78), the opening question (87), the help text (151), the catch-all apology (156); `GreetingWordIsGreeted`, `NoKeywordGetsHelpOrApology` and `Hear` state what a message receives |
| Hears.FoodWordOpensDialogue | src/server.js:84-88 | an addressed message with a food word and no greeting word goes to the food handler; that its first and only output is the confirmation question is stated by `Hear` together with `Conversation.Start` |
| Hears.NoKeywordGetsHelpOrApology | src/server.js:150-157 | an addressed message with no greeting or food word is answered with the help text or "Sorry, I do not understand what you are saying." |
| Hears.Hear | src/server.js:73-157 | a message gets the reply of the handler dispatch chooses, or none outside the three contexts; a conversation is created exactly when the food handler fires, and it has sent exactly that reply |

## Left out

- The Express application, middleware, views, static files, the index route and the port arithmetic (src/server.js:1-47) are not modelled. They are HTTP plumbing.
- The Botkit controller, the real-time connection, the webhook endpoints and the `outgoing_webhook` "yeah yeah" reply (src/server.js:49-69, 159-161) are not modelled. They are connection wiring.
- The chat library's keyword matching and its yes/no recognisers are parameters. Their case and substring rules belong to the library and are not modelled.
- The Yelp HTTP call and the Slack `users.info` call are inputs. The search is a function from query to outcome, and the user lookup is an optional name. A body without a business list is modelled as a rejected search, since reading it throws into the same `.catch`.
- The library's store of active conversations is not modelled. The library routes a user's next message to the open conversation instead of the handlers; the model only provides `Advance` for that message.
- Promise scheduling and conversation timeouts are not modelled. The location answer is handled as one step that includes the search result. So a message that arrives while the search is still pending is not modelled: in the code it would reach the same location callback again and start a second search.
- `Replies.Card`: the rating is kept as the text the JSON number renders to, so number formatting and rating arithmetic are not modelled.
- Missing fields in a business record (rendered as "undefined" by the template literals) are not modelled. Every business record has all four fields.
