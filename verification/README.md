# Chatbot intent router — a Dafny model

This project models the routing core of a small chatbot HTTP API. It covers
three pieces of `api_app.py`:

- `detect_mode`: lower-cases a message and tests three fixed keyword lists in
  a fixed order, home, then recipe, then shopping. A list matches when any of
  its keywords is a substring of the text. When no list matches, the mode is
  `general`.
- The POST `/chat` handler. It strips the message. A clear-session phrase
  (`exit`, `bye`, `clear chat`, compared after lower-casing) is answered with
  `"Chat session cleared."`. Any other message is classified and sent to
  exactly one handler. Only the recipe handler also gets the chat history.
- The GET `/chat` handler. It strips the `msg` parameter. An empty message
  gets a usage prompt. Any other message is classified and dispatched with an
  empty history, and the reply is prefixed with `"🤖 Bot: "`. There is no
  clear-session check on this path.

The four downstream handlers (`home_assistant_response`, `recipe_chat_response`,
`categorize_items`, `general_chat_response`) are opaque. The model receives
them as function values in a `Handlers<H>` record. `H` is the type of the
`chat_history` value. The router never inspects that value, and the client may
send any JSON value there, so `H` is left abstract. The empty list `[]`, which
the source uses as the default and on GET, is passed in as a value `empty: H`.

Files:

- `text.dfy`, module `Text`: Python's `str.strip()`, `str.lower()` and the
  substring test `w in t`. `strip` and `in` are each proved to agree with an independent
  specification. For `strip` this is the `StripsTo` cut, which is proved
  unique. For `in` it is the existence of a matching slice.
- `intent.dfy`, module `Intent`: the `Mode` datatype, the keyword lists, and
  `DetectMode`. It also holds the if-and-only-if characterisation of
  `DetectMode` and the properties that follow from it.
- `chat.dfy`, module `Chat`: handler calls (`Call`, `Dispatch`, `Run`), the
  POST and GET decisions (`PlanPost`, `PlanGet`) and replies (`PostReply`,
  `GetReply`), request fields with defaults, and concrete scenarios.

## Model

| member | source | states |
|---|---|---|
| Text.TrimStartSpec | api_app.py:32 | the leading-whitespace cut leaves a suffix that is empty or starts with a non-space; everything dropped is whitespace |
| Text.TrimEndSpec | api_app.py:32 | the trailing-whitespace cut leaves a prefix that is empty or ends with a non-space; everything dropped is whitespace |
| Text.TrimSpec | api_app.py:32 | `strip()` leaves a slice of the input with only whitespace outside it, whose ends are non-space when it is non-empty; the result is empty exactly when the input is all whitespace |
| Text.StripIsUnique | api_app.py:57 | any two cuts meeting the strip contract leave the same middle, so the contract fixes the result of `strip()` |
| Text.TrimUnpadded | api_app.py:57 | a string with no whitespace at either end is unchanged by `strip()` |
| Text.TrimPadded | api_app.py:32 | `strip()` removes exactly the whitespace padding around an unpadded middle |
| Text.TrimIdempotent | api_app.py:32 | stripping an already stripped message changes nothing |
| Text.LowerIsIdempotent | api_app.py:17 | lower-casing twice equals lower-casing once, and a lowered string has no ASCII capital letter |
| Text.LowerConcat | api_app.py:17 | the modelled lower-casing (ASCII capitals and the Kelvin sign) of a concatenation is the concatenation of the lowered parts |
| Text.OccursIffContains | api_app.py:18 | the left-to-right scan finds `w` in `t` exactly when some slice of `t` equals `w` (Python's `w in t`) |
| Text.AbsentCharBlocks | api_app.py:18 | a keyword with a character the text lacks is not a substring of it |
| Text.ContainsInContext | api_app.py:18 | a substring stays a substring when text is added on either side |
| Intent.LabelRoundTrip | api_app.py:40-47 | the label string of each mode reads back as that mode through the handlers' comparison chain, and distinct modes have distinct labels |
| Intent.AnyOccursIff | api_app.py:18-23 | `any(word in text for word in words)` holds exactly when some keyword of the list is a substring of the text |
| Intent.DetectModeSpec | api_app.py:16-25 | one if-and-only-if per mode: home exactly when a home keyword occurs in the lowered text; recipe exactly when no home keyword but a recipe keyword occurs; shopping exactly when neither of those but a shopping keyword occurs; general exactly when none occurs |
| Intent.HomeWins | api_app.py:17-19 | any home keyword in the lowered text gives the home mode, whatever other keywords are present |
| Intent.RecipeBeatsShopping | api_app.py:20-21 | without a home keyword, any recipe keyword gives the recipe mode, even if shopping keywords are present |
| Intent.NotMentioned | api_app.py:18-23 | a keyword list is not matched when each of its keywords has a character missing from the lowered text |
| Intent.CaseInsensitive | api_app.py:17 | two messages that lower-case alike get the same mode; in particular a message and its lower-cased form do |
| Intent.ContextNeverLowersPriority | api_app.py:18-25 | adding text before or after a message never moves it to a mode tested later, because matches are substrings |
| Intent.ChairIsHome | api_app.py:18 | "chair" is classified as home because it contains "air"; matching is by substring, not by whole word |
| Intent.EmptyIsGeneral | api_app.py:24-25 | the empty message is classified as general |
| Intent.PriorityIgnoresPosition | api_app.py:18-23 | "I need to cook" is classified as recipe although the shopping keyword "need" comes first in the text |
| Intent.SessionWordIsGeneral | api_app.py:16-25 | each of the three clear-session phrases "exit", "bye" and "clear chat", taken as a message, matches no keyword list and is classified as general |
| Intent.ExitIsGeneral | api_app.py:16-25 | "exit" matches no keyword list and is classified as general |
| Intent.ByeIsGeneral | api_app.py:16-25 | "bye" matches no keyword list and is classified as general |
| Intent.ClearChatIsGeneral | api_app.py:16-25 | "clear chat" matches no keyword list and is classified as general |
| Intent.RecipeForSoupIsRecipe | api_app.py:20-21 | "recipe for soup" has no home keyword and is classified as recipe |
| Intent.TurnOnTheLampIsHome | api_app.py:17-19 | "turn on the lamp" is classified as home (it contains "turn on" and "lamp") |
| Chat.Dispatch | api_app.py:40-47 | the call goes to the handler of the given mode, carries the message unchanged, and carries the history only when it is the recipe handler |
| Chat.DispatchRoundTrip | api_app.py:40-47 | a call is rebuilt by dispatching its own target, message and (for recipe) history, so a call is fully determined by those |
| Chat.RunUsesOnlyTarget | api_app.py:40-47 | performing a call consults only its own handler; replacing the other three leaves the reply unchanged |
| Chat.PlanPost | api_app.py:32-47 | POST short-circuits exactly when the stripped, lowered message is `exit`, `bye` or `clear chat`; otherwise it calls the handler of the detected mode of the stripped message with that message, passing the request's history to the recipe handler |
| Chat.LongMessageDoesNotClear | api_app.py:35 | a stripped message longer than ten characters is never a clear-session phrase, whatever its case |
| Chat.PostClearIgnoresHandlers | api_app.py:35-36 | for a clear-session phrase the reply is "Chat session cleared." whatever the handlers are, so no handler is called |
| Chat.PostCallsSelectedHandler | api_app.py:38-49 | for any other message the reply is the detected mode's handler applied to the stripped message, plus the history for the recipe handler only |
| Chat.PostUsesOnlySelectedHandler | api_app.py:40-47 | on POST, the handlers other than the one for the detected mode can be anything without changing the reply |
| Chat.PostHistoryOnlyForRecipe | api_app.py:33-47 | the history affects the reply only when the message is routed to the recipe handler |
| Chat.PostBlankGoesToGeneral | api_app.py:32-47 | a whitespace-only POST message is not a clear-session phrase; the general handler is called with the empty string |
| Chat.PlanGet | api_app.py:57-71 | GET gives the usage prompt exactly when the stripped message is empty; otherwise it calls the handler of the detected mode with the stripped message and an empty history for the recipe handler; there is no clear-session check |
| Chat.GetReplyShape | api_app.py:59-73 | the usage prompt is returned exactly for a blank message; every other reply is the bot prefix followed by the selected handler's reply |
| Chat.GetCallsSelectedHandler | api_app.py:59-73 | a non-blank GET message is answered, behind the bot prefix, by the detected mode's handler applied to the stripped message, with an empty history for the recipe handler |
| Chat.GetAgreesWithPost | api_app.py:57-73 | for a message that is neither blank nor a clear-session phrase, the GET reply is the bot prefix followed by the POST reply with an empty history |
| Chat.MissingFieldsDefault | api_app.py:32-33 | a POST body without `message` reaches the general handler with ""; one without `chat_history` answers as with the empty list; a GET without `msg` gets the usage prompt |
| Chat.PresentHistoryPassedOn | api_app.py:33-43 | the `[]` default applies only to an absent key: a `chat_history` that is present, whatever JSON value it holds (`null` included), reaches the recipe handler unchanged |
| Chat.PaddedByeClears | api_app.py:32-36 | "Bye" with any whitespace padding on POST is stripped and lower-cased to "bye" and clears the session |
| Chat.GetRoutesSessionWordsToGeneral | api_app.py:57-73 | GET has no clear-session check: a clear-session phrase in any case and padding reaches the general handler with the stripped message, behind the bot prefix |
| Chat.LampRequestGoesHome | api_app.py:38-41 | "turn on the lamp" on POST reaches the home handler with the message unchanged |
| Chat.RecipeOnGetGetsEmptyHistory | api_app.py:62-73 | "recipe for soup" on GET reaches the recipe handler with an empty history, behind the bot prefix |

## Left out

- Flask routing, `request.get_json`, `request.args`, `jsonify`, status codes and `app.run` (api_app.py:1, 7, 28-31, 49, 55, 76-82) are web-framework I/O. The model starts from the extracted message and history: `PostBody` holds the two JSON keys, each absent or present with its value (a present `chat_history` may be any JSON value), and `ChatGet` takes the optional `msg` parameter.
- `load_dotenv` and environment configuration (api_app.py:2-6) are process-global start-up effects with no bearing on routing.
- The four handler modules (api_app.py:10-13) are not part of this model. Their code is not available, and they appear to call external services. They are opaque function values supplied by the caller.
- The conversion of exceptions into a 500 `{"error": ...}` response (api_app.py:30, 51-52) is not modelled. So are the failures that would trigger it: a handler raising, a body that is not a JSON object, or a `message` that is not a string. The handlers here are total functions. The GET path's lack of exception handling is therefore not visible either.
- The fixed welcome string of `/` (api_app.py:78) contains no logic.
- Text.LowerIsIdempotent: lower-casing is modelled for ASCII capitals and the Kelvin sign (U+212A, whose lower case is `k`), not for all of Unicode. Full `str.lower()` maps other capitals to non-ASCII letters, which cannot create or break a match of the all-ASCII keywords or clear-session phrases. The one exception is `İ` (U+0130), which becomes two characters, `i` followed by a combining dot. That `i` cannot end a keyword match, because no keyword ends in `i` and the dot is in no keyword. Routing decisions therefore agree with the full mapping. What the model does not reproduce is the exact lowered text. In particular, Python lowers `Σ` to `ς` at the end of a word (the Final_Sigma rule), so full `str.lower()` is not character by character and `Text.LowerConcat` holds only for the model's mapping. Neither `σ` nor `ς` occurs in any keyword or phrase, so routing is unaffected.
- Whitespace for `strip()` is Python's `str.isspace()` set, written out in `Text.IsSpace`, so stripping is exact.
