/** The decisions the two `/chat` handlers of api_app.py take on a message that
    has already been read from the request: strip it, short-circuit (POST: a
    clear-session phrase; GET: an empty message), otherwise detect the mode and
    call exactly one of four handlers. The handlers themselves are opaque: they
    are given as functions. `H` is the type of the `chat_history` value, which
    the router passes on uninspected: any JSON value the client sends, not
    necessarily a list. */
module Chat {
  import opened Text
  import opened Intent

  /** The four handler functions the router calls, as opaque values. */
  datatype Handlers<-H> = Handlers(
    home: string -> string,
    recipe: (string, H) -> string,
    shopping: string -> string,
    general: string -> string)

  /** One handler call: which handler, and the arguments it receives. Only the
      recipe handler takes the chat history. */
  datatype Call<H> =
    | HomeCall(message: string)
    | RecipeCall(message: string, history: H)
    | ShoppingCall(message: string)
    | GeneralCall(message: string)
  {
    /** The mode whose handler this call goes to. */
    function Target(): Mode {
      match this
      case HomeCall(_) => Home
      case RecipeCall(_, _) => Recipe
      case ShoppingCall(_) => Shopping
      case GeneralCall(_) => General
    }
  }

  /** The if/elif chain on the detected mode: the handler for `mode`, given
      the message, and the history only when it is the recipe handler. */
  function Dispatch<H>(mode: Mode, message: string, history: H): (c: Call<H>)
    ensures c.Target() == mode
    ensures c.message == message
    ensures c.RecipeCall? ==> c.history == history
  {
    match mode
    case Home => HomeCall(message)
    case Recipe => RecipeCall(message, history)
    case Shopping => ShoppingCall(message)
    case General => GeneralCall(message)
  }

  /** A call is determined by its target, its message and, for the recipe
      handler, its history: dispatching those again rebuilds it. */
  lemma DispatchRoundTrip<H>(c: Call<H>, other: H)
    ensures Dispatch(c.Target(), c.message, if c.RecipeCall? then c.history else other) == c
  {
  }

  /** Performs the call on the given handlers. */
  function Run<H>(h: Handlers<H>, c: Call<H>): string {
    match c
    case HomeCall(m) => h.home(m)
    case RecipeCall(m, hist) => h.recipe(m, hist)
    case ShoppingCall(m) => h.shopping(m)
    case GeneralCall(m) => h.general(m)
  }

  /** `h` with every handler except the one for `mode` taken from `other`. */
  function KeepOnly<H>(h: Handlers<H>, mode: Mode, other: Handlers<H>): Handlers<H> {
    Handlers(
      if mode == Home then h.home else other.home,
      if mode == Recipe then h.recipe else other.recipe,
      if mode == Shopping then h.shopping else other.shopping,
      if mode == General then h.general else other.general)
  }

  /** A call consults only its own handler: replacing all the others leaves
      its reply unchanged. */
  lemma RunUsesOnlyTarget<H>(h: Handlers<H>, other: Handlers<H>, c: Call<H>)
    ensures Run(KeepOnly(h, c.Target(), other), c) == Run(h, c)
  {
  }

  // ---------------------------------------------------------------- POST

  /** The messages that end the session on POST, compared after stripping
      and lower-casing. */
  const ClearPhrases: seq<string> := ["exit", "bye", "clear chat"]

  const ClearedReply: string := "Chat session cleared."

  /** What the POST handler decides to do. */
  datatype PostStep<H> = Cleared | Routed(call: Call<H>)

  /** The decision of `chat_api` on the request's message and history. */
  function PlanPost<H>(message: string, history: H): (p: PostStep<H>)
    ensures p.Cleared? <==> Lower(Trim(message)) in ClearPhrases
    ensures p.Routed? ==> p.call.message == Trim(message)
    ensures p.Routed? ==> p.call.Target() == DetectMode(Trim(message))
    ensures p.Routed? && p.call.RecipeCall? ==> p.call.history == history
  {
    var m := Trim(message);
    if Lower(m) in ClearPhrases then Cleared
    else Routed(Dispatch(DetectMode(m), m, history))
  }

  /** The `reply` field `chat_api` answers with. */
  function PostReply<H>(h: Handlers<H>, message: string, history: H): string {
    match PlanPost(message, history)
    case Cleared => ClearedReply
    case Routed(c) => Run(h, c)
  }

  /** The longest clear-session phrase has ten characters, and lower-casing
      keeps the length, so a longer stripped message is always routed. */
  lemma LongMessageDoesNotClear(m: string)
    requires |m| > 10
    ensures Lower(m) !in ClearPhrases
  {
    assert |Lower(m)| == |m|;
  }

  /** A clear-session phrase, in any case and with any surrounding
      whitespace, is answered with the fixed reply whatever the handlers are:
      no handler is consulted. */
  lemma PostClearIgnoresHandlers<H>(h: Handlers<H>, other: Handlers<H>, message: string, history: H)
    requires Lower(Trim(message)) in ClearPhrases
    ensures PostReply(h, message, history) == ClearedReply
    ensures PostReply(other, message, history) == PostReply(h, message, history)
  {
  }

  /** Any other message is answered by exactly the handler of its detected
      mode, given the stripped message; only the recipe handler also gets the
      history. */
  lemma PostCallsSelectedHandler<H>(h: Handlers<H>, message: string, history: H)
    requires Lower(Trim(message)) !in ClearPhrases
    ensures var m := Trim(message);
      match DetectMode(m)
      case Home => PostReply(h, message, history) == h.home(m)
      case Recipe => PostReply(h, message, history) == h.recipe(m, history)
      case Shopping => PostReply(h, message, history) == h.shopping(m)
      case General => PostReply(h, message, history) == h.general(m)
  {
  }

  /** On POST, the handlers other than the selected one may be anything. */
  lemma PostUsesOnlySelectedHandler<H>(h: Handlers<H>, other: Handlers<H>, message: string, history: H)
    ensures PostReply(KeepOnly(h, DetectMode(Trim(message)), other), message, history)
         == PostReply(h, message, history)
  {
    match PlanPost(message, history)
    case Cleared =>
    case Routed(c) => RunUsesOnlyTarget(h, other, c);
  }

  /** The history matters only when the message goes to the recipe handler. */
  lemma PostHistoryOnlyForRecipe<H>(h: Handlers<H>, message: string, history: H, history': H)
    requires Lower(Trim(message)) in ClearPhrases || DetectMode(Trim(message)) != Recipe
    ensures PostReply(h, message, history) == PostReply(h, message, history')
  {
  }

  /** A blank POST message is not a clear-session phrase; it is detected as
      general and the general handler is called with the empty string. */
  lemma PostBlankGoesToGeneral<H>(h: Handlers<H>, message: string, history: H)
    requires forall i :: 0 <= i < |message| ==> IsSpace(message[i])
    ensures PostReply(h, message, history) == h.general("")
  {
    TrimSpec(message);
    assert Lower([]) == [];
    EmptyIsGeneral();
  }

  // ---------------------------------------------------------------- GET

  const BotPrefix: string := "\U{1F916} Bot: "

  const UsagePrompt: string :=
    "\U{274C}" + " Please provide a message using '?msg=your question' in the URL."

  /** What the GET handler decides to do. */
  datatype GetStep<H> = Usage | Forwarded(call: Call<H>)

  /** The decision of `chat_api_get` on the `msg` parameter: there is no
      clear-session check, and the recipe handler gets `empty`, the history
      value of an empty list. */
  function PlanGet<H>(message: string, empty: H): (p: GetStep<H>)
    ensures p.Usage? <==> Trim(message) == []
    ensures p.Forwarded? ==> p.call.message == Trim(message)
    ensures p.Forwarded? ==> p.call.Target() == DetectMode(Trim(message))
    ensures p.Forwarded? && p.call.RecipeCall? ==> p.call.history == empty
  {
    var m := Trim(message);
    if m == [] then Usage
    else Forwarded(Dispatch(DetectMode(m), m, empty))
  }

  /** The text `chat_api_get` answers with. */
  function GetReply<H>(h: Handlers<H>, message: string, empty: H): string {
    match PlanGet(message, empty)
    case Usage => UsagePrompt
    case Forwarded(c) => BotPrefix + Run(h, c)
  }

  /** The usage prompt comes back exactly for a blank message, and every other
      answer is the bot prefix followed by the selected handler's reply. */
  lemma GetReplyShape<H>(h: Handlers<H>, message: string, empty: H)
    ensures GetReply(h, message, empty) == UsagePrompt <==> Trim(message) == []
    ensures Trim(message) != [] ==>
      && BotPrefix <= GetReply(h, message, empty)
      && GetReply(h, message, empty)[|BotPrefix|..] == Run(h, Dispatch(DetectMode(Trim(message)), Trim(message), empty))
  {
    match PlanGet(message, empty)
    case Usage =>
    case Forwarded(c) =>
      var r := BotPrefix + Run(h, c);
      assert r[0] == '\U{1F916}' != UsagePrompt[0];
      assert r[|BotPrefix|..] == Run(h, c);
  }

  /** A non-blank GET message is answered, behind the bot prefix, by exactly
      the handler of its detected mode, given the stripped message; the
      recipe handler gets the empty list. */
  lemma GetCallsSelectedHandler<H>(h: Handlers<H>, message: string, empty: H)
    requires Trim(message) != []
    ensures var m := Trim(message);
      match DetectMode(m)
      case Home => GetReply(h, message, empty) == BotPrefix + h.home(m)
      case Recipe => GetReply(h, message, empty) == BotPrefix + h.recipe(m, empty)
      case Shopping => GetReply(h, message, empty) == BotPrefix + h.shopping(m)
      case General => GetReply(h, message, empty) == BotPrefix + h.general(m)
  {
  }

  /** For a message that is neither blank nor a clear-session phrase, GET
      answers what POST with an empty history answers, behind the prefix. */
  lemma GetAgreesWithPost<H>(h: Handlers<H>, message: string, empty: H)
    requires Trim(message) != []
    requires Lower(Trim(message)) !in ClearPhrases
    ensures GetReply(h, message, empty) == BotPrefix + PostReply(h, message, empty)
  {
  }

  // ---------------------------------------------------------------- request fields

  /** A request field that may be missing. */
  datatype Option<X> = None | Some(value: X) {
    /** The field's value, or `default` when it is missing. */
    function GetOr(default: X): X {
      match this
      case None => default
      case Some(v) => v
    }
  }

  /** The JSON body of a POST request, as far as the router reads it: each
      key is either absent (`None`) or present with its value. A present
      `chat_history` may be any JSON value, `null` included. */
  datatype PostBody<H> = PostBody(message: Option<string>, chatHistory: Option<H>)

  /** `chat_api` on a body: an absent message reads as the empty string and
      an absent history as `empty`, the empty list; a present history is
      used as it is. */
  function ChatPost<H>(h: Handlers<H>, empty: H, body: PostBody<H>): string {
    PostReply(h, body.message.GetOr(""), body.chatHistory.GetOr(empty))
  }

  /** `chat_api_get` on the optional `msg` query parameter. */
  function ChatGet<H>(h: Handlers<H>, empty: H, msg: Option<string>): string {
    GetReply(h, msg.GetOr(""), empty)
  }

  /** Missing fields are not errors: a POST body without a message goes to
      the general handler with the empty string, one without a history
      answers as with the empty list, and a GET without `msg` gets the
      usage prompt. */
  lemma MissingFieldsDefault<H>(h: Handlers<H>, empty: H, history: Option<H>, message: string)
    ensures ChatPost(h, empty, PostBody(None, history)) == h.general("")
    ensures ChatPost(h, empty, PostBody(Some(message), None)) == PostReply(h, message, empty)
    ensures ChatGet(h, empty, None) == UsagePrompt
  {
    PostBlankGoesToGeneral(h, "", history.GetOr(empty));
    GetReplyShape(h, "", empty);
  }

  /** The default applies only to an absent key: a history that is present,
      whatever JSON value it holds, reaches the recipe handler unchanged. */
  lemma PresentHistoryPassedOn<H>(h: Handlers<H>, empty: H, message: string, history: H)
    requires Lower(Trim(message)) !in ClearPhrases
    requires DetectMode(Trim(message)) == Recipe
    ensures ChatPost(h, empty, PostBody(Some(message), Some(history)))
         == h.recipe(Trim(message), history)
  {
    PostCallsSelectedHandler(h, message, history);
  }

  // ---------------------------------------------------------------- scenarios

  /** "Bye" with any whitespace padding ends the session on POST: stripping
      and lower-casing turn it into the phrase "bye". */
  lemma PaddedByeClears<H>(h: Handlers<H>, history: H, p: string, q: string)
    requires forall i :: 0 <= i < |p| ==> IsSpace(p[i])
    requires forall i :: 0 <= i < |q| ==> IsSpace(q[i])
    ensures PostReply(h, p + "Bye" + q, history) == ClearedReply
  {
    TrimPadded(p, "Bye", q);
    assert Lower("Bye") == "bye";
    PostClearIgnoresHandlers(h, h, p + "Bye" + q, history);
  }

  /** GET has no clear-session check: a clear-session phrase, in any case,
      is an ordinary message there and reaches the general handler. */
  lemma GetRoutesSessionWordsToGeneral<H>(h: Handlers<H>, message: string, empty: H)
    requires Lower(Trim(message)) in ClearPhrases
    ensures GetReply(h, message, empty) == BotPrefix + h.general(Trim(message))
  {
    var m := Trim(message);
    CaseInsensitive(m, Lower(m));
    assert Lower(m) == "exit" || Lower(m) == "bye" || Lower(m) == "clear chat";
    SessionWordIsGeneral(Lower(m));
    assert |Lower(m)| == |m|;
    GetCallsSelectedHandler(h, message, empty);
  }

  /** A home request goes to the home handler with the stripped message. */
  lemma LampRequestGoesHome<H>(h: Handlers<H>, history: H)
    ensures PostReply(h, "turn on the lamp", history) == h.home("turn on the lamp")
  {
    TrimUnpadded("turn on the lamp");
    LongMessageDoesNotClear("turn on the lamp");
    TurnOnTheLampIsHome();
    PostCallsSelectedHandler(h, "turn on the lamp", history);
  }

  /** A recipe request on GET goes to the recipe handler with an empty
      history, behind the bot prefix. */
  lemma RecipeOnGetGetsEmptyHistory<H>(h: Handlers<H>, empty: H)
    ensures GetReply(h, "recipe for soup", empty) == BotPrefix + h.recipe("recipe for soup", empty)
  {
    TrimUnpadded("recipe for soup");
    RecipeForSoupIsRecipe();
    GetCallsSelectedHandler(h, "recipe for soup", empty);
  }
}
