/** The intent detector of api_app.py: lower-case the message, then try three
    fixed keyword lists in priority order, each matching when any of its
    keywords is a substring of the lowered text. */
module Intent {
  import opened Text

  /** The four intents; `Label` is the string the source returns for each. */
  datatype Mode = Home | Recipe | Shopping | General {

    function Label(): string {
      match this
      case Home => "home_assistant"
      case Recipe => "recipe_assistant"
      case Shopping => "shopping_categorizer"
      case General => "general"
    }

    /** Position in the detector's order of tests; smaller wins. */
    function Rank(): nat {
      match this
      case Home => 0
      case Recipe => 1
      case Shopping => 2
      case General => 3
    }
  }

  /** The handlers' comparison chain on labels: anything that is not one of the
      first three labels falls through to the general handler. */
  function ModeOfLabel(name: string): Mode {
    if name == "home_assistant" then Home
    else if name == "recipe_assistant" then Recipe
    else if name == "shopping_categorizer" then Shopping
    else General
  }

  /** Reading a mode back from its label gives the mode, and distinct modes
      have distinct labels, so a datatype loses nothing over the strings. */
  lemma LabelRoundTrip(m: Mode, m': Mode)
    ensures ModeOfLabel(m.Label()) == m
    ensures m.Label() == m'.Label() ==> m == m'
  {
  }

  const HomeKeywords: seq<string> :=
    ["lamp", "light", "turn on", "turn off", "door", "fan", "air", "status"]
  const RecipeKeywords: seq<string> :=
    ["recipe", "cook", "how to make", "ingredients", "dish", "meal"]
  const ShoppingKeywords: seq<string> :=
    ["shopping", "buy", "need", "list", "grocery", "groceries"]

  /** Python's `any(word in text for word in words)`. */
  function AnyOccurs(words: seq<string>, text: string): bool {
    if words == [] then false
    else Occurs(words[0], text) || AnyOccurs(words[1..], text)
  }

  /** Python's `detect_mode`. */
  function DetectMode(s: string): Mode {
    var t := Lower(s);
    if AnyOccurs(HomeKeywords, t) then Home
    else if AnyOccurs(RecipeKeywords, t) then Recipe
    else if AnyOccurs(ShoppingKeywords, t) then Shopping
    else General
  }

  /** Some word of `words` is a substring of the lower-cased `s`. */
  ghost predicate Mentions(s: string, words: seq<string>) {
    exists k :: 0 <= k < |words| && Contains(Lower(s), words[k])
  }

  /** The scan over a keyword list succeeds exactly when some keyword of the
      list is a substring of the text. */
  lemma {:induction false} AnyOccursIff(words: seq<string>, text: string)
    ensures AnyOccurs(words, text) <==> exists k :: 0 <= k < |words| && Contains(text, words[k])
  {
    if words != [] {
      OccursIffContains(words[0], text);
      AnyOccursIff(words[1..], text);
      assert forall k :: 1 <= k < |words| ==> words[k] == words[1..][k - 1];
    }
  }

  /** The detector against the keyword lists, as an if-and-only-if per mode:
      the first list, in the order home, recipe, shopping, that the lowered
      text mentions decides; if none does, the mode is general. */
  lemma DetectModeSpec(s: string)
    ensures DetectMode(s) == Home <==> Mentions(s, HomeKeywords)
    ensures DetectMode(s) == Recipe <==>
      !Mentions(s, HomeKeywords) && Mentions(s, RecipeKeywords)
    ensures DetectMode(s) == Shopping <==>
      !Mentions(s, HomeKeywords) && !Mentions(s, RecipeKeywords) && Mentions(s, ShoppingKeywords)
    ensures DetectMode(s) == General <==>
      !Mentions(s, HomeKeywords) && !Mentions(s, RecipeKeywords) && !Mentions(s, ShoppingKeywords)
  {
    AnyOccursIff(HomeKeywords, Lower(s));
    AnyOccursIff(RecipeKeywords, Lower(s));
    AnyOccursIff(ShoppingKeywords, Lower(s));
  }

  /** A home keyword anywhere wins, whatever else the message mentions. */
  lemma HomeWins(s: string, k: nat)
    requires k < |HomeKeywords| && Contains(Lower(s), HomeKeywords[k])
    ensures DetectMode(s) == Home
  {
    DetectModeSpec(s);
  }

  /** Without a home keyword, any recipe keyword gives the recipe mode. */
  lemma RecipeBeatsShopping(s: string, k: nat)
    requires !Mentions(s, HomeKeywords)
    requires k < |RecipeKeywords| && Contains(Lower(s), RecipeKeywords[k])
    ensures DetectMode(s) == Recipe
  {
    DetectModeSpec(s);
  }

  /** `s` mentions no word of `words` when, for each word, the character at
      the matching index of `missing` does not appear in the lowered `s`. */
  lemma NotMentioned(s: string, words: seq<string>, missing: seq<nat>)
    requires |missing| == |words|
    requires forall k :: 0 <= k < |words| ==>
      missing[k] < |words[k]| && words[k][missing[k]] !in Lower(s)
    ensures !Mentions(s, words)
  {
    forall k | 0 <= k < |words| ensures !Contains(Lower(s), words[k]) {
      AbsentCharBlocks(words[k], Lower(s), missing[k]);
    }
  }

  /** Case does not matter: a message and its lower-cased form, or any two
      messages that lower-case alike, get the same mode. */
  lemma CaseInsensitive(s: string, s': string)
    requires Lower(s) == Lower(s')
    ensures DetectMode(s) == DetectMode(s')
    ensures DetectMode(s) == DetectMode(Lower(s))
  {
    LowerIsIdempotent(s);
  }

  /** Substring matching: adding text around a message can only move it to an
      earlier mode in the order of tests, never to a later one. */
  lemma {:induction false} ContextNeverLowersPriority(p: string, s: string, q: string)
    ensures DetectMode(p + s + q).Rank() <= DetectMode(s).Rank()
  {
    var big := p + s + q;
    LowerConcat(p + s, q);
    LowerConcat(p, s);
    assert Lower(big) == Lower(p) + Lower(s) + Lower(q);
    forall words: seq<string>, k | 0 <= k < |words| && Contains(Lower(s), words[k])
      ensures Contains(Lower(big), words[k])
    {
      ContainsInContext(Lower(p), Lower(s), Lower(q), words[k]);
    }
    DetectModeSpec(s);
    DetectModeSpec(big);
  }

  /** Keywords match as substrings, not as words: "chair" contains "air". */
  lemma ChairIsHome()
    ensures DetectMode("chair") == Home
  {
    assert Lower("chair")[2..5] == "air";
    assert OccursAt(HomeKeywords[6], Lower("chair"), 2);
    HomeWins("chair", 6);
  }

  /** The empty message mentions no keyword and is general. */
  lemma EmptyIsGeneral()
    ensures DetectMode("") == General
  {
    NotMentioned("", HomeKeywords, [0, 0, 0, 0, 0, 0, 0, 0]);
    NotMentioned("", RecipeKeywords, [0, 0, 0, 0, 0, 0]);
    NotMentioned("", ShoppingKeywords, [0, 0, 0, 0, 0, 0]);
    DetectModeSpec("");
  }

  /** Priority follows the lists, not the text: "need" comes first in the
      message, but the recipe keyword "cook" wins. */
  lemma PriorityIgnoresPosition()
    ensures DetectMode("I need to cook") == Recipe
  {
    var s := "I need to cook";
    assert Lower(s)[10..14] == "cook";
    assert OccursAt(RecipeKeywords[1], Lower(s), 10);
    assert Lower(s) == "i need to cook";
    NotMentioned(s, HomeKeywords, [0, 0, 1, 1, 3, 0, 0, 0]);
    RecipeBeatsShopping(s, 1);
  }

  /** The session words "exit", "bye" and "clear chat" mention no keyword of
      any list, so the detector classifies each of them as general. */
  lemma SessionWordIsGeneral(w: string)
    requires w == "exit" || w == "bye" || w == "clear chat"
    ensures DetectMode(w) == General
  {
    ExitIsGeneral();
    ByeIsGeneral();
    ClearChatIsGeneral();
  }

  lemma ExitIsGeneral()
    ensures DetectMode("exit") == General
  {
    var s := "exit";
    assert Lower(s) == s;
    NotMentioned(s, HomeKeywords, [0, 0, 1, 1, 0, 0, 0, 0]);
    NotMentioned(s, RecipeKeywords, [0, 0, 0, 1, 0, 0]);
    NotMentioned(s, ShoppingKeywords, [0, 0, 0, 0, 0, 0]);
    DetectModeSpec(s);
  }

  lemma ByeIsGeneral()
    ensures DetectMode("bye") == General
  {
    var s := "bye";
    assert Lower(s) == s;
    NotMentioned(s, HomeKeywords, [0, 0, 0, 0, 0, 0, 0, 0]);
    NotMentioned(s, RecipeKeywords, [0, 0, 0, 0, 0, 0]);
    NotMentioned(s, ShoppingKeywords, [0, 1, 0, 0, 0, 0]);
    DetectModeSpec(s);
  }

  lemma ClearChatIsGeneral()
    ensures DetectMode("clear chat") == General
  {
    var s := "clear chat";
    assert Lower(s) == s;
    NotMentioned(s, HomeKeywords, [2, 1, 1, 1, 0, 0, 1, 0]);
    NotMentioned(s, RecipeKeywords, [3, 1, 1, 0, 0, 0]);
    NotMentioned(s, ShoppingKeywords, [0, 0, 0, 1, 0, 0]);
    DetectModeSpec(s);
  }

  /** "recipe for soup" mentions no home keyword and starts with "recipe". */
  lemma RecipeForSoupIsRecipe()
    ensures DetectMode("recipe for soup") == Recipe
  {
    var s := "recipe for soup";
    assert Lower(s) == s;
    NotMentioned(s, HomeKeywords, [0, 0, 0, 0, 0, 1, 0, 1]);
    assert OccursAt(RecipeKeywords[0], Lower(s), 0);
    DetectModeSpec(s);
  }

  /** "turn on the lamp" mentions the home keyword "lamp". */
  lemma TurnOnTheLampIsHome()
    ensures DetectMode("turn on the lamp") == Home
  {
    var s := "turn on the lamp";
    assert Lower(s)[12..16] == "lamp";
    assert OccursAt(HomeKeywords[0], Lower(s), 12);
    HomeWins(s, 0);
  }
}
