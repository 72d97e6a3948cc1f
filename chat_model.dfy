/** The deterministic part of the suggestion service of
    src/app/services/chat.ts: the search query built from a recipient, the
    cut to five suggestions, the fixed fallback set, and the welcome
    message. The request itself is not modelled: its outcome is a `Reply`. */
module ChatModel {
  import opened Wrappers
  import opened BudgetModel

  datatype GiftSuggestion = GiftSuggestion(
    name: string,
    estimatedPrice: real,
    storeName: Option<string>,
    url: Option<string>,
    imageUrl: Option<string>)

  datatype Sender = User | Bot

  /** A chat message without its timestamp. */
  datatype ChatMessage = ChatMessage(
    id: string,
    sender: Sender,
    text: string,
    suggestions: Option<seq<GiftSuggestion>>)

  /** How the request ended: the reply parsed into a list, or anything that
      throws on the way (a non-ok status, a missing field, a parse error). */
  datatype Reply = Parsed(items: seq<GiftSuggestion>) | Failed

  const Opening := "Christmas gift ideas"
  const MaxSuggestions := 5
  const FallbackText := "Here are some gift suggestions (API unavailable, showing defaults):"

  // ------------------------------------------------------------ search query

  /** The search query, appended to step by step as the source does. A number
      is written out by `show`, standing for JavaScript's conversion of a
      number to text. It always starts with the opening and ends with the
      budget. */
  function SearchQuery(r: Recipient, show: real -> string): (q: string)
    ensures |q| >= |Opening| + |Closing(r.budget, show)|
    ensures q[..|Opening|] == Opening
    ensures q[|q| - |Closing(r.budget, show)|..] == Closing(r.budget, show)
  {
    var age := r.age.GetOr(0.0);
    var gender := r.gender.GetOr("");
    var interests := r.interests.GetOr("");
    var q0 := Opening;
    var q1 := if interests != "" then q0 + " for someone who likes " + interests else q0;
    var q2 := if age > 0.0 then q1 + " age " + show(age) else q1;
    var q3 := if gender != "" then q2 + " " + gender else q2;
    assert q1[..|Opening|] == Opening && q2[..|q1|] == q1 && q3[..|q2|] == q2;
    assert q3[..|Opening|] == Opening;
    var q := q3 + Closing(r.budget, show);
    assert q[..|q3|] == q3 && q[|q3|..] == Closing(r.budget, show);
    q
  }

  /** The interests clause: present exactly when there are interests. */
  function InterestsClause(interests: string): (c: string)
    ensures c == "" <==> interests == ""
    ensures c != "" ==> c == " for someone who likes " + interests
  {
    if interests == "" then "" else " for someone who likes " + interests
  }

  /** The age clause: present exactly when the age is positive. */
  function AgeClause(age: real, show: real -> string): (c: string)
    ensures c == "" <==> age <= 0.0
    ensures c != "" ==> c == " age " + show(age)
  {
    if age > 0.0 then " age " + show(age) else ""
  }

  /** The gender clause: present exactly when a gender is given. */
  function GenderClause(gender: string): (c: string)
    ensures c == "" <==> gender == ""
    ensures c != "" ==> c == " " + gender
  {
    if gender == "" then "" else " " + gender
  }

  function Closing(budget: real, show: real -> string): string
  {
    " under $" + show(budget)
  }

  /** The query is the opening, then the interests, age and gender clauses in
      that order (each one only when its attribute is set, a missing age
      counting as 0), then the budget. */
  lemma SearchQueryClauses(r: Recipient, show: real -> string)
    ensures SearchQuery(r, show) ==
      Opening + InterestsClause(r.interests.GetOr("")) + AgeClause(r.age.GetOr(0.0), show)
      + GenderClause(r.gender.GetOr("")) + Closing(r.budget, show)
  {
    var i := InterestsClause(r.interests.GetOr(""));
    var a := AgeClause(r.age.GetOr(0.0), show);
    var g := GenderClause(r.gender.GetOr(""));
    var c := Closing(r.budget, show);
    assert Opening + i + a + g + c == (((Opening + i) + a) + g) + c;
  }

  /** With no interests, no positive age and no gender the query is the bare
      "Christmas gift ideas under $<budget>", and only then. */
  lemma SearchQueryBare(r: Recipient, show: real -> string)
    ensures SearchQuery(r, show) == Opening + Closing(r.budget, show) <==>
      r.interests.GetOr("") == "" && r.age.GetOr(0.0) <= 0.0 && r.gender.GetOr("") == ""
  {
    SearchQueryClauses(r, show);
    var i := InterestsClause(r.interests.GetOr(""));
    var a := AgeClause(r.age.GetOr(0.0), show);
    var g := GenderClause(r.gender.GetOr(""));
    var c := Closing(r.budget, show);
    assert |SearchQuery(r, show)| == |Opening| + |i| + |a| + |g| + |c|;
    if i == "" && a == "" && g == "" {
      assert Opening + i + a + g + c == Opening + c;
    }
  }

  // -------------------------------------------------------------- suggestions

  /** `suggestions.slice(0, 5)`: a prefix of the parsed list, at most five
      long, and the whole list when it is shorter. */
  function FirstSuggestions(items: seq<GiftSuggestion>): (out: seq<GiftSuggestion>)
    ensures |out| <= MaxSuggestions && |out| <= |items|
    ensures out == items[..|out|]
    ensures |out| == if |items| < MaxSuggestions then |items| else MaxSuggestions
  {
    if |items| <= MaxSuggestions then items else items[..MaxSuggestions]
  }

  function Min(a: real, b: real): (m: real)
    ensures m <= a && m <= b
    ensures m == a || m == b
  {
    if a <= b then a else b
  }

  /** The three defaults offered when the request fails, priced at a share of
      the recipient's budget up to a fixed cap. */
  function Fallback(budget: real): (fs: seq<GiftSuggestion>)
    ensures |fs| == 3
    ensures fs[0].name == "Gift Card" && fs[1].name == "Cozy Blanket" && fs[2].name == "Board Game"
    ensures fs[0].estimatedPrice <= 50.0 && fs[1].estimatedPrice <= 40.0 && fs[2].estimatedPrice <= 45.0
    ensures fs[0].estimatedPrice <= 0.3 * budget && fs[1].estimatedPrice <= 0.25 * budget
    ensures fs[2].estimatedPrice <= 0.3 * budget
    ensures fs[0].estimatedPrice == 0.3 * budget || fs[0].estimatedPrice == 50.0
    ensures fs[1].estimatedPrice == 0.25 * budget || fs[1].estimatedPrice == 40.0
    ensures fs[2].estimatedPrice == 0.3 * budget || fs[2].estimatedPrice == 45.0
  {
    [ GiftSuggestion("Gift Card", Min(budget * 0.3, 50.0), Some("Amazon"), Some("https://amazon.com"),
                     Some("https://via.placeholder.com/150?text=Gift+Card")),
      GiftSuggestion("Cozy Blanket", Min(budget * 0.25, 40.0), Some("Target"), Some("https://target.com"),
                     Some("https://via.placeholder.com/150?text=Blanket")),
      GiftSuggestion("Board Game", Min(budget * 0.3, 45.0), Some("Walmart"), Some("https://walmart.com"),
                     Some("https://via.placeholder.com/150?text=Board+Game")) ]
  }

  function FallbackTotal(fs: seq<GiftSuggestion>): real
    requires |fs| == 3
  {
    fs[0].estimatedPrice + fs[1].estimatedPrice + fs[2].estimatedPrice
  }

  /** Taken together the defaults never cost more than 85% of the budget nor
      more than 135; for a positive budget each of them has a positive price,
      and up to 150 each is exactly its share of the budget. */
  lemma FallbackWithinBudget(budget: real)
    ensures FallbackTotal(Fallback(budget)) <= 0.85 * budget
    ensures FallbackTotal(Fallback(budget)) <= 135.0
    ensures budget > 0.0 ==> forall s :: s in Fallback(budget) ==> s.estimatedPrice > 0.0
    ensures budget <= 150.0 ==>
      Fallback(budget)[0].estimatedPrice == 0.3 * budget &&
      Fallback(budget)[1].estimatedPrice == 0.25 * budget &&
      Fallback(budget)[2].estimatedPrice == 0.3 * budget
  {
  }

  /** `generateGiftSuggestions` once the request has ended: a bot message
      holding at most the first five parsed suggestions, or, on any failure,
      the fallback set and a text saying so. It never fails. */
  function SuggestionMessage(r: Recipient, reply: Reply, id: string): (m: ChatMessage)
    ensures m.sender == Bot && m.id == id && m.suggestions.Some?
    ensures reply.Failed? ==> m.text == FallbackText && m.suggestions.value == Fallback(r.budget)
    ensures reply.Parsed? ==>
      m.text == "I found these gift suggestions for " + r.name + ":" &&
      |m.suggestions.value| <= MaxSuggestions && |m.suggestions.value| <= |reply.items| &&
      m.suggestions.value == reply.items[..|m.suggestions.value|] &&
      m.suggestions.value == FirstSuggestions(reply.items)
  {
    match reply
    case Parsed(items) =>
      ChatMessage(id, Bot, "I found these gift suggestions for " + r.name + ":", Some(FirstSuggestions(items)))
    case Failed =>
      ChatMessage(id, Bot, FallbackText, Some(Fallback(r.budget)))
  }

  const WelcomeLead := "Hi! I'm your gift suggestion assistant. I can help you find the perfect gifts for "

  /** `getWelcomeMessage`: a bot message without suggestions that names the
      recipient right after the fixed greeting. */
  function WelcomeMessage(r: Recipient, id: string): (m: ChatMessage)
    ensures m.sender == Bot && m.id == id && m.suggestions.None?
    ensures |m.text| > |WelcomeLead| + |r.name|
    ensures m.text[..|WelcomeLead|] == WelcomeLead
    ensures m.text[|WelcomeLead|..|WelcomeLead| + |r.name|] == r.name
  {
    ChatMessage(id, Bot, WelcomeLead + r.name + ". Just ask me for suggestions!", None)
  }
}
