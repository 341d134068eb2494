/**
 * The request building and fallback policy of services/openai.ts. The chat
 * endpoint is a collaborator: `GetChatResponse` and `AnalyzeImage` receive it
 * as a function from the posted request to the HTTP reply they read, and the
 * higher-level helpers receive `getChatResponse` itself as a function from
 * messages to a settled promise (`Result`). `JSON.parse` and `JSON.stringify`
 * are parameters too: the model does not reimplement them.
 */
module OpenAI {
  import opened Wrappers
  import Js

  datatype Role = System | User | Assistant

  /** One element of a multi-part message content. */
  datatype Part = ImageUrl(url: string) | TextPart(text: string)

  datatype Content = Plain(text: string) | Parts(parts: seq<Part>)

  datatype Message = Message(role: Role, content: Content)

  /** The JSON body posted to the chat-completions endpoint. */
  datatype ChatRequest = ChatRequest(model: string, messages: seq<Message>, max_tokens: nat, temperature: Option<real>)

  /** The endpoint's reply once its body is read as JSON: the status flag,
      the body's `error.message` (if any) and the `message.content` of each
      element of `choices`. */
  datatype HttpReply = HttpReply(ok: bool, errorMessage: Option<string>, choices: seq<string>)

  /** Why a chat call rejects: the thrown `Error` with its message, or the
      `TypeError` of reading `choices[0].message` when there is no choice. */
  datatype ChatError = ApiError(message: string) | MalformedReply

  /** The chat collaborator as the tip and history helpers see it. */
  type Chat = seq<Message> -> Result<string, ChatError>

  // ---------------------------------------------------------------- replies

  /** Reading a reply: a non-ok status rejects with `error.message`, or with
      `fallback` when that is absent or empty; an ok reply resolves with the
      first choice's content. */
  function DecodeReply(reply: HttpReply, fallback: string): (r: Result<string, ChatError>)
    ensures r.Success? <==> reply.ok && |reply.choices| > 0
    ensures r.Success? ==> r.value == reply.choices[0]
    ensures !reply.ok && Js.Truthy(reply.errorMessage) ==> r == Failure(ApiError(reply.errorMessage.value))
    ensures !reply.ok && !Js.Truthy(reply.errorMessage) ==> r == Failure(ApiError(fallback))
    ensures reply.ok && |reply.choices| == 0 ==> r == Failure(MalformedReply)
  {
    if !reply.ok then Failure(ApiError(Js.OrElse(reply.errorMessage, fallback)))
    else if |reply.choices| == 0 then Failure(MalformedReply)
    else Success(reply.choices[0])
  }

  const ChatFailedMessage := "Failed to get response from OpenAI"

  /** `getChatResponse`: posts the messages to `gpt-4-turbo` with at most
      1000 tokens at temperature 0.7, and reads the reply. */
  function GetChatResponse(messages: seq<Message>, http: ChatRequest -> HttpReply): (r: Result<string, ChatError>)
    ensures var reply := http(ChatRequest("gpt-4-turbo", messages, 1000, Some(0.7)));
      && (r.Success? <==> reply.ok && |reply.choices| > 0)
      && (r.Success? ==> r.value == reply.choices[0])
      && (!reply.ok ==> r == Failure(ApiError(Js.OrElse(reply.errorMessage, ChatFailedMessage))))
  {
    DecodeReply(http(ChatRequest("gpt-4-turbo", messages, 1000, Some(0.7))), ChatFailedMessage)
  }

  // ---------------------------------------------------------------- images

  const ImageSystemPrompt := "You are a helpful nutrition assistant that can analyze food images and provide detailed information about the food items in the image, including nutritional value and health properties."
  const DefaultImagePrompt := "Identify the food in this image and provide detailed nutritional information."
  const DataUriPrefix := "data:image/jpeg;base64,"
  const ImageFailedMessage := "Failed to analyze image"

  /** The two messages `analyzeImage` sends for base64 image data and a prompt. */
  function ImageMessages(base64Image: string, prompt: string): (r: seq<Message>)
    ensures |r| == 2
    ensures r[0] == Message(System, Plain(ImageSystemPrompt))
    ensures r[1].role == User && r[1].content.Parts? && |r[1].content.parts| == 2
    ensures r[1].content.parts[0].ImageUrl? && r[1].content.parts[1].TextPart?
    ensures r[1].content.parts[1].text == (if prompt == "" then DefaultImagePrompt else prompt)
  {
    [ Message(System, Plain(ImageSystemPrompt)),
      Message(User, Parts([ ImageUrl(DataUriPrefix + base64Image),
                            TextPart(Js.OrElse(Some(prompt), DefaultImagePrompt)) ])) ]
  }

  /** What a reader of the request recovers as the inline image: the data
      after the JPEG data-URI prefix of the user message's first part. */
  function EmbeddedImage(messages: seq<Message>): Option<string> {
    if |messages| >= 2 && messages[1].content.Parts? && |messages[1].content.parts| >= 1
       && messages[1].content.parts[0].ImageUrl?
    then
      var url := messages[1].content.parts[0].url;
      if DataUriPrefix <= url then Some(url[|DataUriPrefix|..]) else None
    else None
  }

  /** The image travels unaltered inside the request. */
  lemma ImageRoundTrip(base64Image: string, prompt: string)
    ensures EmbeddedImage(ImageMessages(base64Image, prompt)) == Some(base64Image)
  {
    var url := DataUriPrefix + base64Image;
    assert DataUriPrefix <= url;
    assert url[|DataUriPrefix|..] == base64Image;
  }

  /** `analyzeImage` given the base64 data it read: posts the two messages to
      `gpt-4-vision-preview` with at most 1000 tokens and no temperature. */
  function AnalyzeImage(base64Image: string, prompt: string, http: ChatRequest -> HttpReply): (r: Result<string, ChatError>)
    ensures var reply := http(ChatRequest("gpt-4-vision-preview", ImageMessages(base64Image, prompt), 1000, None));
      && (r.Success? <==> reply.ok && |reply.choices| > 0)
      && (r.Success? ==> r.value == reply.choices[0])
      && (!reply.ok ==> r == Failure(ApiError(Js.OrElse(reply.errorMessage, ImageFailedMessage))))
  {
    DecodeReply(http(ChatRequest("gpt-4-vision-preview", ImageMessages(base64Image, prompt), 1000, None)), ImageFailedMessage)
  }

  // ---------------------------------------------------------------- daily tip

  /** The part of the stored preferences the tip prompt reads. */
  datatype Preferences = Preferences(dietaryRestrictions: Option<seq<string>>, dietGoals: Option<seq<string>>)

  datatype NutritionTip = NutritionTip(title: string, description: string, imageUrl: string, category: string)

  /** The tip returned whenever anything goes wrong. */
  const DefaultTip := NutritionTip(
    "Stay Hydrated",
    "Remember to drink enough water throughout the day. Proper hydration helps maintain energy levels, supports digestion, and can even help with weight management.",
    "https://via.placeholder.com/300x200/4CAF50/FFFFFF?text=Hydration+Tip",
    "Hydration")

  const TipSystemPrompt := "You are a nutrition expert providing helpful, accurate, and personalized daily tips. Format your response as a JSON object with title, description, category, and imageUrl properties. The imageUrl should be a placeholder with the format \"https://via.placeholder.com/300x200/4CAF50/FFFFFF?text=Nutrition+Tip\" that will be replaced later."

  const TipPromptHead := "Generate a daily nutrition or wellness tip. Consider these dietary restrictions: "
  const TipPromptMiddle := " and diet goals: "
  const TipPromptTail := ". Return ONLY a JSON object with the following format: \n      {\n        \"title\": \"The tip title\",\n        \"description\": \"Detailed description of the tip (100-150 words)\",\n        \"category\": \"One of: Nutrition, Hydration, Exercise, Mindfulness, Sleep\",\n        \"imageUrl\": \"https://via.placeholder.com/300x200/4CAF50/FFFFFF?text=Nutrition+Tip\"\n      }"

  /** `Array.prototype.join`. */
  function Join(xs: seq<string>, sep: string): string {
    if |xs| == 0 then ""
    else if |xs| == 1 then xs[0]
    else xs[0] + sep + Join(xs[1..], sep)
  }

  /** `x` occurs as a contiguous piece of `s`. */
  ghost predicate Occurs(x: string, s: string) {
    exists a :: 0 <= a <= |s| && x <= s[a..]
  }

  /** A piece of a string is a piece of anything built around it. */
  lemma {:induction false} OccursAround(x: string, before: string, s: string, after: string)
    requires Occurs(x, s)
    ensures Occurs(x, before + s + after)
  {
    var a :| 0 <= a <= |s| && x <= s[a..];
    var whole := before + s + after;
    assert whole[|before| + a..] == s[a..] + after;
    assert x <= whole[|before| + a..];
  }

  /** Every element of a list occurs in its join. */
  lemma {:induction false} JoinOccurs(xs: seq<string>, sep: string, x: string)
    requires x in xs
    ensures Occurs(x, Join(xs, sep))
  {
    var k :| 0 <= k < |xs| && xs[k] == x;
    var a := JoinContains(xs, sep, k);
    assert x <= Join(xs, sep)[a..];
  }

  /** Every element of a list occurs in its join, at the offset returned. */
  lemma {:induction false} JoinContains(xs: seq<string>, sep: string, k: int) returns (a: nat)
    requires 0 <= k < |xs|
    ensures a + |xs[k]| <= |Join(xs, sep)| && Join(xs, sep)[a..a + |xs[k]|] == xs[k]
  {
    if |xs| == 1 {
      a := 0;
    } else if k == 0 {
      a := 0;
      assert Join(xs, sep) == xs[0] + (sep + Join(xs[1..], sep));
    } else {
      var b := JoinContains(xs[1..], sep, k - 1);
      assert xs[1..][k - 1] == xs[k];
      var prefix := xs[0] + sep;
      assert Join(xs, sep) == prefix + Join(xs[1..], sep);
      a := |prefix| + b;
      assert Join(xs, sep)[a..a + |xs[k]|] == Join(xs[1..], sep)[b..b + |xs[k]|];
    }
  }

  /** `preferences?.dietaryRestrictions || []`: the list when both the
      preferences and the list are present (an empty array is truthy), else
      the empty list. */
  function RestrictionsOf(preferences: Option<Preferences>): (r: seq<string>)
    ensures preferences.None? || preferences.value.dietaryRestrictions.None? ==> r == []
    ensures preferences.Some? && preferences.value.dietaryRestrictions.Some? ==>
      r == preferences.value.dietaryRestrictions.value
  {
    match preferences
    case None => []
    case Some(p) => p.dietaryRestrictions.GetOr([])
  }

  /** `preferences?.dietGoals || []`, by the same rule. */
  function GoalsOf(preferences: Option<Preferences>): (r: seq<string>)
    ensures preferences.None? || preferences.value.dietGoals.None? ==> r == []
    ensures preferences.Some? && preferences.value.dietGoals.Some? ==> r == preferences.value.dietGoals.value
  {
    match preferences
    case None => []
    case Some(p) => p.dietGoals.GetOr([])
  }

  /** The user prompt of `getDailyTip`. */
  function TipUserPrompt(restrictions: seq<string>, goals: seq<string>): string {
    TipPromptHead + Join(restrictions, ", ") + TipPromptMiddle + Join(goals, ", ") + TipPromptTail
  }

  /** The two messages `getDailyTip` sends. */
  function TipMessages(preferences: Option<Preferences>): (r: seq<Message>)
    ensures |r| == 2 && r[0] == Message(System, Plain(TipSystemPrompt))
    ensures r[1] == Message(User, Plain(TipUserPrompt(RestrictionsOf(preferences), GoalsOf(preferences))))
  {
    [ Message(System, Plain(TipSystemPrompt)),
      Message(User, Plain(TipUserPrompt(RestrictionsOf(preferences), GoalsOf(preferences)))) ]
  }

  /** A piece of either filled slot of a three-part template occurs in it. */
  lemma {:induction false} OccursInSlots(x: string, head: string, first: string, middle: string, second: string, tail: string)
    ensures Occurs(x, first) ==> Occurs(x, head + first + middle + second + tail)
    ensures Occurs(x, second) ==> Occurs(x, head + first + middle + second + tail)
  {
    if Occurs(x, first) {
      OccursAround(x, head, first, middle + second + tail);
      assert head + first + (middle + second + tail) == head + first + middle + second + tail;
    }
    if Occurs(x, second) {
      OccursAround(x, head + first + middle, second, tail);
    }
  }

  /** The user prompt names every restriction and every goal it is given. */
  lemma {:induction false} TipUserPromptMentions(restrictions: seq<string>, goals: seq<string>, x: string)
    ensures x in restrictions ==> Occurs(x, TipUserPrompt(restrictions, goals))
    ensures x in goals ==> Occurs(x, TipUserPrompt(restrictions, goals))
  {
    if x in restrictions {
      JoinOccurs(restrictions, ", ", x);
    }
    if x in goals {
      JoinOccurs(goals, ", ", x);
    }
    OccursInSlots(x, TipPromptHead, Join(restrictions, ", "), TipPromptMiddle, Join(goals, ", "), TipPromptTail);
  }

  /** The tip request names every dietary restriction and every diet goal
      the preferences carry. */
  lemma {:induction false} TipPromptMentionsPreferences(preferences: Option<Preferences>, x: string)
    ensures x in RestrictionsOf(preferences) ==> Occurs(x, TipMessages(preferences)[1].content.text)
    ensures x in GoalsOf(preferences) ==> Occurs(x, TipMessages(preferences)[1].content.text)
  {
    TipUserPromptMentions(RestrictionsOf(preferences), GoalsOf(preferences), x);
  }

  /** Absent preferences, absent lists and empty lists all give one request. */
  lemma MissingPreferencesAreEmptyLists(restrictions: Option<seq<string>>, goals: Option<seq<string>>)
    requires restrictions.None? || restrictions == Some([])
    requires goals.None? || goals == Some([])
    ensures TipMessages(Some(Preferences(restrictions, goals))) == TipMessages(None)
    ensures TipMessages(None)[1].content.text == TipPromptHead + TipPromptMiddle + TipPromptTail
  {
    var p := Some(Preferences(restrictions, goals));
    assert RestrictionsOf(p) == [] == RestrictionsOf(None);
    assert GoalsOf(p) == [] == GoalsOf(None);
    EmptySlots(TipPromptHead, TipPromptMiddle, TipPromptTail);
  }

  /** A template whose two slots are empty is its fixed parts run together. */
  lemma EmptySlots(head: string, middle: string, tail: string)
    ensures head + "" + middle + "" + tail == head + middle + tail
  {
    assert head + "" == head;
    assert middle + "" == middle;
  }

  /** `s[i..j+1]` runs from a `{` to a later `}`: a match of `/\{[\s\S]*\}/`. */
  ghost predicate BraceSpan(s: string, i: int, j: int) {
    0 <= i < j < |s| && s[i] == '{' && s[j] == '}'
  }

  /** The match `String.prototype.match` reports for that regex: the leftmost
      start that has a match, and there the longest match (the `*` is greedy). */
  ghost predicate RegexMatch(s: string, i: int, j: int) {
    && BraceSpan(s, i, j)
    && (forall a, b :: 0 <= a < i && a < b < |s| ==> !BraceSpan(s, a, b))
    && (forall b :: j < b < |s| ==> !BraceSpan(s, i, b))
  }

  function FirstIndexOf(s: string, c: char): (r: Option<nat>)
    ensures r.Some? ==> r.value < |s| && s[r.value] == c && forall k :: 0 <= k < r.value ==> s[k] != c
    ensures r.None? ==> forall k :: 0 <= k < |s| ==> s[k] != c
  {
    if |s| == 0 then None
    else if s[0] == c then Some(0)
    else match FirstIndexOf(s[1..], c)
      case None => None
      case Some(k) => Some(k + 1)
  }

  function LastIndexOf(s: string, c: char): (r: Option<nat>)
    ensures r.Some? ==> r.value < |s| && s[r.value] == c && forall k :: r.value < k < |s| ==> s[k] != c
    ensures r.None? ==> forall k :: 0 <= k < |s| ==> s[k] != c
  {
    if |s| == 0 then None
    else if s[|s| - 1] == c then Some(|s| - 1)
    else LastIndexOf(s[..|s| - 1], c)
  }

  /** `response.match(/\{[\s\S]*\}/)?.[0]`: from the first `{` through the
      last `}`, when the first `{` comes before the last `}`. */
  function ExtractJsonSpan(s: string): (r: Option<string>)
    ensures r.Some? <==> exists i, j :: BraceSpan(s, i, j)
    ensures r.Some? ==> exists i, j :: RegexMatch(s, i, j) && r.value == s[i..j + 1]
  {
    match (FirstIndexOf(s, '{'), LastIndexOf(s, '}'))
    case (Some(i), Some(j)) =>
      if i < j then
        assert RegexMatch(s, i, j);
        Some(s[i..j + 1])
      else
        assert forall a, b :: !BraceSpan(s, a, b);
        None
    case _ => None
  }

  /** There is one regex match, so it is the span `ExtractJsonSpan` returns. */
  lemma RegexMatchUnique(s: string, i: int, j: int, a: int, b: int)
    requires RegexMatch(s, i, j) && RegexMatch(s, a, b)
    ensures i == a && j == b
  {
    assert !(a < i) && !(i < a);
    assert !(b < j) && !(j < b);
  }

  /** A match is exactly what the extractor returns. */
  lemma ExtractJsonSpanIsRegexMatch(s: string, i: int, j: int)
    requires RegexMatch(s, i, j)
    ensures ExtractJsonSpan(s) == Some(s[i..j + 1])
  {
    var r := ExtractJsonSpan(s);
    assert r.Some?;
    var a, b :| RegexMatch(s, a, b) && r.value == s[a..b + 1];
    RegexMatchUnique(s, i, j, a, b);
  }

  /** `getDailyTip` given the collaborator and `JSON.parse` (`None` when it
      throws). Every failure ends in the default tip; nothing is thrown. */
  function DailyTip(preferences: Option<Preferences>, chat: Chat, parse: string -> Option<NutritionTip>): (r: NutritionTip)
    ensures chat(TipMessages(preferences)).Failure? ==> r == DefaultTip
    ensures chat(TipMessages(preferences)).Success? ==>
      var reply := chat(TipMessages(preferences)).value;
      && ((forall i, j :: !BraceSpan(reply, i, j)) ==> r == DefaultTip)
      && (forall i, j :: RegexMatch(reply, i, j) ==>
            r == parse(reply[i..j + 1]).GetOr(DefaultTip))
  {
    match chat(TipMessages(preferences))
    case Failure(_) => DefaultTip
    case Success(reply) =>
      match ExtractJsonSpan(reply)
      case None => DefaultTip
      case Some(span) => parse(span).GetOr(DefaultTip)
  }

  /** The tip is either the default or what `JSON.parse` made of the reply. */
  lemma DailyTipSource(preferences: Option<Preferences>, chat: Chat, parse: string -> Option<NutritionTip>)
    ensures var r := DailyTip(preferences, chat, parse);
      r == DefaultTip || exists span :: parse(span) == Some(r)
  {
  }

  // ---------------------------------------------------------------- history

  const HistorySystemPrompt := "You are a nutrition expert analyzing meal patterns and providing helpful feedback. Focus on constructive advice and positive reinforcement. Limit your response to 300 words."
  const HistoryPromptHead := "Analyze this meal history and provide helpful feedback about patterns, nutritional balance, and suggestions for improvement: "
  const HistoryFallback := "Unable to analyze meal history at this time. Please try again later."

  /** The two messages `analyzeMealHistory` sends for a serialised history. */
  function HistoryMessages(serialised: string): (r: seq<Message>)
    ensures |r| == 2 && r[0] == Message(System, Plain(HistorySystemPrompt))
    ensures r[1].role == User && r[1].content.Plain?
    ensures var t := r[1].content.text;
      |t| == |HistoryPromptHead| + |serialised| && HistoryPromptHead <= t && t[|HistoryPromptHead|..] == serialised
  {
    var t := HistoryPromptHead + serialised;
    assert t[|HistoryPromptHead|..] == serialised;
    [ Message(System, Plain(HistorySystemPrompt)), Message(User, Plain(t)) ]
  }

  /** Distinct serialisations give distinct requests. */
  lemma HistoryMessagesInjective(s1: string, s2: string)
    requires HistoryMessages(s1) == HistoryMessages(s2)
    ensures s1 == s2
  {
    var t := HistoryMessages(s1)[1].content.text;
    assert s1 == t[|HistoryPromptHead|..] == s2;
  }

  /** `analyzeMealHistory`: the collaborator's text verbatim, or the fixed
      apology on any failure. */
  function AnalyzeMealHistory<H>(history: H, stringify: H -> string, chat: Chat): (r: string)
    ensures chat(HistoryMessages(stringify(history))).Success? ==> r == chat(HistoryMessages(stringify(history))).value
    ensures chat(HistoryMessages(stringify(history))).Failure? ==> r == HistoryFallback
  {
    match chat(HistoryMessages(stringify(history)))
    case Success(text) => text
    case Failure(_) => HistoryFallback
  }
}
