/**
 * `POST /api/generate-questions`: checks the session and the API key,
 * reads the project's name, description and type, asks the model for
 * discovery questions, strips code fences from the reply, and fills in
 * the defaults of every question. The SDK call is an input
 * (`ClaudeClient.SdkReply`) and `JSON.parse` is a function parameter.
 */
module QuestionsRoute {
  import opened Wrappers
  import opened Strings
  import opened Digits
  import opened Seqs
  import ClaudeClient

  const SessionValue := "authenticated"
  const UnauthorizedMessage := "Unauthorized. Please refresh the page and try again."
  const UnavailableMessage :=
    "AI features are not available. Please configure ANTHROPIC_API_KEY to enable AI-powered discovery questions."
  const InvalidFormat := "Invalid request format."
  const MissingFields := "Missing required fields: projectName, description, or projectType."
  const DefaultReasoning := "Questions generated to improve your project"
  const InvalidResponse := "AI returned invalid response format"
  const InvalidQuestions := "Invalid questions array in AI response"
  const ConfigError := "AI service configuration error. Please contact support."
  const TimeoutError := "Request timed out. Please try again."
  const GenericError := "Failed to generate questions. Please try again."

  const JsonFence := "```json"
  const Fence := "```"

  /**
   * The request body: not JSON, the JSON value `null` (destructuring it
   * throws), or any other value with the three fields read from it; a
   * field that is absent or falsy is `None`.
   */
  datatype Body = NotJson | Null | Fields(projectName: Option<string>, description: Option<string>, projectType: Option<string>)

  /**
   * A question as the model returns it. A text field that is absent or falsy
   * is `None`; `required` keeps an explicit `false` apart from an absent one.
   */
  datatype RawQuestion = RawQuestion(
    id: Option<string>,
    kind: Option<string>,
    question: Option<string>,
    placeholder: Option<string>,
    options: Option<seq<string>>,
    required: Option<bool>,
    category: Option<string>)

  /** A question as the route returns it. */
  datatype Question = Question(
    id: string,
    kind: string,
    question: Option<string>,
    placeholder: Option<string>,
    options: Option<seq<string>>,
    required: bool,
    category: string)

  /** `JSON.parse` of the cleaned reply; `questions` is `None` when it is missing, falsy or not an array. */
  datatype Parsed = Unparseable | Parsed(reasoning: Option<string>, questions: Option<seq<RawQuestion>>)

  /**
   * A response the route writes itself, one built in the `catch` block
   * from the message of what was thrown, or the questions.
   */
  datatype Response =
    | Failed(status: int, error: string)
    | Threw(message: string)
    | Questions(questions: seq<Question>, reasoning: string)

  function Status(r: Response): int {
    match r
    case Failed(status, _) => status
    case Threw(_) => 500
    case Questions(_, _) => 200
  }

  // ---------------------------------------------------------------------
  // Cleaning the reply
  // ---------------------------------------------------------------------

  /**
   * A global replace of `marker` followed by an optional line break:
   * scanning left to right, every occurrence is removed together with the
   * `\n` right after it, if any, and scanning resumes after what was removed.
   */
  function RemoveMarker(s: string, marker: string): (r: string)
    requires marker != []
    ensures |r| <= |s|
    decreases |s|
  {
    if s == [] then []
    else if StartsWith(s, marker) then
      var rest := s[|marker|..];
      RemoveMarker(if rest != [] && rest[0] == '\n' then rest[1..] else rest, marker)
    else [s[0]] + RemoveMarker(s[1..], marker)
  }

  /** The text handed to `JSON.parse`: both kinds of fence removed, then trimmed. */
  function CleanResponse(text: string): string {
    Trim(RemoveMarker(RemoveMarker(text, JsonFence), Fence))
  }

  /**
   * Removing every fence leaves none behind: the characters kept around a
   * removed fence cannot join into a new one, because a kept backtick is
   * never followed by two more.
   */
  lemma {:induction false} FenceRemoved(s: string)
    ensures var r := RemoveMarker(s, Fence);
      && !Contains(r, Fence)
      && (StartsWith(r, "`") ==> StartsWith(s, "`"))
      && (StartsWith(r, "``") ==> StartsWith(s, "``"))
    decreases |s|
  {
    if s == [] {
    } else if StartsWith(s, Fence) {
      var rest := s[3..];
      FenceRemoved(if rest != [] && rest[0] == '\n' then rest[1..] else rest);
      assert s[..1] == "`" && s[..2] == "``";
    } else {
      var s1 := s[1..];
      FenceRemoved(s1);
      assert s == [s[0]] + s1;
      FenceFreeCons(s[0], s1, RemoveMarker(s1, Fence));
    }
  }

  /** A character kept in front of a fence-free text cannot start a fence that the input did not start. */
  lemma FenceFreeCons(x: char, s: string, r: string)
    requires !Contains(r, Fence) && !StartsWith([x] + s, Fence)
    requires StartsWith(r, "`") ==> StartsWith(s, "`")
    requires StartsWith(r, "``") ==> StartsWith(s, "``")
    ensures !Contains([x] + r, Fence)
    ensures StartsWith([x] + r, "`") ==> StartsWith([x] + s, "`")
    ensures StartsWith([x] + r, "``") ==> StartsWith([x] + s, "``")
  {
    assert Fence[1..] == "``" && "``"[1..] == "`" && "`"[1..] == "";
    StartsWithCons(x, r, Fence);
    StartsWithCons(x, s, Fence);
    StartsWithCons(x, r, "``");
    StartsWithCons(x, s, "``");
    StartsWithCons(x, r, "`");
    StartsWithCons(x, s, "`");
    assert ([x] + r)[1..] == r;
  }

  /** A substring of a string without `sub` does not contain it either. */
  lemma SliceLacks(s: string, i: nat, j: nat, sub: string)
    requires i <= j <= |s| && !Contains(s, sub)
    ensures !Contains(s[i..j], sub)
  {
    if Contains(s[i..j], sub) {
      var k := ContainsWitness(s[i..j], sub);
      forall m | 0 <= m < |sub|
        ensures s[i + k..i + k + |sub|][m] == sub[m]
      {
        assert s[i + k + m] == s[i..j][k..k + |sub|][m];
      }
      assert s[i + k..i + k + |sub|] == sub;
      ContainsAt(s, sub, i + k);
    }
  }

  /** Whatever the model replies, the text handed to `JSON.parse` holds no code fence. */
  lemma CleanHasNoFence(text: string)
    ensures !Contains(CleanResponse(text), Fence)
  {
    var s := RemoveMarker(RemoveMarker(text, JsonFence), Fence);
    FenceRemoved(RemoveMarker(text, JsonFence));
    var t := TrimStart(s);
    TrimStartSuffix(s);
    SliceLacks(s, |s| - |t|, |s|, Fence);
    assert t == s[|s| - |t|..|s|];
    var u := TrimEnd(t);
    TrimEndPrefix(t);
    SliceLacks(t, 0, |u|, Fence);
    assert u == t[0..|u|];
  }

  /** A string without the marker's first character is left as it is. */
  lemma {:induction false} RemoveMarkerAbsent(s: string, marker: string)
    requires marker != [] && marker[0] !in s
    ensures RemoveMarker(s, marker) == s
    decreases |s|
  {
    if s != [] {
      assert s[0] != marker[0];
      RemoveMarkerAbsent(s[1..], marker);
    }
  }

  /** A reply without any backtick is only trimmed. */
  lemma PlainReply(text: string)
    requires '`' !in text
    ensures CleanResponse(text) == Trim(text)
  {
    RemoveMarkerAbsent(text, JsonFence);
    RemoveMarkerAbsent(text, Fence);
  }

  /** A prefix without the marker's first character is kept, and the rest is cleaned. */
  lemma {:induction false} RemoveMarkerKeepsPrefix(a: string, b: string, marker: string)
    requires marker != [] && marker[0] !in a
    ensures RemoveMarker(a + b, marker) == a + RemoveMarker(b, marker)
    decreases |a|
  {
    if a == [] {
      assert a + b == b;
    } else {
      assert (a + b)[0] == a[0] && (a + b)[1..] == a[1..] + b;
      RemoveMarkerKeepsPrefix(a[1..], b, marker);
      assert a == [a[0]] + a[1..];
    }
  }

  /** The marker, an optional line break and the rest: the marker and the break go. */
  lemma RemoveMarkerLeading(marker: string, b: string)
    requires marker != [] && (b == [] || b[0] != '\n')
    ensures RemoveMarker(marker + ['\n'] + b, marker) == RemoveMarker(b, marker)
    ensures RemoveMarker(marker + b, marker) == RemoveMarker(b, marker)
  {
    assert (marker + ['\n'] + b)[..|marker|] == marker;
    assert (marker + ['\n'] + b)[|marker|..] == ['\n'] + b;
    assert (['\n'] + b)[1..] == b;
    assert (marker + b)[..|marker|] == marker;
    assert (marker + b)[|marker|..] == b;
  }

  /** A string shorter than the marker holds no occurrence of it. */
  lemma {:induction false} RemoveMarkerShort(s: string, marker: string)
    requires marker != [] && |s| < |marker|
    ensures RemoveMarker(s, marker) == s
    decreases |s|
  {
    if s != [] {
      RemoveMarkerShort(s[1..], marker);
    }
  }

  /**
   * A reply wrapped in a JSON code block comes out as its body (and the
   * line break before the closing fence), trimmed.
   */
  lemma FencedReply(body: string)
    requires '`' !in body && body != [] && body[0] != '\n'
    ensures CleanResponse(JsonFence + ['\n'] + body + ['\n'] + Fence) == Trim(body + ['\n'])
  {
    var inner := body + ['\n'];
    assert '`' !in inner;
    assert (inner + Fence)[0] == body[0];
    assert JsonFence + ['\n'] + body + ['\n'] + Fence == JsonFence + ['\n'] + (inner + Fence);
    RemoveMarkerLeading(JsonFence, inner + Fence);
    RemoveMarkerKeepsPrefix(inner, Fence, JsonFence);
    RemoveMarkerShort(Fence, JsonFence);
    RemoveMarkerKeepsPrefix(inner, Fence, Fence);
    RemoveMarkerLeading(Fence, []);
    assert Fence + [] == Fence && inner + [] == inner;
  }

  // ---------------------------------------------------------------------
  // Question defaults
  // ---------------------------------------------------------------------

  /** `q<n>`, the id given to the question at position `n - 1` that has none. */
  function DefaultId(index: nat): string { "q" + NatToString(index + 1) }

  function NormalizeQuestion(q: RawQuestion, index: nat): Question {
    Question(
      if Truthy(q.id) then q.id.value else DefaultId(index),
      if Truthy(q.kind) then q.kind.value else "textarea",
      q.question,
      q.placeholder,
      q.options,
      q.required != Some(false),
      if Truthy(q.category) then q.category.value else "other")
  }

  /** The `map` over the model's questions, with each question's position. */
  function NormalizeQuestions(qs: seq<RawQuestion>): seq<Question> {
    seq(|qs|, i requires 0 <= i < |qs| => NormalizeQuestion(qs[i], i))
  }

  /**
   * One question out per question in, in the same order: the text,
   * placeholder and options are kept; a given id, type and category are
   * kept and a missing one becomes `q<position + 1>`, `textarea` or
   * `other`; a question is required unless it says `required: false`.
   */
  lemma NormalizedQuestions(qs: seq<RawQuestion>)
    ensures var r := NormalizeQuestions(qs);
      && |r| == |qs|
      && forall i :: 0 <= i < |qs| ==>
        && r[i].question == qs[i].question && r[i].placeholder == qs[i].placeholder && r[i].options == qs[i].options
        && (r[i].required <==> qs[i].required != Some(false))
        && (Truthy(qs[i].id) ==> r[i].id == qs[i].id.value)
        && (!Truthy(qs[i].id) ==> r[i].id == "q" + NatToString(i + 1))
        && (Truthy(qs[i].kind) ==> r[i].kind == qs[i].kind.value)
        && (!Truthy(qs[i].kind) ==> r[i].kind == "textarea")
        && (Truthy(qs[i].category) ==> r[i].category == qs[i].category.value)
        && (!Truthy(qs[i].category) ==> r[i].category == "other")
  {
  }

  /** Every question ends up with a non-empty id. */
  lemma IdsNonEmpty(qs: seq<RawQuestion>)
    ensures forall i :: 0 <= i < |qs| ==> NormalizeQuestions(qs)[i].id != ""
  {
  }

  /** When the model gives no ids, the ids filled in are all different. */
  lemma DefaultIdsDistinct(qs: seq<RawQuestion>)
    requires forall i :: 0 <= i < |qs| ==> !Truthy(qs[i].id)
    ensures Distinct(seq(|qs|, i requires 0 <= i < |qs| => NormalizeQuestions(qs)[i].id))
  {
    var ids := seq(|qs|, i requires 0 <= i < |qs| => NormalizeQuestions(qs)[i].id);
    forall i, j | 0 <= i < j < |ids|
      ensures ids[i] != ids[j]
    {
      if ids[i] == ids[j] {
        PrefixedInjective("q", i + 1, j + 1);
      }
    }
  }

  // ---------------------------------------------------------------------
  // Error messages
  // ---------------------------------------------------------------------

  /** The message shown for an error thrown after the checks. */
  function ErrorMessage(message: string): (r: string)
    ensures r == ConfigError <==> Contains(message, "API key")
    ensures r == TimeoutError <==> !Contains(message, "API key") && Contains(message, "timeout")
    ensures r == GenericError <==> !Contains(message, "API key") && !Contains(message, "timeout")
  {
    if Contains(message, "API key") then ConfigError
    else if Contains(message, "timeout") then TimeoutError
    else GenericError
  }

  /**
   * `a + b` cannot contain `sub` when the character at position `j` of
   * `sub` is missing from `a` and `b` is too short to hold the rest of `sub`
   * from that character on.
   */
  lemma CharBlocks(a: string, b: string, sub: string, j: nat)
    requires j < |sub| && sub[j] !in a && |b| < |sub| - j
    ensures !Contains(a + b, sub)
  {
    if Contains(a + b, sub) {
      var k := ContainsWitness(a + b, sub);
    }
  }

  /**
   * A message with no `P`, and no `m` before its last four characters,
   * names neither an API key nor a timeout, so it is shown as the generic
   * message.
   */
  lemma BlockedIsGeneric(a: string, b: string)
    requires 'P' !in a && 'P' !in b && 'm' !in a && |b| < 5
    ensures ErrorMessage(a + b) == GenericError
  {
    assert "API key"[1] == 'P' && "timeout"[2] == 'm';
    assert (a + b) + [] == a + b;
    CharBlocks(a + b, [], "API key", 1);
    CharBlocks(a, b, "timeout", 2);
  }

  /** The route's own error about an unparsable reply is shown as the generic message. */
  lemma InvalidResponseIsGeneric(message: string)
    requires message == InvalidResponse
    ensures ErrorMessage(message) == GenericError
  {
    var a, b := "AI returned invalid response fo", "rmat";
    assert message == a + b;
    BlockedIsGeneric(a, b);
  }

  /** The route's own error about a missing questions array is shown as the generic message. */
  lemma InvalidQuestionsIsGeneric(message: string)
    requires message == InvalidQuestions
    ensures ErrorMessage(message) == GenericError
  {
    var a, b := "Invalid questions array in AI resp", "onse";
    assert message == a + b;
    BlockedIsGeneric(a, b);
  }

  // ---------------------------------------------------------------------
  // The handler
  // ---------------------------------------------------------------------

  /** The reply's text: the first block's text, or empty when it is not text. */
  function ReplyText(reply: ClaudeClient.SdkReply): string
    requires !reply.SdkFailed?
  {
    if reply.TextContent? then reply.text else ""
  }

  /** The route after the checks: the model's reply, parsed, validated and filled in. */
  function Answer(reply: ClaudeClient.SdkReply, parse: string -> Parsed): Response {
    match reply
    case SdkFailed(m) => Threw(m)
    case _ =>
      match parse(CleanResponse(ReplyText(reply)))
      case Unparseable => Threw(InvalidResponse)
      case Parsed(_, None) => Threw(InvalidQuestions)
      case Parsed(reasoning, Some(qs)) =>
        Questions(NormalizeQuestions(qs), if Truthy(reasoning) then reasoning.value else DefaultReasoning)
  }

  /** The error text of a failed response; what was thrown is shown through `ErrorMessage`. */
  function ErrorText(r: Response): string
    requires !r.Questions?
  {
    match r
    case Failed(_, error) => error
    case Threw(message) => ErrorMessage(message)
  }

  /**
   * The checks in order, then the model. Destructuring a `null` body
   * throws a `TypeError` whose message names neither an API key nor a
   * timeout, so it is shown as the generic message.
   */
  function Respond(authToken: Option<string>, hasApiKey: bool, body: Body,
                   reply: ClaudeClient.SdkReply, parse: string -> Parsed): Response
  {
    if authToken != Some(SessionValue) then Failed(401, UnauthorizedMessage)
    else if !hasApiKey then Failed(503, UnavailableMessage)
    else
      match body
      case NotJson => Failed(400, InvalidFormat)
      case Null => Failed(500, GenericError)
      case Fields(name, description, projectType) =>
        if !Truthy(name) || !Truthy(description) || !Truthy(projectType) then Failed(400, MissingFields)
        else Answer(reply, parse)
  }

  /**
   * No session gives 401 before anything else; then a missing API key
   * gives 503; then a body that is not JSON gives 400; then a missing
   * name, description or type gives 400; only then is the model asked.
   */
  lemma RespondOrder(authToken: Option<string>, hasApiKey: bool, body: Body,
                     reply: ClaudeClient.SdkReply, parse: string -> Parsed)
    ensures var r := Respond(authToken, hasApiKey, body, reply, parse);
      && (r == Failed(401, UnauthorizedMessage) <==> authToken != Some(SessionValue))
      && (r == Failed(503, UnavailableMessage) <==> authToken == Some(SessionValue) && !hasApiKey)
      && (r == Failed(400, InvalidFormat) <==> authToken == Some(SessionValue) && hasApiKey && body.NotJson?)
      && (r == Failed(400, MissingFields) <==>
            && authToken == Some(SessionValue) && hasApiKey && body.Fields?
            && (!Truthy(body.projectName) || !Truthy(body.description) || !Truthy(body.projectType)))
      && (r.Threw? || r.Questions? ==>
            && authToken == Some(SessionValue) && hasApiKey && body.Fields?
            && Truthy(body.projectName) && Truthy(body.description) && Truthy(body.projectType))
  {
    AnswerNotFailed(reply, parse);
  }

  /** The model's part never ends in a response the route writes itself. */
  lemma AnswerNotFailed(reply: ClaudeClient.SdkReply, parse: string -> Parsed)
    ensures !Answer(reply, parse).Failed?
  {
  }

  /**
   * After the checks, three things are thrown and end in a 500: the SDK's
   * error, the route's own error about a reply that does not parse, and
   * its own error about a reply without a questions array. The last two
   * are shown as the generic message (`InvalidResponseIsGeneric`,
   * `InvalidQuestionsIsGeneric`).
   */
  lemma AnswerThrows(reply: ClaudeClient.SdkReply, parse: string -> Parsed)
    ensures var r := Answer(reply, parse);
      && (r.Threw? <==> !r.Questions?)
      && (reply.SdkFailed? ==> r == Threw(reply.message))
      && (!reply.SdkFailed? && parse(CleanResponse(ReplyText(reply))).Unparseable? ==> r == Threw(InvalidResponse))
      && ((!reply.SdkFailed? && parse(CleanResponse(ReplyText(reply))).Parsed?
           && parse(CleanResponse(ReplyText(reply))).questions.None?) ==> r == Threw(InvalidQuestions))
  {
  }

  /**
   * A reply whose cleaned text parses to a questions array comes back as
   * every question filled in, with the model's reasoning or the default one.
   */
  lemma AnswerQuestions(reply: ClaudeClient.SdkReply, parse: string -> Parsed)
    ensures var r := Answer(reply, parse);
      && (r.Questions? <==> !reply.SdkFailed? && parse(CleanResponse(ReplyText(reply))).Parsed?
                             && parse(CleanResponse(ReplyText(reply))).questions.Some?)
      && (r.Questions? ==>
            var p := parse(CleanResponse(ReplyText(reply)));
            && r.questions == NormalizeQuestions(p.questions.value)
            && |r.questions| == |p.questions.value|
            && r.reasoning != ""
            && (Truthy(p.reasoning) ==> r.reasoning == p.reasoning.value))
  {
  }
}
