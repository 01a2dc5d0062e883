/** The submit/response cycle of the chat component
    (src/components/ChatInterface.tsx). A session holds the transcript, the
    draft in the input box and the busy flag; a submit either is rejected
    by the guard or appends the question, and the exchange then settles
    with exactly one reply. The network call itself is not modelled: its
    result is an input to the model. */
module ChatInterface {
  import opened Wrappers
  import opened JsString
  import Config

  /** Who wrote a message: the `type` field, `'user'` or `'ai'`. */
  datatype Role = User | Ai

  /** A transcript entry. The `id` and `timestamp` fields are wall-clock
      values and are not modelled. */
  datatype Message = Message(role: Role, content: string)

  /** A supporting excerpt; its optional metadata maps keys to values. */
  datatype Source = Source(content: string, metadata: Option<map<string, string>>)

  /** What `response.json()` yields: a body that could not be read as a
      JSON object (a parse error, or a `null` body whose `.answer` throws),
      or an object whose `answer` and `sources` fields are each present
      (with a truthy value) or absent. */
  datatype Body = Malformed | Parsed(answer: Option<string>, sources: Option<seq<Source>>)

  /** What the `fetch` of the chat endpoint settles to: a rejection (no
      response at all), or a response with its HTTP status and body. */
  datatype FetchResult = Rejected | Response(status: int, body: Body)

  /** The address the component posts to. It is written out in place and
      does not go through the configuration record. */
  const ChatRequestUrl: string := "http://localhost:8000/api/chat"

  /** The fixed reply shown for every failure. */
  const Apology: string := "Sorry, something went wrong. Please try again."

  /** The two halves of the reply used when the server sends no answer. */
  const PlaceholderHead: string := "This is a response to: \""
  const PlaceholderTail: string := "\". The AI analyzed medical documents and provided comprehensive answers based on the loaded knowledge base."

  /** The sources handed to the callback when the server sends none. */
  const DefaultSources: seq<Source> := [
    Source("Sample medical text from a research paper discussing the topic. This would contain the actual extracted content from the medical knowledge base that supports the AI's answer.",
           Some(map["source" := "Medical Journal 2023"])),
    Source("Another relevant excerpt from a different medical document that provides additional context and supporting information for the generated response.",
           Some(map["source" := "Clinical Guidelines"]))
  ]

  /** `response.ok`: the status lies in the 2xx range. */
  predicate StatusOk(status: int) {
    200 <= status <= 299
  }

  /** The exchange reaches the end of the `try` block: the fetch
      resolved, the status is ok and the body is a JSON object. Every other
      result lands in the `catch` block. */
  predicate Succeeded(result: FetchResult) {
    result.Response? && StatusOk(result.status) && result.body.Parsed?
  }

  /** The server's answer if it is a non-empty string (`||` treats `""` as
      missing). */
  predicate HasAnswer(body: Body) {
    body.Parsed? && body.answer.Some? && body.answer.value != ""
  }

  /** The reply used when the server sends no answer; it quotes the question. */
  function Placeholder(question: string): (reply: string)
    ensures |reply| == |PlaceholderHead| + |question| + |PlaceholderTail|
    ensures reply[..|PlaceholderHead|] == PlaceholderHead
    ensures reply[|PlaceholderHead|..|PlaceholderHead| + |question|] == question
    ensures reply[|PlaceholderHead| + |question|..] == PlaceholderTail
  {
    PlaceholderHead + question + PlaceholderTail
  }

  /** The content of the AI message that ends an exchange about `question`. */
  function ReplyText(result: FetchResult, question: string): (reply: string)
    ensures reply != ""
    ensures !Succeeded(result) ==> reply == Apology
    ensures Succeeded(result) && HasAnswer(result.body) ==> reply == result.body.answer.value
    ensures Succeeded(result) && !HasAnswer(result.body) ==> reply == Placeholder(question)
  {
    if !Succeeded(result) then Apology
    else if HasAnswer(result.body) then result.body.answer.value
    else Placeholder(question)
  }

  /** What the sources callback receives: nothing on failure; on success
      the server's list, even an empty one (an array is truthy), or the
      two defaults when the field is absent. */
  function DeliveredSources(result: FetchResult): (delivered: Option<seq<Source>>)
    ensures delivered.Some? <==> Succeeded(result)
    ensures Succeeded(result) && result.body.sources.Some? ==> delivered == result.body.sources
    ensures Succeeded(result) && result.body.sources.None? ==> delivered == Some(DefaultSources)
  {
    if !Succeeded(result) then None
    else if result.body.sources.Some? then result.body.sources
    else Some(DefaultSources)
  }

  /** The placeholder gives the question back: two different questions
      never get the same placeholder. */
  lemma PlaceholderInjective(q1: string, q2: string)
    requires Placeholder(q1) == Placeholder(q2)
    ensures q1 == q2
  {
  }

  /** The placeholder can never be mistaken for the apology: it is longer
      than the apology whatever the question. */
  lemma PlaceholderIsNotApology(question: string)
    ensures Placeholder(question) != Apology
  {
  }

  /** A successful exchange shows the apology only when the server itself
      answered with exactly that text. */
  lemma ApologyMeansFailureOrVerbatim(result: FetchResult, question: string)
    requires ReplyText(result, question) == Apology
    ensures !Succeeded(result) || result.body.answer == Some(Apology)
  {
  }

  /** A non-ok status fails the exchange whatever the body holds, and a
      rejected fetch fails it the same way. */
  lemma StatusDecidesBeforeBody(status: int, b1: Body, b2: Body, q: string)
    requires !StatusOk(status)
    ensures ReplyText(Response(status, b1), q) == ReplyText(Response(status, b2), q)
                                             == ReplyText(Rejected, q) == Apology
    ensures DeliveredSources(Response(status, b1)) == DeliveredSources(Rejected) == None
  {
  }

  /** The defaults are two sources tagged with their origin. */
  lemma DefaultSourcesShape()
    ensures |DefaultSources| == 2
    ensures DefaultSources[0].metadata == Some(map["source" := "Medical Journal 2023"])
    ensures DefaultSources[1].metadata == Some(map["source" := "Clinical Guidelines"])
  {
  }

  /** The posted address equals the configured chat URL only when the
      override happens to be "http://localhost:8000"; with no override it
      differs from the configured default, which names 127.0.0.1. */
  lemma ChatRequestUrlBypassesConfig()
    ensures ChatRequestUrl == Config.BuildApiUrl(Some("http://localhost:8000"), Config.ChatEndpoint)
    ensures ChatRequestUrl != Config.BuildApiUrl(None, Config.ChatEndpoint)
  {
  }

  /** The guard of `handleSubmit` and the negation of the submit button's
      enabled state: a blank draft or a pending exchange. */
  function SubmitBlocked(draft: string, loading: bool): (blocked: bool)
    ensures blocked <==> loading || IsBlank(draft)
  {
    Trim(draft) == [] || loading
  }

  /** The transcript laid out by a run of exchanges: one user message with
      a non-blank question per exchange, each followed by its reply, and
      when `pending` a last question still waiting for its reply. */
  ghost predicate Transcript(messages: seq<Message>, outcomes: seq<FetchResult>, pending: bool) {
    |messages| == 2 * |outcomes| + (if pending then 1 else 0) &&
    (forall k :: 0 <= k < |outcomes| ==>
       messages[2 * k].role == User && !IsBlank(messages[2 * k].content) &&
       messages[2 * k + 1] == Message(Ai, ReplyText(outcomes[k], messages[2 * k].content))) &&
    (pending ==> messages[|messages| - 1].role == User && !IsBlank(messages[|messages| - 1].content))
  }

  /** The component's state: `messages`, `currentQuestion` and
      `isLoading`, with a ghost record of how each exchange settled. */
  class Session {
    var messages: seq<Message>
    var draft: string
    var loading: bool
    ghost var outcomes: seq<FetchResult>

    ghost predicate Valid()
      reads this
    {
      Transcript(messages, outcomes, loading)
    }

    /** The initial `useState` values. */
    constructor ()
      ensures Valid()
      ensures messages == [] && draft == "" && !loading && outcomes == []
    {
      messages, draft, loading := [], "", false;
      outcomes := [];
    }

    /** The input box's `onChange`: the draft becomes what was typed. */
    method Edit(text: string)
      modifies this`draft
      ensures draft == text
    {
      draft := text;
    }

    /** Whether the submit button is enabled. */
    method SubmitEnabled() returns (enabled: bool)
      ensures enabled <==> !loading && exists i :: 0 <= i < |draft| && !IsWhitespace(draft[i])
    {
      enabled := !SubmitBlocked(draft, loading);
    }

    /** The synchronous head of `handleSubmit`: the guard, then the user
        message, the cleared draft and the busy flag. */
    method Submit() returns (accepted: bool)
      requires Valid()
      modifies this`messages, this`draft, this`loading
      ensures Valid()
      ensures accepted <==> !old(loading) && !IsBlank(old(draft))
      ensures accepted ==> messages == old(messages) + [Message(User, old(draft))]
                           && draft == "" && loading
      ensures !accepted ==> messages == old(messages) && draft == old(draft) && loading == old(loading)
    {
      if SubmitBlocked(draft, loading) {
        return false;
      }
      messages := messages + [Message(User, draft)];
      draft := "";
      loading := true;
      accepted := true;
    }

    /** The `try`/`catch`/`finally` tail of `handleSubmit`: one AI message
        answering the pending question, the sources passed to the callback
        (returned here) on success only, and the busy flag cleared. */
    method Complete(result: FetchResult) returns (delivered: Option<seq<Source>>)
      requires Valid() && loading
      modifies this`messages, this`loading, this`outcomes
      ensures Valid()
      ensures messages == old(messages) + [Message(Ai, ReplyText(result, old(messages)[|old(messages)| - 1].content))]
      ensures !loading
      ensures outcomes == old(outcomes) + [result]
      ensures delivered == DeliveredSources(result)
    {
      var question := messages[|messages| - 1].content;
      messages := messages + [Message(Ai, ReplyText(result, question))];
      loading := false;
      outcomes := outcomes + [result];
      delivered := DeliveredSources(result);
    }

    /** All of `handleSubmit`, run to completion: a rejected submit (blank
        draft or busy session) changes nothing and calls no callback; an
        accepted one grows the transcript by the question and its reply, in
        that order. */
    method HandleSubmit(result: FetchResult) returns (accepted: bool, delivered: Option<seq<Source>>)
      requires Valid()
      modifies this`messages, this`draft, this`loading, this`outcomes
      ensures Valid()
      ensures accepted <==> !old(loading) && !IsBlank(old(draft))
      ensures accepted ==> messages == old(messages) + [Message(User, old(draft)), Message(Ai, ReplyText(result, old(draft)))]
                           && draft == "" && !loading && delivered == DeliveredSources(result)
      ensures !accepted ==> messages == old(messages) && draft == old(draft) && loading == old(loading)
                            && delivered == None
    {
      accepted := Submit();
      if accepted {
        delivered := Complete(result);
      } else {
        delivered := None;
      }
    }
  }

  /** The exchange where the server answers with one source. */
  method AnsweredScenario() returns (transcript: seq<Message>, delivered: Option<seq<Source>>)
    ensures transcript == [Message(User, "What is hypertension?"), Message(Ai, "A chronic condition...")]
    ensures delivered == Some([Source("Excerpt A", None)])
  {
    var session := new Session();
    session.Edit("What is hypertension?");
    assert !IsWhitespace(session.draft[0]);
    var accepted;
    accepted, delivered := session.HandleSubmit(Response(200, Parsed(Some("A chronic condition..."), Some([Source("Excerpt A", None)]))));
    transcript := session.messages;
  }

  /** An HTTP 500 and a refused connection end the same way. */
  method FailureScenarios()
    returns (afterServerError: seq<Message>, deliveredAfterServerError: Option<seq<Source>>,
             afterRefusal: seq<Message>, deliveredAfterRefusal: Option<seq<Source>>)
    ensures afterServerError == afterRefusal == [Message(User, "test"), Message(Ai, Apology)]
    ensures deliveredAfterServerError == deliveredAfterRefusal == None
  {
    var first := new Session();
    first.Edit("test");
    assert !IsWhitespace(first.draft[0]);
    var accepted;
    accepted, deliveredAfterServerError := first.HandleSubmit(Response(500, Parsed(Some("ignored"), None)));
    afterServerError := first.messages;

    var second := new Session();
    second.Edit("test");
    assert !IsWhitespace(second.draft[0]);
    accepted, deliveredAfterRefusal := second.HandleSubmit(Rejected);
    afterRefusal := second.messages;
  }

  /** A blank draft, and a submit while an exchange is pending, each leave
      the session as it was. */
  method RejectedScenarios() returns (blankTranscript: seq<Message>, busyTranscript: seq<Message>, busyDraft: string)
    ensures blankTranscript == []
    ensures busyTranscript == [Message(User, "hi")] && busyDraft == "again"
  {
    var idle := new Session();
    idle.Edit(" \t ");
    var accepted := idle.Submit();
    blankTranscript := idle.messages;

    var busy := new Session();
    busy.Edit("hi");
    assert !IsWhitespace(busy.draft[0]);
    accepted := busy.Submit();
    busy.Edit("again");
    accepted := busy.Submit();
    busyTranscript, busyDraft := busy.messages, busy.draft;
  }
}
