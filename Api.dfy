/** The Flask service (api.py): the start-up gate, the transcript built from
    the posted conversation, the `/chat` route, and `/submit_ticket` with its
    automatic e-mail decision.  The pipeline, the reply generator, the clock
    behind the ticket id and the e-mail transport are parameters. */
module Api {
  import opened Common
  import opened Text

  // Start-up.

  /** The module-level globals after start-up: whether `pipeline` was built,
      and `startup_error`. */
  datatype Backend = Backend(ready: bool, startupError: Option<string>)

  const EmptyHistory: string := "Historical data is empty. Check the CSV file and path."

  /** `str(e)` for the exceptions the model raises. */
  function ErrorText(e: Error): string
  {
    match e
    case IndexError => "list index out of range"
    case KeyError(key) => "'" + key + "'"
    case ValueError(message) => message
    case AttributeError => ""
    case UnboundLocalError(name) =>
      "cannot access local variable '" + name + "' where it is not associated with a value"
    case FileNotFoundError(message) => message
  }

  /** The `try` block at module level.  `issues` is the `issues` list of the
      training data, or the exception loading it raised. */
  function Startup(issues: Result<seq<string>>): (b: Backend)
    ensures b.ready <==> issues.Ok? && |issues.value| > 0
    ensures b.ready ==> b.startupError == None
    ensures issues.Err? ==> b.startupError == Some(ErrorText(issues.error))
    ensures issues == Ok([]) ==> b.startupError == Some(EmptyHistory)
  {
    match issues
    case Err(e) => Backend(false, Some(ErrorText(e)))
    case Ok(list) =>
      if |list| == 0 then Backend(false, Some(ErrorText(FileNotFoundError(EmptyHistory))))
      else Backend(true, None)
  }

  const Unavailable: string := "Backend pipeline is not available. "
  const UnknownReason: string := "An unknown error occurred during initialization."

  /** The error text both routes return when there is no pipeline: the
      start-up error when one was recorded (and is not empty), otherwise a
      generic reason. */
  function UnavailableMessage(startupError: Option<string>): (m: string)
    ensures |m| >= |Unavailable| && m[..|Unavailable|] == Unavailable
    ensures startupError.Some? && startupError.value != "" ==>
      m[|Unavailable|..] == "Reason: " + startupError.value
    ensures startupError == None || startupError == Some("") ==> m[|Unavailable|..] == UnknownReason
  {
    var m := if startupError.Some? && startupError.value != "" then Unavailable + ("Reason: " + startupError.value)
             else Unavailable + UnknownReason;
    assert m[..|Unavailable|] == Unavailable;
    m
  }

  /** The 500 response of a route that has no pipeline. */
  function UnavailableResponse(b: Backend): Response
  {
    Response(500, map["error" := Str(UnavailableMessage(b.startupError))])
  }

  /** Start-up with an empty history: the routes answer with the reason. */
  lemma EmptyHistoryIsReported()
    ensures !Startup(Ok([])).ready
    ensures UnavailableMessage(Startup(Ok([])).startupError)
            == Unavailable + "Reason: " + EmptyHistory
  {
    var m := UnavailableMessage(Some(EmptyHistory));
    assert m[..|Unavailable|] == Unavailable;
    assert m == m[..|Unavailable|] + m[|Unavailable|..];
  }

  // The transcript.

  /** One posted message, a JSON object. */
  type Message = map<string, Value>

  /** `f"{msg['role'].title()}: {msg['content']}"`: `role` is read first and
      must be a str; `content` is rendered as an f-string renders it. */
  function RenderMessage(msg: Message): (r: Result<string>)
    ensures "role" !in msg ==> r == Err(KeyError("role"))
    ensures "role" in msg && !msg["role"].Str? ==> r == Err(AttributeError)
    ensures "role" in msg && msg["role"].Str? && "content" !in msg ==> r == Err(KeyError("content"))
    ensures r.Ok? <==> "role" in msg && msg["role"].Str? && "content" in msg
    ensures r.Ok? ==>
      var n := |msg["role"].s|;
      && |r.value| == n + 2 + |Display(msg["content"])|
      && r.value[..n] == Title(msg["role"].s)
      && r.value[n..n + 2] == ": "
      && r.value[n + 2..] == Display(msg["content"])
  {
    if "role" !in msg then Err(KeyError("role"))
    else if !msg["role"].Str? then Err(AttributeError)
    else if "content" !in msg then Err(KeyError("content"))
    else
      TitleProperties(msg["role"].s);
      Ok(Title(msg["role"].s) + ": " + Display(msg["content"]))
  }

  /** The list comprehension: every message rendered, in order, or the
      exception of the first message that cannot be. */
  function RenderAll(conversation: seq<Message>): (r: Result<seq<string>>)
    ensures r.Ok? <==> forall k :: 0 <= k < |conversation| ==> RenderMessage(conversation[k]).Ok?
    ensures r.Ok? ==> |r.value| == |conversation|
    ensures r.Ok? ==> forall k :: 0 <= k < |conversation| ==> r.value[k] == RenderMessage(conversation[k]).value
    ensures r.Err? ==>
              exists k :: 0 <= k < |conversation| && RenderMessage(conversation[k]) == Err(r.error)
                          && forall j :: 0 <= j < k ==> RenderMessage(conversation[j]).Ok?
  {
    if |conversation| == 0 then Ok([])
    else match RenderMessage(conversation[0])
      case Err(e) => Err(e)
      case Ok(line) =>
        match RenderAll(conversation[1..])
        case Err(e) =>
          assert forall k :: 1 <= k < |conversation| ==> conversation[k] == conversation[1..][k - 1];
          Err(e)
        case Ok(lines) =>
          assert forall k :: 1 <= k < |conversation| ==> conversation[k] == conversation[1..][k - 1];
          Ok([line] + lines)
  }

  /** `"\n".join(...)` over the rendered messages. */
  function Transcript(conversation: seq<Message>): (r: Result<string>)
    ensures r.Err? <==> RenderAll(conversation).Err?
    ensures conversation == [] ==> r == Ok("")
  {
    match RenderAll(conversation)
    case Err(e) => Err(e)
    case Ok(lines) => Ok(Join(lines, "\n"))
  }

  /** A message whose role and content hold no line break. */
  predicate SingleLine(msg: Message)
  {
    "role" in msg && msg["role"].Str? && "content" in msg
    && '\n' !in msg["role"].s && '\n' !in Display(msg["content"])
  }

  /** A rendered single-line message holds no line break. */
  lemma RenderedSingleLine(msg: Message)
    requires SingleLine(msg)
    ensures RenderMessage(msg).Ok? && '\n' !in RenderMessage(msg).value
  {
    var role := msg["role"].s;
    TitleProperties(role);
    var line := RenderMessage(msg).value;
    assert line == Title(role) + ": " + Display(msg["content"]);
    forall i | 0 <= i < |line| ensures line[i] != '\n' {
      if i < |role| {
        assert line[i] == Title(role)[i];
        if !IsLetter(role[i]) {
          assert Title(role)[i] == role[i];
        }
      } else if i >= |role| + 2 {
        assert line[i] == Display(msg["content"])[i - |role| - 2];
      }
    }
  }

  /** The transcript keeps one line per message, in order: splitting it at
      line breaks gives back the rendered messages. */
  lemma TranscriptLines(conversation: seq<Message>)
    requires |conversation| >= 1
    requires forall k :: 0 <= k < |conversation| ==> SingleLine(conversation[k])
    ensures RenderAll(conversation).Ok? && Transcript(conversation).Ok?
    ensures Split(Transcript(conversation).value, '\n') == RenderAll(conversation).value
  {
    forall k | 0 <= k < |conversation| ensures RenderMessage(conversation[k]).Ok? && '\n' !in RenderMessage(conversation[k]).value {
      RenderedSingleLine(conversation[k]);
    }
    var lines := RenderAll(conversation).value;
    SplitJoin(lines, '\n');
  }

  // The `/chat` route.

  /** An HTTP reply: the status code and the JSON object of its body. */
  datatype Response = Response(status: nat, body: map<string, Value>)

  /** `chat`.  `reply` stands for `generate_solution` on the transcript.
      An exception in building the transcript escapes the route (`Err`). */
  function Chat(b: Backend, conversation: seq<Message>, reply: string -> Result<string>): (r: Result<Response>)
    ensures !b.ready ==> r == Ok(UnavailableResponse(b))
    ensures r.Err? <==> b.ready && Transcript(conversation).Err?
    ensures b.ready && Transcript(conversation).Ok? ==>
      (r.value.status == 200 <==> reply(Transcript(conversation).value).Ok?)
    ensures r.Ok? && r.value.status == 200 ==>
      r.value.body == map["agent_reply" := Str(reply(Transcript(conversation).value).value)]
  {
    if !b.ready then Ok(UnavailableResponse(b))
    else match Transcript(conversation)
      case Err(e) => Err(e)
      case Ok(text) =>
        match reply(text)
        case Ok(answer) => Ok(Response(200, map["agent_reply" := Str(answer)]))
        case Err(e) => Ok(Response(500, map["error" := Str("Failed to generate response: " + ErrorText(e))]))
  }

  // The automatic e-mail decision of `/submit_ticket`.

  const FeatureKeywords: seq<string> :=
    ["new feature", "feature request", "add feature", "enhancement", "suggest a feature", "idea for app"]

  /** `is_new_feature`: a feature keyword in the lowercased issue, summary or
      raw conversation. */
  predicate IsNewFeature(issue: string, summary: string, raw: string)
  {
    ContainsAny(Lower(issue), FeatureKeywords)
    || ContainsAny(Lower(summary), FeatureKeywords)
    || ContainsAny(Lower(raw), FeatureKeywords)
  }

  /** A keyword in any capitalisation anywhere in the conversation flags a
      feature request. */
  lemma FeatureInAnyCase(issue: string, summary: string, raw: string, word: string, k: nat)
    requires k < |FeatureKeywords| && Lower(word) == FeatureKeywords[k]
    requires Contains(raw, word)
    ensures IsNewFeature(issue, summary, raw)
  {
    LowerContains(raw, word);
    ContainsAnyAt(Lower(raw), FeatureKeywords, k);
  }

  /** An e-mail is due for a Critical or High priority or a feature request. */
  predicate EmailDue(priority: string, isNewFeature: bool)
  {
    priority == "Critical" || priority == "High" || isNewFeature
  }

  const CriticalNote: string := "Auto-Trigger: Critical Priority"
  const NotePrefix: string := "Auto-Notification Trigger: "
  const HighReason: string := "High Priority"
  const FeatureReason: string := "Potential New Feature Request"

  /** The note of the e-mail, when one is due: Critical takes precedence over
      everything; otherwise the reasons in the order High, then feature. */
  function Note(priority: string, isNewFeature: bool): (n: Option<string>)
    ensures n.Some? <==> EmailDue(priority, isNewFeature)
  {
    if priority == "Critical" then Some(CriticalNote)
    else if priority == "High" && isNewFeature then
      Some(NotePrefix + HighReason + ", " + FeatureReason)
    else if priority == "High" then Some(NotePrefix + HighReason)
    else if isNewFeature then Some(NotePrefix + FeatureReason)
    else None
  }

  /** The `if is_critical ... elif` block: the reason list is built by
      appends and joined with ", ". */
  method AlertNote(priority: string, isNewFeature: bool) returns (note: Option<string>)
    ensures note == Note(priority, isNewFeature)
  {
    var isCritical := priority == "Critical";
    var isHigh := priority == "High";
    note := None;
    if isCritical || isHigh || isNewFeature {
      if isCritical {
        note := Some(CriticalNote);
      } else if isHigh || isNewFeature {
        var reason: seq<string> := [];
        if isHigh {
          reason := reason + [HighReason];
        }
        if isNewFeature {
          reason := reason + [FeatureReason];
        }
        ReasonsJoined(isHigh, isNewFeature, reason);
        note := Some(NotePrefix + Join(reason, ", "));
      }
    }
  }

  /** The joined reason list of a High and/or feature ticket is the text of
      its note after the prefix. */
  lemma ReasonsJoined(isHigh: bool, isNewFeature: bool, reason: seq<string>)
    requires isHigh || isNewFeature
    requires reason == (if isHigh then [HighReason] else []) + (if isNewFeature then [FeatureReason] else [])
    ensures Some(NotePrefix + Join(reason, ", ")) == Note(if isHigh then "High" else "Medium", isNewFeature)
  {
    if isHigh && isNewFeature {
      assert reason[1..] == [FeatureReason];
      assert NotePrefix + (HighReason + ", " + FeatureReason) == NotePrefix + HighReason + ", " + FeatureReason;
    }
  }

  /** A Critical ticket gets the critical note whether or not it also looks
      like a feature request; a note other than the critical one always
      starts with the notification prefix. */
  lemma CriticalTakesPrecedence(isNewFeature: bool, priority: string)
    ensures Note("Critical", isNewFeature) == Some(CriticalNote)
    ensures priority != "Critical" && Note(priority, isNewFeature).Some? ==>
      |Note(priority, isNewFeature).value| > |NotePrefix|
      && Note(priority, isNewFeature).value[..|NotePrefix|] == NotePrefix
  {
    if priority != "Critical" && Note(priority, isNewFeature).Some? {
      var n := Note(priority, isNewFeature).value;
      assert n == NotePrefix + n[|NotePrefix|..];
    }
  }

  /** The priority test sees `str(...).title()`, so any capitalisation of
      the level decides alike. */
  lemma PriorityIgnoresCase(level: string, isNewFeature: bool)
    ensures Note(Title(Lower(level)), isNewFeature) == Note(Title(level), isNewFeature)
  {
    TitleIgnoresCase(level);
  }

  // `/submit_ticket`.

  /** `conversation_list` as stored in the ticket. */
  function ConversationValue(conversation: seq<Message>): Value
  {
    List(seq(|conversation|, k requires 0 <= k < |conversation| => Dict(conversation[k])))
  }

  /** The analysis with the ticket id and the conversation added. */
  function Stamped(analysis: map<string, Value>, ticketId: string, conversation: seq<Message>): (t: map<string, Value>)
    ensures t.Keys == analysis.Keys + {"ticket_id", "conversation_history"}
    ensures t["ticket_id"] == Str(ticketId) && t["conversation_history"] == ConversationValue(conversation)
    ensures forall key :: key in analysis && key != "ticket_id" && key != "conversation_history" ==>
      t[key] == analysis[key]
  {
    analysis["ticket_id" := Str(ticketId)]["conversation_history" := ConversationValue(conversation)]
  }

  /** What one submission does: the reply, the ticket written to disk (if
      any) and the note of the e-mail that went out (if any). */
  datatype Submission = Submission(response: Response, saved: Option<map<string, Value>>, emailed: Option<string>)

  function Failed(e: Error): Submission
  {
    Submission(Response(500, map["error" := Str("Failed to submit ticket: " + ErrorText(e))]), None, None)
  }

  /** The fields the decision reads are str (or absent). */
  predicate TextFields(t: map<string, Value>)
  {
    Get(t, "extracted_issue", Str("")).Str? && Get(t, "summary", Str("")).Str?
  }

  /** `submit_ticket`.  `process` stands for `pipeline.process` on the
      transcript and the history loaded at start-up; `ticketId` for the
      clock-derived id; `emailWorks` says whether building and sending the
      e-mail succeeds.  An exception in building the transcript escapes the
      route (`Err`). */
  method SubmitTicket(b: Backend, conversation: seq<Message>, process: string -> Result<map<string, Value>>,
                      ticketId: string, emailWorks: bool) returns (r: Result<Submission>)
    ensures !b.ready ==> r == Ok(Submission(UnavailableResponse(b), None, None))
    ensures r.Err? <==> b.ready && Transcript(conversation).Err?
    ensures b.ready && Transcript(conversation).Ok? && process(Transcript(conversation).value).Err? ==>
      r == Ok(Failed(process(Transcript(conversation).value).error))
    ensures b.ready && Transcript(conversation).Ok? && process(Transcript(conversation).value).Ok? ==>
      var text := Transcript(conversation).value;
      var t := Stamped(process(text).value, ticketId, conversation);
      if !TextFields(t) then r == Ok(Failed(AttributeError))
      else
        && r.value.response == Response(200, map["message" := Str("Ticket submitted successfully"),
                                                 "ticket_id" := Str(ticketId)])
        && r.value.saved == Some(t)
        && r.value.emailed == (if emailWorks then
             Note(Title(Display(Get(t, "priority_level", Str("")))),
                  IsNewFeature(Get(t, "extracted_issue", Str("")).s, Get(t, "summary", Str("")).s, text))
           else None)
  {
    if !b.ready {
      return Ok(Submission(UnavailableResponse(b), None, None));
    }
    var text := Transcript(conversation);
    if text.Err? {
      return Err(text.error);
    }
    var analysis := process(text.value);
    if analysis.Err? {
      return Ok(Failed(analysis.error));
    }
    var finalAnalysis := analysis.value;
    finalAnalysis := finalAnalysis["ticket_id" := Str(ticketId)];
    finalAnalysis := finalAnalysis["conversation_history" := ConversationValue(conversation)];
    var priority := Title(Display(Get(finalAnalysis, "priority_level", Str(""))));
    var issue := Get(finalAnalysis, "extracted_issue", Str(""));
    if !issue.Str? {
      return Ok(Failed(AttributeError));
    }
    var summary := Get(finalAnalysis, "summary", Str(""));
    if !summary.Str? {
      return Ok(Failed(AttributeError));
    }
    var isNewFeature := IsNewFeature(issue.s, summary.s, text.value);
    var emailed: Option<string> := None;
    if EmailDue(priority, isNewFeature) {
      var note := AlertNote(priority, isNewFeature);
      if emailWorks {
        emailed := note;
      }
    }
    var response := Response(200, map["message" := Str("Ticket submitted successfully"), "ticket_id" := Str(ticketId)]);
    return Ok(Submission(response, Some(finalAnalysis), emailed));
  }
}
