/**
 * The main screen's controller: the chat transcript, the pending input, the
 * single-flight flag, the mood, the voice-capture session and the dashboard
 * snapshot, with the handlers that change them. Remote calls are inputs of
 * the form `Success(value)` / `Failure(status)`; speech-engine events are
 * method calls; the mood helper is a function parameter.
 */
module Coach {
  import opened Wrappers
  import opened Text
  import opened Intents
  import opened Progress

  /** One line of the chat transcript; `mood` is attached to the bot's answers only. */
  datatype ChatMessage = ChatMessage(text: string, isUser: bool, mood: Option<string>)

  /** What the SMS-style parser returns for an expense text. */
  datatype ParsedExpense = ParsedExpense(amount: string, merchant: string)

  /** The remote call a submission makes. */
  datatype Call = NoCall | ParseSms(text: string) | AddGoal(title: string, target: string) | GetAdvice

  /** The bot's answer to one submission, the call made for it, and whether a dashboard reload follows. */
  datatype Response = Response(message: ChatMessage, call: Call, refresh: bool)

  /** The user record as the service returns it: the fields the controller reads. */
  datatype Profile = Profile(points: int, moodState: Option<string>)

  /** A record the dashboard shows without looking inside. */
  datatype Payload = Payload(body: string)

  /** The six dashboard fields. */
  datatype Snapshot = Snapshot(
    user: Option<Profile>,
    leaderboard: seq<Payload>,
    savingsStats: Option<Payload>,
    transactions: seq<Payload>,
    goals: seq<Payload>,
    groups: seq<Payload>)

  /** The outcomes of the six reads, in the order they are issued. */
  datatype DashboardReads = DashboardReads(
    profile: Reply<Option<Profile>>,
    leaderboard: Reply<seq<Payload>>,
    savingsStats: Reply<Option<Payload>>,
    transactions: Reply<seq<Payload>>,
    goals: Reply<seq<Payload>>,
    groups: Reply<seq<Payload>>)
  {
    predicate AllSucceeded() {
      profile.Success? && leaderboard.Success? && savingsStats.Success?
      && transactions.Success? && goals.Success? && groups.Success?
    }

    /** The HTTP status of read `i` when that read failed. */
    function FailureStatus(i: nat): (status: Option<int>)
      ensures status.Some? ==> !AllSucceeded()
    {
      if i == 0 && profile.Failure? then Some(profile.status)
      else if i == 1 && leaderboard.Failure? then Some(leaderboard.status)
      else if i == 2 && savingsStats.Failure? then Some(savingsStats.status)
      else if i == 3 && transactions.Failure? then Some(transactions.status)
      else if i == 4 && goals.Failure? then Some(goals.status)
      else if i == 5 && groups.Failure? then Some(groups.status)
      else None
    }

    /** The snapshot the six values make together. */
    function Merged(): (snapshot: Snapshot)
      requires AllSucceeded()
    {
      Snapshot(profile.value, leaderboard.value, savingsStats.value,
               transactions.value, goals.value, groups.value)
    }
  }

  const Greeting := "Hello! I'm your FinCoach. I can help you track expenses, set goals, or analyze your spending."
  const InitialMood := "motivational"
  const ParseHint := "I couldn't parse that. Try: 'Paid Rs 500 at Starbucks'"
  const GoalUsageHint := "To add a goal, say: 'Add goal [Name] [Amount]'"
  const BrainError := "Error connecting to FinCoach brain."
  const CheckMark := "\U{2705}"
  const DirectHit := "\U{1F3AF}"
  const Rupee := "\U{20B9}"

  /** The voice errors that end listening. */
  predicate IsFatalVoiceError(error: string) {
    error == "not-allowed" || error == "service-not-allowed"
  }

  /** The confirmation of a recorded expense names its amount and its merchant. */
  function ExpenseConfirmation(p: ParsedExpense): (text: string)
    ensures Contains(text, p.amount) && Contains(text, p.merchant)
  {
    Around(CheckMark + " Recorded expense: " + Rupee, p.amount, " at ", p.merchant, ".")
  }

  /** The confirmation of an added goal names its title and its target. */
  function GoalConfirmation(title: string, target: string): (text: string)
    ensures Contains(text, title) && Contains(text, target)
  {
    Around(DirectHit + " Goal '", title, "' added with target " + Rupee, target, "!")
  }

  function BotLine(text: string, mood: string): ChatMessage {
    ChatMessage(text, false, Some(mood))
  }

  /**
   * The executor's answer to the trimmed message `m`, given what each
   * remote call would return.
   */
  function Dispatch(m: string, detectedMood: string, parse: Reply<ParsedExpense>,
                    goal: Reply<()>, advice: Reply<string>): (r: Response)
  {
    match Classify(m)
    case ExpenseFromText(text) =>
      if parse.Success? then Response(BotLine(ExpenseConfirmation(parse.value), detectedMood), ParseSms(text), true)
      else Response(BotLine(ParseHint, detectedMood), ParseSms(text), false)
    case GoalCreation(title, target) =>
      if goal.Success? then Response(BotLine(GoalConfirmation(title, target), detectedMood), AddGoal(title, target), true)
      else Response(ChatMessage(BrainError, false, None), AddGoal(title, target), false)
    case GoalUsage =>
      Response(BotLine(GoalUsageHint, detectedMood), NoCall, false)
    case GenericAdvice =>
      if advice.Success? then Response(BotLine(advice.value, detectedMood), GetAdvice, false)
      else Response(ChatMessage(BrainError, false, None), GetAdvice, false)
  }

  /**
   * What the executor promises for every message: the router picks at most
   * one call (the parser for an expense text, the goal service for a
   * well-formed goal command, none for a short one, the advice service
   * otherwise), a parse failure becomes the hint, a goal or advice failure
   * becomes the fixed error line without a mood, only a successful
   * expense or goal asks for a dashboard reload, a confirmation names the
   * values it confirms, and the advice service's message is shown as is.
   */
  lemma DispatchOutcome(m: string, detectedMood: string, parse: Reply<ParsedExpense>,
                        goal: Reply<()>, advice: Reply<string>)
    ensures var r := Dispatch(m, detectedMood, parse, goal, advice);
      && !r.message.isUser
      && (r.call.ParseSms? <==> MentionsAt(m) && HasAmount(m))
      && (r.call.ParseSms? ==> r.call.text == m)
      && (r.call.AddGoal? ==> Classify(m) == GoalCreation(r.call.title, r.call.target))
      && (r.call.AddGoal? <==> !(MentionsAt(m) && HasAmount(m)) && IsGoalCommand(m) && multiset(m)[' '] >= 3)
      && (r.call.NoCall? <==> !(MentionsAt(m) && HasAmount(m)) && IsGoalCommand(m) && multiset(m)[' '] < 3)
      && (r.call.NoCall? ==> r.message.text == GoalUsageHint && !r.refresh)
      && (r.refresh <==> (r.call.ParseSms? && parse.Success?) || (r.call.AddGoal? && goal.Success?))
      && (r.call.ParseSms? && parse.Failure? ==> r.message.text == ParseHint)
      && (r.message.mood.None? <==> (r.call.AddGoal? && goal.Failure?) || (r.call.GetAdvice? && advice.Failure?))
      && (r.message.mood.None? ==> r.message.text == BrainError)
      && (r.message.mood.Some? ==> r.message.mood.value == detectedMood)
      && (r.call.ParseSms? && parse.Success? ==>
            Contains(r.message.text, parse.value.amount) && Contains(r.message.text, parse.value.merchant))
      && (r.call.AddGoal? && goal.Success? ==>
            Contains(r.message.text, r.call.title) && Contains(r.message.text, r.call.target))
      && (r.call.GetAdvice? && advice.Success? ==> r.message.text == advice.value)
  {
  }

  /** A successfully parsed expense text: its confirmation, and a reload. */
  lemma DispatchExpense(m: string, mood: string, parsed: ParsedExpense, goal: Reply<()>, advice: Reply<string>)
    requires Classify(m) == ExpenseFromText(m)
    ensures Dispatch(m, mood, Success(parsed), goal, advice)
      == Response(BotLine(ExpenseConfirmation(parsed), mood), ParseSms(m), true)
  {
  }

  /** A well-formed goal command that the service accepts: its confirmation, and a reload. */
  lemma DispatchGoal(m: string, mood: string, parse: Reply<ParsedExpense>, advice: Reply<string>, title: string, target: string)
    requires Classify(m) == GoalCreation(title, target)
    ensures Dispatch(m, mood, parse, Success(()), advice)
      == Response(BotLine(GoalConfirmation(title, target), mood), AddGoal(title, target), true)
  {
  }

  /** "Paid Rs 500 at Starbucks", parsed as 500 at Starbucks: the confirmation, and a reload. */
  lemma ExpenseScenario(m: string, mood: string, goal: Reply<()>, advice: Reply<string>)
    requires m == "Paid Rs 500 at Starbucks"
    ensures var parsed := ParsedExpense("500", "Starbucks");
      Dispatch(m, mood, Success(parsed), goal, advice)
        == Response(BotLine(CheckMark + " Recorded expense: " + Rupee + "500" + " at " + "Starbucks" + ".", mood),
                    ParseSms(m), true)
  {
    var parsed := ParsedExpense("500", "Starbucks");
    ExpenseExample(m);
    DispatchExpense(m, mood, parsed, goal, advice);
    ExpenseText(parsed.amount, parsed.merchant);
  }

  /** The expense confirmation spelled out. */
  lemma ExpenseText(amount: string, merchant: string)
    ensures ExpenseConfirmation(ParsedExpense(amount, merchant))
      == CheckMark + " Recorded expense: " + Rupee + amount + " at " + merchant + "."
  {
  }

  /** "Add goal Vacation 20000": one goal call with both values, both in the confirmation. */
  lemma GoalScenario(m: string, mood: string, parse: Reply<ParsedExpense>, advice: Reply<string>)
    requires m == "Add goal Vacation 20000"
    ensures Dispatch(m, mood, parse, Success(()), advice)
        == Response(BotLine(DirectHit + " Goal '" + "Vacation" + "' added with target " + Rupee + "20000" + "!", mood),
                    AddGoal("Vacation", "20000"), true)
  {
    GoalExample(m);
    DispatchGoal(m, mood, parse, advice, "Vacation", "20000");
    GoalText("Vacation", "20000");
  }

  /** The goal confirmation spelled out. */
  lemma GoalText(title: string, target: string)
    ensures GoalConfirmation(title, target)
      == DirectHit + " Goal '" + title + "' added with target " + Rupee + target + "!"
  {
  }

  /** "Add goal Car": the usage hint only, whatever the remote calls would have returned. */
  lemma UsageScenario(m: string, mood: string, parse: Reply<ParsedExpense>, goal: Reply<()>, advice: Reply<string>)
    requires m == "Add goal Car"
    ensures Dispatch(m, mood, parse, goal, advice) == Response(BotLine(GoalUsageHint, mood), NoCall, false)
  {
    UsageExample(m);
  }

  /** The transcript a voice result event carries: the first alternative of every segment, in order. */
  function FirstAlternatives(results: seq<seq<string>>): (transcript: string)
    requires forall i :: 0 <= i < |results| ==> results[i] != []
  {
    if results == [] then []
    else FirstAlternatives(results[..|results| - 1]) + results[|results| - 1][0]
  }

  /** The transcript of two runs of segments is the two transcripts one after the other. */
  lemma {:induction false} FirstAlternativesAppend(a: seq<seq<string>>, b: seq<seq<string>>)
    requires forall i :: 0 <= i < |a| ==> a[i] != []
    requires forall i :: 0 <= i < |b| ==> b[i] != []
    ensures FirstAlternatives(a + b) == FirstAlternatives(a) + FirstAlternatives(b)
    decreases |b|
  {
    if b == [] {
      assert a + b == a;
    } else {
      var n := |b|;
      assert (a + b)[..|a + b| - 1] == a + b[..n - 1];
      FirstAlternativesAppend(a, b[..n - 1]);
    }
  }

  /** The `onresult` loop: concatenates the first alternative of every segment. */
  method CollectTranscript(results: seq<seq<string>>) returns (transcript: string)
    requires forall i :: 0 <= i < |results| ==> results[i] != []
    ensures transcript == FirstAlternatives(results)
  {
    transcript := "";
    var i := 0;
    while i < |results|
      invariant 0 <= i <= |results|
      invariant transcript == FirstAlternatives(results[..i])
    {
      assert results[..i + 1][..i] == results[..i];
      transcript := transcript + results[i][0];
      i := i + 1;
    }
    assert results[..i] == results;
  }

  /** The profile's mood indicator, lower-cased, when it is a non-empty string; otherwise the current mood. */
  function MoodAfterLoad(mood: string, user: Option<Profile>): (next: string)
  {
    if user.Some? && user.value.moodState.Some? && user.value.moodState.value != [] then
      ToLower(user.value.moodState.value)
    else mood
  }


  /** A submission whose remote call is awaited: the trimmed message and the mood detected for it. */
  datatype Pending = Pending(message: string, mood: string)

  /** The points the header shows: the user's points, or 0 when no user is loaded. */
  function HeaderPoints(user: Option<Profile>): (points: int)
    ensures user.Some? ==> points == user.value.points
    ensures user.None? ==> Level(points) == 1 && Xp(points) == 0
  {
    if user.Some? then user.value.points else 0
  }

  class Controller {
    var token: Option<string>
    /** The user and the five lists the dashboard shows, replaced together. */
    var dashboard: Snapshot

    var input: string
    var messages: seq<ChatMessage>
    var isProcessing: bool
    var mood: string
    /** The accepted submissions whose answer has not arrived yet, oldest first. */
    var inFlight: seq<Pending>

    var isListening: bool
    /** The engine instance the listening effect created and will stop on cleanup. */
    var current: Option<nat>
    /** The engine instances that are capturing. */
    var running: set<nat>
    /**
     * The engine instances told to stop whose end event has not arrived:
     * a stopped engine may still deliver its final result.
     */
    var stopping: set<nat>
    /** The identifier the next engine instance gets. */
    var nextId: nat

    /** The app as it starts: signed in when a token was stored, nothing loaded, not listening. */
    constructor (storedToken: Option<string>)
      ensures token == storedToken && dashboard == Snapshot(None, [], None, [], [], [])
      ensures input == [] && messages == [ChatMessage(Greeting, false, None)]
      ensures !isProcessing && mood == InitialMood && inFlight == []
      ensures !isListening && current == None && running == {} && stopping == {} && nextId == 0
      ensures VoiceValid()
    {
      token := storedToken;
      dashboard := Snapshot(None, [], None, [], [], []);
      input := [];
      messages := [ChatMessage(Greeting, false, None)];
      isProcessing := false;
      mood := InitialMood;
      inFlight := [];
      isListening := false;
      current := None;
      running := {};
      stopping := {};
      nextId := 0;
    }

    /**
     * The voice session's invariant: an engine instance is current exactly
     * while listening, only the current instance is capturing, and an
     * instance being stopped is an earlier, no longer current one.
     */
    predicate VoiceValid()
      reads this
    {
      && (isListening <==> current.Some?)
      && (current.Some? ==> current.value < nextId)
      && (forall id :: id in running ==> current == Some(id))
      && (forall id :: id in stopping ==> id < nextId && current != Some(id))
    }

    /** Leaving the listening state: the effect's cleanup stops the capturing instance. */
    method StopListening()
      requires VoiceValid()
      modifies this
      ensures !isListening && current == None && running == {} && nextId == old(nextId)
      ensures stopping == old(stopping) + old(running)
      ensures VoiceValid()
      ensures input == old(input) && messages == old(messages) && isProcessing == old(isProcessing)
      ensures mood == old(mood) && inFlight == old(inFlight) && token == old(token) && dashboard == old(dashboard)
    {
      stopping := stopping + running;
      running := {};
      current := None;
      isListening := false;
    }

    /**
     * The microphone button. Listening stops (and the current instance with
     * it); otherwise, when the browser has a speech engine, one new instance
     * is created and started; without one, the state is left as it was.
     */
    method ToggleListen(supported: bool)
      requires VoiceValid()
      modifies this
      ensures VoiceValid()
      ensures old(isListening) ==>
                !isListening && running == {} && stopping == old(stopping) + old(running) && nextId == old(nextId)
      ensures !old(isListening) && supported ==>
                && isListening && current == Some(old(nextId)) && running == {old(nextId)}
                && stopping == old(stopping) && nextId == old(nextId) + 1
      ensures !old(isListening) && !supported ==>
                !isListening && running == old(running) && stopping == old(stopping) && nextId == old(nextId)
      ensures input == old(input) && messages == old(messages) && isProcessing == old(isProcessing)
      ensures mood == old(mood) && inFlight == old(inFlight) && token == old(token) && dashboard == old(dashboard)
    {
      if isListening {
        StopListening();
      } else if supported {
        current := Some(nextId);
        running := running + {nextId};
        nextId := nextId + 1;
        isListening := true;
      }
    }

    /**
     * A result event of a capturing instance, or the final result of one
     * being stopped: the input is replaced by the transcript of all
     * segments, unless that transcript is blank.
     */
    method OnResult(id: nat, results: seq<seq<string>>)
      requires id in running || id in stopping
      requires forall i :: 0 <= i < |results| ==> results[i] != []
      modifies this
      ensures Trim(FirstAlternatives(results)) != [] ==> input == FirstAlternatives(results)
      ensures Trim(FirstAlternatives(results)) == [] ==> input == old(input)
      ensures isListening == old(isListening) && current == old(current) && running == old(running)
      ensures stopping == old(stopping) && nextId == old(nextId)
      ensures messages == old(messages) && isProcessing == old(isProcessing) && inFlight == old(inFlight)
      ensures mood == old(mood) && token == old(token) && dashboard == old(dashboard)
    {
      var transcript := CollectTranscript(results);
      if Trim(transcript) != [] {
        input := transcript;
      }
    }

    /** An error event: only a denied permission stops listening; other errors change nothing. */
    method OnError(id: nat, error: string)
      requires id < nextId
      requires VoiceValid()
      modifies this
      ensures VoiceValid()
      ensures IsFatalVoiceError(error) ==>
                !isListening && running == {} && stopping == old(stopping) + old(running)
      ensures !IsFatalVoiceError(error) || !old(isListening) ==>
                && isListening == old(isListening) && current == old(current)
                && running == old(running) && stopping == old(stopping)
      ensures nextId == old(nextId) && input == old(input) && messages == old(messages)
      ensures isProcessing == old(isProcessing) && inFlight == old(inFlight) && mood == old(mood)
      ensures token == old(token) && dashboard == old(dashboard)
    {
      if IsFatalVoiceError(error) && isListening {
        StopListening();
      }
    }

    /**
     * An end event of instance `id`, with the guard read when the event
     * arrives: only the current instance of a session that is still
     * listening is restarted (`restartOk` says whether its `start`
     * succeeds). The end of a stopped instance is final: it delivers no
     * result afterwards.
     */
    method OnEnd(id: nat, restartOk: bool)
      requires id < nextId
      requires VoiceValid()
      modifies this
      ensures VoiceValid()
      ensures running == if isListening && current == Some(id) && restartOk then old(running) + {id} else old(running) - {id}
      ensures stopping == old(stopping) - {id}
      ensures id in old(stopping) ==> id !in running && id !in stopping
      ensures !isListening ==> running == {}
      ensures isListening == old(isListening) && current == old(current) && nextId == old(nextId)
      ensures input == old(input) && messages == old(messages) && isProcessing == old(isProcessing)
      ensures mood == old(mood) && inFlight == old(inFlight) && token == old(token) && dashboard == old(dashboard)
    {
      running := running - {id};
      stopping := stopping - {id};
      if isListening && current == Some(id) && restartOk {
        running := running + {id};
      }
    }

    /**
     * The end handler as the source writes it: its guard is the
     * `isListening` captured when the instance was created, which is always
     * true, so every ended instance is restarted, stopped ones included.
     */
    method OnEndAsWritten(id: nat, restartOk: bool)
      requires id < nextId
      modifies this
      ensures running == if restartOk then old(running) + {id} else old(running) - {id}
      ensures stopping == old(stopping) - {id}
      ensures isListening == old(isListening) && current == old(current) && nextId == old(nextId)
      ensures input == old(input) && messages == old(messages) && isProcessing == old(isProcessing)
      ensures mood == old(mood) && inFlight == old(inFlight) && token == old(token) && dashboard == old(dashboard)
    {
      running := running - {id};
      stopping := stopping - {id};
      if restartOk {
        running := running + {id};
      }
    }

    /** Typing in the input box. */
    method SetInput(text: string)
      modifies this
      ensures input == text
      ensures messages == old(messages) && isProcessing == old(isProcessing) && inFlight == old(inFlight)
      ensures mood == old(mood) && token == old(token) && dashboard == old(dashboard)
      ensures isListening == old(isListening) && current == old(current) && running == old(running)
      ensures stopping == old(stopping) && nextId == old(nextId)
    {
      input := text;
    }

    /**
     * The send action up to its remote call. A blank input or a submission
     * in flight is ignored; otherwise listening stops, the trimmed message
     * is appended and awaits its answer, the input is cleared and the mood
     * becomes the helper's verdict on the message.
     */
    method Submit(moodOf: string -> string) returns (accepted: bool)
      requires VoiceValid()
      modifies this
      ensures VoiceValid()
      ensures accepted <==> Trim(old(input)) != [] && !old(isProcessing)
      ensures !accepted ==> unchanged(this)
      ensures accepted ==>
                var m := Trim(old(input));
                && messages == old(messages) + [ChatMessage(m, true, None)]
                && inFlight == old(inFlight) + [Pending(m, moodOf(m))]
                && input == [] && isProcessing && mood == moodOf(m)
      ensures accepted ==>
                && !isListening && running == {} && stopping == old(stopping) + old(running)
                && nextId == old(nextId) && token == old(token) && dashboard == old(dashboard)
    {
      var userMessage := Trim(input);
      if userMessage == [] || isProcessing {
        return false;
      }
      if isListening {
        StopListening();
      }
      messages := messages + [ChatMessage(userMessage, true, None)];
      input := [];
      isProcessing := true;
      mood := moodOf(userMessage);
      inFlight := inFlight + [Pending(userMessage, mood)];
      accepted := true;
    }

    /**
     * The send action after its remote call returns: the awaited submission
     * `i` gets exactly one answer, the one `Dispatch` gives for its message
     * and mood, and the flag is cleared.
     */
    method Complete(i: nat, parse: Reply<ParsedExpense>, goal: Reply<()>, advice: Reply<string>)
      returns (call: Call, refresh: bool)
      requires i < |inFlight|
      modifies this
      ensures var p := old(inFlight[i]);
        var r := Dispatch(p.message, p.mood, parse, goal, advice);
        && messages == old(messages) + [r.message]
        && call == r.call && refresh == r.refresh
      ensures inFlight == old(inFlight[..i] + inFlight[i + 1..]) && !isProcessing
      ensures input == old(input) && mood == old(mood) && token == old(token) && dashboard == old(dashboard)
      ensures isListening == old(isListening) && current == old(current) && running == old(running)
      ensures stopping == old(stopping) && nextId == old(nextId)
    {
      var p := inFlight[i];
      var response := Dispatch(p.message, p.mood, parse, goal, advice);
      messages := messages + [response.message];
      call, refresh := response.call, response.refresh;
      inFlight := inFlight[..i] + inFlight[i + 1..];
      isProcessing := false;
    }

    /** Signing out: the token and the user are cleared. */
    method Logout()
      modifies this
      ensures token == None && dashboard == old(dashboard).(user := None)
      ensures input == old(input) && messages == old(messages) && isProcessing == old(isProcessing)
      ensures mood == old(mood) && inFlight == old(inFlight) && isListening == old(isListening)
      ensures current == old(current) && running == old(running) && stopping == old(stopping)
      ensures nextId == old(nextId)
    {
      token := None;
      dashboard := dashboard.(user := None);
    }

    /**
     * The dashboard reload: the six fields change together when all six
     * reads succeed and not at all otherwise; `rejected` is the read whose
     * failure the combined read reports, and a 401 there signs the user out.
     */
    method LoadDashboard(outcome: DashboardReads, rejected: nat)
      requires !outcome.AllSucceeded() ==> outcome.FailureStatus(rejected).Some?
      modifies this
      ensures outcome.AllSucceeded() ==>
                && dashboard == outcome.Merged() && token == old(token)
                && mood == MoodAfterLoad(old(mood), outcome.profile.value)
      ensures !outcome.AllSucceeded() && outcome.FailureStatus(rejected) == Some(401) ==>
                token == None && dashboard == old(dashboard).(user := None) && mood == old(mood)
      ensures !outcome.AllSucceeded() && outcome.FailureStatus(rejected) != Some(401) ==>
                token == old(token) && dashboard == old(dashboard) && mood == old(mood)
      ensures !isProcessing
      ensures input == old(input) && messages == old(messages) && inFlight == old(inFlight)
      ensures isListening == old(isListening) && current == old(current)
      ensures running == old(running) && stopping == old(stopping) && nextId == old(nextId)
    {
      isProcessing := true;
      if outcome.AllSucceeded() {
        dashboard := outcome.Merged();
        mood := MoodAfterLoad(mood, dashboard.user);
      } else if outcome.FailureStatus(rejected) == Some(401) {
        Logout();
      }
      isProcessing := false;
    }
  }

  /**
   * One round of the send action: while the first submission awaits its
   * answer, whatever is typed next is not sent; when the answer arrives the
   * transcript has grown by exactly the message and its answer, and the
   * text typed meanwhile is still in the box.
   */
  method SubmitWhileInFlight(c: Controller, moodOf: string -> string, typed: string,
                             parse: Reply<ParsedExpense>, goal: Reply<()>, advice: Reply<string>)
    returns (call: Call, refresh: bool)
    requires c.VoiceValid() && !c.isProcessing && c.inFlight == [] && Trim(c.input) != []
    modifies c
    ensures var m := Trim(old(c.input));
      var r := Dispatch(m, moodOf(m), parse, goal, advice);
      && c.messages == old(c.messages) + [ChatMessage(m, true, None), r.message]
      && call == r.call && refresh == r.refresh
    ensures c.input == typed && !c.isProcessing && c.inFlight == []
  {
    var first := c.Submit(moodOf);
    c.SetInput(typed);
    var second := c.Submit(moodOf);
    assert !second;
    call, refresh := c.Complete(0, parse, goal, advice);
  }

  /**
   * A dashboard reload that finishes while a submission awaits its answer
   * clears the shared flag, so the next send is accepted and two
   * submissions are in flight at once.
   */
  method ReloadReopensSend(c: Controller, moodOf: string -> string, typed: string,
                           outcome: DashboardReads, rejected: nat)
    returns (first: bool, second: bool)
    requires c.VoiceValid() && !c.isProcessing && c.inFlight == []
    requires Trim(c.input) != [] && Trim(typed) != []
    requires !outcome.AllSucceeded() ==> outcome.FailureStatus(rejected).Some?
    modifies c
    ensures first && second && c.isProcessing
    ensures c.inFlight == [Pending(Trim(old(c.input)), moodOf(Trim(old(c.input)))),
                           Pending(Trim(typed), moodOf(Trim(typed)))]
  {
    first := c.Submit(moodOf);
    c.LoadDashboard(outcome, rejected);
    c.SetInput(typed);
    second := c.Submit(moodOf);
  }

  /**
   * The source's end handler at work: the microphone is switched on and
   * off, the stopped instance's end event restarts it, and a later result
   * of that instance overwrites the input although nobody is listening.
   */
  method StaleRestartAsWritten(phrase: string) returns (c: Controller)
    requires Trim(phrase) != []
    ensures !c.isListening && c.running == {0} && c.stopping == {}
    ensures c.input == phrase
  {
    c := new Controller(Some("guest_mode"));
    c.ToggleListen(true);
    c.ToggleListen(false);
    c.OnEndAsWritten(0, true);
    SingleSegment(phrase);
    c.OnResult(0, [[phrase]]);
  }

  /** A result event with one segment carries that segment's first alternative. */
  lemma SingleSegment(phrase: string)
    ensures FirstAlternatives([[phrase]]) == phrase
  {
    assert [[phrase]][..0] == [];
  }

  /**
   * The same steps with the guard read at event time. The stopped
   * instance may still deliver its final result before it ends; once its
   * end event has arrived no instance is capturing or being stopped, so no
   * result event can reach the input any more.
   */
  method NoRestartAfterStop(phrase: string) returns (c: Controller)
    requires Trim(phrase) != []
    ensures !c.isListening && c.running == {} && c.stopping == {}
    ensures c.input == phrase
  {
    c := new Controller(Some("guest_mode"));
    c.ToggleListen(true);
    c.ToggleListen(false);
    SingleSegment(phrase);
    c.OnResult(0, [[phrase]]);
    c.OnEnd(0, true);
  }
}
