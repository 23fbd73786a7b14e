/** The voice-session controller of a room workspace
    (components/VoiceComponent.tsx, `VoiceChat`).

    The component's React state (`hasPermission`, `isMuted`,
    `errorMessage`), the agent connection status reported by the voice SDK,
    and the two shared provider cells it writes (the conversation id and the
    event table) form one immutable `State`. Every handler is a pure
    transition that takes the settled outcome of the external call it awaits
    (`getUserMedia`, `startSession`, `endSession`, `setVolume`) as a
    parameter and returns the next state together with the external calls
    it issued, in order.

    The `operationId` prop can change while a session is live. The
    `displayEvent` client tool is built when a session is started, so it
    keeps the prop as it was at that click. The state therefore holds both
    the current prop and the id captured by the live session's tool. */
module VoiceChat {
  import opened Outcome
  import EventLog
  import ConversationSlot

  datatype Status = Connected | Disconnected

  /** The JSON body POSTed to the notes endpoint for one agent event. */
  datatype NotesBody = NotesBody(operationId: Option<string>, eventValue: string, eventType: string)

  /** An external call the controller issues. */
  datatype Call =
    | GetUserMedia
    | StartSession
    | EndSession
    | SetVolume(volume: int)
    | PostNotes(body: NotesBody)

  datatype State = State(
    hasPermission: bool,
    isMuted: bool,
    errorMessage: string,
    status: Status,
    conversation: ConversationSlot.Slot,
    log: EventLog.Log,
    operationId: Option<string>,
    sessionOperationId: Option<string>
  )

  /** The next state and the external calls issued while reaching it. */
  datatype Step = Step(next: State, calls: seq<Call>)

  const MicDenied := "Microphone access denied. Please enable microphone."
  const StartFailed := "Failed to start conversation"
  const EndFailed := "Failed to end conversation"
  const VolumeFailed := "Failed to change volume"

  /** The state at mount, inside freshly created providers, with the
      `operationId` prop the component is first rendered with. */
  function Initial(operationId: Option<string>): (s: State)
    ensures !s.hasPermission && !s.isMuted && s.errorMessage == ""
    ensures s.status == Disconnected
    ensures ConversationSlot.Get(s.conversation).None?
    ensures |s.log| == 0
    ensures s.operationId == operationId && s.sessionOperationId.None?
  {
    State(false, false, "", Disconnected, ConversationSlot.Initial(), EventLog.Empty(), operationId, None)
  }

  /** A re-render with a new `operationId` prop. Only the current prop
      changes; a live session's client tool keeps the id it captured. */
  function OperationIdChanged(s: State, operationId: Option<string>): (r: Step)
    ensures r.next.operationId == operationId
    ensures r.next.sessionOperationId == s.sessionOperationId
    ensures r.next == s.(operationId := operationId) && r.calls == []
  {
    Step(s.(operationId := operationId), [])
  }

  /** The mount effect: ask for the microphone. Only a granted request sets
      `hasPermission`; a denied one leaves it as it was and sets the
      denial message. */
  function RequestMicPermission(s: State, outcome: Result<Unit>): (r: Step)
    ensures r.calls == [GetUserMedia]
    ensures outcome.Ok? ==> r.next == s.(hasPermission := true)
    ensures outcome.Err? ==> r.next.hasPermission == s.hasPermission
    ensures outcome.Err? ==> r.next == s.(errorMessage := MicDenied)
  {
    match outcome
    case Ok(_) => Step(s.(hasPermission := true), [GetUserMedia])
    case Err(_) => Step(s.(errorMessage := MicDenied), [GetUserMedia])
  }

  /** `handleStartConversation`: a resolved `startSession` yields the
      conversation id, which is written to the shared cell (the SDK reports
      the connection as open), and the session's client tool holds the
      `operationId` prop of this click; a rejection only sets the error
      message and leaves the cell untouched. */
  function StartConversation(s: State, outcome: Result<string>): (r: Step)
    ensures r.calls == [StartSession]
    ensures outcome.Ok? ==> ConversationSlot.Get(r.next.conversation) == Some(outcome.value)
    ensures outcome.Ok? ==> r.next.status == Connected && r.next.errorMessage == s.errorMessage
    ensures outcome.Ok? ==> r.next.sessionOperationId == s.operationId
    ensures outcome.Err? ==> r.next.conversation == s.conversation && r.next.status == s.status
    ensures outcome.Err? ==> r.next.errorMessage == StartFailed && r.next.sessionOperationId == s.sessionOperationId
    ensures r.next.hasPermission == s.hasPermission && r.next.isMuted == s.isMuted && r.next.log == s.log
    ensures r.next.operationId == s.operationId
  {
    match outcome
    case Ok(id) =>
      Step(s.(conversation := ConversationSlot.Set(s.conversation, Some(id)), status := Connected,
              sessionOperationId := s.operationId), [StartSession])
    case Err(_) => Step(s.(errorMessage := StartFailed), [StartSession])
  }

  /** `handleEndConversation`: a resolved `endSession` clears the shared
      cell (the SDK reports the connection as closed); a rejection only sets
      the error message. */
  function EndConversation(s: State, outcome: Result<Unit>): (r: Step)
    ensures r.calls == [EndSession]
    ensures outcome.Ok? ==> ConversationSlot.Get(r.next.conversation).None? && r.next.status == Disconnected
    ensures outcome.Ok? ==> r.next.errorMessage == s.errorMessage
    ensures outcome.Err? ==> r.next.conversation == s.conversation && r.next.status == s.status
    ensures outcome.Err? ==> r.next.errorMessage == EndFailed
    ensures r.next.hasPermission == s.hasPermission && r.next.isMuted == s.isMuted && r.next.log == s.log
    ensures r.next.operationId == s.operationId && r.next.sessionOperationId == s.sessionOperationId
  {
    match outcome
    case Ok(_) => Step(s.(conversation := ConversationSlot.Set(s.conversation, None), status := Disconnected), [EndSession])
    case Err(_) => Step(s.(errorMessage := EndFailed), [EndSession])
  }

  /** Whether the start/end button is enabled (`disabled={!hasPermission}`). */
  predicate MainButtonEnabled(s: State)
  {
    s.hasPermission
  }

  /** Whether the mute button is enabled (`disabled={status !== "connected"}`). */
  predicate MuteButtonEnabled(s: State)
  {
    s.status == Connected
  }

  /** A click on the start/end button: it ends the session when connected and
      starts one otherwise. Only one of the two outcomes is consumed. */
  function ClickMainButton(s: State, startOutcome: Result<string>, endOutcome: Result<Unit>): (r: Step)
    requires MainButtonEnabled(s)
    ensures s.status == Connected ==> r.calls == [EndSession]
    ensures s.status != Connected ==> r.calls == [StartSession]
    ensures s.status == Connected && endOutcome.Ok? ==> ConversationSlot.Get(r.next.conversation).None?
    ensures s.status != Connected && startOutcome.Ok? ==> ConversationSlot.Get(r.next.conversation) == Some(startOutcome.value)
  {
    if s.status == Connected then EndConversation(s, endOutcome) else StartConversation(s, startOutcome)
  }

  /** `toggleMute`: ask for volume 1 when muted and 0 when not; the mute
      flag flips only once the SDK has accepted the change. */
  function ToggleMute(s: State, outcome: Result<Unit>): (r: Step)
    requires MuteButtonEnabled(s)
    ensures s.isMuted ==> r.calls == [SetVolume(1)]
    ensures !s.isMuted ==> r.calls == [SetVolume(0)]
    ensures outcome.Ok? ==> r.next == s.(isMuted := !s.isMuted)
    ensures outcome.Err? ==> r.next == s.(errorMessage := VolumeFailed)
  {
    var request := SetVolume(if s.isMuted then 1 else 0);
    match outcome
    case Ok(_) => Step(s.(isMuted := !s.isMuted), [request])
    case Err(_) => Step(s.(errorMessage := VolumeFailed), [request])
  }

  /** The `displayEvent` client tool: add exactly one row holding the event
      value to the table, then POST the event to the notes endpoint with the
      operation id the live session's tool captured. Whether that POST
      succeeds changes nothing here. */
  function DisplayEvent(s: State, eventValue: string, eventType: string, now: string): (r: Step)
    ensures |r.next.log| == |s.log| + 1
    ensures r.next.log[0] == EventLog.Row(now, eventValue) && r.next.log[1..] == s.log
    ensures r.calls == [PostNotes(NotesBody(s.sessionOperationId, eventValue, eventType))]
    ensures r.next == s.(log := r.next.log)
  {
    Step(s.(log := EventLog.AddRow(s.log, eventValue, now)), [PostNotes(NotesBody(s.sessionOperationId, eventValue, eventType))])
  }

  /** The SDK's `onDisconnect` callback: the status drops, but the clearing
      of the conversation id is commented out in the source, so the id stays. */
  function AgentDisconnected(s: State): (r: Step)
    ensures r.next.conversation == s.conversation
    ensures r.next.status == Disconnected
    ensures r.next == s.(status := Disconnected) && r.calls == []
  {
    Step(s.(status := Disconnected), [])
  }

  /** The SDK's `onError` callback: show the error's message. */
  function AgentError(s: State, message: string): (r: Step)
    ensures r.next == s.(errorMessage := message) && r.calls == []
  {
    Step(s.(errorMessage := message), [])
  }

  /** Something that happens to the controller: a settled mount effect, a
      click (with the outcome of the call it would make), or an SDK callback. */
  datatype Action =
    | MicAnswered(mic: Result<Unit>)
    | MainClicked(start: Result<string>, end: Result<Unit>)
    | MuteClicked(volume: Result<Unit>)
    | EventCalled(eventValue: string, eventType: string, now: string)
    | AgentDropped
    | Errored(message: string)
    | PropChanged(operationId: Option<string>)

  /** One action. A click on a disabled button does nothing. */
  function Apply(s: State, a: Action): Step
  {
    match a
    case MicAnswered(o) => RequestMicPermission(s, o)
    case MainClicked(st, en) => if MainButtonEnabled(s) then ClickMainButton(s, st, en) else Step(s, [])
    case MuteClicked(o) => if MuteButtonEnabled(s) then ToggleMute(s, o) else Step(s, [])
    case EventCalled(v, t, now) => DisplayEvent(s, v, t, now)
    case AgentDropped => AgentDisconnected(s)
    case Errored(m) => AgentError(s, m)
    case PropChanged(id) => OperationIdChanged(s, id)
  }

  /** The actions in order; the calls of every step are concatenated. */
  function Run(s: State, actions: seq<Action>): (r: Step)
    decreases |actions|
  {
    if |actions| == 0 then Step(s, [])
    else
      var first := Apply(s, actions[0]);
      var rest := Run(first.next, actions[1..]);
      Step(rest.next, first.calls + rest.calls)
  }

  predicate Grants(a: Action)
  {
    a.MicAnswered? && a.mic.Ok?
  }

  /** `hasPermission` ends up true exactly when it already was or some
      microphone request in the run was granted: nothing else sets it and
      nothing resets it. */
  lemma {:induction false} PermissionOnlyFromGrant(s: State, actions: seq<Action>)
    ensures Run(s, actions).next.hasPermission <==>
      s.hasPermission || exists i :: 0 <= i < |actions| && Grants(actions[i])
    decreases |actions|
  {
    if |actions| > 0 {
      var first := Apply(s, actions[0]);
      PermissionOnlyFromGrant(first.next, actions[1..]);
      assert first.next.hasPermission <==> s.hasPermission || Grants(actions[0]);
      if exists i :: 0 <= i < |actions| && Grants(actions[i]) {
        var i :| 0 <= i < |actions| && Grants(actions[i]);
        if i > 0 {
          assert Grants(actions[1..][i - 1]);
        }
      }
      if exists j :: 0 <= j < |actions[1..]| && Grants(actions[1..][j]) {
        var j :| 0 <= j < |actions[1..]| && Grants(actions[1..][j]);
        assert Grants(actions[j + 1]);
      }
    }
  }

  /** Without a granted microphone request no session can be started: the
      start call is never issued, the status stays disconnected and the
      conversation id stays as it was. */
  lemma {:induction false} NoSessionWithoutPermission(s: State, actions: seq<Action>)
    requires !s.hasPermission && s.status == Disconnected
    requires forall i :: 0 <= i < |actions| ==> !Grants(actions[i])
    ensures StartSession !in Run(s, actions).calls
    ensures Run(s, actions).next.status == Disconnected
    ensures Run(s, actions).next.conversation == s.conversation
    ensures !Run(s, actions).next.hasPermission
    decreases |actions|
  {
    if |actions| > 0 {
      var first := Apply(s, actions[0]);
      assert !Grants(actions[0]);
      assert StartSession !in first.calls;
      assert forall i :: 0 <= i < |actions[1..]| ==> !Grants(actions[1..][i]) by {
        forall i | 0 <= i < |actions[1..]|
          ensures !Grants(actions[1..][i])
        {
          assert actions[1..][i] == actions[i + 1];
        }
      }
      NoSessionWithoutPermission(first.next, actions[1..]);
    }
  }

  /** The agent events of a run, as they reach the event table. */
  function Arrivals(actions: seq<Action>): (r: seq<EventLog.Arrival>)
    ensures |r| <= |actions|
    decreases |actions|
  {
    if |actions| == 0 then []
    else
      var rest := Arrivals(actions[1..]);
      match actions[0]
      case EventCalled(v, _, now) => [EventLog.Arrival(v, now)] + rest
      case _ => rest
  }

  /** The notes POSTs a run issues, one per agent event, in callback order. */
  function NotesPosted(calls: seq<Call>): seq<NotesBody>
    decreases |calls|
  {
    if |calls| == 0 then []
    else if calls[0].PostNotes? then [calls[0].body] + NotesPosted(calls[1..])
    else NotesPosted(calls[1..])
  }

  /** The notes bodies the agent events of a run call for, all carrying
      the given operation id. */
  function NotesFor(operationId: Option<string>, actions: seq<Action>): seq<NotesBody>
    decreases |actions|
  {
    if |actions| == 0 then []
    else
      var rest := NotesFor(operationId, actions[1..]);
      match actions[0]
      case EventCalled(v, t, _) => [NotesBody(operationId, v, t)] + rest
      case _ => rest
  }

  /** The `(eventValue, eventType)` pairs of a run's agent events, in
      callback order. */
  function EventsOf(actions: seq<Action>): seq<(string, string)>
    decreases |actions|
  {
    if |actions| == 0 then []
    else
      var rest := EventsOf(actions[1..]);
      match actions[0]
      case EventCalled(v, t, _) => [(v, t)] + rest
      case _ => rest
  }

  /** The `(eventValue, eventType)` pairs of some notes bodies. */
  function Payloads(bodies: seq<NotesBody>): (r: seq<(string, string)>)
    ensures |r| == |bodies|
    ensures forall i :: 0 <= i < |bodies| ==> r[i] == (bodies[i].eventValue, bodies[i].eventType)
  {
    seq(|bodies|, i requires 0 <= i < |bodies| => (bodies[i].eventValue, bodies[i].eventType))
  }

  /** A click that starts a session successfully, when the button is enabled
      and the agent is not connected. */
  predicate StartsOk(a: Action)
  {
    a.MainClicked? && a.start.Ok?
  }

  lemma {:induction false} NotesPostedAppend(a: seq<Call>, b: seq<Call>)
    ensures NotesPosted(a + b) == NotesPosted(a) + NotesPosted(b)
    decreases |a|
  {
    if |a| > 0 {
      assert (a + b)[1..] == a[1..] + b;
      NotesPostedAppend(a[1..], b);
    } else {
      assert a + b == b;
    }
  }

  /** Every agent event adds exactly one row to the table and nothing else
      touches it: the table after a run is the run's events, newest first,
      above the rows it started with. */
  lemma {:induction false} RunLogIsReplay(s: State, actions: seq<Action>)
    ensures Run(s, actions).next.log == EventLog.Replay(s.log, Arrivals(actions))
    decreases |actions|
  {
    if |actions| > 0 {
      var first := Apply(s, actions[0]);
      RunLogIsReplay(first.next, actions[1..]);
    }
  }

  /** From mount, the table holds the run's agent events in reverse arrival
      order. */
  lemma {:induction false} TableNewestFirst(operationId: Option<string>, actions: seq<Action>)
    ensures Run(Initial(operationId), actions).next.log
      == EventLog.Reverse(EventLog.ArrivalRows(Arrivals(actions)))
  {
    RunLogIsReplay(Initial(operationId), actions);
    EventLog.StoredIsReverseOfArrival(Arrivals(actions));
  }

  lemma {:induction false} PayloadsAppend(a: seq<NotesBody>, b: seq<NotesBody>)
    ensures Payloads(a + b) == Payloads(a) + Payloads(b)
  {
  }

  /** Each agent event issues exactly one notes POST carrying its value and
      type, in callback order, and no other step POSTs notes. */
  lemma {:induction false} OneNotesPostPerEvent(s: State, actions: seq<Action>)
    ensures Payloads(NotesPosted(Run(s, actions).calls)) == EventsOf(actions)
    decreases |actions|
  {
    if |actions| > 0 {
      var first := Apply(s, actions[0]);
      var rest := Run(first.next, actions[1..]);
      OneNotesPostPerEvent(first.next, actions[1..]);
      NotesPostedAppend(first.calls, rest.calls);
      PayloadsAppend(NotesPosted(first.calls), NotesPosted(rest.calls));
      assert Payloads(NotesPosted(first.calls)) == if actions[0].EventCalled? then [(actions[0].eventValue, actions[0].eventType)] else [] by {
        if first.calls != [] {
          assert first.calls[1..] == [];
        }
      }
    }
  }

  /** Within a session, every notes POST carries the operation id the
      session's client tool captured at its start, whatever the prop does
      meanwhile: until a click starts a new session, the captured id stays
      and each agent event POSTs it. */
  lemma {:induction false} PostsCarrySessionId(s: State, actions: seq<Action>)
    requires forall i :: 0 <= i < |actions| ==> !StartsOk(actions[i])
    ensures NotesPosted(Run(s, actions).calls) == NotesFor(s.sessionOperationId, actions)
    ensures Run(s, actions).next.sessionOperationId == s.sessionOperationId
    decreases |actions|
  {
    if |actions| > 0 {
      var first := Apply(s, actions[0]);
      var rest := Run(first.next, actions[1..]);
      assert !StartsOk(actions[0]);
      assert first.next.sessionOperationId == s.sessionOperationId;
      forall i | 0 <= i < |actions[1..]|
        ensures !StartsOk(actions[1..][i])
      {
        assert actions[1..][i] == actions[i + 1];
      }
      PostsCarrySessionId(first.next, actions[1..]);
      NotesPostedAppend(first.calls, rest.calls);
      assert NotesPosted(first.calls) == if actions[0].EventCalled? then [NotesBody(s.sessionOperationId, actions[0].eventValue, actions[0].eventType)] else [] by {
        if first.calls != [] {
          assert first.calls[1..] == [];
        }
      }
    }
  }

  /** One action, then the rest of the run. */
  lemma {:induction false} RunCons(s: State, a: Action, rest: seq<Action>)
    ensures Run(s, [a] + rest).next == Run(Apply(s, a).next, rest).next
    ensures Run(s, [a] + rest).calls == Apply(s, a).calls + Run(Apply(s, a).next, rest).calls
  {
    assert ([a] + rest)[1..] == rest;
  }

  /** Calls none of which POSTs notes, then one POST: that POST's body is
      the only one posted. */
  lemma {:induction false} OnlyPostIsLast(calls: seq<Call>, body: NotesBody)
    requires forall i :: 0 <= i < |calls| ==> !calls[i].PostNotes?
    ensures NotesPosted(calls + [PostNotes(body)]) == [body]
    decreases |calls|
  {
    if |calls| == 0 {
      assert calls + [PostNotes(body)] == [PostNotes(body)];
      assert [PostNotes(body)][1..] == [];
    } else {
      assert (calls + [PostNotes(body)])[1..] == calls[1..] + [PostNotes(body)];
      forall i | 0 <= i < |calls[1..]|
        ensures !calls[1..][i].PostNotes?
      {
        assert calls[1..][i] == calls[i + 1];
      }
      OnlyPostIsLast(calls[1..], body);
    }
  }

  /** The prop is null when Start is clicked and becomes "op-7" while the
      session is live: the session's event still POSTs a null operation id.
      `RestartTakesCurrentOperationId` shows how a new session picks up the
      new prop. */
  lemma LateOperationIdIgnored(id: string, now: string)
    ensures NotesPosted(Run(Initial(None), [
        MicAnswered(Ok(Unit)), MainClicked(Ok(id), Ok(Unit)), PropChanged(Some("op-7")),
        EventCalled("Closing", "note", now)]).calls)
      == [NotesBody(None, "Closing", "note")]
  {
    var grant := MicAnswered(Ok(Unit));
    var click := MainClicked(Ok(id), Ok(Unit));
    var change := PropChanged(Some("op-7"));
    var event := EventCalled("Closing", "note", now);
    var body := NotesBody(None, "Closing", "note");
    var s1 := Apply(Initial(None), grant).next;
    var s2 := Apply(s1, click).next;
    var s3 := Apply(s2, change).next;
    assert s3.sessionOperationId == None;
    RunCons(s3, event, []);
    assert [event] + [] == [event];
    RunCons(s2, change, [event]);
    assert [change] + [event] == [change, event];
    RunCons(s1, click, [change, event]);
    assert [click] + [change, event] == [click, change, event];
    RunCons(Initial(None), grant, [click, change, event]);
    assert [grant] + [click, change, event] == [grant, click, change, event];
    assert Run(Initial(None), [grant, click, change, event]).calls == [GetUserMedia, StartSession] + [PostNotes(body)];
    OnlyPostIsLast([GetUserMedia, StartSession], body);
  }

  /** Ending a live session and starting again captures the prop as it is
      now: the next event POSTs the current prop, not the old session's id. */
  lemma RestartTakesCurrentOperationId(s: State, id: string, eventValue: string, eventType: string, now: string)
    requires s.hasPermission && s.status == Connected
    ensures NotesPosted(Run(s, [MainClicked(Ok(id), Ok(Unit)), MainClicked(Ok(id), Ok(Unit)),
        EventCalled(eventValue, eventType, now)]).calls)
      == [NotesBody(s.operationId, eventValue, eventType)]
  {
    var click := MainClicked(Ok(id), Ok(Unit));
    var event := EventCalled(eventValue, eventType, now);
    var body := NotesBody(s.operationId, eventValue, eventType);
    var s1 := Apply(s, click).next;
    var s2 := Apply(s1, click).next;
    assert s1.status == Disconnected && s1.hasPermission && s1.operationId == s.operationId;
    assert s2.sessionOperationId == s.operationId;
    RunCons(s2, event, []);
    assert [event] + [] == [event];
    RunCons(s1, click, [event]);
    assert [click] + [event] == [click, event];
    RunCons(s, click, [click, event]);
    assert [click] + [click, event] == [click, click, event];
    var before := [EndSession, StartSession];
    assert Run(s, [click, click, event]).calls == before + [PostNotes(body)];
    OnlyPostIsLast(before, body);
  }

  /** Whenever the agent is connected, the shared cell holds a conversation
      id: a resolved start binds one, and only a resolved end, which also
      disconnects, clears it. */
  predicate LiveIsBound(s: State)
  {
    s.status == Connected ==> ConversationSlot.Get(s.conversation).Some?
  }

  /** No run breaks `LiveIsBound`, so it holds from mount on. */
  lemma {:induction false} LiveSessionIsBound(s: State, actions: seq<Action>)
    requires LiveIsBound(s)
    ensures LiveIsBound(Run(s, actions).next)
    decreases |actions|
  {
    if |actions| > 0 {
      var first := Apply(s, actions[0]);
      assert LiveIsBound(first.next);
      LiveSessionIsBound(first.next, actions[1..]);
    }
  }

  /** The converse fails: after an agent-side disconnect the status is
      disconnected while the cell still holds the session's id. */
  lemma DroppedSessionKeepsId(operationId: Option<string>, id: string)
    ensures Run(Initial(operationId), [MicAnswered(Ok(Unit)), MainClicked(Ok(id), Ok(Unit)), AgentDropped]).next.status == Disconnected
    ensures ConversationSlot.Get(Run(Initial(operationId), [MicAnswered(Ok(Unit)), MainClicked(Ok(id), Ok(Unit)), AgentDropped]).next.conversation) == Some(id)
  {
    var acts := [MicAnswered(Ok(Unit)), MainClicked(Ok(id), Ok(Unit)), AgentDropped];
    var s0 := Initial(operationId);
    var s1 := Apply(s0, acts[0]).next;
    var s2 := Apply(s1, acts[1]).next;
    var s3 := Apply(s2, acts[2]).next;
    assert s3.status == Disconnected && ConversationSlot.Get(s3.conversation) == Some(id);
    assert Run(s2, acts[2..]).next == s3 by {
      assert acts[2..][1..] == [];
    }
    assert Run(s1, acts[1..]).next == s3 by {
      assert acts[1..][1..] == acts[2..];
    }
  }

  /** Two accepted mute toggles request opposite volumes and give back the
      state they started from. */
  lemma ToggleTwiceRestores(s: State)
    requires MuteButtonEnabled(s)
    ensures var first := ToggleMute(s, Ok(Unit));
      MuteButtonEnabled(first.next) && ToggleMute(first.next, Ok(Unit)).next == s
    ensures var first := ToggleMute(s, Ok(Unit));
      MuteButtonEnabled(first.next) &&
      first.calls + ToggleMute(first.next, Ok(Unit)).calls
        == if s.isMuted then [SetVolume(1), SetVolume(0)] else [SetVolume(0), SetVolume(1)]
  {
  }

  /** The controller never blanks the error message: once non-empty it is
      only replaced, by one of its fixed messages or by an SDK error whose
      message is itself non-empty. */
  lemma {:induction false} ErrorMessageNeverCleared(s: State, actions: seq<Action>)
    requires s.errorMessage != ""
    requires forall i :: 0 <= i < |actions| ==> actions[i] != Errored("")
    ensures Run(s, actions).next.errorMessage != ""
    decreases |actions|
  {
    if |actions| > 0 {
      var first := Apply(s, actions[0]);
      assert actions[0] != Errored("");
      assert first.next.errorMessage != "";
      forall i | 0 <= i < |actions[1..]|
        ensures actions[1..][i] != Errored("")
      {
        assert actions[1..][i] == actions[i + 1];
      }
      ErrorMessageNeverCleared(first.next, actions[1..]);
    }
  }

  /** A denied microphone shows the denial message and leaves both buttons
      disabled. */
  lemma MicDeniedScenario(operationId: Option<string>, e: string)
    ensures RequestMicPermission(Initial(operationId), Err(e)).next.errorMessage == MicDenied
    ensures !MainButtonEnabled(RequestMicPermission(Initial(operationId), Err(e)).next)
    ensures !MuteButtonEnabled(RequestMicPermission(Initial(operationId), Err(e)).next)
  {
  }
}
