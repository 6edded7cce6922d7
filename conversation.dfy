/** The conversation state machine: the three handlers `start`,
    `handle_main_menu` and `handle_chatgpt_message`, and the way the
    conversation handler built in `main` dispatches events to them. Each
    handler is a function of the allow-list, the user, the incoming text and
    the outcomes of the external calls, to the next session state, the
    replies sent and the external requests made. */
module Conversation {
  import opened Wrappers
  import opened Auth
  import opened Messages
  import opened Weather
  import opened Completion

  /** `MAIN_MENU` and `CHATGPT_MODE`. */
  datatype State = MainMenu | ChatGptMode

  /** A chat's conversation: in one of the two states, or not tracked, which
      is both where every chat begins and what `ConversationHandler.END`
      leads to. */
  datatype Session = Active(state: State) | Ended

  /** An update: the `/start` command, or a text message that is not a
      command. */
  datatype Event = Start | Text(text: string)

  /** The outcomes of everything outside the bot's own code that a handler
      may consult: the `WEATHERAPI_KEY` setting, the weather round trip and
      the completion call. */
  datatype Environment =
    Environment(weatherKey: Option<string>, weather: WeatherFetch, completion: CompletionResult)

  /** An outbound request to a provider. */
  datatype Call = WeatherRequest(url: string) | CompletionCall(request: CompletionRequest)

  /** What handling one update produces. */
  datatype Outcome = Outcome(next: Session, replies: seq<Reply>, calls: seq<Call>)

  /** The outcome of every handler for a user the allow-list refuses. */
  const DENIED: Outcome := Outcome(Ended, [Keyed(NotAuthorized)], [])

  /** `start`: the welcome and the main menu, or the refusal. */
  function StartHandler(allowed: set<int>, userId: int): (o: Outcome)
    ensures !IsUserAllowed(userId, allowed) ==> o == DENIED
    ensures IsUserAllowed(userId, allowed) ==> o == Outcome(Active(MainMenu), [Keyed(Welcome)], [])
  {
    if !IsUserAllowed(userId, allowed) then DENIED
    else Outcome(Active(MainMenu), [Keyed(Welcome)], [])
  }

  /** `handle_main_menu`, with `weather_command` for the weather button. */
  function HandleMainMenu(allowed: set<int>, userId: int, text: string, env: Environment): (o: Outcome)
    ensures !IsUserAllowed(userId, allowed) ==> o == DENIED
    // An admitted user leaves the menu only by the ChatGPT button.
    ensures IsUserAllowed(userId, allowed) ==>
      o.next == if text == CHATGPT_BUTTON then Active(ChatGptMode) else Active(MainMenu)
    ensures IsUserAllowed(userId, allowed) && text == CHATGPT_BUTTON ==>
      o.replies == [Keyed(ChatGptModeOn)] && o.calls == []
    ensures IsUserAllowed(userId, allowed) && text != CHATGPT_BUTTON && text != WEATHER_BUTTON ==>
      o.replies == [Keyed(Welcome)] && o.calls == []
    // The weather button: the inner admission check cannot refuse, so the
    // reply is the static note, a report or the weather error, and a
    // request is made exactly when a key is configured.
    ensures IsUserAllowed(userId, allowed) && text == WEATHER_BUTTON ==>
      && o.replies == [WeatherCommand(allowed, userId, env.weatherKey, env.weather).reply]
      && (o.replies[0] == Plain(FALLBACK_TEXT) || o.replies[0].Report? || o.replies[0] == Keyed(WeatherError))
      && (o.replies[0] == Plain(FALLBACK_TEXT) <==> !HasKey(env.weatherKey))
      && o.calls == (if HasKey(env.weatherKey) then [WeatherRequest(WeatherUrl(env.weatherKey.value))] else [])
  {
    if !IsUserAllowed(userId, allowed) then DENIED
    else if text == CHATGPT_BUTTON then
      Outcome(Active(ChatGptMode), [Keyed(ChatGptModeOn)], [])
    else if text == WEATHER_BUTTON then
      var w := WeatherCommand(allowed, userId, env.weatherKey, env.weather);
      var calls := if w.request.Some? then [WeatherRequest(w.request.value)] else [];
      Outcome(Active(MainMenu), [w.reply], calls)
    else
      Outcome(Active(MainMenu), [Keyed(Welcome)], [])
  }

  /** `handle_chatgpt_message`. */
  function HandleChatGptMessage(allowed: set<int>, userId: int, text: string, env: Environment): (o: Outcome)
    ensures !IsUserAllowed(userId, allowed) ==> o == DENIED
    // An admitted user leaves ChatGPT mode only by the back button.
    ensures IsUserAllowed(userId, allowed) ==>
      o.next == if text == BACK_BUTTON then Active(MainMenu) else Active(ChatGptMode)
    ensures IsUserAllowed(userId, allowed) && text == BACK_BUTTON ==>
      o.replies == [Keyed(BackToMenu)] && o.calls == []
    // Any other text goes verbatim to the provider, whatever happens to the
    // call; the reply is the answer or the error text.
    ensures IsUserAllowed(userId, allowed) && text != BACK_BUTTON ==>
      && o.calls == [CompletionCall(BuildRequest(text))]
      && o.replies == [CompletionReply(env.completion)]
      && (o.replies[0] == Keyed(ChatGptError) || o.replies[0].Plain?)
      && (o.replies[0].Plain? <==> env.completion.Returned? && env.completion.content.Some?)
  {
    if !IsUserAllowed(userId, allowed) then DENIED
    else if text == BACK_BUTTON then
      Outcome(Active(MainMenu), [Keyed(BackToMenu)], [])
    else
      Outcome(Active(ChatGptMode), [CompletionReply(env.completion)], [CompletionCall(BuildRequest(text))])
  }

  /** The conversation handler of `main`: `/start` is the entry point and
      the fallback in every state; a text goes to the handler of the current
      state; a text outside a conversation matches no handler and is
      dropped. */
  function Step(allowed: set<int>, userId: int, session: Session, event: Event, env: Environment): (o: Outcome)
    // A refused user is refused by every handler, and no provider is asked.
    ensures !IsUserAllowed(userId, allowed) ==> o.next == Ended && o.calls == []
    ensures !IsUserAllowed(userId, allowed) ==>
      o.replies == if session == Ended && event.Text? then [] else [Keyed(NotAuthorized)]
    // Exactly one reply to every update a handler takes; none otherwise.
    ensures |o.replies| == if session == Ended && event.Text? then 0 else 1
    ensures session == Ended && event.Text? ==> o == Outcome(Ended, [], [])
    // `/start` resets an admitted user to the menu from anywhere.
    ensures IsUserAllowed(userId, allowed) && event == Start ==>
      o == Outcome(Active(MainMenu), [Keyed(Welcome)], [])
    // How ChatGPT mode is reached and kept.
    ensures o.next == Active(ChatGptMode) <==>
      && IsUserAllowed(userId, allowed)
      && event.Text?
      && ((session == Active(MainMenu) && event.text == CHATGPT_BUTTON)
          || (session == Active(ChatGptMode) && event.text != BACK_BUTTON))
  {
    match event
    case Start => StartHandler(allowed, userId)
    case Text(text) =>
      match session
      case Ended => Outcome(Ended, [], [])
      case Active(MainMenu) => HandleMainMenu(allowed, userId, text, env)
      case Active(ChatGptMode) => HandleChatGptMessage(allowed, userId, text, env)
  }

  /** One update and the outcomes of the external calls made for it. */
  datatype Input = Input(event: Event, env: Environment)

  /** The outcomes of a chat's updates handled one after another, each from
      the session the previous one left. */
  function Trace(allowed: set<int>, userId: int, session: Session, inputs: seq<Input>): (t: seq<Outcome>)
    ensures |t| == |inputs|
    ensures inputs != [] ==> t[0] == Step(allowed, userId, session, inputs[0].event, inputs[0].env)
    ensures forall k :: 0 < k < |t| ==> t[k] == Step(allowed, userId, t[k - 1].next, inputs[k].event, inputs[k].env)
    decreases |inputs|
  {
    if inputs == [] then []
    else
      var o := Step(allowed, userId, session, inputs[0].event, inputs[0].env);
      [o] + Trace(allowed, userId, o.next, inputs[1..])
  }

  /** The session a trace starts each update from. */
  function SessionBefore(session: Session, t: seq<Outcome>, k: nat): Session
    requires k <= |t|
  {
    if k == 0 then session else t[k - 1].next
  }

  /** Each outcome of a trace is the step from the session before it. */
  lemma {:induction false} TraceSteps(allowed: set<int>, userId: int, session: Session, inputs: seq<Input>, k: nat)
    requires k < |inputs|
    ensures var t := Trace(allowed, userId, session, inputs);
      t[k] == Step(allowed, userId, SessionBefore(session, t, k), inputs[k].event, inputs[k].env)
    decreases |inputs|
  {
    if k > 0 {
      var o := Step(allowed, userId, session, inputs[0].event, inputs[0].env);
      TraceSteps(allowed, userId, o.next, inputs[1..], k - 1);
      var t := Trace(allowed, userId, session, inputs);
      assert t[1..] == Trace(allowed, userId, o.next, inputs[1..]);
      if k > 1 {
        assert SessionBefore(o.next, t[1..], k - 1) == t[k - 1].next;
      }
    }
  }

  /** A refused user, over any sequence of updates, never reaches ChatGPT
      mode, never causes a provider request, and gets nothing but the
      refusal. */
  lemma {:induction false} RefusedUserNeverServed(allowed: set<int>, userId: int, session: Session, inputs: seq<Input>)
    requires !IsUserAllowed(userId, allowed)
    ensures forall o :: o in Trace(allowed, userId, session, inputs) ==>
      o.next == Ended && o.calls == [] && forall r :: r in o.replies ==> r == Keyed(NotAuthorized)
    decreases |inputs|
  {
    if inputs != [] {
      var o := Step(allowed, userId, session, inputs[0].event, inputs[0].env);
      RefusedUserNeverServed(allowed, userId, o.next, inputs[1..]);
    }
  }

  /** An admitted user's conversation, once started, is never ended by the
      bot. */
  lemma {:induction false} AdmittedUserStaysActive(allowed: set<int>, userId: int, state: State, inputs: seq<Input>)
    requires IsUserAllowed(userId, allowed)
    ensures forall o :: o in Trace(allowed, userId, Active(state), inputs) ==> o.next.Active?
    decreases |inputs|
  {
    if inputs != [] {
      var o := Step(allowed, userId, Active(state), inputs[0].event, inputs[0].env);
      AdmittedUserStaysActive(allowed, userId, o.next.state, inputs[1..]);
    }
  }

  /** ChatGPT mode is only ever entered through the ChatGPT button: if a
      conversation that did not start there is in ChatGPT mode after update
      `k`, some update up to `k` was that button pressed. */
  lemma {:induction false} ChatGptModeNeedsButton(allowed: set<int>, userId: int, session: Session, inputs: seq<Input>, k: nat)
    requires session != Active(ChatGptMode)
    requires k < |inputs|
    requires Trace(allowed, userId, session, inputs)[k].next == Active(ChatGptMode)
    ensures exists j :: 0 <= j <= k && inputs[j].event == Text(CHATGPT_BUTTON)
    decreases |inputs|
  {
    var o := Step(allowed, userId, session, inputs[0].event, inputs[0].env);
    var t := Trace(allowed, userId, session, inputs);
    if o.next == Active(ChatGptMode) {
      assert inputs[0].event == Text(CHATGPT_BUTTON);
    } else {
      assert k > 0;
      assert t[1..] == Trace(allowed, userId, o.next, inputs[1..]);
      ChatGptModeNeedsButton(allowed, userId, o.next, inputs[1..], k - 1);
      var j :| 0 <= j <= k - 1 && inputs[1..][j].event == Text(CHATGPT_BUTTON);
      assert inputs[j + 1].event == Text(CHATGPT_BUTTON);
    }
  }

  /** `/start` makes the rest of a trace independent of where it was: after
      it, any two sessions of an admitted user behave alike. */
  lemma StartForgetsSession(allowed: set<int>, userId: int, s1: Session, s2: Session, env: Environment, rest: seq<Input>)
    requires IsUserAllowed(userId, allowed)
    ensures Trace(allowed, userId, s1, [Input(Start, env)] + rest)
         == Trace(allowed, userId, s2, [Input(Start, env)] + rest)
  {
    var inputs1 := [Input(Start, env)] + rest;
    assert inputs1[1..] == rest;
  }
}
