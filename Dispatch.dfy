/** How one update reaches a handler, as `main.py` wires it: the i18n middleware on messages and
    button presses, the throttling middleware on the messages a handler takes, the `start`
    router before the `survey` router. `Transition` is the effect of one update on the sender's FSM context;
    `Handle` is the same update run through the handler methods. */
module Dispatch {
  import opened Wrappers
  import opened PyText
  import opened Dates
  import opened SurveyStates
  import opened Settings
  import opened I18n
  import opened Fsm
  import opened Models
  import opened GoogleSheets
  import opened Throttling
  import opened Survey
  import opened Keyboards
  import opened Start

  /** What the bot receives: a text message, or a press of an inline button with its callback
      data; both carry the sender. */
  datatype Update = Message(from: TelegramUser, text: string) | Press(from: TelegramUser, data: string)

  /** The handler a text message reaches. */
  datatype TextRoute = ToStart | ToStep(step: Step) | TextIgnored

  /** The handler a button press reaches. */
  datatype PressRoute = ToStartSurvey | ToSkip | ToBack | PressIgnored

  /** `/start` is matched first, in any state; otherwise a user in a survey state reaches that
      step's handler; any other text is not handled. */
  function RouteText(state: Option<string>, text: string): (r: TextRoute)
    ensures r.ToStep? ==> !IsStart(text) && state == Some(StateName(r.step))
    ensures r.ToStart? <==> IsStart(text)
  {
    if IsStart(text) then ToStart
    else if state.Some? && StepNamed(state.value).Some? then ToStep(StepNamed(state.value).value)
    else TextIgnored
  }

  /** "start_survey" works in any state, "skip" only at the comment step, "back" in any state. */
  function RoutePress(state: Option<string>, data: string): (r: PressRoute)
    ensures r.ToSkip? <==> data == "skip" && state == Some(StateName(Comment))
    ensures r.ToStartSurvey? <==> data == "start_survey"
    ensures r.ToBack? <==> data == "back"
  {
    if data == "start_survey" then ToStartSurvey
    else if data == "skip" && state == Some(StateName(Comment)) then ToSkip
    else if data == "back" then ToBack
    else PressIgnored
  }

  /** The sender's FSM context between two updates. */
  datatype Snapshot = Snapshot(state: Option<string>, data: Data)

  const Idle: Snapshot := Snapshot(None, map[])

  predicate Valid(limits: Limits, f: Snapshot)
  {
    WellFormed(limits, f.state, f.data)
  }

  /** The comment step: a committed request clears the context; a failed commit leaves the user
      at the comment step with the comment stored. */
  function Finish(f: Snapshot, comment: string, committed: bool): Snapshot
  {
    if committed then Idle else Snapshot(f.state, f.data[Comment := Str(comment)])
  }

  /** The new context after a text message. */
  function AfterText(limits: Limits, f: Snapshot, text: string, now: Clock, committed: bool): Snapshot
  {
    match RouteText(f.state, text)
    case ToStart => Idle
    case ToStep(s) =>
      if s == Comment then Finish(f, CommentText(Typed(text)), committed)
      else
        (match Answer(limits, s, text, now)
         case Some(v) => Snapshot(Some(StateName(Next(s).value)), f.data[s := v])
         case None => f)
    case TextIgnored => f
  }

  /** The new context after a button press. */
  function AfterPress(f: Snapshot, data: string, committed: bool): Snapshot
  {
    match RoutePress(f.state, data)
    case ToStartSurvey => Snapshot(Some(StateName(Destination)), f.data)
    case ToSkip => Finish(f, CommentText(Skipped), committed)
    case ToBack =>
      (match PrevOf(f.state)
       case None => Idle
       case Some(p) => Snapshot(Some(StateName(p)), f.data))
    case PressIgnored => f
  }

  /** The effect of one update that gets past the middlewares. `now` is the clock the date step
      compares with; `committed` is whether the database commit of a finished survey succeeds. */
  function Transition(limits: Limits, f: Snapshot, u: Update, now: Clock, committed: bool): Snapshot
  {
    match u
    case Message(_, text) => AfterText(limits, f, text, now, committed)
    case Press(_, data) => AfterPress(f, data, committed)
  }

  /** Going back keeps the invariant: the earlier step was ready, since the current one was. */
  lemma BackKeeps(limits: Limits, state: Option<string>, data: Data)
    requires WellFormed(limits, state, data) && PrevOf(state).Some?
    ensures WellFormed(limits, Some(StateName(PrevOf(state).value)), data)
  {
    var s := StepNamed(state.value).value;
    var p := PrevOf(state).value;
    WellFormedAt(limits, s, data);
    WellFormedAt(limits, p, data);
  }

  /** A failed commit keeps the invariant. */
  lemma FinishKeeps(limits: Limits, f: Snapshot, comment: string, committed: bool)
    requires Valid(limits, f) && f.state == Some(StateName(Comment))
    ensures Valid(limits, Finish(f, comment, committed))
  {
    if !committed {
      WellFormedAt(limits, Comment, f.data);
      WellFormedAt(limits, Comment, f.data[Comment := Str(comment)]);
      StoreKeepsOrder(f.data, Comment, Str(comment), f.data[Comment := Str(comment)]);
      StoreKeepsAdmissible(limits, f.data, Comment, Str(comment), f.data[Comment := Str(comment)]);
    }
  }

  /** Every update keeps the invariant. */
  lemma TransitionKeeps(limits: Limits, f: Snapshot, u: Update, now: Clock, committed: bool)
    requires Valid(limits, f)
    ensures Valid(limits, Transition(limits, f, u, now, committed))
  {
    match u
    case Message(_, text) =>
      match RouteText(f.state, text) {
        case ToStart =>
        case ToStep(s) =>
          if s == Comment {
            FinishKeeps(limits, f, CommentText(Typed(text)), committed);
          } else if Answer(limits, s, text, now).Some? {
            AdvanceKeeps(limits, f.data, s, Answer(limits, s, text, now).value);
          }
        case TextIgnored =>
      }
    case Press(_, data) =>
      match RoutePress(f.state, data) {
        case ToStartSurvey => WellFormedAt(limits, Destination, f.data);
        case ToSkip => FinishKeeps(limits, f, CommentText(Skipped), committed);
        case ToBack =>
          if PrevOf(f.state).Some? {
            BackKeeps(limits, f.state, f.data);
          }
        case PressIgnored =>
      }
  }

  /** One update with the clock reading and the commit outcome it meets. */
  datatype Event = Event(update: Update, now: Clock, committed: bool)

  /** The context after a sequence of updates, oldest first. */
  function Run(limits: Limits, f: Snapshot, events: seq<Event>): Snapshot
    decreases |events|
  {
    if events == [] then f
    else Run(limits, Transition(limits, f, events[0].update, events[0].now, events[0].committed), events[1..])
  }

  /** From a fresh user on, whatever the updates, the stored answers are always admissible, in
      step order, and complete up to the current step. */
  lemma {:induction false} RunKeeps(limits: Limits, f: Snapshot, events: seq<Event>)
    requires Valid(limits, f)
    ensures Valid(limits, Run(limits, f, events))
    decreases |events|
  {
    if events != [] {
      TransitionKeeps(limits, f, events[0].update, events[0].now, events[0].committed);
      RunKeeps(limits, Transition(limits, f, events[0].update, events[0].now, events[0].committed), events[1..]);
    }
  }

  /** A user the bot has not seen yet satisfies the invariant. */
  lemma IdleValid(limits: Limits)
    ensures Valid(limits, Idle)
  {
  }

  /** `/start` resets the context whatever the state, the survey handlers never see it. */
  lemma StartResets(limits: Limits, f: Snapshot, user: TelegramUser, payload: string, now: Clock, committed: bool)
    requires payload == [] || IsSpace(payload[0])
    ensures Transition(limits, f, Message(user, "/start" + payload), now, committed) == Idle
  {
    StartWithPayload(payload);
  }

  /** An answer the step rejects leaves the context exactly as it was. */
  lemma RejectedAnswerKeepsContext(limits: Limits, f: Snapshot, s: Step, text: string, now: Clock, committed: bool)
    requires f.state == Some(StateName(s)) && s != Comment && !IsStart(text)
    requires Answer(limits, s, text, now).None?
    ensures AfterText(limits, f, text, now, committed) == f
  {
    AtStep(s);
  }

  /** An answer the step accepts is stored under that step and the next step is asked. */
  lemma AcceptedAnswerAdvances(limits: Limits, f: Snapshot, s: Step, text: string, now: Clock, committed: bool)
    requires f.state == Some(StateName(s)) && s != Comment && !IsStart(text)
    requires Answer(limits, s, text, now).Some?
    ensures AfterText(limits, f, text, now, committed)
      == Snapshot(Some(StateName(Next(s).value)), f.data[s := Answer(limits, s, text, now).value])
  {
    AtStep(s);
  }

  /** "back" from any step but the first goes to the step before it and keeps the answers. */
  lemma BackGoesToPrevious(f: Snapshot, s: Step, committed: bool)
    requires f.state == Some(StateName(s)) && s != Destination
    ensures AfterPress(f, "back", committed) == Snapshot(Some(StateName(Prev(s).value)), f.data)
  {
    AtStep(s);
  }

  /** An accepted answer followed by "back" returns to the same step with the answer kept. */
  lemma AnswerThenBack(limits: Limits, f: Snapshot, s: Step, user: TelegramUser, text: string,
                       now: Clock, committed: bool)
    requires f.state == Some(StateName(s)) && s != Comment && !IsStart(text)
    requires Answer(limits, s, text, now).Some?
    ensures var g := Transition(limits, f, Message(user, text), now, committed);
      Transition(limits, g, Press(user, "back"), now, committed)
        == Snapshot(Some(StateName(s)), f.data[s := Answer(limits, s, text, now).value])
  {
    var v := Answer(limits, s, text, now).value;
    var n := Next(s).value;
    AcceptedAnswerAdvances(limits, f, s, text, now, committed);
    NextPrev(s, n);
    BackGoesToPrevious(Snapshot(Some(StateName(n)), f.data[s := v]), n, committed);
  }

  /** "back" from a later step lands on the step before it with the answers kept; a new
      accepted answer there overwrites only that step's answer and leads forward again. */
  lemma BackThenAnswer(limits: Limits, f: Snapshot, s: Step, user: TelegramUser, text: string,
                       now: Clock, committed: bool)
    requires f.state == Some(StateName(s)) && s != Destination
    requires !IsStart(text) && Answer(limits, Prev(s).value, text, now).Some?
    ensures var p := Prev(s).value;
      && Transition(limits, f, Press(user, "back"), now, committed) == Snapshot(Some(StateName(p)), f.data)
      && Transition(limits, Snapshot(Some(StateName(p)), f.data), Message(user, text), now, committed)
           == Snapshot(Some(StateName(s)), f.data[p := Answer(limits, p, text, now).value])
  {
    var p := Prev(s).value;
    BackGoesToPrevious(f, s, committed);
    NextPrev(p, s);
    AcceptedAnswerAdvances(limits, Snapshot(Some(StateName(p)), f.data), p, text, now, committed);
  }

  /** "back" at the first step, or outside the survey, shows the main menu and clears the
      context. */
  lemma BackFromFirstStep(limits: Limits, f: Snapshot, user: TelegramUser, now: Clock, committed: bool)
    requires f.state == Some(StateName(Destination)) || f.state.None?
    ensures Transition(limits, f, Press(user, "back"), now, committed) == Idle
  {
    if f.state.Some? {
      AtStep(Destination);
    }
  }

  /** "skip" outside the comment step reaches no handler. */
  lemma SkipOutsideComment(limits: Limits, f: Snapshot, user: TelegramUser, now: Clock, committed: bool)
    requires f.state != Some(StateName(Comment))
    ensures Transition(limits, f, Press(user, "skip"), now, committed) == f
  {
  }

  /** A text message outside any survey state, other than `/start`, changes nothing. */
  lemma TextOutsideSurvey(limits: Limits, f: Snapshot, user: TelegramUser, text: string, now: Clock, committed: bool)
    requires !IsStart(text)
    requires f.state.None? || f.state == Some(BroadcastWaiting)
    ensures Transition(limits, f, Message(user, text), now, committed) == f
  {
    BroadcastIsNotAStep(Destination);
  }

  /** A finished survey whose commit failed can be retried: the user is still at the comment
      step, and the next comment overwrites the stored one. */
  lemma CommitRetry(limits: Limits, f: Snapshot, user: TelegramUser, first: string, second: string, now: Clock)
    requires f.state == Some(StateName(Comment)) && !IsStart(first) && !IsStart(second)
    ensures var g := Transition(limits, f, Message(user, first), now, false);
      && g.state == f.state
      && Transition(limits, g, Message(user, second), now, true) == Idle
  {
    AtStep(Comment);
  }

  /** The part of the update the handlers see after a commit: the comment step with a typed
      comment or the skip button. */
  predicate Completes(f: Snapshot, u: Update)
  {
    match u
    case Message(_, text) => RouteText(f.state, text) == ToStep(Comment)
    case Press(_, data) => RoutePress(f.state, data).ToSkip?
  }

  /** What a handler answers: a reply, the throttling notice with the seconds left, or nothing
      (an update no handler takes, or a commit that raised). */
  datatype Outcome = Sent(reply: Reply) | ThrottleNotice(wait: real) | NoReply

  /** The table, its id counter and the spreadsheet after an update: when a survey was finished
      and committed, the table has one valid row more, with the next id, the counter moves past
      that id, and the spreadsheet has that row appended exactly when it was reachable; otherwise
      none of them changes. */
  predicate StoreEffect(limits: Limits, completes: bool, committed: bool, sheetsOk: bool,
                        nextId: int, nextId': int, rows: seq<Request>, rows': seq<Request>,
                        sheetRows: seq<seq<Cell>>, sheetRows': seq<seq<Cell>>)
  {
    if completes && committed then
      && |rows'| == |rows| + 1 && rows'[..|rows|] == rows
      && rows'[|rows|].id == nextId && ValidFields(limits, rows'[|rows|].fields)
      && nextId' == nextId + 1
      && sheetRows' == (if sheetsOk then sheetRows + [SheetRow(rows'[|rows|])] else sheetRows)
    else rows' == rows && nextId' == nextId && sheetRows' == sheetRows
  }

  /** The main menu with the welcome text, sent by `/start` and by "back" at the first step. */
  function WelcomeReply(t: Translator): Reply
  {
    Reply(None, T(t, "welcome", []), MainMenuKb(t))
  }

  /** What a text message gets back: the welcome for `/start`, the step's reply for an answer,
      the summary for a committed comment with `nextId` as its request number, and nothing when
      the commit raised or no handler takes the text. */
  function TextOutcome(limits: Limits, t: Translator, f: Snapshot, text: string, now: Clock,
                       committed: bool, nextId: int): Outcome
    requires Valid(limits, f)
  {
    match RouteText(f.state, text)
    case ToStart => Sent(WelcomeReply(t))
    case ToStep(s) =>
      if s != Comment then Sent(AnswerReply(limits, t, s, text, now))
      else if committed then
        AnsweredBeforeComment(limits, f.state, f.data);
        Sent(CompletionReply(limits, t, nextId, f.data, CommentText(Typed(text))))
      else NoReply
    case TextIgnored => NoReply
  }

  /** What a button press gets back: the first question for "start_survey", the summary for a
      committed "skip", the earlier step's prompt or the main menu for "back", and nothing when
      the commit raised or no handler takes the press. */
  function PressOutcome(limits: Limits, t: Translator, f: Snapshot, data: string,
                        committed: bool, nextId: int): Outcome
    requires Valid(limits, f)
  {
    match RoutePress(f.state, data)
    case ToStartSurvey => Sent(Reply(Some(Progress(1)), T(t, "start_survey", []), BackKb(t)))
    case ToSkip =>
      if committed then
        AnsweredBeforeComment(limits, f.state, f.data);
        Sent(CompletionReply(limits, t, nextId, f.data, CommentText(Skipped)))
      else NoReply
    case ToBack =>
      (match PrevOf(f.state)
       case None => Sent(WelcomeReply(t))
       case Some(p) => Sent(BackPrompt(t, p, f.data)))
    case PressIgnored => NoReply
  }

  /** What an update that gets past the middlewares gets back. */
  function UpdateOutcome(limits: Limits, t: Translator, f: Snapshot, u: Update, now: Clock,
                         committed: bool, nextId: int): Outcome
    requires Valid(limits, f)
  {
    match u
    case Message(_, text) => TextOutcome(limits, t, f, text, now, committed, nextId)
    case Press(_, data) => PressOutcome(limits, t, f, data, committed, nextId)
  }

  /** The handler of one of the first six steps, chosen by the step the user is at. */
  method ProcessAnswer(limits: Limits, ctx: FsmContext, s: Step, text: string, t: Translator, now: Clock)
    returns (reply: Reply)
    requires ctx.state == Some(StateName(s)) && s != Comment && WellFormed(limits, ctx.state, ctx.data)
    modifies ctx
    ensures WellFormed(limits, ctx.state, ctx.data)
    ensures Answer(limits, s, text, now).None? ==> ctx.state == old(ctx.state) && ctx.data == old(ctx.data)
    ensures Answer(limits, s, text, now).Some? ==>
      ctx.state == Some(StateName(Next(s).value)) && ctx.data == old(ctx.data)[s := Answer(limits, s, text, now).value]
    ensures reply == AnswerReply(limits, t, s, text, now)
  {
    NextInOrder();
    match s {
      case Destination => reply := ProcessDestination(limits, ctx, text, t);
      case DepartureDate => reply := ProcessDate(limits, ctx, text, t, now);
      case Nights => reply := ProcessNights(limits, ctx, text, t);
      case Adults => reply := ProcessAdults(limits, ctx, text, t);
      case Children => reply := ProcessChildren(limits, ctx, text, t);
      case Budget => reply := ProcessBudget(limits, ctx, text, t);
    }
  }

  /** A text message past the throttle. */
  method OnText(limits: Limits, ctx: FsmContext, t: Translator, store: RequestStore, sheet: Worksheet,
                from: TelegramUser, text: string, now: Clock, ticks: int,
                commitOk: bool, sheetsOk: bool, notifyOk: bool)
    returns (outcome: Outcome)
    requires WellFormed(limits, ctx.state, ctx.data) && store.Valid()
    modifies ctx, store, sheet
    ensures WellFormed(limits, ctx.state, ctx.data) && store.Valid()
    ensures Snapshot(ctx.state, ctx.data) == AfterText(limits, Snapshot(old(ctx.state), old(ctx.data)), text, now, commitOk)
    ensures StoreEffect(limits, RouteText(old(ctx.state), text) == ToStep(Comment), commitOk, sheetsOk,
                        old(store.nextId), store.nextId, old(store.rows), store.rows, old(sheet.rows), sheet.rows)
    ensures outcome == TextOutcome(limits, t, Snapshot(old(ctx.state), old(ctx.data)), text, now, commitOk, old(store.nextId))
  {
    var f := Snapshot(ctx.state, ctx.data);
    match RouteText(ctx.state, text)
    case ToStart =>
      var r := CmdStart(limits, ctx, t);
      outcome := Sent(r);
    case ToStep(s) =>
      if s == Comment {
        AtStep(Comment);
        var r, saved := ProcessComment(limits, ctx, Typed(text), from, t, store, sheet, ticks, commitOk, sheetsOk, notifyOk);
        outcome := if r.Some? then Sent(r.value) else NoReply;
      } else {
        if Answer(limits, s, text, now).Some? {
          AcceptedAnswerAdvances(limits, f, s, text, now, commitOk);
        } else {
          RejectedAnswerKeepsContext(limits, f, s, text, now, commitOk);
        }
        var r := ProcessAnswer(limits, ctx, s, text, t, now);
        outcome := Sent(r);
      }
    case TextIgnored =>
      outcome := NoReply;
  }

  /** A button press; presses are not throttled. */
  method OnPress(limits: Limits, ctx: FsmContext, t: Translator, store: RequestStore, sheet: Worksheet,
                 from: TelegramUser, data: string, ticks: int,
                 commitOk: bool, sheetsOk: bool, notifyOk: bool)
    returns (outcome: Outcome)
    requires WellFormed(limits, ctx.state, ctx.data) && store.Valid()
    modifies ctx, store, sheet
    ensures WellFormed(limits, ctx.state, ctx.data) && store.Valid()
    ensures Snapshot(ctx.state, ctx.data) == AfterPress(Snapshot(old(ctx.state), old(ctx.data)), data, commitOk)
    ensures StoreEffect(limits, RoutePress(old(ctx.state), data).ToSkip?, commitOk, sheetsOk,
                        old(store.nextId), store.nextId, old(store.rows), store.rows, old(sheet.rows), sheet.rows)
    ensures outcome == PressOutcome(limits, t, Snapshot(old(ctx.state), old(ctx.data)), data, commitOk, old(store.nextId))
  {
    match RoutePress(ctx.state, data)
    case ToStartSurvey =>
      var r := StartSurvey(limits, ctx, t);
      outcome := Sent(r);
    case ToSkip =>
      var r, saved := ProcessComment(limits, ctx, Skipped, from, t, store, sheet, ticks, commitOk, sheetsOk, notifyOk);
      outcome := if r.Some? then Sent(r.value) else NoReply;
    case ToBack =>
      var r := HandleBack(limits, ctx, t);
      outcome := Sent(r);
    case PressIgnored =>
      outcome := NoReply;
  }

  /** Whether an update meets the throttling middleware. It is an inner middleware of messages,
      so it runs only for a message some handler takes: `/start`, or any text from a user at a
      survey step. Button presses and texts no handler takes never reach it. */
  predicate Throttled(state: Option<string>, u: Update)
  {
    u.Message? && RouteText(state, u.text) != TextIgnored
  }

  /** Whether the throttling middleware drops an update. */
  predicate Dropped(throttleTime: real, timings: map<int, real>, state: Option<string>, u: Update, seconds: real)
  {
    Throttled(state, u) && Decide(throttleTime, LastTime(timings, u.from.id), seconds).Throttled?
  }

  /** A text no handler takes, such as "hi" outside the survey, never meets the throttle,
      gets no answer and changes nothing, however soon it follows the sender's last message. */
  lemma IgnoredTextUntouched(limits: Limits, t: Translator, f: Snapshot, user: TelegramUser, text: string,
                             now: Clock, committed: bool, nextId: int,
                             throttleTime: real, timings: map<int, real>, seconds: real)
    requires Valid(limits, f) && !IsStart(text)
    requires f.state.None? || f.state == Some(BroadcastWaiting)
    ensures !Throttled(f.state, Message(user, text))
    ensures !Dropped(throttleTime, timings, f.state, Message(user, text), seconds)
    ensures TextOutcome(limits, t, f, text, now, committed, nextId) == NoReply
    ensures Transition(limits, f, Message(user, text), now, committed) == f
  {
    BroadcastIsNotAStep(Destination);
  }

  /** One update end to end. The translator is chosen from the sender's language; a message the
      throttle drops gets the notice with the seconds left and reaches no handler; everything
      else is the `Transition` of the update, answered as `UpdateOutcome` says. A message that
      passes the throttle records `seconds` as its sender's last time; nothing else touches the
      timings. `seconds` is the throttle's clock, `now` the date step's, and `ticks` the
      creation time of a new row. */
  method Handle(limits: Limits, translations: Translations, ctx: FsmContext, throttle: ThrottlingMiddleware,
                store: RequestStore, sheet: Worksheet, u: Update, now: Clock, seconds: real, ticks: int,
                commitOk: bool, sheetsOk: bool, notifyOk: bool)
    returns (outcome: Outcome)
    requires WellFormed(limits, ctx.state, ctx.data) && store.Valid()
    modifies ctx, throttle, store, sheet
    ensures WellFormed(limits, ctx.state, ctx.data) && store.Valid()
    ensures throttle.throttleTime == old(throttle.throttleTime)
    ensures Dropped(old(throttle.throttleTime), old(throttle.userTimings), old(ctx.state), u, seconds) ==>
      && outcome == ThrottleNotice(Decide(old(throttle.throttleTime), LastTime(old(throttle.userTimings), u.from.id), seconds).wait)
      && ctx.state == old(ctx.state) && ctx.data == old(ctx.data)
      && store.rows == old(store.rows) && store.nextId == old(store.nextId) && sheet.rows == old(sheet.rows)
    ensures !Dropped(old(throttle.throttleTime), old(throttle.userTimings), old(ctx.state), u, seconds) ==>
      && Snapshot(ctx.state, ctx.data) == Transition(limits, Snapshot(old(ctx.state), old(ctx.data)), u, now, commitOk)
      && outcome == UpdateOutcome(limits, Middleware(translations, Some(u.from)), Snapshot(old(ctx.state), old(ctx.data)),
                                  u, now, commitOk, old(store.nextId))
      && StoreEffect(limits, Completes(Snapshot(old(ctx.state), old(ctx.data)), u), commitOk, sheetsOk,
                     old(store.nextId), store.nextId, old(store.rows), store.rows, old(sheet.rows), sheet.rows)
    ensures throttle.userTimings ==
      if Throttled(old(ctx.state), u) && !Dropped(old(throttle.throttleTime), old(throttle.userTimings), old(ctx.state), u, seconds)
      then old(throttle.userTimings)[u.from.id := seconds]
      else old(throttle.userTimings)
  {
    var t := Middleware(translations, Some(u.from));
    match u
    case Message(from, text) =>
      if RouteText(ctx.state, text) != TextIgnored {
        var verdict := throttle.Call(from.id, seconds);
        if verdict.Throttled? {
          return ThrottleNotice(verdict.wait);
        }
      }
      outcome := OnText(limits, ctx, t, store, sheet, from, text, now, ticks, commitOk, sheetsOk, notifyOk);
    case Press(from, data) =>
      outcome := OnPress(limits, ctx, t, store, sheet, from, data, ticks, commitOk, sheetsOk, notifyOk);
  }
}
