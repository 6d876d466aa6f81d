/** The survey handlers of `handlers/survey.py`. Each takes the FSM context of the sending user
    and the update's translator; the clock, the limits from the settings, the store and the
    spreadsheet are parameters. The invariant `WellFormed` says what the stored answers look
    like between two updates. */
module Survey {
  import opened Wrappers
  import opened PyText
  import opened Dates
  import opened SurveyStates
  import opened Settings
  import opened I18n
  import opened Keyboards
  import opened Fsm
  import opened Validators
  import opened Models
  import opened GoogleSheets

  /** The `total` of every progress bar the survey shows. */
  const TotalSteps: int := 7

  /** The comment stored when the user presses "skip". */
  const NoComment: string := "Нет комментариев"

  /** One message the bot sends or edits: the progress bar line when there is one, the
      translated text below it, and the inline keyboard. */
  datatype Reply = Reply(progress: Option<string>, body: Rendered, keyboard: Markup)

  function Progress(k: nat): string
  {
    ProgressBar(k, TotalSteps)
  }

  /** The values a step stores once its validator has accepted the input. */
  predicate Admissible(limits: Limits, s: Step, v: Scalar)
  {
    match s
    case Destination => v.Str? && Strip(v.s) == v.s
    case DepartureDate => v.Str? && Strip(v.s) == v.s && ParseDate(v.s).Some?
    case Nights => v.Int? && 3 <= v.i <= 21
    case Adults => v.Int? && MinTravelers <= v.i <= limits.maxTravelers
    case Children => v.Int? && 0 <= v.i <= 10
    case Budget => v.Int? && v.i >= limits.minBudget
    case Comment => v.Str?
  }

  /** A step can be asked once every step before it has an answer. */
  predicate Ready(s: Step, data: Data)
  {
    forall p :: Index(p) < Index(s) ==> p in data
  }

  /** Every stored answer passed its step's check. */
  predicate AllAdmissible(limits: Limits, data: Data)
  {
    forall s :: s in data ==> Admissible(limits, s, data[s])
  }

  /** The answered steps are the first ones of the declaration order: an answer implies an
      answer for every earlier step. */
  predicate InOrder(data: Data)
  {
    forall s, p :: s in data && Index(p) < Index(s) ==> p in data
  }

  /** A user in a survey state has answered every step before it. */
  predicate StateReady(state: Option<string>, data: Data)
  {
    state.Some? && StepNamed(state.value).Some? ==> Ready(StepNamed(state.value).value, data)
  }

  /** Between updates: every stored answer passed its step's check, the answers are those of
      the first steps, and a user in a survey state has answered every earlier step. */
  predicate WellFormed(limits: Limits, state: Option<string>, data: Data)
  {
    AllAdmissible(limits, data) && InOrder(data) && StateReady(state, data)
  }

  /** The state string names the step it was built from. */
  lemma AtStep(s: Step)
    ensures StepNamed(StateName(s)) == Some(s)
  {
    StateNamesDistinct(s, s);
  }

  /** Every answer but the comment is stored, each with its admissible value. */
  predicate CompleteAnswers(limits: Limits, data: Data)
  {
    forall s: Step :: s != Comment ==> s in data && Admissible(limits, s, data[s])
  }

  /** In the comment state every earlier answer is already stored. */
  lemma AnsweredBeforeComment(limits: Limits, state: Option<string>, data: Data)
    requires WellFormed(limits, state, data) && state == Some(StateName(Comment))
    ensures CompleteAnswers(limits, data)
  {
    AtStep(Comment);
    assert Ready(Comment, data);
  }

  /** The value a step stores for a text message, or None when the step rejects it. */
  function Answer(limits: Limits, s: Step, text: string, now: Clock): (v: Option<Scalar>)
    ensures v.Some? ==> Admissible(limits, s, v.value)
  {
    StripIdempotent(text);
    match s
    case Destination => Some(Str(Strip(text)))
    case DepartureDate =>
      (match CheckDate(text, now)
       case DateAccepted(stored, _) => Some(Str(stored))
       case _ => None)
    case Nights => (match ParseNights(text) case Some(n) => Some(Int(n)) case None => None)
    case Adults => (match ParseAdults(limits, text) case Some(n) => Some(Int(n)) case None => None)
    case Children => (match ParseChildren(text) case Some(n) => Some(Int(n)) case None => None)
    case Budget => (match ParseBudget(limits, text) case Some(n) => Some(Int(n)) case None => None)
    case Comment => Some(Str(Strip(text)))
  }

  /** Storing an answer for a step whose predecessors are answered keeps the answers in order. */
  lemma StoreKeepsOrder(data: Data, s: Step, v: Scalar, after: Data)
    requires InOrder(data) && Ready(s, data) && after == data[s := v]
    ensures InOrder(after)
  {
  }

  /** Storing an admissible answer keeps every stored answer admissible. */
  lemma StoreKeepsAdmissible(limits: Limits, data: Data, s: Step, v: Scalar, after: Data)
    requires AllAdmissible(limits, data) && Admissible(limits, s, v) && after == data[s := v]
    ensures AllAdmissible(limits, after)
  {
  }

  /** At a survey state the invariant says: the answers are admissible and in order, and every
      step before the current one is answered. */
  lemma WellFormedAt(limits: Limits, s: Step, data: Data)
    ensures WellFormed(limits, Some(StateName(s)), data) <==> AllAdmissible(limits, data) && InOrder(data) && Ready(s, data)
  {
    AtStep(s);
  }

  /** The step after `s` is ready once `s` and every step before it are answered. */
  lemma NextReady(s: Step, data: Data, v: Scalar)
    requires Ready(s, data) && s != Comment
    ensures Ready(Next(s).value, data[s := v])
  {
    forall p | Index(p) < Index(Next(s).value) ensures p in data[s := v] {
      if Index(p) == Index(s) { assert Declared[Index(p) - 1] == p; }
    }
  }

  /** Storing an accepted answer and moving to the next step keeps the invariant. */
  lemma AdvanceKeeps(limits: Limits, data: Data, s: Step, v: Scalar)
    requires WellFormed(limits, Some(StateName(s)), data) && s != Comment && Admissible(limits, s, v)
    ensures WellFormed(limits, Some(StateName(Next(s).value)), data[s := v])
  {
    WellFormedAt(limits, s, data);
    WellFormedAt(limits, Next(s).value, data[s := v]);
    StoreKeepsOrder(data, s, v, data[s := v]);
    StoreKeepsAdmissible(limits, data, s, v, data[s := v]);
    NextReady(s, data, v);
  }

  /** A stripped text is an admissible destination or comment. */
  lemma StrippedAdmissible(limits: Limits, s: Step, text: string)
    requires s == Destination || s == Comment
    ensures Admissible(limits, s, Str(Strip(text)))
  {
    StripIdempotent(text);
  }

  /** The next prompt after an accepted answer: progress bar k + 1 and the step's "saved" text. */
  function SavedReply(t: Translator, key: string, k: nat, kwargs: seq<(string, Scalar)>, keyboard: Markup): Reply
  {
    Reply(Some(Progress(k)), T(t, key, kwargs), keyboard)
  }

  /** The error reply of a step: its message and the back keyboard. */
  function ErrorReply(t: Translator, key: string, kwargs: seq<(string, Scalar)>): Reply
  {
    Reply(None, T(t, key, kwargs), BackKb(t))
  }

  /** `process_destination`: any text is accepted, stored stripped (even when empty), and the
      reply echoes the text as sent. */
  method ProcessDestination(limits: Limits, ctx: FsmContext, text: string, t: Translator) returns (reply: Reply)
    requires ctx.state == Some(StateName(Destination)) && WellFormed(limits, ctx.state, ctx.data)
    modifies ctx
    ensures ctx.data == old(ctx.data)[Destination := Str(Strip(text))]
    ensures ctx.state == Some(StateName(DepartureDate))
    ensures reply == SavedReply(t, "destination_saved", 2, [("destination", Str(text))], BackKb(t))
    ensures WellFormed(limits, ctx.state, ctx.data)
  {
    var v := Str(Strip(text));
    StrippedAdmissible(limits, Destination, text);
    NextInOrder();
    AdvanceKeeps(limits, ctx.data, Destination, v);
    ctx.UpdateData(Destination, v);
    reply := SavedReply(t, "destination_saved", 2, [("destination", Str(text))], BackKb(t));
    ctx.SetState(Some(StateName(DepartureDate)));
  }

  /** The text an accepted date stores is the stripped message, and it passes the step's check. */
  lemma AcceptedDateAdmissible(limits: Limits, text: string, now: Clock)
    requires CheckDate(text, now).DateAccepted?
    ensures CheckDate(text, now).stored == Strip(text)
    ensures Admissible(limits, DepartureDate, Str(CheckDate(text, now).stored))
  {
    StripIdempotent(text);
  }

  /** `process_date`: an invalid date and a past date each get their own reply and change
      nothing; an accepted date stores the stripped text and the reply echoes the text as sent. */
  method ProcessDate(limits: Limits, ctx: FsmContext, text: string, t: Translator, now: Clock) returns (reply: Reply)
    requires ctx.state == Some(StateName(DepartureDate)) && WellFormed(limits, ctx.state, ctx.data)
    modifies ctx
    ensures CheckDate(text, now).DateInvalid? ==>
      ctx.data == old(ctx.data) && ctx.state == old(ctx.state) && reply == ErrorReply(t, "date_invalid", [])
    ensures CheckDate(text, now).DatePast? ==>
      ctx.data == old(ctx.data) && ctx.state == old(ctx.state) && reply == ErrorReply(t, "date_past", [])
    ensures CheckDate(text, now).DateAccepted? ==>
      && ctx.data == old(ctx.data)[DepartureDate := Str(Strip(text))]
      && ctx.state == Some(StateName(Nights))
      && reply == SavedReply(t, "date_saved", 3, [("date", Str(text))], BackKb(t))
    ensures WellFormed(limits, ctx.state, ctx.data)
  {
    var check := CheckDate(text, now);
    match check
    case DateInvalid =>
      reply := ErrorReply(t, "date_invalid", []);
    case DatePast =>
      reply := ErrorReply(t, "date_past", []);
    case DateAccepted(stored, _) =>
      AcceptedDateAdmissible(limits, text, now);
      NextInOrder();
      AdvanceKeeps(limits, ctx.data, DepartureDate, Str(stored));
      ctx.UpdateData(DepartureDate, Str(stored));
      reply := SavedReply(t, "date_saved", 3, [("date", Str(text))], BackKb(t));
      ctx.SetState(Some(StateName(Nights)));
  }

  /** `process_nights`: an integer from 3 to 21 is stored and echoed; anything else gets the
      same error reply and changes nothing. */
  method ProcessNights(limits: Limits, ctx: FsmContext, text: string, t: Translator) returns (reply: Reply)
    requires ctx.state == Some(StateName(Nights)) && WellFormed(limits, ctx.state, ctx.data)
    modifies ctx
    ensures ParseNights(text).None? ==>
      ctx.data == old(ctx.data) && ctx.state == old(ctx.state) && reply == ErrorReply(t, "nights_invalid", [])
    ensures ParseNights(text).Some? ==>
      && ctx.data == old(ctx.data)[Nights := Int(ParseNights(text).value)]
      && ctx.state == Some(StateName(Adults))
      && reply == SavedReply(t, "nights_saved", 4, [("nights", Int(ParseNights(text).value))], BackKb(t))
    ensures WellFormed(limits, ctx.state, ctx.data)
  {
    var nights := ParseNights(text);
    if nights.None? {
      reply := ErrorReply(t, "nights_invalid", []);
      return;
    }
    NextInOrder();
    AdvanceKeeps(limits, ctx.data, Nights, Int(nights.value));
    ctx.UpdateData(Nights, Int(nights.value));
    reply := SavedReply(t, "nights_saved", 4, [("nights", Int(nights.value))], BackKb(t));
    ctx.SetState(Some(StateName(Adults)));
  }

  /** `process_adults`: an integer from 1 to `MAX_TRAVELERS`. */
  method ProcessAdults(limits: Limits, ctx: FsmContext, text: string, t: Translator) returns (reply: Reply)
    requires ctx.state == Some(StateName(Adults)) && WellFormed(limits, ctx.state, ctx.data)
    modifies ctx
    ensures ParseAdults(limits, text).None? ==>
      ctx.data == old(ctx.data) && ctx.state == old(ctx.state) && reply == ErrorReply(t, "adults_invalid", [])
    ensures ParseAdults(limits, text).Some? ==>
      && ctx.data == old(ctx.data)[Adults := Int(ParseAdults(limits, text).value)]
      && ctx.state == Some(StateName(Children))
      && reply == SavedReply(t, "adults_saved", 5, [("adults", Int(ParseAdults(limits, text).value))], BackKb(t))
    ensures WellFormed(limits, ctx.state, ctx.data)
  {
    var adults := ParseAdults(limits, text);
    if adults.None? {
      reply := ErrorReply(t, "adults_invalid", []);
      return;
    }
    NextInOrder();
    AdvanceKeeps(limits, ctx.data, Adults, Int(adults.value));
    ctx.UpdateData(Adults, Int(adults.value));
    reply := SavedReply(t, "adults_saved", 5, [("adults", Int(adults.value))], BackKb(t));
    ctx.SetState(Some(StateName(Children)));
  }

  /** `process_children`: an integer from 0 to 10. */
  method ProcessChildren(limits: Limits, ctx: FsmContext, text: string, t: Translator) returns (reply: Reply)
    requires ctx.state == Some(StateName(Children)) && WellFormed(limits, ctx.state, ctx.data)
    modifies ctx
    ensures ParseChildren(text).None? ==>
      ctx.data == old(ctx.data) && ctx.state == old(ctx.state) && reply == ErrorReply(t, "children_invalid", [])
    ensures ParseChildren(text).Some? ==>
      && ctx.data == old(ctx.data)[Children := Int(ParseChildren(text).value)]
      && ctx.state == Some(StateName(Budget))
      && reply == SavedReply(t, "children_saved", 6, [("children", Int(ParseChildren(text).value))], BackKb(t))
    ensures WellFormed(limits, ctx.state, ctx.data)
  {
    var children := ParseChildren(text);
    if children.None? {
      reply := ErrorReply(t, "children_invalid", []);
      return;
    }
    NextInOrder();
    AdvanceKeeps(limits, ctx.data, Children, Int(children.value));
    ctx.UpdateData(Children, Int(children.value));
    reply := SavedReply(t, "children_saved", 6, [("children", Int(children.value))], BackKb(t));
    ctx.SetState(Some(StateName(Budget)));
  }

  /** `process_budget`: the normalised amount, at least `MIN_BUDGET`; the error reply names the
      minimum, and an accepted budget brings the skip keyboard. */
  method ProcessBudget(limits: Limits, ctx: FsmContext, text: string, t: Translator) returns (reply: Reply)
    requires ctx.state == Some(StateName(Budget)) && WellFormed(limits, ctx.state, ctx.data)
    modifies ctx
    ensures ParseBudget(limits, text).None? ==>
      && ctx.data == old(ctx.data) && ctx.state == old(ctx.state)
      && reply == ErrorReply(t, "budget_invalid", [("min_budget", Int(limits.minBudget))])
    ensures ParseBudget(limits, text).Some? ==>
      && ctx.data == old(ctx.data)[Budget := Int(ParseBudget(limits, text).value)]
      && ctx.state == Some(StateName(Comment))
      && reply == SavedReply(t, "budget_saved", 7, [("budget", Int(ParseBudget(limits, text).value))], SkipKb(t))
    ensures WellFormed(limits, ctx.state, ctx.data)
  {
    var budget := ParseBudget(limits, text);
    if budget.None? {
      reply := ErrorReply(t, "budget_invalid", [("min_budget", Int(limits.minBudget))]);
      return;
    }
    NextInOrder();
    AdvanceKeeps(limits, ctx.data, Budget, Int(budget.value));
    ctx.UpdateData(Budget, Int(budget.value));
    reply := SavedReply(t, "budget_saved", 7, [("budget", Int(budget.value))], SkipKb(t));
    ctx.SetState(Some(StateName(Comment)));
  }

  /** The reply of one of the first six steps to `text`, as those handlers send it. */
  function AnswerReply(limits: Limits, t: Translator, s: Step, text: string, now: Clock): Reply
    requires s != Comment
  {
    match s
    case Destination => SavedReply(t, "destination_saved", 2, [("destination", Str(text))], BackKb(t))
    case DepartureDate =>
      (match CheckDate(text, now)
       case DateInvalid => ErrorReply(t, "date_invalid", [])
       case DatePast => ErrorReply(t, "date_past", [])
       case DateAccepted(_, _) => SavedReply(t, "date_saved", 3, [("date", Str(text))], BackKb(t)))
    case Nights =>
      (match ParseNights(text)
       case None => ErrorReply(t, "nights_invalid", [])
       case Some(n) => SavedReply(t, "nights_saved", 4, [("nights", Int(n))], BackKb(t)))
    case Adults =>
      (match ParseAdults(limits, text)
       case None => ErrorReply(t, "adults_invalid", [])
       case Some(n) => SavedReply(t, "adults_saved", 5, [("adults", Int(n))], BackKb(t)))
    case Children =>
      (match ParseChildren(text)
       case None => ErrorReply(t, "children_invalid", [])
       case Some(n) => SavedReply(t, "children_saved", 6, [("children", Int(n))], BackKb(t)))
    case Budget =>
      (match ParseBudget(limits, text)
       case None => ErrorReply(t, "budget_invalid", [("min_budget", Int(limits.minBudget))])
       case Some(n) => SavedReply(t, "budget_saved", 7, [("budget", Int(n))], SkipKb(t)))
  }

  /** A step's reply shows the next progress bar exactly when the step accepts the answer; an
      accepted answer brings the keyboard of the next step, a rejected one the back keyboard. */
  lemma AnswerReplyShape(limits: Limits, t: Translator, s: Step, text: string, now: Clock)
    requires s != Comment
    ensures AnswerReply(limits, t, s, text, now).progress.Some? <==> Answer(limits, s, text, now).Some?
    ensures Answer(limits, s, text, now).Some? ==>
      AnswerReply(limits, t, s, text, now).progress == Some(Progress(Index(s) + 1))
      && AnswerReply(limits, t, s, text, now).keyboard == (if s == Budget then SkipKb(t) else BackKb(t))
    ensures Answer(limits, s, text, now).None? ==> AnswerReply(limits, t, s, text, now).keyboard == BackKb(t)
  {
    var r := AnswerReply(limits, t, s, text, now);
    var a := Answer(limits, s, text, now);
    match s {
      case Destination =>
        assert r == SavedReply(t, "destination_saved", 2, [("destination", Str(text))], BackKb(t));
        assert a.Some?;
      case DepartureDate =>
        match CheckDate(text, now) {
          case DateInvalid => assert r == ErrorReply(t, "date_invalid", []) && a.None?;
          case DatePast => assert r == ErrorReply(t, "date_past", []) && a.None?;
          case DateAccepted(_, _) =>
            assert r == SavedReply(t, "date_saved", 3, [("date", Str(text))], BackKb(t)) && a.Some?;
        }
      case Nights =>
        match ParseNights(text) {
          case None => assert r == ErrorReply(t, "nights_invalid", []) && a.None?;
          case Some(n) => assert r == SavedReply(t, "nights_saved", 4, [("nights", Int(n))], BackKb(t)) && a.Some?;
        }
      case Adults =>
        match ParseAdults(limits, text) {
          case None => assert r == ErrorReply(t, "adults_invalid", []) && a.None?;
          case Some(n) => assert r == SavedReply(t, "adults_saved", 5, [("adults", Int(n))], BackKb(t)) && a.Some?;
        }
      case Children =>
        match ParseChildren(text) {
          case None => assert r == ErrorReply(t, "children_invalid", []) && a.None?;
          case Some(n) => assert r == SavedReply(t, "children_saved", 6, [("children", Int(n))], BackKb(t)) && a.Some?;
        }
      case Budget =>
        match ParseBudget(limits, text) {
          case None =>
            assert r == ErrorReply(t, "budget_invalid", [("min_budget", Int(limits.minBudget))]) && a.None?;
          case Some(n) => assert r == SavedReply(t, "budget_saved", 7, [("budget", Int(n))], SkipKb(t)) && a.Some?;
        }
    }
  }

  /** The comment step is reached by a text message or by the "skip" button. */
  datatype CommentInput = Typed(text: string) | Skipped

  /** Typed text is stored stripped; "skip" stores the fixed no-comment text. */
  function CommentText(input: CommentInput): string
  {
    match input
    case Typed(text) => Strip(text)
    case Skipped => NoComment
  }

  /** Complete answers hold a text for the two text steps and a number for the four numeric ones. */
  lemma AnswerKinds(limits: Limits, data: Data)
    requires CompleteAnswers(limits, data)
    ensures Destination in data && data[Destination].Str? && DepartureDate in data && data[DepartureDate].Str?
    ensures Nights in data && data[Nights].Int? && Adults in data && data[Adults].Int?
    ensures Children in data && data[Children].Int? && Budget in data && data[Budget].Int?
  {
    assert Admissible(limits, Destination, data[Destination]);
    assert Admissible(limits, DepartureDate, data[DepartureDate]);
    assert Admissible(limits, Nights, data[Nights]) && Admissible(limits, Adults, data[Adults]);
    assert Admissible(limits, Children, data[Children]) && Admissible(limits, Budget, data[Budget]);
  }

  /** The new row's columns: the sender's id and username and the stored answers. */
  function RecordFields(limits: Limits, data: Data, user: TelegramUser, comment: string): (f: Fields)
    requires CompleteAnswers(limits, data)
  {
    AnswerKinds(limits, data);
    Fields(user.id, user.username, data[Destination].s, data[DepartureDate].s, data[Nights].i,
           data[Adults].i, data[Children].i, data[Budget].i, Some(comment))
  }

  /** What a finished survey guarantees about its row: every range the steps check, a date text
      that parses (and so fits its column), and a comment. */
  predicate ValidFields(limits: Limits, f: Fields)
  {
    && 3 <= f.nights <= 21
    && MinTravelers <= f.adults <= limits.maxTravelers
    && 0 <= f.children <= 10
    && f.budget >= limits.minBudget
    && ParseDate(f.departureDate).Some? && |f.departureDate| <= DepartureDateLength
    && f.comment.Some?
  }

  /** The row built from complete answers satisfies every check of the survey. */
  lemma RecordIsValid(limits: Limits, data: Data, user: TelegramUser, comment: string)
    requires CompleteAnswers(limits, data)
    ensures ValidFields(limits, RecordFields(limits, data, user, comment))
    ensures RecordFields(limits, data, user, comment).userId == user.id
    ensures RecordFields(limits, data, user, comment).username == user.username
  {
    assert Admissible(limits, DepartureDate, data[DepartureDate]);
    assert Admissible(limits, Nights, data[Nights]) && Admissible(limits, Adults, data[Adults]);
    assert Admissible(limits, Children, data[Children]) && Admissible(limits, Budget, data[Budget]);
    ParsedDateLength(data[DepartureDate].s);
  }

  /** The keyword arguments of the "survey complete" message. */
  function CompletionKwargs(limits: Limits, id: int, data: Data, comment: string): seq<(string, Scalar)>
    requires CompleteAnswers(limits, data)
  {
    [("request_id", Int(id)), ("destination", data[Destination]), ("date", data[DepartureDate]),
     ("nights", data[Nights]), ("adults", data[Adults]), ("children", data[Children]),
     ("budget", data[Budget]), ("comment", Str(comment))]
  }

  /** `update_data(comment=...)`, the first thing the comment step does. */
  method StoreComment(limits: Limits, ctx: FsmContext, comment: string)
    requires ctx.state == Some(StateName(Comment)) && WellFormed(limits, ctx.state, ctx.data)
    modifies ctx
    ensures ctx.state == old(ctx.state) && ctx.data == old(ctx.data)[Comment := Str(comment)]
    ensures WellFormed(limits, ctx.state, ctx.data)
  {
    var before := ctx.data;
    AtStep(Comment);
    StoreKeepsOrder(before, Comment, Str(comment), before[Comment := Str(comment)]);
    StoreKeepsAdmissible(limits, before, Comment, Str(comment), before[Comment := Str(comment)]);
    ctx.UpdateData(Comment, Str(comment));
  }

  /** A committed request, whether the spreadsheet took its row, and whether the admin
      notification went out. */
  datatype Completion = Completion(request: Request, inSheet: bool, adminNotified: bool)

  /** The "survey complete" message with the main menu. */
  function CompletionReply(limits: Limits, t: Translator, id: int, data: Data, comment: string): Reply
    requires CompleteAnswers(limits, data)
  {
    Reply(None, T(t, "survey_complete", CompletionKwargs(limits, id, data, comment)), MainMenuKb(t))
  }

  /** What a successful commit leaves behind: the new row has the next id, the answers, the
      user and the insert time, it passes every check of the survey and is appended to the
      table; the spreadsheet gets the same row exactly when it is reachable. */
  predicate Committed(limits: Limits, data: Data, comment: string, user: TelegramUser, ticks: int,
                      sheetsOk: bool, notifyOk: bool, nextId: int, rows: seq<Request>,
                      sheetRows: seq<seq<Cell>>, saved: Completion,
                      rows': seq<Request>, sheetRows': seq<seq<Cell>>)
    requires CompleteAnswers(limits, data)
  {
    && saved.request == Request(nextId, RecordFields(limits, data, user, comment), ticks)
    && ValidFields(limits, saved.request.fields)
    && rows' == rows + [saved.request]
    && (saved.inSheet <==> sheetsOk) && saved.adminNotified == notifyOk
    && sheetRows' == (if sheetsOk then sheetRows + [SheetRow(saved.request)] else sheetRows)
  }

  /** The part of `process_comment` after a successful commit: the row is stored, the spreadsheet
      append and the notification are attempted and their failures caught. */
  method Commit(limits: Limits, data: Data, comment: string, user: TelegramUser,
                store: RequestStore, sheet: Worksheet, ticks: int, sheetsOk: bool, notifyOk: bool)
    returns (saved: Completion)
    requires CompleteAnswers(limits, data) && store.Valid()
    modifies store, sheet
    ensures store.Valid() && store.nextId == old(store.nextId) + 1
    ensures Committed(limits, data, comment, user, ticks, sheetsOk, notifyOk,
                      old(store.nextId), old(store.rows), old(sheet.rows), saved, store.rows, sheet.rows)
  {
    var fields := RecordFields(limits, data, user, comment);
    RecordIsValid(limits, data, user, comment);
    var request := store.Add(fields, ticks);
    var inSheet := SaveToSheets(sheet, request, sheetsOk);
    saved := Completion(request, inSheet, notifyOk);
  }

  /** `process_comment`. The comment is written to the FSM data first. When the commit fails the
      exception leaves the handler: no reply, the row not stored, the user still at the comment
      step with the comment kept. When it succeeds the row is stored; a spreadsheet or
      notification failure is caught; the user gets the summary with the main menu and the FSM is
      cleared. `commitOk`, `sheetsOk` and `notifyOk` stand for the outcomes of the database, the
      spreadsheet and the notification call. */
  method ProcessComment(limits: Limits, ctx: FsmContext, input: CommentInput, user: TelegramUser, t: Translator,
                        store: RequestStore, sheet: Worksheet, ticks: int,
                        commitOk: bool, sheetsOk: bool, notifyOk: bool)
    returns (reply: Option<Reply>, saved: Option<Completion>)
    requires ctx.state == Some(StateName(Comment)) && WellFormed(limits, ctx.state, ctx.data)
    requires store.Valid()
    modifies ctx, store, sheet
    ensures store.Valid() && WellFormed(limits, ctx.state, ctx.data)
    ensures CompleteAnswers(limits, old(ctx.data))
    ensures !commitOk ==>
      && reply.None? && saved.None?
      && ctx.state == old(ctx.state) && ctx.data == old(ctx.data)[Comment := Str(CommentText(input))]
      && store.rows == old(store.rows) && store.nextId == old(store.nextId) && sheet.rows == old(sheet.rows)
    ensures commitOk ==>
      && saved.Some? && ctx.state == None && ctx.data == map[] && store.nextId == old(store.nextId) + 1
      && Committed(limits, old(ctx.data), CommentText(input), user, ticks, sheetsOk, notifyOk,
                   old(store.nextId), old(store.rows), old(sheet.rows), saved.value, store.rows, sheet.rows)
      && reply == Some(CompletionReply(limits, t, old(store.nextId), old(ctx.data), CommentText(input)))
  {
    AnsweredBeforeComment(limits, ctx.state, ctx.data);
    var comment := CommentText(input);
    var before := ctx.data;
    StoreComment(limits, ctx, comment);
    if !commitOk {
      return None, None;
    }
    var completion := Commit(limits, before, comment, user, store, sheet, ticks, sheetsOk, notifyOk);
    reply := Some(CompletionReply(limits, t, completion.request.id, before, comment));
    saved := Some(completion);
    ctx.Clear();
  }

  /** `state_map` in `handle_back`: each step with the step before it. */
  const StateMap: seq<(Step, Option<Step>)> := [
    (Destination, None), (DepartureDate, Some(Destination)), (Nights, Some(DepartureDate)),
    (Adults, Some(Nights)), (Children, Some(Adults)), (Budget, Some(Children)), (Comment, Some(Budget))]

  /** The map lists every step once, in declaration order, with its predecessor. */
  lemma StateMapShape()
    ensures |StateMap| == |Declared|
    ensures forall i :: 0 <= i < |StateMap| ==> StateMap[i].0 == Declared[i] && StateMap[i].1 == Prev(Declared[i])
  {
  }

  /** The step before the current FSM state: None when the state is the first step, is not a
      survey step, or is absent. */
  function PrevOf(state: Option<string>): Option<Step>
  {
    if state.Some? && StepNamed(state.value).Some? then Prev(StepNamed(state.value).value) else None
  }

  /** A state that matches no entry of the map has no predecessor. */
  lemma Unlisted(current: Option<string>)
    requires forall j :: 0 <= j < |StateMap| ==> current != Some(StateName(StateMap[j].0))
    ensures PrevOf(current).None?
  {
    if current.Some? {
      StateMapShape();
      forall s: Step ensures current.value != StateName(s) {
        assert StateMap[Index(s) - 1].0 == s;
      }
    }
  }

  /** A state that matches an entry of the map has that entry's predecessor. */
  lemma Listed(current: Option<string>, i: nat)
    requires i < |StateMap| && current == Some(StateName(StateMap[i].0))
    ensures PrevOf(current) == StateMap[i].1
  {
    StateMapShape();
    AtStep(StateMap[i].0);
  }

  /** The loop over `state_map`: the first entry whose state is the current one gives the
      predecessor; no matching entry gives None. */
  method FindPrev(current: Option<string>) returns (prev: Option<Step>)
    ensures prev == PrevOf(current)
  {
    prev := None;
    var i := 0;
    while i < |StateMap|
      invariant 0 <= i <= |StateMap|
      invariant forall j :: 0 <= j < i ==> current != Some(StateName(StateMap[j].0))
    {
      if current == Some(StateName(StateMap[i].0)) {
        Listed(current, i);
        prev := StateMap[i].1;
        return;
      }
      i := i + 1;
    }
    Unlisted(current);
  }

  /** The prompt shown again for the step the user went back to, with the stored answer of the
      step before it (`''` or 0 when there is none). */
  function BackPrompt(t: Translator, p: Step, data: Data): (reply: Reply)
    requires p != Comment
    ensures reply.progress == Some(Progress(Index(p))) && reply.keyboard == BackKb(t)
  {
    match p
    case Destination => Reply(Some(Progress(1)), T(t, "start_survey", []), BackKb(t))
    case DepartureDate => Reply(Some(Progress(2)), T(t, "destination_saved", [("destination", Get(data, Destination, Str("")))]), BackKb(t))
    case Nights => Reply(Some(Progress(3)), T(t, "date_saved", [("date", Get(data, DepartureDate, Str("")))]), BackKb(t))
    case Adults => Reply(Some(Progress(4)), T(t, "nights_saved", [("nights", Get(data, Nights, Int(0)))]), BackKb(t))
    case Children => Reply(Some(Progress(5)), T(t, "adults_saved", [("adults", Get(data, Adults, Int(0)))]), BackKb(t))
    case Budget => Reply(Some(Progress(6)), T(t, "children_saved", [("children", Get(data, Children, Int(0)))]), BackKb(t))
  }

  /** `data.get(key, default)`. */
  function Get(data: Data, s: Step, default: Scalar): Scalar
  {
    if s in data then data[s] else default
  }

  /** `handle_back`: from the second step on, the state moves to the step before and the stored
      answers stay; from the first step, or from any other state, the main menu is shown and the
      FSM is cleared. */
  method HandleBack(limits: Limits, ctx: FsmContext, t: Translator) returns (reply: Reply)
    requires WellFormed(limits, ctx.state, ctx.data)
    modifies ctx
    ensures PrevOf(old(ctx.state)).None? ==>
      && ctx.state == None && ctx.data == map[]
      && reply == Reply(None, T(t, "welcome", []), MainMenuKb(t))
    ensures PrevOf(old(ctx.state)).Some? ==>
      && ctx.state == Some(StateName(PrevOf(old(ctx.state)).value)) && ctx.data == old(ctx.data)
      && PrevOf(old(ctx.state)).value != Comment
      && reply == BackPrompt(t, PrevOf(old(ctx.state)).value, ctx.data)
    ensures WellFormed(limits, ctx.state, ctx.data)
  {
    var prev := FindPrev(ctx.state);
    if prev.None? {
      reply := Reply(None, T(t, "welcome", []), MainMenuKb(t));
      ctx.Clear();
      return;
    }
    var s := StepNamed(ctx.state.value).value;
    NextPrev(prev.value, s);
    AtStep(prev.value);
    assert prev.value in ctx.data;
    ctx.SetState(Some(StateName(prev.value)));
    reply := BackPrompt(t, prev.value, ctx.data);
  }
}
