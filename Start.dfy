/** The handlers of `handlers/start.py`: the `/start` command and the "start survey" button. */
module Start {
  import opened Wrappers
  import opened PyText
  import opened SurveyStates
  import opened Settings
  import opened I18n
  import opened Keyboards
  import opened Fsm
  import opened Survey

  /** A message is the `/start` command when its first word is exactly `/start`; any payload
      after it is accepted. */
  predicate IsStart(text: string)
  {
    |Words(text)| > 0 && Words(text)[0] == "/start"
  }

  /** `/start`, with or without a deep-link payload, is the start command. */
  lemma StartWithPayload(payload: string)
    requires payload == [] || IsSpace(payload[0])
    ensures IsStart("/start" + payload)
  {
    assert NoSpace("/start") by {
      forall i | 0 <= i < |"/start"| ensures !IsSpace("/start"[i]) { }
    }
    WordsCons("/start", payload);
  }

  /** `cmd_start`: forget any survey in progress and show the welcome text with the main menu. */
  method CmdStart(limits: Limits, ctx: FsmContext, t: Translator) returns (reply: Reply)
    modifies ctx
    ensures ctx.state == None && ctx.data == map[]
    ensures reply == Reply(None, T(t, "welcome", []), MainMenuKb(t))
    ensures WellFormed(limits, ctx.state, ctx.data)
  {
    ctx.Clear();
    reply := Reply(None, T(t, "welcome", []), MainMenuKb(t));
  }

  /** `start_survey`: the message is replaced by the first prompt with a one-step progress bar,
      and the state moves to the destination step. The stored data is not cleared, so answers
      of an earlier unfinished survey stay until they are overwritten. */
  method StartSurvey(limits: Limits, ctx: FsmContext, t: Translator) returns (reply: Reply)
    requires WellFormed(limits, ctx.state, ctx.data)
    modifies ctx
    ensures ctx.state == Some(StateName(Destination)) && ctx.data == old(ctx.data)
    ensures reply == Reply(Some(Progress(1)), T(t, "start_survey", []), BackKb(t))
    ensures WellFormed(limits, ctx.state, ctx.data)
  {
    reply := Reply(Some(Progress(1)), T(t, "start_survey", []), BackKb(t));
    WellFormedAt(limits, Destination, ctx.data);
    ctx.SetState(Some(StateName(Destination)));
  }
}
