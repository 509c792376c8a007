/** What a Provider's events amount to: one complete answer, one Tool call, or the first fault found in them. */
module KernelAnswer {
  import opened Prelude
  import opened Strings
  import opened KernelModel
  import opened KernelPlan

  datatype ProviderEvent = Text(delta: string) | Call(call: nat) | Done(usage: UsageRecord)

  datatype Fault =
    | NoEvents | TextAfterCompletion | EmptyDelta | OutputTooLong | CallAfterCompletion | SecondCall
    | SecondCompletion | CompletionNotLast | NoCompletion | EmptyOutput

  /** How the fault is worded when it blocks the Turn. */
  function Wording(fault: Fault): string {
    match fault
    case NoEvents => "provider emitted no events"
    case TextAfterCompletion => "provider emitted text after completion"
    case EmptyDelta => "provider emitted an empty text delta"
    case OutputTooLong => "provider output exceeds the frozen Config Epoch limit"
    case CallAfterCompletion => "provider emitted a Tool call after completion"
    case SecondCall => "provider emitted more than one Tool call"
    case SecondCompletion => "provider emitted completion more than once"
    case CompletionNotLast => "provider completion must be the final event"
    case NoCompletion => "provider did not emit completion"
    case EmptyOutput => "provider output cannot be empty"
  }

  datatype Answered = Output(deltas: seq<string>, usage: UsageRecord) | ToolCall(deltas: seq<string>, call: nat, usage: UsageRecord)

  /** What has been gathered from the events so far. */
  datatype Gathered = Gathered(deltas: seq<string>, call: Option<nat>, usage: Option<UsageRecord>)

  function Gather(events: seq<ProviderEvent>, max: nat, i: nat): Result<Gathered, Fault>
    requires i <= |events|
  {
    if i == 0 then Ok(Gathered([], None, None))
    else
      var g :- Gather(events, max, i - 1);
      match events[i - 1]
      case Text(delta) =>
        if g.usage.Some? then Err(TextAfterCompletion)
        else if delta == "" then Err(EmptyDelta)
        else if Utf8Length(Joined(g.deltas)) + Utf8Length(delta) > max then Err(OutputTooLong)
        else Ok(g.(deltas := g.deltas + [delta]))
      case Call(call) =>
        if g.usage.Some? then Err(CallAfterCompletion)
        else if g.call.Some? then Err(SecondCall)
        else Ok(g.(call := Some(call)))
      case Done(usage) =>
        if g.usage.Some? then Err(SecondCompletion)
        else if i != |events| then Err(CompletionNotLast)
        else Ok(g.(usage := Some(usage)))
  }

  function Conclude(g: Gathered): Result<Answered, Fault> {
    if g.usage.None? then Err(NoCompletion)
    else if g.call.None? && Blank(Joined(g.deltas)) then Err(EmptyOutput)
    else if g.call.Some? then Ok(ToolCall(g.deltas, g.call.value, g.usage.value))
    else Ok(Output(g.deltas, g.usage.value))
  }

  function Interpret(events: seq<ProviderEvent>, max: nat): Result<Answered, Fault> {
    if |events| == 0 then Err(NoEvents)
    else
      var g :- Gather(events, max, |events|);
      Conclude(g)
  }

  lemma {:induction false} GatherFails(events: seq<ProviderEvent>, max: nat, i: nat, j: nat)
    requires i <= j <= |events| && Gather(events, max, i).Err?
    ensures Gather(events, max, j) == Gather(events, max, i)
    decreases j
  {
    if i < j {
      GatherFails(events, max, i, j - 1);
    }
  }

  lemma NothingJoined()
    ensures Joined([]) == "" && Utf8Length("") == 0
  {
  }

  lemma JoinedMore(deltas: seq<string>, delta: string)
    ensures Joined(deltas + [delta]) == Joined(deltas) + delta
  {
    assert (deltas + [delta])[..|deltas|] == deltas;
  }

  /** The loop over the events, with the text so far kept beside its deltas. */
  method Validate(events: seq<ProviderEvent>, max: nat) returns (r: Result<Answered, Fault>)
    ensures r == Interpret(events, max)
  {
    hide Utf8Length, Blank;
    NothingJoined();
    hide Joined;
    if |events| == 0 {
      return Err(NoEvents);
    }
    var deltas: seq<string> := [];
    var text, length: nat := "", 0;
    var usage: Option<UsageRecord>, call: Option<nat> := None, None;
    for i := 0 to |events|
      invariant Gather(events, max, i) == Ok(Gathered(deltas, call, usage))
      invariant text == Joined(deltas) && length == Utf8Length(text)
    {
      if Gather(events, max, i + 1).Err? {
        GatherFails(events, max, i + 1, |events|);
      }
      match events[i]
      case Text(delta) =>
        if usage.Some? {
          return Err(TextAfterCompletion);
        }
        if delta == "" {
          return Err(EmptyDelta);
        }
        if length + Utf8Length(delta) > max {
          return Err(OutputTooLong);
        }
        JoinedMore(deltas, delta);
        Utf8Adds(text, delta);
        text, length, deltas := text + delta, length + Utf8Length(delta), deltas + [delta];
      case Call(next) =>
        if usage.Some? {
          return Err(CallAfterCompletion);
        }
        if call.Some? {
          return Err(SecondCall);
        }
        call := Some(next);
      case Done(record) =>
        if usage.Some? {
          return Err(SecondCompletion);
        }
        if i + 1 != |events| {
          return Err(CompletionNotLast);
        }
        usage := Some(record);
    }
    if usage.None? {
      return Err(NoCompletion);
    }
    if call.None? && Blank(text) {
      return Err(EmptyOutput);
    }
    r := if call.Some? then Ok(ToolCall(deltas, call.value, usage.value)) else Ok(Output(deltas, usage.value));
  }

  // ---------- which answers are accepted ----------

  /** The texts among the events, in order. */
  function Texts(events: seq<ProviderEvent>): seq<string> {
    if |events| == 0 then []
    else if events[|events| - 1].Text? then Texts(events[..|events| - 1]) + [events[|events| - 1].delta]
    else Texts(events[..|events| - 1])
  }

  function Calls(events: seq<ProviderEvent>): seq<nat> {
    if |events| == 0 then []
    else if events[|events| - 1].Call? then Calls(events[..|events| - 1]) + [events[|events| - 1].call]
    else Calls(events[..|events| - 1])
  }

  /** Before any completion: no empty text, at most one call, and not too much text. */
  ghost predicate Flowing(events: seq<ProviderEvent>, max: nat) {
    && (forall i :: 0 <= i < |events| ==> !events[i].Done? && (events[i].Text? ==> events[i].delta != ""))
    && |Calls(events)| <= 1 && Utf8Length(Joined(Texts(events))) <= max
  }

  /** What one more event must be for the flow to go on. */
  ghost predicate FlowsOn(before: seq<ProviderEvent>, last: ProviderEvent, max: nat) {
    match last
    case Text(delta) => delta != "" && Utf8Length(Joined(Texts(before))) + Utf8Length(delta) <= max
    case Call(_) => |Calls(before)| == 0
    case Done(_) => false
  }

  lemma ListsStep(before: seq<ProviderEvent>, last: ProviderEvent)
    ensures Texts(before + [last]) == if last.Text? then Texts(before) + [last.delta] else Texts(before)
    ensures Calls(before + [last]) == if last.Call? then Calls(before) + [last.call] else Calls(before)
  {
    var all := before + [last];
    assert all[..|all| - 1] == before && all[|all| - 1] == last;
  }

  lemma FlowStep(before: seq<ProviderEvent>, last: ProviderEvent, max: nat)
    ensures Flowing(before + [last], max) <==> Flowing(before, max) && FlowsOn(before, last, max)
    ensures Texts(before + [last]) == if last.Text? then Texts(before) + [last.delta] else Texts(before)
    ensures Calls(before + [last]) == if last.Call? then Calls(before) + [last.call] else Calls(before)
  {
    hide Utf8Length, Joined, Texts, Calls;
    ListsStep(before, last);
    var all := before + [last];
    assert all[|all| - 1] == last && forall i :: 0 <= i < |before| ==> all[i] == before[i];
    if last.Text? {
      JoinedMore(Texts(before), last.delta);
      Utf8Adds(Joined(Texts(before)), last.delta);
    }
  }

  lemma {:induction false} GatherFlows(events: seq<ProviderEvent>, max: nat, i: nat)
    requires i < |events|
    ensures Gather(events, max, i).Ok? <==> Flowing(events[..i], max)
    ensures Gather(events, max, i).Ok? ==>
              Gather(events, max, i).value
              == Gathered(Texts(events[..i]), if |Calls(events[..i])| > 0 then Some(Calls(events[..i])[0]) else None, None)
    decreases i
  {
    hide Utf8Length, Joined, Flowing, Texts, Calls;
    if i == 0 {
      NothingFlows(max);
      assert events[..0] == [];
    } else {
      GatherFlows(events, max, i - 1);
      FlowStep(events[..i - 1], events[i - 1], max);
      assert events[..i - 1] + [events[i - 1]] == events[..i];
    }
  }

  lemma NothingFlows(max: nat)
    ensures Flowing([], max) && Texts([]) == [] && Calls([]) == []
  {
  }

  /** Events are an answer exactly when they end in their only completion, before which no text is empty, at most one
      Tool is called and the text fits the frozen limit, and there is a call or something to read; and the answer is
      then their texts in order, their call and their usage. */
  lemma AnswerAccepted(events: seq<ProviderEvent>, max: nat)
    ensures var n := |events|;
            Interpret(events, max).Ok? <==>
              && n > 0 && events[n - 1].Done? && Flowing(events[..n - 1], max)
              && (|Calls(events[..n - 1])| > 0 || !Blank(Joined(Texts(events[..n - 1]))))
    ensures Interpret(events, max).Ok? ==>
              var before, usage := events[..|events| - 1], events[|events| - 1].usage;
              Interpret(events, max).value
              == if |Calls(before)| > 0 then ToolCall(Texts(before), Calls(before)[0], usage) else Output(Texts(before), usage)
  {
    hide Blank, Utf8Length, Joined, Texts, Calls, Flowing;
    if |events| > 0 {
      GatherFlows(events, max, |events| - 1);
    }
  }
}
