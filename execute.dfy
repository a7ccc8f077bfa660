/**
 * `Remnawave.execute`: read the credentials once, then handle the input records one at a time,
 * in order, appending one output record per input. The first error ends the whole batch.
 */
module RemnawaveExecute {
  import opened Wrappers
  import opened JsonValue
  import opened RemnawaveHost
  import opened RemnawavePlanner
  import opened RemnawaveDispatch

  /** What ends a batch early. */
  datatype Abort =
    | Uncaught(error: Thrown)     // reading `action` failed; that read is outside the try
    | Rethrown(message: string)   // the error the catch block throws
    | ResponseTypeError           // `response.response` on a null `getHWID` reply

  datatype Outcome = Emit(json: Json) | Stop(reason: Abort)

  /** One record's effect: the request it handed to the transport, if any, and its outcome. */
  datatype Step = Step(request: Option<Request>, outcome: Outcome)

  /** The state of a batch: the records pushed so far, every request sent, and the error that ended it. */
  datatype Batch = Batch(output: seq<Json>, sent: seq<Request>, abort: Option<Abort>)

  /** The batch-wide configuration: the trimmed base URL and the header object. */
  datatype Context = Context(apiUrl: string, headers: map<string, string>)

  function Connect(creds: Credentials): Context
  {
    Context(TrimTrailingSlashes(creds.url), Headers(creds.apiKey))
  }

  /**
   * One iteration of the loop. Only a recognised action with a complete plan reaches the transport,
   * always with the batch's headers; a record is emitted only from a successful reply.
   */
  function ExecuteItem(ctx: Context, host: Host, item: Item, history: seq<Request>): (s: Step)
    ensures s.request.Some? ==> s.request.value.headers == ctx.headers
    ensures s.request.Some? ==> "action" in item.params && !ParseAction(item.params["action"]).Unknown?
    ensures s.outcome.Emit? ==> s.request.Some? && host.transport(history, s.request.value).Ok?
    ensures "action" !in item.params ==> s == Step(None, Stop(Uncaught(Untagged(host.missingParameter("action")))))
    ensures "action" in item.params ==>
      var action := ParseAction(item.params["action"]);
      var planned := Plan(host, ctx.apiUrl, ctx.headers, action, item);
      && (s.request.Some? <==> planned.request.Ok?)
      && (planned.request.Ok? ==> s.request.value == planned.request.value)
      && (planned.request.Err? ==>
            s.outcome == Stop(Rethrown(ErrorMessage(host, action, planned.request.error, planned.locals))))
    ensures "action" in item.params ==>
      var action := ParseAction(item.params["action"]);
      var planned := Plan(host, ctx.apiUrl, ctx.headers, action, item);
      planned.request.Ok? ==>
        var reply := host.transport(history, planned.request.value);
        && (reply.Err? ==> s.outcome == Stop(Rethrown(ErrorMessage(host, action, reply.error, planned.locals))))
        && (reply.Ok? ==> (s.outcome.Emit? <==> Normalize(action, reply.value).Some?))
        && (reply.Ok? && s.outcome.Emit? ==> s.outcome.json == Normalize(action, reply.value).value)
        && (reply.Ok? && s.outcome.Stop? ==> s.outcome.reason == ResponseTypeError)
  {
    match Param(host, item, "action")
    case Err(e) => Step(None, Stop(Uncaught(e)))
    case Ok(name) =>
      var action := ParseAction(name);
      var planned := Plan(host, ctx.apiUrl, ctx.headers, action, item);
      match planned.request
      case Err(e) => Step(None, Stop(Rethrown(ErrorMessage(host, action, e, planned.locals))))
      case Ok(request) =>
        match host.transport(history, request)
        case Err(e) => Step(Some(request), Stop(Rethrown(ErrorMessage(host, action, e, planned.locals))))
        case Ok(response) =>
          match Normalize(action, response)
          case None => Step(Some(request), Stop(ResponseTypeError))
          case Some(json) => Step(Some(request), Emit(json))
  }

  /** The batch after the records of `items`, processed in order; nothing runs after the first error. */
  function Run(ctx: Context, host: Host, items: seq<Item>): (b: Batch)
    ensures |b.output| <= |items| && |b.sent| <= |items|
    ensures b.abort.None? ==> |b.output| == |items|
    ensures forall k | 0 <= k < |b.sent| :: b.sent[k].headers == ctx.headers
    decreases |items|
  {
    if items == [] then Batch([], [], None)
    else
      var b := Run(ctx, host, items[..|items| - 1]);
      if b.abort.Some? then b else Extend(b, ExecuteItem(ctx, host, items[|items| - 1], b.sent))
  }

  /** The batch after one more record: its request is logged, and its record pushed or its error kept. */
  function Extend(b: Batch, step: Step): (b': Batch)
    ensures b'.sent == b.sent + (if step.request.Some? then [step.request.value] else [])
    ensures b'.output == b.output + (if step.outcome.Emit? then [step.outcome.json] else [])
    ensures b'.abort == (if step.outcome.Stop? then Some(step.outcome.reason) else None)
  {
    var sent := if step.request.Some? then b.sent + [step.request.value] else b.sent;
    match step.outcome
    case Emit(json) => Batch(b.output + [json], sent, None)
    case Stop(reason) => Batch(b.output, sent, Some(reason))
  }

  /** Run over one more record, read from the prefix before it. */
  lemma RunExtends(ctx: Context, host: Host, items: seq<Item>, i: nat)
    requires i < |items| && Run(ctx, host, items[..i]).abort.None?
    ensures var b := Run(ctx, host, items[..i]);
      Run(ctx, host, items[..i + 1]) == Extend(b, ExecuteItem(ctx, host, items[i], b.sent))
  {
    assert items[..i + 1][..i] == items[..i];
  }

  /** Once a prefix of the batch has failed, the rest of the records change nothing. */
  lemma {:induction false} RunAbortPersists(ctx: Context, host: Host, items: seq<Item>, i: nat)
    requires i <= |items|
    requires Run(ctx, host, items[..i]).abort.Some?
    ensures Run(ctx, host, items) == Run(ctx, host, items[..i])
    decreases |items| - i
  {
    if i < |items| {
      assert items[..i + 1][..i] == items[..i];
      RunAbortPersists(ctx, host, items, i + 1);
    } else {
      assert items[..i] == items;
    }
  }

  /**
   * A batch that completes has one output record per input record, in input order: record k is
   * what input k emits given the requests sent before it.
   */
  lemma {:induction false} RunInOrder(ctx: Context, host: Host, items: seq<Item>)
    requires Run(ctx, host, items).abort.None?
    ensures |Run(ctx, host, items).output| == |items|
    ensures forall k | 0 <= k < |items| ::
      ExecuteItem(ctx, host, items[k], Run(ctx, host, items[..k]).sent).outcome == Emit(Run(ctx, host, items).output[k])
  {
    if items != [] {
      var n := |items| - 1;
      var init := items[..n];
      var b := Run(ctx, host, init);
      assert b.abort.None?;
      RunInOrder(ctx, host, init);
      var step := ExecuteItem(ctx, host, items[n], b.sent);
      RunExtends(ctx, host, items, n);
      assert items[..n + 1] == items;
      var out := Run(ctx, host, items).output;
      assert step.outcome.Emit? && out == b.output + [step.outcome.json];
      forall k | 0 <= k < |items|
        ensures ExecuteItem(ctx, host, items[k], Run(ctx, host, items[..k]).sent).outcome == Emit(out[k])
      {
        if k < n {
          assert init[k] == items[k] && init[..k] == items[..k] && out[k] == b.output[k];
        } else {
          assert items[..k] == init;
        }
      }
    }
  }

  /** A record with an unrecognised action sends nothing and throws "API Error: Unknown action: ...". */
  lemma UnknownActionSendsNothing(ctx: Context, host: Host, item: Item, history: seq<Request>)
    requires "action" in item.params && ParseAction(item.params["action"]).Unknown?
    ensures ExecuteItem(ctx, host, item, history)
         == Step(None, Stop(Rethrown(ApiErrorPrefix + "Unknown action: " + Text(host, item.params["action"]))))
  {
    var name := item.params["action"];
    var action := ParseAction(name);
    var e := NodeError("Unknown action: " + Text(host, name));
    assert |e.message| > 0 && Detail(e) == e.message;
    var planned := Plan(host, ctx.apiUrl, ctx.headers, action, item);
    assert planned.request == Err(e);
    assert ErrorMessage(host, action, e, planned.locals) == ApiErrorPrefix + e.message;
    assert ApiErrorPrefix + e.message == ApiErrorPrefix + "Unknown action: " + Text(host, name);
    assert Param(host, item, "action") == Ok(name);
    assert ExecuteItem(ctx, host, item, history) == Step(None, Stop(Rethrown(ErrorMessage(host, action, e, planned.locals))));
  }

  /**
   * A recognised action whose record lacks a parameter it reads, or whose `updateFields` text does
   * not parse, sends nothing and throws "API Error: " and the host's message, whatever the action:
   * neither error carries a status code, so none is reported as a missing user.
   */
  lemma InvalidInputSendsNothing(ctx: Context, host: Host, item: Item, history: seq<Request>)
    requires "action" in item.params && !ParseAction(item.params["action"]).Unknown?
    ensures var action := ParseAction(item.params["action"]);
      var s := ExecuteItem(ctx, host, item, history);
      match FirstMissing(RequiredParameters(action), item)
      case Some(name) =>
        s == Step(None, Stop(Rethrown(ApiErrorPrefix + Detail(Untagged(host.missingParameter(name))))))
      case None =>
        SendsFields(action) && ParsedFields(host, item).Err? ==>
          s == Step(None, Stop(Rethrown(ApiErrorPrefix + Detail(ParsedFields(host, item).error))))
  {
  }

  /** An unrecognised action ends the batch at its record, and the transport never sees a request for it. */
  lemma UnknownActionStopsBatch(ctx: Context, host: Host, items: seq<Item>, k: nat)
    requires k < |items| && Run(ctx, host, items[..k]).abort.None?
    requires "action" in items[k].params && ParseAction(items[k].params["action"]).Unknown?
    ensures Run(ctx, host, items).sent == Run(ctx, host, items[..k]).sent
    ensures Run(ctx, host, items).abort
         == Some(Rethrown(ApiErrorPrefix + "Unknown action: " + Text(host, items[k].params["action"])))
  {
    UnknownActionSendsNothing(ctx, host, items[k], Run(ctx, host, items[..k]).sent);
    RunExtends(ctx, host, items, k);
    RunAbortPersists(ctx, host, items, k + 1);
  }

  /**
   * The body of one loop iteration, the `try`/`catch` around the transport call: the request it
   * hands to the transport, if any, and the record it pushes or the error that ends the batch.
   */
  method ProcessRecord(ctx: Context, host: Host, item: Item, history: seq<Request>) returns (request: Option<Request>, outcome: Outcome)
    ensures Step(request, outcome) == ExecuteItem(ctx, host, item, history)
  {
    request := None;
    var actionParam := Param(host, item, "action");
    if actionParam.Err? {
      outcome := Stop(Uncaught(actionParam.error));
      return;
    }
    var action := ParseAction(actionParam.value);
    var planned := Plan(host, ctx.apiUrl, ctx.headers, action, item);
    if planned.request.Err? {
      outcome := Stop(Rethrown(ErrorMessage(host, action, planned.request.error, planned.locals)));
      return;
    }
    request := Some(planned.request.value);
    var reply := host.transport(history, planned.request.value);
    if reply.Err? {
      outcome := Stop(Rethrown(ErrorMessage(host, action, reply.error, planned.locals)));
      return;
    }
    var record := Normalize(action, reply.value);
    if record.None? {
      outcome := Stop(ResponseTypeError);
      return;
    }
    outcome := Emit(record.value);
  }

  /**
   * The loop of `execute`: the output is Run's records when no record failed, and otherwise the
   * error of the first record that failed; `sent` lists the requests handed to the transport.
   */
  method Execute(creds: Credentials, host: Host, items: seq<Item>) returns (result: Result<seq<Json>, Abort>, sent: seq<Request>)
    ensures var b := Run(Connect(creds), host, items);
      && sent == b.sent
      && result == (if b.abort.Some? then Err(b.abort.value) else Ok(b.output))
  {
    var ctx := Connect(creds);
    var returnData: seq<Json> := [];
    sent := [];
    var i := 0;
    while i < |items|
      invariant 0 <= i <= |items|
      invariant Run(ctx, host, items[..i]) == Batch(returnData, sent, None)
    {
      RunExtends(ctx, host, items, i);
      var request, outcome := ProcessRecord(ctx, host, items[i], sent);
      if request.Some? {
        sent := sent + [request.value];
      }
      if outcome.Stop? {
        result := Err(outcome.reason);
        RunAbortPersists(ctx, host, items, i + 1);
        return;
      }
      returnData := returnData + [outcome.json];
      i := i + 1;
    }
    assert items[..i] == items;
    result := Ok(returnData);
  }
}
