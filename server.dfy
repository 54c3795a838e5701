// The package-level state of main.go and the two operations on it that carry
// logic: the POST /api/v1/alert handler (main.go:58-94) and one scrape cycle
// (searchPi, main.go:117-142, with scheduleUpdates, main.go:144-156).
// The website registry, the alert registry and the delivery queue are
// packages whose code is not part of this model. The server records, in
// order, the calls main.go makes into them from the handler and from a cycle,
// except the alert registry's LoadAlerts, whose answers are the parameter
// lookup; the start-up calls websites.Init and messaging.Init are not
// recorded either.
module PiStock {
  import opened Types
  import opened Validation
  import opened Notify

  /** A call from main.go into one of the packages it drives. */
  datatype Call =
    | LoadWebsites                         // websites.Load()
    | RunAdaptors                          // every adaptor's Run, then every adaptor's Wait
    | CheckForChanges                      // websites.CheckForChanges()
    | AddAlert(url: string, task: Task)    // alertManager.AddAlert(url, task)
    | AddToQueue(tasks: seq<AlertTask>)    // messaging.AddToQueue(tasks)
    | SaveWebsites                         // websites.Save()

  /** The handler's answer: accepted, or a 400 with its message. */
  datatype Response = Accepted | Rejected(msg: string)

  const InvalidTaskMessage: string := "invalid task structure"

  /** The registrations the second loop of the handler makes (main.go:87-89):
      one per task, in batch order, under the task's page URL, carrying the
      task's recipient and selector unchanged. */
  function AddAlertCalls(tasks: seq<AlertTask>): (r: seq<Call>)
    ensures |r| == |tasks|
    ensures forall i :: 0 <= i < |tasks| ==>
      r[i].AddAlert? && r[i].url == tasks[i].website.url &&
      r[i].task.recipient == tasks[i].recipient && r[i].task.destination == tasks[i].destination
  {
    if tasks == [] then []
    else
      var t := tasks[|tasks| - 1];
      AddAlertCalls(tasks[..|tasks| - 1]) + [AddAlert(t.website.url, Task(t.recipient, t.destination))]
  }

  /** The task lists handed to the delivery queue, one per AddToQueue call,
      in call order. */
  function Submissions(calls: seq<Call>): seq<seq<AlertTask>>
  {
    if calls == [] then []
    else
      var rest := Submissions(calls[..|calls| - 1]);
      match calls[|calls| - 1]
      case AddToQueue(tasks) => rest + [tasks]
      case _ => rest
  }

  lemma {:induction false} SubmissionsAppend(a: seq<Call>, b: seq<Call>)
    ensures Submissions(a + b) == Submissions(a) + Submissions(b)
  {
    if b == [] {
      assert a + b == a;
    } else {
      assert (a + b)[..|a + b| - 1] == a + b[..|b| - 1];
      SubmissionsAppend(a, b[..|b| - 1]);
    }
  }

  /** The calls one scrape cycle makes (main.go:117-142), given whether it is
      the first cycle, what CheckForChanges would answer, and what the alert
      registry holds. */
  function CycleCalls(firstRun: bool, detected: seq<Website>, lookup: AlertLookup): seq<Call>
  {
    var notify := if !firstRun && detected != [] then [AddToQueue(FanOut(detected, lookup))] else [];
    var check := if firstRun then [] else [CheckForChanges] + notify;
    [LoadWebsites, RunAdaptors] + check + [SaveWebsites]
  }

  /** What a scrape cycle promises about its calls. */
  lemma CycleOrder(firstRun: bool, detected: seq<Website>, lookup: AlertLookup)
    ensures var r := CycleCalls(firstRun, detected, lookup);
      // the registry is loaded and every adaptor has finished before anything else
      && |r| >= 3 && r[0] == LoadWebsites && r[1] == RunAdaptors
      // the registry is saved on every path, once, as the last step
      && r[|r| - 1] == SaveWebsites && SaveWebsites !in r[..|r| - 1]
      // changes are looked for exactly on the later cycles, after the scrape
      && (CheckForChanges in r <==> !firstRun)
      && (!firstRun ==> r[2] == CheckForChanges)
      && (forall k :: 0 <= k < |r| && r[k] == CheckForChanges ==> k == 2)
      // a queue submission comes right after the change check and right before the save
      && (forall k :: 0 <= k < |r| && r[k].AddToQueue? ==> !firstRun && k == 3 && |r| == 5)
      // nothing is registered during a cycle
      && (forall k :: 0 <= k < |r| ==> !r[k].AddAlert?)
  {
    var r := CycleCalls(firstRun, detected, lookup);
    if firstRun {
      assert r == [LoadWebsites, RunAdaptors, SaveWebsites];
    } else if detected == [] {
      assert r == [LoadWebsites, RunAdaptors, CheckForChanges, SaveWebsites];
    } else {
      assert r == [LoadWebsites, RunAdaptors, CheckForChanges, AddToQueue(FanOut(detected, lookup)), SaveWebsites];
    }
  }

  /** A cycle submits to the delivery queue once, with the whole fan-out of
      the changed pages, exactly when it is a later cycle that found
      changes; otherwise it submits nothing. */
  lemma CycleNotifies(firstRun: bool, detected: seq<Website>, lookup: AlertLookup)
    ensures Submissions(CycleCalls(firstRun, detected, lookup)) ==
      if !firstRun && detected != [] then [FanOut(detected, lookup)] else []
  {
    var notify := if !firstRun && detected != [] then [AddToQueue(FanOut(detected, lookup))] else [];
    var check := if firstRun then [] else [CheckForChanges] + notify;
    SubmissionsAppend([LoadWebsites, RunAdaptors] + check, [SaveWebsites]);
    SubmissionsAppend([LoadWebsites, RunAdaptors], check);
    SubmissionsAppend([LoadWebsites], [RunAdaptors]);
    if !firstRun {
      SubmissionsAppend([CheckForChanges], notify);
    }
  }

  /** The process-wide state of main.go: the website registry, the alert
      registry and the delivery queue, seen through the calls made to them. */
  class Server {
    var calls: seq<Call>

    /** Start-up: the package variables are created, nothing has been called. */
    constructor ()
      ensures calls == []
    {
      calls := [];
    }

    /** POST /api/v1/alert after the body has been parsed (main.go:70-93).
        captchaError is what the reCAPTCHA check answered (None: passed).
        The batch is all-or-nothing: every task is checked before any is
        registered, and one failing task rejects the whole batch. */
    method PostAlert(tasks: seq<AlertTask>, captchaError: Option<string>) returns (resp: Response)
      modifies this
      ensures captchaError.Some? ==> resp == Rejected(captchaError.value) && calls == old(calls)
      ensures captchaError.None? && !AllValid(tasks) ==>
        resp == Rejected(InvalidTaskMessage) && calls == old(calls)
      ensures captchaError.None? && AllValid(tasks) ==>
        resp == Accepted && calls == old(calls) + AddAlertCalls(tasks)
    {
      if captchaError.Some? {
        return Rejected(captchaError.value);
      }
      var bad := FindInvalidTask(tasks);
      if bad.Some? {
        return Rejected(InvalidTaskMessage);
      }
      var i := 0;
      while i < |tasks|
        invariant 0 <= i <= |tasks|
        invariant calls == old(calls) + AddAlertCalls(tasks[..i])
      {
        var t := tasks[i];
        calls := calls + [AddAlert(t.website.url, Task(t.recipient, t.destination))];
        assert tasks[..i + 1][..i] == tasks[..i];
        i := i + 1;
      }
      assert tasks[..i] == tasks;
      return Accepted;
    }

    /** scheduleUpdates (main.go:144-156): build the fan-out for the changed
        pages and hand all of it to the delivery queue in one call. */
    method ScheduleUpdates(changed: seq<Website>, lookup: AlertLookup)
      modifies this
      ensures calls == old(calls) + [AddToQueue(FanOut(changed, lookup))]
    {
      var tasks := CollectTasks(changed, lookup);
      calls := calls + [AddToQueue(tasks)];
    }

    /** searchPi (main.go:117-142). detected is what CheckForChanges answers
        after this cycle's scrape; it is asked only when firstRun is false. */
    method SearchPi(firstRun: bool, detected: seq<Website>, lookup: AlertLookup)
      modifies this
      ensures calls == old(calls) + CycleCalls(firstRun, detected, lookup)
    {
      calls := calls + [LoadWebsites];
      calls := calls + [RunAdaptors];
      if !firstRun {
        calls := calls + [CheckForChanges];
        var changes := detected;
        if |changes| > 0 {
          ScheduleUpdates(changes, lookup);
        }
      }
      calls := calls + [SaveWebsites];
    }
  }

  /** A page that comes back in stock with one e-mail subscriber (selector 1)
      leads to exactly one queue submission holding exactly one task for
      that subscriber. */
  lemma SingleSubscriberCycle(w: Website, lookup: AlertLookup)
    requires lookup(w.url) == [Task(Recipient("", "", "a@b.com"), 1)]
    ensures Submissions(CycleCalls(false, [w], lookup)) == [[AlertTask(w, Recipient("", "", "a@b.com"), 1)]]
  {
    assert [w][..0] == [];
    var e := Expand(w, lookup(w.url));
    assert |e| == 1 && e[0] == AlertTask(w, Recipient("", "", "a@b.com"), 1);
    assert FanOut([w], lookup) == e == [AlertTask(w, Recipient("", "", "a@b.com"), 1)];
    CycleNotifies(false, [w], lookup);
  }
}
