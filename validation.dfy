// The task check of the POST /api/v1/alert handler (main.go:78-85).
module Validation {
  import opened Types

  /** The rejection condition of main.go:79. Go binds && tighter than ||,
      so the three empty-field tests form one group (the parentheses Dafny
      asks for) and each destination bound is a separate alternative. */
  predicate IsInvalidTask(t: AlertTask)
  {
    (t.recipient.pushover == "" && t.recipient.webhook == "" && t.recipient.email == "")
      || t.destination > 3 || t.destination < 1
  }

  /** At least one channel address is set. */
  predicate HasRecipient(r: Recipient)
  {
    r.pushover != "" || r.webhook != "" || r.email != ""
  }

  /** Every task of a batch passes the check. */
  predicate AllValid(tasks: seq<AlertTask>)
  {
    forall i :: 0 <= i < |tasks| ==> !IsInvalidTask(tasks[i])
  }

  /** A task is accepted exactly when some address is set and the selector
      is one of 1, 2, 3. */
  lemma AcceptedIff(t: AlertTask)
    ensures !IsInvalidTask(t) <==> HasRecipient(t.recipient) && 1 <= t.destination <= 3
  {
  }

  /** The check never compares the selector with the field that is set: an
      e-mail-only recipient with selector 3, or a pushover-only recipient
      with selector 1, is accepted like any other. */
  lemma DestinationNotMatchedToRecipient(w: Website, address: string, d: int)
    requires address != "" && 1 <= d <= 3
    ensures !IsInvalidTask(AlertTask(w, Recipient("", "", address), d))
    ensures !IsInvalidTask(AlertTask(w, Recipient(address, "", ""), d))
    ensures !IsInvalidTask(AlertTask(w, Recipient("", address, ""), d))
  {
  }

  /** The first loop of the handler (main.go:78-85): scan the batch in order
      and stop at the first task that fails the check. None means the whole
      batch passed; Some(i) names the first failing task. */
  method FindInvalidTask(tasks: seq<AlertTask>) returns (r: Option<nat>)
    ensures r.None? <==> AllValid(tasks)
    ensures r.Some? ==> r.value < |tasks| && IsInvalidTask(tasks[r.value])
    ensures r.Some? ==> AllValid(tasks[..r.value])
  {
    var i := 0;
    while i < |tasks|
      invariant 0 <= i <= |tasks|
      invariant AllValid(tasks[..i])
    {
      if IsInvalidTask(tasks[i]) {
        return Some(i);
      }
      i := i + 1;
    }
    assert tasks[..i] == tasks;
    return None;
  }
}
