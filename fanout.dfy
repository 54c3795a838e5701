// The list that scheduleUpdates (main.go:144-156) hands to the delivery
// queue: for every changed page, in order, one queued task per alert that
// the registry holds for the page's URL, in the registry's order.
module Notify {
  import opened Types

  /** The queued task that one registered alert yields for a changed page:
      the page itself with the alert's recipient and selector (main.go:150). */
  function Queued(w: Website, t: Task): AlertTask
  {
    AlertTask(w, t.recipient, t.destination)
  }

  /** The queued tasks for one page, one per registered alert, in order. */
  function Expand(w: Website, alerts: seq<Task>): (r: seq<AlertTask>)
    ensures |r| == |alerts|
    ensures forall j :: 0 <= j < |alerts| ==> r[j] == Queued(w, alerts[j])
  {
    if alerts == [] then []
    else Expand(w, alerts[..|alerts| - 1]) + [Queued(w, alerts[|alerts| - 1])]
  }

  /** The queued tasks for a list of changed pages: the pages' expansions,
      concatenated in page order. */
  function FanOut(ws: seq<Website>, lookup: AlertLookup): seq<AlertTask>
  {
    if ws == [] then []
    else FanOut(ws[..|ws| - 1], lookup) + Expand(ws[|ws| - 1], lookup(ws[|ws| - 1].url))
  }

  /** The number of alerts registered for the pages, summed over the list. */
  function TotalAlerts(ws: seq<Website>, lookup: AlertLookup): nat
  {
    if ws == [] then 0
    else TotalAlerts(ws[..|ws| - 1], lookup) + |lookup(ws[|ws| - 1].url)|
  }

  /** The tasks for page i start at this position of the fan-out. */
  function Offset(ws: seq<Website>, lookup: AlertLookup, i: nat): nat
    requires i <= |ws|
  {
    TotalAlerts(ws[..i], lookup)
  }

  /** Nothing is filtered and nothing is merged: the fan-out has exactly as
      many entries as there are registered alerts for the changed pages. */
  lemma {:induction false} FanOutLength(ws: seq<Website>, lookup: AlertLookup)
    ensures |FanOut(ws, lookup)| == TotalAlerts(ws, lookup)
  {
    if ws != [] {
      FanOutLength(ws[..|ws| - 1], lookup);
    }
  }

  /** Fanning out two lists of pages one after the other gives the two
      results one after the other. */
  lemma {:induction false} FanOutAppend(a: seq<Website>, b: seq<Website>, lookup: AlertLookup)
    ensures FanOut(a + b, lookup) == FanOut(a, lookup) + FanOut(b, lookup)
  {
    if b == [] {
      assert a + b == a;
    } else {
      var b' := b[..|b| - 1];
      assert (a + b)[..|a + b| - 1] == a + b';
      FanOutAppend(a, b', lookup);
    }
  }

  /** Alert counts add up over concatenated page lists. */
  lemma {:induction false} TotalAlertsAppend(a: seq<Website>, b: seq<Website>, lookup: AlertLookup)
    ensures TotalAlerts(a + b, lookup) == TotalAlerts(a, lookup) + TotalAlerts(b, lookup)
  {
    if b == [] {
      assert a + b == a;
    } else {
      var b' := b[..|b| - 1];
      assert (a + b)[..|a + b| - 1] == a + b';
      TotalAlertsAppend(a, b', lookup);
    }
  }

  /** Where the j-th alert of page i ends up: at Offset(i) + j, carrying
      page i itself and that alert's recipient and selector unchanged. */
  lemma {:induction false} FanOutAt(ws: seq<Website>, lookup: AlertLookup, i: nat, j: nat)
    requires i < |ws| && j < |lookup(ws[i].url)|
    ensures Offset(ws, lookup, i) + j < |FanOut(ws, lookup)|
    ensures FanOut(ws, lookup)[Offset(ws, lookup, i) + j] == Queued(ws[i], lookup(ws[i].url)[j])
  {
    var n := |ws| - 1;
    var pre := ws[..n];
    FanOutLength(pre, lookup);
    if i < n {
      FanOutAt(pre, lookup, i, j);
      assert pre[..i] == ws[..i];
    }
  }

  /** Every entry of the fan-out comes from some alert of some page: entry
      k is the j-th alert of page i, with k == Offset(i) + j. */
  lemma {:induction false} FanOutOrigin(ws: seq<Website>, lookup: AlertLookup, k: nat) returns (i: nat, j: nat)
    requires k < |FanOut(ws, lookup)|
    ensures i < |ws| && j < |lookup(ws[i].url)|
    ensures k == Offset(ws, lookup, i) + j
    ensures FanOut(ws, lookup)[k] == Queued(ws[i], lookup(ws[i].url)[j])
  {
    var n := |ws| - 1;
    var pre := ws[..n];
    FanOutLength(pre, lookup);
    if k < |FanOut(pre, lookup)| {
      i, j := FanOutOrigin(pre, lookup, k);
      assert pre[..i] == ws[..i];
    } else {
      i, j := n, k - |FanOut(pre, lookup)|;
    }
  }

  /** The fan-out is ordered by page first and by alert within a page: an
      alert of an earlier page, or an earlier alert of the same page, comes
      first. */
  lemma FanOutOrdered(ws: seq<Website>, lookup: AlertLookup, i1: nat, j1: nat, i2: nat, j2: nat)
    requires i1 < |ws| && j1 < |lookup(ws[i1].url)|
    requires i2 < |ws| && j2 < |lookup(ws[i2].url)|
    requires i1 < i2 || (i1 == i2 && j1 < j2)
    ensures Offset(ws, lookup, i1) + j1 < Offset(ws, lookup, i2) + j2
  {
    if i1 < i2 {
      assert ws[..i2] == ws[..i1 + 1] + ws[i1 + 1..i2];
      TotalAlertsAppend(ws[..i1 + 1], ws[i1 + 1..i2], lookup);
      assert ws[..i1 + 1][..i1] == ws[..i1];
    }
  }

  /** No de-duplication: an alert registered twice for one page is queued
      twice, at two different positions. */
  lemma FanOutKeepsDuplicates(ws: seq<Website>, lookup: AlertLookup, i: nat, j1: nat, j2: nat) returns (k1: nat, k2: nat)
    requires i < |ws| && j1 < j2 < |lookup(ws[i].url)|
    requires lookup(ws[i].url)[j1] == lookup(ws[i].url)[j2]
    ensures k1 < k2 < |FanOut(ws, lookup)|
    ensures FanOut(ws, lookup)[k1] == FanOut(ws, lookup)[k2] == Queued(ws[i], lookup(ws[i].url)[j1])
  {
    FanOutAt(ws, lookup, i, j1);
    FanOutAt(ws, lookup, i, j2);
    k1, k2 := Offset(ws, lookup, i) + j1, Offset(ws, lookup, i) + j2;
  }

  /** The nested loops of scheduleUpdates (main.go:145-153): for each changed
      page ask the registry for its alerts and append one queued task per
      alert. */
  method CollectTasks(changed: seq<Website>, lookup: AlertLookup) returns (tasks: seq<AlertTask>)
    ensures tasks == FanOut(changed, lookup)
  {
    tasks := [];
    var i := 0;
    while i < |changed|
      invariant 0 <= i <= |changed|
      invariant tasks == FanOut(changed[..i], lookup)
    {
      var w := changed[i];
      var alerts := lookup(w.url);
      var j := 0;
      while j < |alerts|
        invariant 0 <= j <= |alerts|
        invariant tasks == FanOut(changed[..i], lookup) + Expand(w, alerts[..j])
      {
        tasks := tasks + [Queued(w, alerts[j])];
        assert alerts[..j + 1][..j] == alerts[..j];
        j := j + 1;
      }
      assert alerts[..j] == alerts;
      assert changed[..i + 1][..i] == changed[..i];
      i := i + 1;
    }
    assert changed[..i] == changed;
  }
}
