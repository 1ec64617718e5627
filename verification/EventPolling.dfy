/** What a client that feeds each page's next sequence number back into the next poll sees of the log. */
module EventPolling {
  import opened EventBroker

  /** How many events had been published when each poll was answered: never fewer than before. */
  predicate PollTimes(log: seq<Event>, after: nat, polls: seq<nat>)
    decreases |polls|
  {
    if polls == [] then after <= |log| else after <= polls[0] <= |log| && PollTimes(log, polls[0], polls[1..])
  }

  /** Everything the polls return, in order. */
  function Received(log: seq<Event>, after: nat, polls: seq<nat>): seq<Event>
    requires PollTimes(log, after, polls)
    decreases |polls|
  {
    if polls == [] then []
    else
      var page := PageOf(log[..polls[0]], after);
      page.events + Received(log, page.next, polls[1..])
  }

  predicate Contains(events: seq<Event>, sequence: nat)
  {
    exists i :: 0 <= i < |events| && events[i].sequence == sequence
  }

  /** The event was still among the last 256 at the first poll after it was published. */
  predicate Caught(after: nat, polls: seq<nat>, sequence: nat)
    decreases |polls|
  {
    polls != [] && if sequence <= polls[0] then after < sequence && polls[0] - sequence < MAX_BUFFERED_EVENTS
        else Caught(polls[0], polls[1..], sequence)
  }

  /** Events of the log from `after` on, in order and without repetition. */
  predicate InOrder(log: seq<Event>, events: seq<Event>, after: nat) {
    && (forall i ::
            0 <= i < |events| ==> after < events[i].sequence <= |log| && events[i] == log[events[i].sequence - 1])
    && (forall i, j :: 0 <= i < j < |events| ==> events[i].sequence < events[j].sequence)
  }

  lemma PageFacts(log: seq<Event>, after: nat, n: nat)
    requires Numbered(log) && after <= n <= |log|
    ensures var page := PageOf(log[..n], after);
            && page.next == n && InOrder(log, page.events, after)
            && forall i :: 0 <= i < |page.events| ==> page.events[i].sequence <= n
  {
    var page := PageOf(log[..n], after);
    var first := if after + MAX_BUFFERED_EVENTS <= n then n - MAX_BUFFERED_EVENTS else after;
    assert |page.events| == n - first && forall i :: 0 <= i < |page.events| ==> page.events[i] == log[first + i];
  }

  lemma PageContains(log: seq<Event>, after: nat, n: nat, sequence: nat)
    requires Numbered(log) && after <= n <= |log|
    ensures Contains(PageOf(log[..n], after).events, sequence) <==>
              after < sequence <= n && n - sequence < MAX_BUFFERED_EVENTS
  {
    var page := PageOf(log[..n], after).events;
    var first := if after + MAX_BUFFERED_EVENTS <= n then n - MAX_BUFFERED_EVENTS else after;
    assert |page| == n - first && forall i :: 0 <= i < |page| ==> page[i] == log[first + i];
    if first < sequence <= n {
      assert page[sequence - 1 - first].sequence == sequence;
    }
  }

  lemma OrderJoins(log: seq<Event>, a: seq<Event>, b: seq<Event>, after: nat, n: nat)
    requires InOrder(log, a, after) && InOrder(log, b, n) && after <= n
    requires forall i :: 0 <= i < |a| ==> a[i].sequence <= n
    ensures InOrder(log, a + b, after)
  {
  }

  /** Polling delivers each event at most once and in order, as it stands in the log. */
  lemma {:induction false} PollsDeliverInOrder(log: seq<Event>, after: nat, polls: seq<nat>)
    requires Numbered(log) && PollTimes(log, after, polls)
    ensures InOrder(log, Received(log, after, polls), after)
    decreases |polls|
  {
    if polls != [] {
      hide PageOf, InOrder, Numbered;
      PageFacts(log, after, polls[0]);
      PollsDeliverInOrder(log, polls[0], polls[1..]);
      OrderJoins(log, PageOf(log[..polls[0]], after).events, Received(log, polls[0], polls[1..]), after, polls[0]);
    }
  }

  /** Polling delivers exactly the events that were still buffered at the first poll after their publication. */
  lemma {:induction false} PollsDeliverWhatIsBuffered(log: seq<Event>, after: nat, polls: seq<nat>, sequence: nat)
    requires Numbered(log) && PollTimes(log, after, polls)
    ensures Contains(Received(log, after, polls), sequence) <==> Caught(after, polls, sequence)
    decreases |polls|
  {
    if polls != [] {
      PageFacts(log, after, polls[0]);
      PageContains(log, after, polls[0], sequence);
      PollsDeliverWhatIsBuffered(log, polls[0], polls[1..], sequence);
      PollsDeliverInOrder(log, polls[0], polls[1..]);
      hide PageOf;
      var page, rest := PageOf(log[..polls[0]], after).events, Received(log, polls[0], polls[1..]);
      assert Received(log, after, polls) == page + rest;
      ContainsEither(page, rest, sequence);
    }
  }

  lemma ContainsEither(a: seq<Event>, b: seq<Event>, sequence: nat)
    ensures Contains(a + b, sequence) <==> Contains(a, sequence) || Contains(b, sequence)
  {
    if Contains(a, sequence) {
      var i :| 0 <= i < |a| && a[i].sequence == sequence;
      assert (a + b)[i].sequence == sequence;
    }
    if Contains(b, sequence) {
      var i :| 0 <= i < |b| && b[i].sequence == sequence;
      assert (a + b)[|a| + i].sequence == sequence;
    }
  }

  predicate OftenEnough(after: nat, polls: seq<nat>)
    decreases |polls|
  {
    polls == [] || (polls[0] <= after + MAX_BUFFERED_EVENTS && OftenEnough(polls[0], polls[1..]))
  }

  function Last(after: nat, polls: seq<nat>): nat { if polls == [] then after else polls[|polls| - 1] }

  lemma FrequentPage(log: seq<Event>, after: nat, n: nat)
    requires after <= n <= |log| && n <= after + MAX_BUFFERED_EVENTS
    ensures PageOf(log[..n], after) == Page(log[after..n], n)
  {
    assert log[..n][after..] == log[after..n];
  }

  lemma SplitLog(log: seq<Event>, a: nat, b: nat, c: nat)
    requires a <= b <= c <= |log|
    ensures log[a..b] + log[b..c] == log[a..c]
  {
  }

  /** When at most 256 events are published between polls, nothing is missed. */
  lemma {:induction false} FrequentPollsSeeEverything(log: seq<Event>, after: nat, polls: seq<nat>)
    requires PollTimes(log, after, polls) && OftenEnough(after, polls)
    ensures after <= Last(after, polls) <= |log| && Received(log, after, polls) == log[after..Last(after, polls)]
    decreases |polls|
  {
    hide PageOf;
    if polls != [] {
      FrequentPollsSeeEverything(log, polls[0], polls[1..]);
      FrequentPage(log, after, polls[0]);
      SplitLog(log, after, polls[0], Last(polls[0], polls[1..]));
    }
  }
}
