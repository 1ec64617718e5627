/** The device bridge's event broker: a bounded buffer with sequence numbers that refines an unbounded log. */
module EventBroker {
  import opened Options
  import opened Texts

  const MAX_BUFFERED_EVENTS := 256
  /** Times are in nanoseconds. */
  const DUPLICATE_WINDOW := 1_500_000_000

  datatype Kind = NfcScan | NfcRemoved | ReaderState

  datatype RawEvent = RawEvent(kind: Kind, reader: string, uid: string)

  datatype Event = Event(sequence: nat, kind: Kind, reader: string, uid: Option<string>, duplicate: bool, at: int)

  datatype Page = Page(events: seq<Event>, next: nat)

  datatype LastScan = LastScan(uid: string, at: int)

  /* ---------- UIDs ---------- */

  predicate IsSeparator(c: char) { c == ':' || c == '-' || c == ' ' }

  function WithoutSeparators(s: string): string {
    if s == [] then [] else if IsSeparator(s[0]) then WithoutSeparators(s[1..]) else [s[0]] + WithoutSeparators(s[1..])
  }

  predicate IsHexDigit(c: char) { '0' <= c <= '9' || 'a' <= c <= 'f' || 'A' <= c <= 'F' }

  predicate IsUpperHexDigit(c: char) { '0' <= c <= '9' || 'A' <= c <= 'F' }

  function UpperHexDigit(c: char): char { if 'a' <= c <= 'f' then c - 'a' + 'A' else c }

  function UpperHex(s: string): string { seq(|s|, i requires 0 <= i < |s| => UpperHexDigit(s[i])) }

  function NormalizeUID(value: string): Option<string> {
    var stripped := WithoutSeparators(TrimSpace(value));
    if |stripped| < 2 || |stripped| > 64 || |stripped| % 2 != 0 then None
    else if exists i :: 0 <= i < |stripped| && !IsHexDigit(stripped[i]) then None
    else Some(UpperHex(stripped))
  }

  /** What scans are compared by: whole bytes as upper-case hex digits. */
  predicate NormalUID(uid: string) {
    2 <= |uid| <= 64 && |uid| % 2 == 0 && forall i :: 0 <= i < |uid| ==> IsUpperHexDigit(uid[i])
  }

  lemma {:induction false} NothingToStrip(s: string)
    requires forall i :: 0 <= i < |s| ==> !IsSeparator(s[i])
    ensures WithoutSeparators(s) == s
  {
    if s != [] {
      NothingToStrip(s[1..]);
    }
  }

  lemma NormalizedIsNormal(value: string)
    requires NormalizeUID(value).Some?
    ensures NormalUID(NormalizeUID(value).value)
  {
    hide TrimSpace, WithoutSeparators;
  }

  lemma NormalIsNormalized(value: string)
    requires NormalUID(value)
    ensures NormalizeUID(value) == Some(value)
  {
    assert TrimLeft(value) == value && TrimRight(value) == value;
    hide TrimLeft, TrimRight;
    NothingToStrip(value);
    hide WithoutSeparators;
    assert UpperHex(value) == value;
  }

  /** The accepted UIDs are exactly the normal forms' spellings, and normalizing again changes nothing. */
  lemma NormalizingIsIdempotent(value: string)
    ensures NormalizeUID(value).Some? ==> NormalUID(NormalizeUID(value).value)
    ensures NormalUID(value) <==> NormalizeUID(value) == Some(value)
  {
    hide NormalUID, NormalizeUID;
    if NormalUID(value) {
      NormalIsNormalized(value);
    }
    if NormalizeUID(value).Some? {
      NormalizedIsNormal(value);
    }
  }

  /** The value of a hex digit in either case. */
  function HexValue(c: char): int
    requires IsHexDigit(c)
  {
    if c <= '9' then c as int - '0' as int
    else if c <= 'F' then c as int - 'A' as int + 10
    else c as int - 'a' as int + 10
  }

  /** Normalizing keeps every digit's value: an accepted UID stands for the same bytes. */
  lemma NormalizingKeepsBytes(value: string)
    requires NormalizeUID(value).Some?
    ensures var digits, uid := WithoutSeparators(TrimSpace(value)), NormalizeUID(value).value;
            && |uid| == |digits|
            && forall i :: 0 <= i < |uid| ==>
                 IsHexDigit(digits[i]) && IsHexDigit(uid[i]) && HexValue(uid[i]) == HexValue(digits[i])
  {
    hide WithoutSeparators, TrimSpace;
  }

  /** Colons, hyphens and spaces between the digits do not matter, and nothing else is dropped. */
  lemma {:induction false} OnlySeparatorsVanish(before: string, c: char, after: string)
    ensures WithoutSeparators(before + [c] + after) ==
            WithoutSeparators(before) + (if c in {':', '-', ' '} then [] else [c]) + WithoutSeparators(after)
  {
    var all := before + [c] + after;
    if before == [] {
      assert all[1..] == after;
    } else {
      assert all[1..] == before[1..] + [c] + after;
      OnlySeparatorsVanish(before[1..], c, after);
    }
  }

  /* ---------- The log ---------- */

  predicate Touches(e: Event, reader: string) { (e.kind.NfcScan? || e.kind.NfcRemoved?) && e.reader == reader }

  /** The latest scan or removal of a reader. */
  predicate IsLatest(log: seq<Event>, reader: string, i: nat) {
    i < |log| && Touches(log[i], reader) && forall j :: i < j < |log| ==> !Touches(log[j], reader)
  }

  /** The latest scan or removal of the reader in the whole log is a scan with the same UID at most 1.5 s before. */
  predicate IsRepeat(log: seq<Event>, reader: string, uid: string, now: int) {
    exists i :: 0 <= i < |log| && IsLatest(log, reader, i) && log[i].kind.NfcScan? && log[i].uid == Some(uid)
                && now - log[i].at <= DUPLICATE_WINDOW
  }

  /** Since that event the reader has only reported states. */
  predicate OnlyStatesSince(log: seq<Event>, reader: string, i: nat) {
    forall j :: i < j < |log| && log[j].reader == reader ==> log[j].kind == ReaderState
  }

  /** A repeated scan: the same UID at the same reader, at most 1.5 seconds ago, with no scan or removal since. */
  lemma RepeatMeans(log: seq<Event>, reader: string, uid: string, now: int)
    ensures IsRepeat(log, reader, uid, now) <==>
              exists i :: 0 <= i < |log| && log[i].reader == reader && log[i].kind == NfcScan
                          && log[i].uid == Some(uid) && now - log[i].at <= 1_500_000_000
                          && OnlyStatesSince(log, reader, i)
  {
    forall i | 0 <= i < |log| && Touches(log[i], reader)
      ensures IsLatest(log, reader, i) <==> OnlyStatesSince(log, reader, i)
    {
    }
  }

  ghost predicate RemembersLatest(scans: map<string, LastScan>, log: seq<Event>) {
    && (forall r :: r in scans ==>
          exists i :: 0 <= i < |log| && IsLatest(log, r, i) && log[i].kind.NfcScan? && log[i].uid == Some(scans[r].uid)
              && log[i].at == scans[r].at)
    && (forall r, i :: 0 <= i < |log| && IsLatest(log, r, i) && log[i].kind.NfcScan? ==> r in scans)
  }

  predicate Numbered(log: seq<Event>) {
    forall i :: 0 <= i < |log| ==>
      && log[i].sequence == i + 1
      && (log[i].kind.NfcScan? ==> log[i].uid.Some? && NormalUID(log[i].uid.value))
  }

  function Buffered(log: seq<Event>): seq<Event> {
    if |log| <= MAX_BUFFERED_EVENTS then log else log[|log| - MAX_BUFFERED_EVENTS..]
  }

  /** What a poll from `after` receives: what came after it and is still among the last 256 events. */
  function PageOf(log: seq<Event>, after: nat): Page {
    if after >= |log| then Page([], after)
    else Page(log[if after + MAX_BUFFERED_EVENTS <= |log| then |log| - MAX_BUFFERED_EVENTS else after..], |log|)
  }

  /** The events with a later sequence number. */
  function After(events: seq<Event>, after: nat): seq<Event> {
    if events == [] then []
    else After(events[..|events| - 1], after) + (if events[|events| - 1].sequence > after then [events[|events| - 1]]
        else [])
  }

  lemma AfterGrows(events: seq<Event>, e: Event, after: nat)
    ensures After(events + [e], after) == After(events, after) + (if e.sequence > after then [e] else [])
  {
    assert (events + [e])[..|events|] == events;
  }

  lemma SliceGrows<T>(s: seq<T>, i: nat, n: nat)
    requires i < n <= |s|
    ensures s[i..n] == s[i..n - 1] + [s[n - 1]]
  {
  }

  function FirstAfter(first: nat, n: nat, after: nat): nat {
    if after <= first then first else if after <= n then after else n
  }

  lemma {:induction false} AfterIsSuffix(log: seq<Event>, first: nat, n: nat, after: nat)
    requires Numbered(log) && first <= n <= |log|
    ensures After(log[first..n], after) == log[FirstAfter(first, n, after)..n]
  {
    hide Numbered, After;
    if first == n {
      assert log[first..n] == [];
      AfterNothing(after);
    } else {
      AfterIsSuffix(log, first, n - 1, after);
      SliceGrows(log, first, n);
      AfterGrows(log[first..n - 1], log[n - 1], after);
      SequenceOfLast(log, n);
      if n > after {
        SliceGrows(log, FirstAfter(first, n, after), n);
      }
    }
  }

  lemma AfterNothing(after: nat)
    ensures After([], after) == []
  {
  }

  lemma SequenceOfLast(log: seq<Event>, n: nat)
    requires Numbered(log) && 0 < n <= |log|
    ensures log[n - 1].sequence == n
  {
  }

  /** Filtering the buffer gives the page of the whole log. */
  lemma AfterIsPage(log: seq<Event>, after: nat)
    requires Numbered(log)
    ensures var items := After(Buffered(log), after);
            PageOf(log, after) == Page(items, if |items| > 0 then items[|items| - 1].sequence else after)
  {
    hide NormalUID;
    var first := if |log| <= MAX_BUFFERED_EVENTS then 0 else |log| - MAX_BUFFERED_EVENTS;
    assert Buffered(log) == log[first..|log|];
    AfterIsSuffix(log, first, |log|, after);
  }

  lemma AppendKeepsLatest(log: seq<Event>, e: Event, r: string, i: nat)
    ensures IsLatest(log + [e], r, i) <==> if Touches(e, r) then i == |log| else IsLatest(log, r, i)
  {
    var after := log + [e];
    assert after[|log|] == e;
    if i < |log| {
      assert after[i] == log[i];
      assert (forall j :: i < j < |after| ==> !Touches(after[j], r))
          <==> (forall j :: i < j < |log| ==> !Touches(log[j], r)) && !Touches(e, r) by {
        assert forall j :: i < j < |log| ==> after[j] == log[j];
      }
    }
  }

  lemma LatestIsUnique(log: seq<Event>, r: string, i: nat, j: nat)
    requires IsLatest(log, r, i) && IsLatest(log, r, j)
    ensures i == j
  {
  }

  /** The map of last scans decides what the whole log decides; its zero value never matches because UIDs are not empty.
      */
  lemma MapDecidesRepeat(scans: map<string, LastScan>, log: seq<Event>, reader: string, uid: string, now: int)
    requires RemembersLatest(scans, log) && NormalUID(uid)
    ensures var previous := if reader in scans then scans[reader] else LastScan("", 0);
            IsRepeat(log, reader, uid, now) <==> uid == previous.uid && now - previous.at <= DUPLICATE_WINDOW
  {
    if reader in scans {
      var i :| 0 <= i < |log| && IsLatest(log, reader, i) && log[i].kind.NfcScan?
          && log[i].uid == Some(scans[reader].uid) && log[i].at == scans[reader].at;
      if IsRepeat(log, reader, uid, now) {
        var j :| 0 <= j < |log| && IsLatest(log, reader, j) && log[j].kind.NfcScan? && log[j].uid == Some(uid)
            && now - log[j].at <= DUPLICATE_WINDOW;
        LatestIsUnique(log, reader, i, j);
      }
    }
  }

  function ScansAfter(scans: map<string, LastScan>, e: Event): map<string, LastScan> {
    if e.kind.NfcScan? && e.uid.Some? then scans[e.reader := LastScan(e.uid.value, e.at)]
    else if e.kind.NfcRemoved? then scans - {e.reader}
    else scans
  }

  lemma PublishRemembers(scans: map<string, LastScan>, log: seq<Event>, e: Event)
    requires RemembersLatest(scans, log) && (e.kind.NfcScan? ==> e.uid.Some?)
    ensures RemembersLatest(ScansAfter(scans, e), log + [e])
  {
    var after, scans' := log + [e], ScansAfter(scans, e);
    assert after[|log|] == e && forall i :: 0 <= i < |log| ==> after[i] == log[i];
    forall r | r in scans'
      ensures exists i ::
                && 0 <= i < |after| && IsLatest(after, r, i) && after[i].kind.NfcScan?
                && after[i].uid == Some(scans'[r].uid) && after[i].at == scans'[r].at
    {
      if Touches(e, r) {
        AppendKeepsLatest(log, e, r, |log|);
      } else {
        var i :| 0 <= i < |log| && IsLatest(log, r, i) && log[i].kind.NfcScan? && log[i].uid == Some(scans[r].uid)
            && log[i].at == scans[r].at;
        AppendKeepsLatest(log, e, r, i);
      }
    }
    forall r, i | 0 <= i < |after| && IsLatest(after, r, i) && after[i].kind.NfcScan? ensures r in scans' {
      AppendKeepsLatest(log, e, r, i);
    }
  }

  lemma PublishBuffers(log: seq<Event>, e: Event)
    requires Numbered(log) && e.sequence == |log| + 1 && (e.kind.NfcScan? ==> e.uid.Some? && NormalUID(e.uid.value))
    ensures Numbered(log + [e])
    ensures var events := Buffered(log) + [e];
            Buffered(log + [e]) == if |events| > MAX_BUFFERED_EVENTS then events[|events| - MAX_BUFFERED_EVENTS..]
                else events
  {
  }

  /* ---------- The broker ---------- */

  /** A channel that is only ever closed. */
  class Signal {
    var closed: bool

    constructor ()
      ensures !closed
    {
      closed := false;
    }
  }

  class Broker {
    var events: seq<Event>
    var sequence: nat
    var notify: Signal
    var lastScans: map<string, LastScan>
    ghost var log: seq<Event>

    ghost predicate Valid()
      reads this, notify
    {
      && Numbered(log) && sequence == |log| && events == Buffered(log)
      && RemembersLatest(lastScans, log) && !notify.closed
    }

    constructor ()
      ensures Valid() && log == [] && fresh(notify)
    {
      events, sequence, lastScans, log := [], 0, map[], [];
      notify := new Signal();
    }

    /** Appends one event to the log, or changes nothing when its UID is invalid; everybody waiting is woken. */
    method Publish(raw: RawEvent, now: int) returns (published: Option<Event>)
      requires Valid()
      modifies this, notify
      ensures Valid()
      ensures published.None? <==> raw.kind.NfcScan? && NormalizeUID(raw.uid).None?
      ensures published.None? ==> unchanged(this) && unchanged(notify)
      ensures published.Some? ==>
                var e := published.value;
                && log == old(log) + [e] && e.sequence == |log| && e.kind == raw.kind && e.reader == raw.reader
                    && e.at == now
                && (if raw.kind.NfcScan?
                    then e.uid == NormalizeUID(raw.uid)
                        && (e.duplicate <==> IsRepeat(old(log), raw.reader, e.uid.value, now))
                        && (e.duplicate <==>
                              exists i :: 0 <= i < |old(log)| && old(log)[i].reader == raw.reader
                                          && old(log)[i].kind == NfcScan && old(log)[i].uid == e.uid
                                          && now - old(log)[i].at <= 1_500_000_000
                                          && OnlyStatesSince(old(log), raw.reader, i))
                    else e.uid == None && !e.duplicate)
                && old(notify).closed && notify != old(notify) && fresh(notify)
    {
      hide RemembersLatest, IsRepeat, OnlyStatesSince, NormalUID, NormalizeUID, Numbered, Buffered;
      var uid := None;
      if raw.kind == NfcScan {
        uid := NormalizeUID(raw.uid);
        if uid.None? {
          return None;
        }
        NormalizingIsIdempotent(raw.uid);
      }
      var duplicate := false;
      if raw.kind == NfcScan {
        RepeatMeans(log, raw.reader, uid.value, now);
        MapDecidesRepeat(lastScans, log, raw.reader, uid.value, now);
        var previous := if raw.reader in lastScans then lastScans[raw.reader] else LastScan("", 0);
        duplicate := uid.value == previous.uid && now - previous.at <= DUPLICATE_WINDOW;
      }
      var event := Event(sequence + 1, raw.kind, raw.reader, uid, duplicate, now);
      PublishRemembers(lastScans, log, event);
      PublishBuffers(log, event);
      if raw.kind == NfcScan {
        lastScans := lastScans[raw.reader := LastScan(uid.value, now)];
      } else if raw.kind == NfcRemoved {
        lastScans := lastScans - {raw.reader};
      }
      sequence := sequence + 1;
      events := events + [event];
      if |events| > MAX_BUFFERED_EVENTS {
        events := events[|events| - MAX_BUFFERED_EVENTS..];
      }
      log := log + [event];
      notify.closed := true;
      notify := new Signal();
      published := Some(event);
    }

    /** One turn of Wait: the page and the channel to wait for when it is empty, which the next Publish closes. */
    method Poll(after: nat) returns (page: Page, wake: Signal)
      requires Valid()
      ensures page == PageOf(log, after) && wake == notify && !wake.closed
    {
      hide RemembersLatest, NormalUID;
      var items: seq<Event> := [];
      for i := 0 to |events|
        invariant items == After(events[..i], after)
      {
        assert events[..i + 1][..i] == events[..i];
        if events[i].sequence > after {
          items := items + [events[i]];
        }
      }
      assert events[..|events|] == events;
      AfterIsPage(log, after);
      var next := after;
      if |items| > 0 {
        next := items[|items| - 1].sequence;
      }
      page := Page(items, next);
      wake := notify;
    }
  }
}
