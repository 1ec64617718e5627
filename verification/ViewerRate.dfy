/** What the relay forwards from a viewer to the connector: a prefix of its text frames, limited in rate. */
module ViewerRate {
  import opened Options
  import opened RelayModel

  const MAX_VIEWER_FRAMES_PER_SECOND := 10
  const SECOND := 1_000_000_000

  /** One read from the viewer, with the time it was handled at and whether the write to the connector succeeds. */
  datatype Incoming =
    | Message(text: bool, payload: string, at: int, written: bool)
    | TooLarge
    | ReadFails

  /** What was forwarded, and the close code once the copying ended. */
  datatype Outcome = Outcome(forwarded: seq<Incoming>, code: Option<CloseCode>)

  predicate Opens(window: Option<int>, at: int) { window.None? || at - window.value >= SECOND }

  /** The verdict on one read: the close code that ends the copying, or None when the frame is forwarded. */
  function Verdict(read: Incoming, window: Option<int>, frames: nat): Option<CloseCode> {
    match read
    case TooLarge => Some(MessageTooBig)
    case ReadFails => Some(NormalClosure)
    case Message(text, _, at, written) =>
      if !text then Some(UnsupportedData)
      else if !Opens(window, at) && frames >= MAX_VIEWER_FRAMES_PER_SECOND then Some(PolicyViolation)
      else if !written then Some(ConnectorOffline)
      else None
  }

  /** Copying from the viewer, with the start of the current window (None before the first frame) and its number of
      frames. */
  function Copied(input: seq<Incoming>, window: Option<int>, frames: nat): Outcome {
    if input == [] then Outcome([], None)
    else
      var verdict := Verdict(input[0], window, frames);
      if verdict.Some? then Outcome([], verdict)
      else
        var opens := Opens(window, input[0].at);
        var rest := Copied(input[1..], if opens then Some(input[0].at) else window, if opens then 1 else frames + 1);
        Outcome([input[0]] + rest.forwarded, rest.code)
  }

  predicate Timed(input: seq<Incoming>) {
    forall i, j :: 0 <= i < j < |input| && input[i].Message? && input[j].Message? ==> input[i].at <= input[j].at
  }

  lemma Associates<T>(a: seq<T>, x: T, b: seq<T>)
    ensures a + ([x] + b) == (a + [x]) + b
  {
  }

  lemma FirstAndRest<T>(s: seq<T>, i: nat, n: nat)
    requires i < n <= |s|
    ensures s[i..n] == [s[i]] + s[i + 1..n]
  {
  }

  lemma CopiedEnd(input: seq<Incoming>, window: Option<int>, frames: nat)
    ensures Copied(input[|input|..], window, frames) == Outcome([], None)
  {
  }

  lemma CopiedStep(input: seq<Incoming>, i: nat, window: Option<int>, frames: nat)
    requires i < |input|
    ensures var verdict := Verdict(input[i], window, frames);
            Copied(input[i..], window, frames) ==
            if verdict.Some? then Outcome([], verdict)
            else
              var (start, count) := if Opens(window, input[i].at) then (Some(input[i].at), 1) else (window, frames + 1);
              var rest := Copied(input[i + 1..], start, count);
              Outcome([input[i]] + rest.forwarded, rest.code)
  {
    assert input[i..][0] == input[i] && input[i..][1..] == input[i + 1..];
  }

  /** Copying as the program does it, frame by frame. */
  method CopyFromViewer(input: seq<Incoming>) returns (forwarded: seq<Incoming>, code: Option<CloseCode>)
    ensures Outcome(forwarded, code) == Copied(input, None, 0)
  {
    var windowStart: Option<int> := None;
    var frames := 0;
    forwarded := [];
    assert input[0..] == input;
    hide Copied;
    var i := 0;
    while i < |input|
      invariant 0 <= i <= |input|
      invariant var rest := Copied(input[i..], windowStart, frames);
                Copied(input, None, 0) == Outcome(forwarded + rest.forwarded, rest.code)
      invariant frames <= MAX_VIEWER_FRAMES_PER_SECOND
    {
      var read := input[i];
      CopiedStep(input, i, windowStart, frames);
      if read.TooLarge? {
        return forwarded, Some(MessageTooBig);
      }
      if read.ReadFails? {
        return forwarded, Some(NormalClosure);
      }
      if !read.text {
        return forwarded, Some(UnsupportedData);
      }
      if windowStart.None? || read.at - windowStart.value >= SECOND {
        windowStart, frames := Some(read.at), 0;
      }
      frames := frames + 1;
      if frames > MAX_VIEWER_FRAMES_PER_SECOND {
        return forwarded, Some(PolicyViolation);
      }
      if !read.written {
        return forwarded, Some(ConnectorOffline);
      }
      Associates(forwarded, read, Copied(input[i + 1..], windowStart, frames).forwarded);
      forwarded := forwarded + [read];
      i := i + 1;
    }
    code := None;
    CopiedEnd(input, windowStart, frames);
  }

  /* ---------- Windows ---------- */

  function Time(read: Incoming): int { if read.Message? then read.at else 0 }

  /** The frame whose arrival opened the window in which frame i arrives. */
  function StartOf(input: seq<Incoming>, i: nat): (start: nat)
    requires i < |input|
    ensures start <= i
  {
    if i == 0 then 0
    else
      var start := StartOf(input, i - 1);
      if Time(input[i]) - Time(input[start]) >= SECOND then i else start
  }

  /** Starts lie at least a second apart, and up to the next one every frame is within a second of the last. */
  lemma {:induction false} WindowsFollow(input: seq<Incoming>, i: nat)
    requires i < |input|
    ensures var start := StartOf(input, i);
            && (start > 0 ==> Time(input[start]) - Time(input[StartOf(input, start - 1)]) >= SECOND)
            && (forall k :: start <= k <= i ==> StartOf(input, k) == start)
            && (start < i ==> Time(input[i]) - Time(input[start]) < SECOND)
  {
    if i > 0 {
      WindowsFollow(input, i - 1);
    }
  }

  /** Whether frame i is forwarded when all before it are: a text that can be written, among the first ten frames of its
      window. */
  predicate Passes(input: seq<Incoming>, i: nat)
    requires i < |input|
  {
    input[i].Message? && input[i].text && input[i].written && i - StartOf(input, i) < MAX_VIEWER_FRAMES_PER_SECOND
  }

  function Window(input: seq<Incoming>, i: nat): Option<int>
    requires i <= |input|
  {
    if i == 0 then None else Some(Time(input[StartOf(input, i - 1)]))
  }

  function Frames(input: seq<Incoming>, i: nat): nat
    requires i <= |input|
  {
    if i == 0 then 0 else i - StartOf(input, i - 1)
  }

  function CloseCodeAt(input: seq<Incoming>, n: nat): Option<CloseCode>
    requires n <= |input|
  {
    if n == |input| then None else Verdict(input[n], Window(input, n), Frames(input, n))
  }

  /** The program's window start and frame count after one more forwarded frame. */
  lemma WindowAdvances(input: seq<Incoming>, i: nat)
    requires i < |input|
    ensures var window, frames := Window(input, i), Frames(input, i);
            && (Verdict(input[i], window, frames).None? <==> Passes(input, i))
            && (Passes(input, i) ==>
                  var opens := Opens(window, input[i].at);
                  && Window(input, i + 1) == (if opens then Some(input[i].at) else window)
                  && Frames(input, i + 1) == if opens then 1 else frames + 1)
  {
    if i > 0 && input[i].Message? {
      assert StartOf(input, i) == if Opens(Window(input, i), input[i].at) then i else StartOf(input, i - 1);
    }
  }

  lemma {:induction false} CopyingContinues(input: seq<Incoming>, i: nat) returns (n: nat)
    requires i <= |input|
    ensures i <= n <= |input|
    ensures Copied(input[i..], Window(input, i), Frames(input, i)) == Outcome(input[i..n], CloseCodeAt(input, n))
    ensures (forall k :: i <= k < n ==> Passes(input, k)) && (n < |input| ==> !Passes(input, n))
    decreases |input| - i
  {
    hide Copied, Verdict, Passes, Window, Frames, Opens;
    if i == |input| {
      n := i;
      CopiedEnd(input, Window(input, i), Frames(input, i));
    } else {
      WindowAdvances(input, i);
      CopiedStep(input, i, Window(input, i), Frames(input, i));
      if Passes(input, i) {
        n := CopyingContinues(input, i + 1);
        FirstAndRest(input, i, n);
      } else {
        n := i;
      }
    }
  }

  /** What is forwarded are the frames before the first that does not pass, and that one decides the code: the viewer is
      cut for its rate exactly when it is the eleventh text of its window. */
  lemma ForwardsExactly(input: seq<Incoming>)
    ensures var copied := Copied(input, None, 0);
            var n := |copied.forwarded|;
            && n <= |input| && copied.forwarded == input[..n]
            && (forall k :: 0 <= k < n ==> Passes(input, k)) && (n < |input| ==> !Passes(input, n))
            && (copied.code.None? <==> n == |input|)
            && (copied.code == Some(PolicyViolation) <==>
                  n < |input| && input[n].Message? && input[n].text
                  && n - StartOf(input, n) == MAX_VIEWER_FRAMES_PER_SECOND)
            && (copied.code == Some(MessageTooBig) <==> n < |input| && input[n].TooLarge?)
            && (copied.code == Some(NormalClosure) <==> n < |input| && input[n].ReadFails?)
            && (copied.code == Some(UnsupportedData) <==> n < |input| && input[n].Message? && !input[n].text)
            && (copied.code == Some(ConnectorOffline) <==>
                  n < |input| && input[n].Message? && input[n].text && !input[n].written
                  && n - StartOf(input, n) < MAX_VIEWER_FRAMES_PER_SECOND)
  {
    hide Copied;
    var n := CopyingContinues(input, 0);
    assert input[0..] == input && input[0..n] == input[..n];
    if 0 < n < |input| {
      assert Passes(input, n - 1);
    }
  }

  /* ---------- The rate ---------- */

  /** No n + 1 of the frames fall within a second. */
  ghost predicate AtMostPerSecond(frames: seq<Incoming>, n: nat) {
    forall i, j :: 0 <= i && j == i + n && j < |frames| ==> Time(frames[j]) - Time(frames[i]) >= SECOND
  }

  lemma TwentiethIsLate(input: seq<Incoming>, i: nat)
    requires Timed(input) && i + 19 < |input| && forall k :: 0 <= k <= i + 19 ==> Passes(input, k)
    ensures Time(input[i + 19]) - Time(input[i]) >= SECOND
  {
    hide StartOf;
    WindowsFollow(input, i + 19);
    var second := StartOf(input, i + 19);
    assert Passes(input, i + 19) && Passes(input, second - 1);
    var first := StartOf(input, second - 1);
    assert Passes(input, i) && Passes(input, first) && Passes(input, second);
    hide Passes;
    assert i <= first < second <= i + 19;
  }

  /** With a clock that does not run backwards the relay forwards a prefix of the viewer's frames, all of them text, and
      at most 19 of them in any half-open second, although two windows of ten frames can meet in it. */
  lemma ForwardsALimitedPrefix(input: seq<Incoming>)
    requires Timed(input)
    ensures var copied := Copied(input, None, 0);
            && |copied.forwarded| <= |input| && copied.forwarded == input[..|copied.forwarded|]
            && TextsOnly(copied.forwarded) && AtMostPerSecond(copied.forwarded, 19)
            && (copied.code.None? <==> |copied.forwarded| == |input|)
  {
    hide Copied, Time, Timed, StartOf;
    ForwardsExactly(input);
    var n := |Copied(input, None, 0).forwarded|;
    forall k | 0 <= k < n ensures input[k].Message? && input[k].text && input[k].written {
      assert Passes(input, k);
    }
    hide Passes;
    forall i: nat | i + 19 < n ensures Time(input[i + 19]) - Time(input[i]) >= SECOND {
      TwentiethIsLate(input, i);
    }
  }

  /** Where eleven forwarded frames fall within a second, the last one is in the window right after the first one's. */
  lemma ElevenSpanTwoWindows(input: seq<Incoming>, i: nat)
    requires Timed(input) && i + 10 < |input| && forall k :: 0 <= k <= i + 10 ==> Passes(input, k)
    requires Time(input[i + 10]) - Time(input[i]) < SECOND
    ensures var second := StartOf(input, i + 10);
            i < second <= i + 10 && StartOf(input, second - 1) == StartOf(input, i)
  {
    hide StartOf;
    var second := StartOf(input, i + 10);
    WindowsFollow(input, i + 10);
    assert Passes(input, i + 10) && second > i;
    WindowsFollow(input, second - 1);
    var first := StartOf(input, second - 1);
    assert Passes(input, i) && Passes(input, first) && Passes(input, second);
  }

  /** Everything arrives as a text that can be written on. */
  predicate TextsOnly(input: seq<Incoming>) {
    forall i :: 0 <= i < |input| ==> input[i].Message? && input[i].text && input[i].written
  }

  /** A viewer that keeps to ten frames a second is never cut, and no other one gets all its frames through within the
      limit. */
  lemma ConformingViewers(input: seq<Incoming>)
    requires Timed(input) && TextsOnly(input)
    ensures var copied := Copied(input, None, 0);
            copied == Outcome(input, None) && AtMostPerSecond(copied.forwarded, 10) <==> AtMostPerSecond(input, 10)
  {
    hide Copied;
    ForwardsExactly(input);
    var n := |Copied(input, None, 0).forwarded|;
    if n < |input| && AtMostPerSecond(input, 10) {
      var start := StartOf(input, n);
      WindowsFollow(input, n);
      WindowsFollow(input, start + 10);
    }
    assert input[..|input|] == input;
  }

  function Burst(n: nat, at: int): seq<Incoming> { seq(n, i => Message(true, "", at, true)) }

  lemma FirstOfBurst(n: nat, at: int, rest: seq<Incoming>)
    requires n > 0
    ensures Burst(n, at) + rest == [Message(true, "", at, true)] + (Burst(n - 1, at) + rest)
    ensures (Burst(n, at) + rest)[1..] == Burst(n - 1, at) + rest
        && Burst(n, at) == [Message(true, "", at, true)] + Burst(n - 1, at)
  {
    assert Burst(n, at) == [Message(true, "", at, true)] + Burst(n - 1, at);
  }

  lemma {:induction false} BurstPasses(n: nat, at: int, start: int, frames: nat, rest: seq<Incoming>)
    requires start <= at < start + SECOND && frames + n <= MAX_VIEWER_FRAMES_PER_SECOND
    ensures var after := Copied(rest, Some(start), frames + n);
            Copied(Burst(n, at) + rest, Some(start), frames) == Outcome(Burst(n, at) + after.forwarded, after.code)
  {
    var input := Burst(n, at) + rest;
    if n == 0 {
      assert input == rest;
    } else {
      hide Burst;
      FirstOfBurst(n, at, rest);
      FirstOfBurst(n, at, Copied(rest, Some(start), frames + n).forwarded);
      BurstPasses(n - 1, at, start, frames + 1, rest);
    }
  }

  lemma BurstOpens(n: nat, at: int, window: Option<int>, frames: nat, rest: seq<Incoming>)
    requires Opens(window, at) && 0 < n <= MAX_VIEWER_FRAMES_PER_SECOND
    ensures var after := Copied(rest, Some(at), n);
            Copied(Burst(n, at) + rest, window, frames) == Outcome(Burst(n, at) + after.forwarded, after.code)
  {
    hide Burst;
    FirstOfBurst(n, at, rest);
    FirstOfBurst(n, at, Copied(rest, Some(at), n).forwarded);
    BurstPasses(n - 1, at, at, 1, rest);
  }

  /** Ten frames of one window and ten of the next: one frame, nine half a second later, then ten another half second
      later. */
  function Straddling(): seq<Incoming> { Burst(1, 0) + (Burst(9, SECOND / 2) + Burst(10, SECOND)) }

  /** The bound of 19 is sharp: all of these are forwarded, and the last 19 of them come within half a second. */
  lemma NineteenCanPass()
    ensures Timed(Straddling()) && Copied(Straddling(), None, 0) == Outcome(Straddling(), None)
    ensures |Straddling()| == 20 && Straddling()[19].Message? && Straddling()[1].Message?
        && Straddling()[19].at - Straddling()[1].at == SECOND / 2
  {
    assert Timed(Straddling());
    var last := Burst(10, SECOND);
    assert last + [] == last;
    assert Copied(Straddling(), None, 0) == Outcome(Straddling(), None) by {
      BurstOpens(1, 0, None, 0, Burst(9, SECOND / 2) + last);
      BurstPasses(9, SECOND / 2, 0, 1, last);
      BurstOpens(10, SECOND, Some(0), 10, []);
      assert Copied([], Some(SECOND), 10) == Outcome([], None);
      hide Copied, Burst, Timed;
    }
  }
}
