/** A model of a polling liveness monitor for one HTTP endpoint. Each poll
    prints exactly one status line; a down poll also posts one push
    notification, an up poll prints the next symbol of a four-symbol spinner.
    The network, the clock and the sleep between polls are replaced by inputs:
    each poll is given as its formatted time and the outcome of its request. */
module ServerMonitor {
  import opened Wrappers

  // ---------------------------------------------------------------------
  // Configuration constants
  // ---------------------------------------------------------------------

  /** The endpoint that is polled. */
  const ApiUrl: string := "https://api.spacebots.io:8443/ping"
  /** Seconds slept after every poll. Kept for documentation only: the sleep
      is not modelled, so nothing refers to it. */
  const CheckInterval: nat := 300
  /** The push-notification API that the down message is posted to. */
  const PushoverEndpoint: string := "https://api.pushover.net/1/messages.json"
  /** ANSI colour escapes around the status words. */
  const Red: string := "\U{1B}[91m"
  const Green: string := "\U{1B}[92m"
  const Reset: string := "\U{1B}[0m"
  /** Written to standard error when a credential is missing. */
  const MissingCredentialsError: string :=
    "Error: Environment variables PUSHOVER_TOKEN and PUSHOVER_USER are not set.\n"

  /** The spinner alphabet, produced in this order and then repeated:
      ┌─ └─ └┐ ┌┘ */
  const SpinnerSymbols: seq<string> :=
    ["\U{250C}\U{2500}", "\U{2514}\U{2500}", "\U{2514}\U{2510}", "\U{250C}\U{2518}"]

  // ---------------------------------------------------------------------
  // Startup: the credential check
  // ---------------------------------------------------------------------

  datatype Credentials = Credentials(token: string, user: string)

  /** Either the monitor starts with the two credentials, or the process exits. */
  datatype Startup = Proceed(creds: Credentials) | Exit(code: int, stderr: string)

  /** An environment lookup counts as present when it is set and not empty. */
  predicate IsPresent(v: Option<string>)
  {
    v.Some? && |v.value| > 0
  }

  /** The startup check on PUSHOVER_TOKEN and PUSHOVER_USER: an unset or empty
      variable makes the process exit with code 1 before any poll. */
  function CheckEnvironment(token: Option<string>, user: Option<string>): (r: Startup)
    ensures r.Proceed? <==> token != None && token != Some("") && user != None && user != Some("")
    ensures r.Proceed? ==> r.creds.token == token.value && r.creds.user == user.value
    ensures r.Exit? ==> r.code == 1 && r.stderr == MissingCredentialsError
  {
    if !IsPresent(token) || !IsPresent(user) then Exit(1, MissingCredentialsError)
    else Proceed(Credentials(token.value, user.value))
  }

  // ---------------------------------------------------------------------
  // One liveness check
  // ---------------------------------------------------------------------

  /** What one request to the endpoint produced: a response carrying its
      status code, or an exception raised by the HTTP library (timeout,
      refused connection, name resolution failure, ...). */
  datatype Outcome = Response(status: int) | RequestException

  /** What the POST of the down notification did: it returned (whatever the
      response status), or the HTTP library raised. The script does not catch
      that exception. */
  datatype PostOutcome = PostReturned | PostRaised

  /** The inputs of one loop iteration: the formatted wall-clock time, taken
      as an opaque string, the outcome of that iteration's request, and what
      the notification POST would do. Only a down poll posts, so `post` is
      never consulted for an up poll. */
  datatype Poll = Poll(time: string, outcome: Outcome, post: PostOutcome)

  /** The server is up exactly when the response status is 200; every other
      status, and every request exception, counts as down. */
  predicate IsServerUp(o: Outcome)
    ensures IsServerUp(o) <==> o == Response(200)
  {
    match o
    case Response(status) => status == 200
    case RequestException => false
  }

  // ---------------------------------------------------------------------
  // The down notification
  // ---------------------------------------------------------------------

  /** The text of the push message for a monitored URL; the URL can be read
      back out of it. */
  function NotificationMessage(url: string): (m: string)
    ensures MessageUrl(m) == Some(url)
  {
    var m := "Server " + url + " is down!";
    assert m[..7] == "Server " && m[|m| - 9..] == " is down!" && m[7..|m| - 9] == url;
    m
  }

  /** Reads the monitored URL back out of a push message; None for any text
      that is not a down message. */
  function MessageUrl(m: string): Option<string>
  {
    if |m| >= 16 && m[..7] == "Server " && m[|m| - 9..] == " is down!" then
      Some(m[7..|m| - 9])
    else
      None
  }

  /** A message decodes to a URL exactly when it is that URL's down message,
      so the down message names the monitored URL and nothing else. */
  lemma MessageUrlIff(m: string, url: string)
    ensures MessageUrl(m) == Some(url) <==> m == NotificationMessage(url)
  {
    if MessageUrl(m) == Some(url) {
      assert m == m[..7] + m[7..|m| - 9] + m[|m| - 9..];
    }
  }

  /** The form data posted to the notification API. */
  datatype Notification = Notification(endpoint: string, token: string, user: string, message: string)

  /** The one notification the monitor ever sends. */
  function DownNotification(c: Credentials): (n: Notification)
    ensures n.endpoint == PushoverEndpoint && n.token == c.token && n.user == c.user
    ensures MessageUrl(n.message) == Some(ApiUrl)
  {
    Notification(PushoverEndpoint, c.token, c.user, NotificationMessage(ApiUrl))
  }

  // ---------------------------------------------------------------------
  // Status lines
  // ---------------------------------------------------------------------

  /** The line printed for one poll. */
  datatype StatusLine = DownLine(time: string) | OkLine(time: string, spin: string)

  /** What follows the time in a printed line, up to the final colour reset. */
  const DownTail: string := "] " + Red + "The server is down!"
  const OkTail: string := "] " + Green + "OK "

  /** The printed text: "[time] The server is down!" in red, or
      "[time] OK <spin>" in green. Every line the monitor prints is read back
      as itself, whatever the timestamp text, so a down line can never be
      mistaken for an OK line. */
  function RenderLine(l: StatusLine): (s: string)
    ensures l.DownLine? || l.spin in SpinnerSymbols ==> ParseLine(s) == Some(l)
  {
    ParseRenderLine(l);
    "[" + LineBody(l) + Reset
  }

  /** Reading back the text of a down line, or of an OK line with one of the
      four symbols, gives that line. */
  lemma ParseRenderLine(l: StatusLine)
    ensures l.DownLine? || l.spin in SpinnerSymbols ==> ParseLine("[" + LineBody(l) + Reset) == Some(l)
  {
    FrameRoundTrip(LineBody(l));
    if l.DownLine? {
      ParseDownBody(l.time);
    } else if l.spin in SpinnerSymbols {
      ParseOkBody(l.time, l.spin);
    }
  }

  /** A printed line between its opening bracket and its closing colour reset. */
  function LineBody(l: StatusLine): string
  {
    match l
    case DownLine(t) => t + DownTail
    case OkLine(t, spin) => t + OkTail + spin
  }

  /** Reads a printed line back; None for text the monitor never prints. */
  function ParseLine(s: string): Option<StatusLine>
  {
    if |s| < 1 + |Reset| || s[0] != '[' || s[|s| - |Reset|..] != Reset then None
    else ParseBody(s[1..|s| - |Reset|])
  }

  /** Reads the body of a printed line back, matching the tails from the right
      so that any timestamp text is accepted. */
  function ParseBody(body: string): Option<StatusLine>
  {
    if |body| >= |DownTail| && body[|body| - |DownTail|..] == DownTail then
      Some(DownLine(body[..|body| - |DownTail|]))
    else if |body| >= |OkTail| + 2 && body[|body| - 2..] in SpinnerSymbols
            && body[|body| - 2 - |OkTail|..|body| - 2] == OkTail then
      Some(OkLine(body[..|body| - 2 - |OkTail|], body[|body| - 2..]))
    else
      None
  }

  /** The frame of a printed line is stripped back to its body. */
  lemma FrameRoundTrip(body: string)
    ensures ParseLine("[" + body + Reset) == ParseBody(body)
  {
    var s := "[" + body + Reset;
    assert s[|s| - |Reset|..] == Reset;
    assert s[1..|s| - |Reset|] == body;
  }

  /** A spinner symbol never ends the way a down line does. */
  lemma OkBodyIsNotDown(t: string, spin: string)
    requires spin in SpinnerSymbols
    ensures var body := t + OkTail + spin;
      !(|body| >= |DownTail| && body[|body| - |DownTail|..] == DownTail)
  {
    var body := t + OkTail + spin;
    assert DownTail[|DownTail| - 1] == '!';
    assert body[|body| - 1] == spin[1] != '!';
    if |body| >= |DownTail| {
      assert body[|body| - |DownTail|..][|DownTail| - 1] == body[|body| - 1];
    }
  }

  lemma ParseDownBody(t: string)
    ensures ParseBody(t + DownTail) == Some(DownLine(t))
  {
    var body := t + DownTail;
    assert body[|body| - |DownTail|..] == DownTail;
    assert body[..|body| - |DownTail|] == t;
  }

  lemma ParseOkBody(t: string, spin: string)
    requires spin in SpinnerSymbols
    ensures ParseBody(t + OkTail + spin) == Some(OkLine(t, spin))
  {
    var body := t + OkTail + spin;
    OkBodyIsNotDown(t, spin);
    assert |spin| == 2;
    assert body[|body| - 2..] == spin;
    assert body[|body| - 2 - |OkTail|..|body| - 2] == OkTail;
    assert body[..|body| - 2 - |OkTail|] == t;
  }

  /** Whatever is read back as a status line is exactly the printing of it,
      with a spinner symbol in an OK line. */
  lemma RenderParseLine(s: string, l: StatusLine)
    requires ParseLine(s) == Some(l)
    ensures RenderLine(l) == s
    ensures l.OkLine? ==> l.spin in SpinnerSymbols
  {
    var body := s[1..|s| - |Reset|];
    assert s == [s[0]] + body + s[|s| - |Reset|..];
    ParseBodySound(body, l);
  }

  lemma ParseBodySound(body: string, l: StatusLine)
    requires ParseBody(body) == Some(l)
    ensures LineBody(l) == body
    ensures l.OkLine? ==> l.spin in SpinnerSymbols
  {
    if |body| >= |DownTail| && body[|body| - |DownTail|..] == DownTail {
      assert body == body[..|body| - |DownTail|] + body[|body| - |DownTail|..];
    } else {
      var k := |body| - 2 - |OkTail|;
      assert body == body[..k] + body[k..|body| - 2] + body[|body| - 2..];
    }
  }

  // ---------------------------------------------------------------------
  // The poll step and a run of polls
  // ---------------------------------------------------------------------

  /** What the monitor does observably: print a status line or post a
      notification. */
  datatype Event = Print(line: StatusLine) | Notify(notification: Notification)

  /** The spinner position after a step or run, the events it emitted, and
      whether a notification POST raised, which ends the script. */
  datatype StepResult = StepResult(spinner: nat, events: seq<Event>, crashed: bool)

  /** The poll whose notification POST raises an exception. */
  predicate PostRaises(p: Poll)
  {
    !IsServerUp(p.outcome) && p.post == PostRaised
  }

  /** Some poll's notification POST raises. */
  predicate Raised(polls: seq<Poll>)
  {
    exists i :: 0 <= i < |polls| && PostRaises(polls[i])
  }

  /** One iteration of the poll loop. `spinner` is the index of the symbol the
      spinner will produce next. A down poll prints its line and then posts;
      if the POST raises, the exception escapes the loop. */
  function PollStep(c: Credentials, spinner: nat, p: Poll): (r: StepResult)
    requires spinner < |SpinnerSymbols|
    ensures r.spinner < |SpinnerSymbols|
    ensures r.spinner == if IsServerUp(p.outcome) then (spinner + 1) % 4 else spinner
    ensures r.crashed <==> PostRaises(p)
    ensures |r.events| == if IsServerUp(p.outcome) then 1 else 2
    ensures r.events[0].Print? && r.events[0].line.time == p.time
    ensures r.events[0].line.DownLine? <==> !IsServerUp(p.outcome)
    ensures IsServerUp(p.outcome) ==> r.events[0].line.spin == SpinnerSymbols[spinner]
    ensures !IsServerUp(p.outcome) ==> r.events[1] == Notify(DownNotification(c))
  {
    if !IsServerUp(p.outcome) then
      StepResult(spinner, [Print(DownLine(p.time)), Notify(DownNotification(c))], p.post == PostRaised)
    else
      StepResult((spinner + 1) % 4, [Print(OkLine(p.time, SpinnerSymbols[spinner]))], false)
  }

  /** The poll loop over a finite sequence of polls, starting with the spinner
      at `spinner`. Once a POST has raised, no later poll runs. */
  function Run(c: Credentials, spinner: nat, polls: seq<Poll>): (r: StepResult)
    requires spinner < |SpinnerSymbols|
    ensures r.spinner < |SpinnerSymbols|
    ensures r.crashed <==> Raised(polls)
    decreases |polls|
  {
    if polls == [] then
      StepResult(spinner, [], false)
    else
      var front, last := polls[..|polls| - 1], polls[|polls| - 1];
      var before := Run(c, spinner, front);
      if before.crashed then
        assert front[..] == polls[..|polls| - 1];
        before
      else
        var step := PollStep(c, before.spinner, last);
        assert forall i :: 0 <= i < |front| ==> front[i] == polls[i];
        StepResult(step.spinner, before.events + step.events, step.crashed)
  }

  /** The polls the loop actually runs: all of them, or those up to and
      including the first whose notification POST raises. */
  function Ran(polls: seq<Poll>): (ran: seq<Poll>)
    ensures ran <= polls
    ensures !Raised(polls) ==> ran == polls
    ensures Raised(polls) ==> ran != [] && PostRaises(ran[|ran| - 1])
    ensures forall i :: 0 <= i < |ran| - 1 ==> !PostRaises(ran[i])
    decreases |polls|
  {
    if polls == [] then
      polls
    else
      var front := polls[..|polls| - 1];
      if Raised(front) then
        assert front <= polls;
        Ran(front)
      else
        assert forall i :: 0 <= i < |front| ==> front[i] == polls[i];
        polls
  }

  // ---------------------------------------------------------------------
  // Observations of polls and events
  // ---------------------------------------------------------------------

  /** The number of polls that found the server down. */
  function DownCount(polls: seq<Poll>): nat
  {
    if polls == [] then 0
    else DownCount(polls[..|polls| - 1]) + (if IsServerUp(polls[|polls| - 1].outcome) then 0 else 1)
  }

  /** The number of polls that found the server up. */
  function UpCount(polls: seq<Poll>): nat
  {
    if polls == [] then 0
    else UpCount(polls[..|polls| - 1]) + (if IsServerUp(polls[|polls| - 1].outcome) then 1 else 0)
  }

  /** The notifications posted, in order. */
  function Notifications(events: seq<Event>): seq<Notification>
  {
    if events == [] then []
    else
      var last := events[|events| - 1];
      Notifications(events[..|events| - 1]) + (if last.Notify? then [last.notification] else [])
  }

  /** The status lines printed, in order. */
  function StatusLines(events: seq<Event>): seq<StatusLine>
  {
    if events == [] then []
    else
      var last := events[|events| - 1];
      StatusLines(events[..|events| - 1]) + (if last.Print? then [last.line] else [])
  }

  /** The spinner symbols shown by the OK lines, in order. */
  function OkSpins(events: seq<Event>): seq<string>
  {
    if events == [] then []
    else
      var last := events[|events| - 1];
      OkSpins(events[..|events| - 1]) + (if last.Print? && last.line.OkLine? then [last.line.spin] else [])
  }

  /** Each observation distributes over concatenated event logs. */
  lemma {:induction false} NotificationsAppend(a: seq<Event>, b: seq<Event>)
    ensures Notifications(a + b) == Notifications(a) + Notifications(b)
    decreases |b|
  {
    if b == [] {
      assert a + b == a;
    } else {
      assert (a + b)[..|a + b| - 1] == a + b[..|b| - 1];
      NotificationsAppend(a, b[..|b| - 1]);
    }
  }

  lemma {:induction false} StatusLinesAppend(a: seq<Event>, b: seq<Event>)
    ensures StatusLines(a + b) == StatusLines(a) + StatusLines(b)
    decreases |b|
  {
    if b == [] {
      assert a + b == a;
    } else {
      assert (a + b)[..|a + b| - 1] == a + b[..|b| - 1];
      StatusLinesAppend(a, b[..|b| - 1]);
    }
  }

  lemma {:induction false} OkSpinsAppend(a: seq<Event>, b: seq<Event>)
    ensures OkSpins(a + b) == OkSpins(a) + OkSpins(b)
    decreases |b|
  {
    if b == [] {
      assert a + b == a;
    } else {
      assert (a + b)[..|a + b| - 1] == a + b[..|b| - 1];
      OkSpinsAppend(a, b[..|b| - 1]);
    }
  }

  /** A single poll step prints one status line, its first event. */
  lemma StepStatusLines(c: Credentials, spinner: nat, p: Poll)
    requires spinner < |SpinnerSymbols|
    ensures StatusLines(PollStep(c, spinner, p).events) == [PollStep(c, spinner, p).events[0].line]
  {
    var e := PollStep(c, spinner, p).events;
    var first := e[..1];
    assert first[..0] == [];
    assert StatusLines(first) == [e[0].line];
    if !IsServerUp(p.outcome) {
      assert e[..|e| - 1] == first;
    }
  }

  /** A single poll step posts one notification when down and none when up. */
  lemma StepNotifications(c: Credentials, spinner: nat, p: Poll)
    requires spinner < |SpinnerSymbols|
    ensures Notifications(PollStep(c, spinner, p).events)
         == if IsServerUp(p.outcome) then [] else [DownNotification(c)]
  {
    var e := PollStep(c, spinner, p).events;
    var first := e[..1];
    assert first[..0] == [];
    assert Notifications(first) == [];
    if !IsServerUp(p.outcome) {
      assert e[..|e| - 1] == first;
    }
  }

  /** A single poll step shows the current spinner symbol when up and none
      when down. */
  lemma StepOkSpins(c: Credentials, spinner: nat, p: Poll)
    requires spinner < |SpinnerSymbols|
    ensures OkSpins(PollStep(c, spinner, p).events)
         == if IsServerUp(p.outcome) then [SpinnerSymbols[spinner]] else []
  {
    var e := PollStep(c, spinner, p).events;
    var first := e[..1];
    assert first[..0] == [];
    assert OkSpins(first) == if IsServerUp(p.outcome) then [SpinnerSymbols[spinner]] else [];
    if !IsServerUp(p.outcome) {
      assert e[..|e| - 1] == first;
    }
  }

  /** One more poll: after a raise the run and the polls that ran stay as
      they were; otherwise every poll ran and the new poll is one more step. */
  lemma RunSnoc(c: Credentials, spinner: nat, polls: seq<Poll>)
    requires spinner < |SpinnerSymbols| && polls != []
    ensures Raised(polls[..|polls| - 1]) ==>
      Run(c, spinner, polls) == Run(c, spinner, polls[..|polls| - 1]) && Ran(polls) == Ran(polls[..|polls| - 1])
    ensures !Raised(polls[..|polls| - 1]) ==>
      Ran(polls[..|polls| - 1]) == polls[..|polls| - 1] && Ran(polls) == polls &&
      var before := Run(c, spinner, polls[..|polls| - 1]);
      var step := PollStep(c, before.spinner, polls[|polls| - 1]);
      Run(c, spinner, polls) == StepResult(step.spinner, before.events + step.events, step.crashed)
  {
  }

  // ---------------------------------------------------------------------
  // Properties of a run
  // ---------------------------------------------------------------------

  /** `lines` are the status lines of `polls`, one per poll and in order:
      each carries its poll's time, is the down line exactly when the poll
      found the server down, and an OK line shows the symbol `start` plus the
      number of earlier up polls, cyclically. */
  predicate LinesMatchPolls(lines: seq<StatusLine>, polls: seq<Poll>, start: nat)
  {
    |lines| == |polls| && forall i :: 0 <= i < |polls| ==> LineMatchesAt(lines, polls, start, i)
  }

  /** Line `i` of `lines` is the status line of poll `i` of `polls`. */
  predicate LineMatchesAt(lines: seq<StatusLine>, polls: seq<Poll>, start: nat, i: nat)
    requires i < |lines| && i < |polls|
  {
    LineMatchesPoll(lines[i], polls[i], start + UpCount(polls[..i]))
  }

  /** `line` is the status line of poll `p` when the spinner has taken `steps`
      steps from its first symbol. */
  predicate LineMatchesPoll(line: StatusLine, p: Poll, steps: nat)
  {
    line.time == p.time &&
    (line.DownLine? <==> !IsServerUp(p.outcome)) &&
    (line.OkLine? ==> line.spin == SpinnerSymbols[steps % 4])
  }

  lemma LinesMatchSnoc(lines: seq<StatusLine>, polls: seq<Poll>, start: nat, line: StatusLine, p: Poll)
    requires LinesMatchPolls(lines, polls, start)
    requires LineMatchesPoll(line, p, start + UpCount(polls))
    ensures LinesMatchPolls(lines + [line], polls + [p], start)
  {
    forall i | 0 <= i < |polls| + 1
      ensures LineMatchesAt(lines + [line], polls + [p], start, i)
    {
      if i < |polls| {
        LineMatchesAtSnoc(lines, polls, start, line, p, i);
      } else {
        assert (polls + [p])[..i] == polls;
      }
    }
  }

  /** Appending a line and a poll leaves the earlier lines matching. */
  lemma LineMatchesAtSnoc(lines: seq<StatusLine>, polls: seq<Poll>, start: nat, line: StatusLine, p: Poll, i: nat)
    requires i < |lines| == |polls|
    requires LineMatchesAt(lines, polls, start, i)
    ensures LineMatchesAt(lines + [line], polls + [p], start, i)
  {
    assert (polls + [p])[..i] == polls[..i];
  }

  /** A run whose POST has raised stays as it is, whatever polls follow. */
  lemma {:induction false} CrashedRunStays(c: Credentials, spinner: nat, polls: seq<Poll>, rest: seq<Poll>)
    requires spinner < |SpinnerSymbols|
    requires Run(c, spinner, polls).crashed
    ensures Run(c, spinner, polls + rest) == Run(c, spinner, polls)
    decreases |rest|
  {
    if rest == [] {
      assert polls + rest == polls;
    } else {
      var rest' := rest[..|rest| - 1];
      assert (polls + rest)[..|polls + rest| - 1] == polls + rest';
      CrashedRunStays(c, spinner, polls, rest');
    }
  }

  /** The first poll whose notification POST raises ends the script: it
      prints its down line and issues its POST, and no later poll runs. */
  lemma RaisingPostEndsRun(c: Credentials, spinner: nat, polls: seq<Poll>, p: Poll, rest: seq<Poll>)
    requires spinner < |SpinnerSymbols|
    requires !Raised(polls) && PostRaises(p)
    ensures Run(c, spinner, polls + [p] + rest).crashed
    ensures Run(c, spinner, polls + [p] + rest).events
         == Run(c, spinner, polls).events + [Print(DownLine(p.time)), Notify(DownNotification(c))]
    ensures Ran(polls + [p] + rest) == polls + [p]
  {
    var upTo := polls + [p];
    assert upTo[..|upTo| - 1] == polls;
    assert Run(c, spinner, upTo).crashed;
    CrashedRunStays(c, spinner, upTo, rest);
    var all := upTo + rest;
    assert all[|polls|] == p;
    assert forall i :: 0 <= i < |polls| ==> all[i] == polls[i];
    assert all[..|upTo|] == upTo;
  }

  // The inductive steps of the run lemmas below, each stated for the state
  // `before` reached after all polls but the last.

  lemma LinesStep(c: Credentials, start: nat, before: StepResult, polls: seq<Poll>)
    requires polls != [] && before.spinner < |SpinnerSymbols|
    requires LinesMatchPolls(StatusLines(before.events), polls[..|polls| - 1], start)
    requires before.spinner == (start + UpCount(polls[..|polls| - 1])) % 4
    ensures LinesMatchPolls(StatusLines(before.events + PollStep(c, before.spinner, polls[|polls| - 1]).events), polls, start)
  {
    var front, last := polls[..|polls| - 1], polls[|polls| - 1];
    var step := PollStep(c, before.spinner, last);
    StatusLinesAppend(before.events, step.events);
    StepStatusLines(c, before.spinner, last);
    LinesMatchSnoc(StatusLines(before.events), front, start, step.events[0].line, last);
    assert front + [last] == polls;
  }

  lemma NotificationsStep(c: Credentials, before: StepResult, polls: seq<Poll>)
    requires polls != [] && before.spinner < |SpinnerSymbols|
    requires |Notifications(before.events)| == DownCount(polls[..|polls| - 1])
    requires forall n :: n in Notifications(before.events) ==> n == DownNotification(c)
    ensures |Notifications(before.events + PollStep(c, before.spinner, polls[|polls| - 1]).events)| == DownCount(polls)
    ensures var ns := Notifications(before.events + PollStep(c, before.spinner, polls[|polls| - 1]).events);
      forall n :: n in ns ==> n == DownNotification(c)
  {
    var step := PollStep(c, before.spinner, polls[|polls| - 1]);
    NotificationsAppend(before.events, step.events);
    StepNotifications(c, before.spinner, polls[|polls| - 1]);
  }

  lemma SpinnerStep(c: Credentials, start: nat, steps: nat, spinner: nat, p: Poll)
    requires spinner == (start + steps) % 4
    ensures PollStep(c, spinner, p).spinner == (start + steps + if IsServerUp(p.outcome) then 1 else 0) % 4
  {
    CycleAdvance(start, steps, spinner, IsServerUp(p.outcome));
  }

  lemma OkSpinsStep(c: Credentials, start: nat, before: StepResult, polls: seq<Poll>)
    requires polls != [] && before.spinner < |SpinnerSymbols|
    requires before.spinner == (start + UpCount(polls[..|polls| - 1])) % 4
    requires |OkSpins(before.events)| == UpCount(polls[..|polls| - 1])
    requires CyclesFrom(OkSpins(before.events), start)
    ensures |OkSpins(before.events + PollStep(c, before.spinner, polls[|polls| - 1]).events)| == UpCount(polls)
    ensures CyclesFrom(OkSpins(before.events + PollStep(c, before.spinner, polls[|polls| - 1]).events), start)
  {
    var last := polls[|polls| - 1];
    var step := PollStep(c, before.spinner, last);
    var spins := OkSpins(before.events);
    OkSpinsAppend(before.events, step.events);
    StepOkSpins(c, before.spinner, last);
    if IsServerUp(last.outcome) {
      CyclesFromSnoc(spins, start, SpinnerSymbols[before.spinner]);
    } else {
      assert spins + [] == spins;
    }
  }

  /** Every poll that runs prints exactly one status line, in poll order,
      carrying the poll's time; it is the down line exactly when the poll
      found the server down, and an OK line shows the symbol after as many
      steps as there were earlier up polls. */
  lemma {:induction false} OneLinePerPoll(c: Credentials, spinner: nat, polls: seq<Poll>)
    requires spinner < |SpinnerSymbols|
    ensures LinesMatchPolls(StatusLines(Run(c, spinner, polls).events), Ran(polls), spinner)
    decreases |polls|
  {
    if polls != [] {
      var front, last := polls[..|polls| - 1], polls[|polls| - 1];
      OneLinePerPoll(c, spinner, front);
      RunSnoc(c, spinner, polls);
      if !Raised(front) {
        SpinnerCountsUps(c, spinner, front);
        LinesStep(c, spinner, Run(c, spinner, front), polls);
      }
    }
  }

  /** Every down poll that runs issues exactly one notification POST,
      consecutive down polls included, and an up poll issues none: the
      notifications are as many as the down polls that ran, and each is the
      down message for the monitored URL. */
  lemma {:induction false} NotificationPerDownPoll(c: Credentials, spinner: nat, polls: seq<Poll>)
    requires spinner < |SpinnerSymbols|
    ensures |Notifications(Run(c, spinner, polls).events)| == DownCount(Ran(polls))
    ensures forall n :: n in Notifications(Run(c, spinner, polls).events) ==> n == DownNotification(c)
    decreases |polls|
  {
    if polls != [] {
      var front, last := polls[..|polls| - 1], polls[|polls| - 1];
      NotificationPerDownPoll(c, spinner, front);
      RunSnoc(c, spinner, polls);
      if !Raised(front) {
        NotificationsStep(c, Run(c, spinner, front), polls);
      }
    }
  }

  /** One more poll adds one notification if it runs and is down, and none
      otherwise, whatever the earlier polls were: notification is per down
      poll, not per up-to-down transition. */
  lemma NotificationsGrowOnDown(c: Credentials, spinner: nat, polls: seq<Poll>, p: Poll)
    requires spinner < |SpinnerSymbols|
    ensures |Notifications(Run(c, spinner, polls + [p]).events)|
         == |Notifications(Run(c, spinner, polls).events)| + (if Raised(polls) || IsServerUp(p.outcome) then 0 else 1)
  {
    assert (polls + [p])[..|polls|] == polls;
    var before := Run(c, spinner, polls);
    if !Raised(polls) {
      var step := PollStep(c, before.spinner, p);
      NotificationsAppend(before.events, step.events);
      StepNotifications(c, before.spinner, p);
    }
  }

  /** The spinner moves one position per up poll that runs and never on a
      down poll. */
  lemma {:induction false} SpinnerCountsUps(c: Credentials, spinner: nat, polls: seq<Poll>)
    requires spinner < |SpinnerSymbols|
    ensures Run(c, spinner, polls).spinner == (spinner + UpCount(Ran(polls))) % 4
    decreases |polls|
  {
    if polls != [] {
      var front, last := polls[..|polls| - 1], polls[|polls| - 1];
      SpinnerCountsUps(c, spinner, front);
      RunSnoc(c, spinner, polls);
      if !Raised(front) {
        SpinnerStep(c, spinner, UpCount(front), Run(c, spinner, front).spinner, last);
        assert UpCount(polls) == UpCount(front) + if IsServerUp(last.outcome) then 1 else 0;
      }
    }
  }

  /** `spins` are the spinner symbols in cycle order, the first of them at
      index `start`. */
  predicate CyclesFrom(spins: seq<string>, start: nat)
  {
    forall k :: 0 <= k < |spins| ==> spins[k] == SpinnerSymbols[(start + k) % 4]
  }

  lemma CyclesFromSnoc(spins: seq<string>, start: nat, spin: string)
    requires CyclesFrom(spins, start)
    requires spin == SpinnerSymbols[(start + |spins|) % 4]
    ensures CyclesFrom(spins + [spin], start)
  {
    var spins' := spins + [spin];
    forall k | 0 <= k < |spins'|
      ensures spins'[k] == SpinnerSymbols[(start + k) % 4]
    {
      if k < |spins| {
        assert spins'[k] == spins[k];
      }
    }
  }

  /** The k-th OK line of a run (counting from 0) shows the symbol k
      positions after the starting one, cyclically; there is one OK line per
      up poll that runs. */
  lemma {:induction false} OkSpinsCycle(c: Credentials, spinner: nat, polls: seq<Poll>)
    requires spinner < |SpinnerSymbols|
    ensures |OkSpins(Run(c, spinner, polls).events)| == UpCount(Ran(polls))
    ensures CyclesFrom(OkSpins(Run(c, spinner, polls).events), spinner)
    decreases |polls|
  {
    if polls != [] {
      var front, last := polls[..|polls| - 1], polls[|polls| - 1];
      OkSpinsCycle(c, spinner, front);
      RunSnoc(c, spinner, polls);
      if !Raised(front) {
        SpinnerCountsUps(c, spinner, front);
        OkSpinsStep(c, spinner, Run(c, spinner, front), polls);
      }
    }
  }

  /** The four spinner symbols are pairwise different. */
  lemma SpinnerSymbolsDistinct(i: nat, j: nat)
    requires i < |SpinnerSymbols| && j < |SpinnerSymbols|
    ensures SpinnerSymbols[i] == SpinnerSymbols[j] <==> i == j
  {
    if i != j {
      assert SpinnerSymbols[i][0] != SpinnerSymbols[j][0] || SpinnerSymbols[i][1] != SpinnerSymbols[j][1];
    }
  }

  /** Starting from the first symbol, the OK lines show the symbols with
      period exactly 4: two OK lines show the same symbol iff their positions
      differ by a multiple of 4, so after k up polls the next symbol is the
      one at index k mod 4. */
  lemma SpinnerPeriodFour(c: Credentials, polls: seq<Poll>)
    ensures Run(c, 0, polls).spinner == UpCount(Ran(polls)) % 4
    ensures forall i, j :: 0 <= i <= j < |OkSpins(Run(c, 0, polls).events)| ==>
      (OkSpins(Run(c, 0, polls).events)[i] == OkSpins(Run(c, 0, polls).events)[j] <==> (j - i) % 4 == 0)
  {
    SpinnerCountsUps(c, 0, polls);
    OkSpinsCycle(c, 0, polls);
    var spins := OkSpins(Run(c, 0, polls).events);
    forall i, j | 0 <= i <= j < |spins|
      ensures spins[i] == spins[j] <==> (j - i) % 4 == 0
    {
      SpinnerSymbolsDistinct(i % 4, j % 4);
      ModFourDifference(i, j);
    }
  }

  /** Position `spinner` of the cycle, reached after `steps` steps from
      `start`, moves on to the position after `steps + 1` steps exactly when
      it moves. */
  lemma CycleAdvance(start: nat, steps: nat, spinner: nat, moves: bool)
    requires spinner == (start + steps) % 4
    ensures (if moves then (spinner + 1) % 4 else spinner) == (start + steps + if moves then 1 else 0) % 4
  {
  }

  /** Two positions have the same remainder modulo 4 iff their distance is a
      multiple of 4. */
  lemma ModFourDifference(i: nat, j: nat)
    requires i <= j
    ensures i % 4 == j % 4 <==> (j - i) % 4 == 0
  {
    var q, r := i / 4, i % 4;
    var q', r' := j / 4, j % 4;
    assert i == 4 * q + r && j == 4 * q' + r';
    assert j - i == 4 * (q' - q) + (r' - r);
  }

  // ---------------------------------------------------------------------
  // A loop that absorbs notification failures
  // ---------------------------------------------------------------------

  /** The poll as it behaves when `send_notification` swallows the exception
      of its POST: the POST is still issued, and the loop goes on. */
  function Absorb(p: Poll): Poll
  {
    p.(post := PostReturned)
  }

  /** Every poll with its POST failure absorbed. */
  function AbsorbAll(polls: seq<Poll>): (absorbed: seq<Poll>)
    ensures |absorbed| == |polls|
    ensures forall i :: 0 <= i < |polls| ==> absorbed[i] == Absorb(polls[i])
    ensures !Raised(absorbed)
  {
    seq(|polls|, i requires 0 <= i < |polls| => Absorb(polls[i]))
  }

  /** Absorbing POST failures keeps the number of down and of up polls. */
  lemma {:induction false} AbsorbKeepsCounts(polls: seq<Poll>)
    ensures DownCount(AbsorbAll(polls)) == DownCount(polls)
    ensures UpCount(AbsorbAll(polls)) == UpCount(polls)
    decreases |polls|
  {
    if polls != [] {
      var front := polls[..|polls| - 1];
      AbsorbKeepsCounts(front);
      assert AbsorbAll(polls)[..|polls| - 1] == AbsorbAll(front);
    }
  }

  /** Lines that match the absorbed polls match the polls themselves: a poll
      keeps its time and outcome, and so every prefix keeps its up count. */
  lemma LinesMatchAbsorbed(lines: seq<StatusLine>, polls: seq<Poll>, start: nat)
    requires LinesMatchPolls(lines, AbsorbAll(polls), start)
    ensures LinesMatchPolls(lines, polls, start)
  {
    forall i | 0 <= i < |polls|
      ensures LineMatchesAt(lines, polls, start, i)
    {
      assert LineMatchesAt(lines, AbsorbAll(polls), start, i);
      assert AbsorbAll(polls)[..i] == AbsorbAll(polls[..i]);
      AbsorbKeepsCounts(polls[..i]);
    }
  }

  /** The poll loop with every notification failure absorbed: it never ends
      early, prints one matching status line per poll, in order, and posts
      the down notification once per down poll. */
  function AbsorbingRun(c: Credentials, spinner: nat, polls: seq<Poll>): (r: StepResult)
    requires spinner < |SpinnerSymbols|
    ensures !r.crashed
    ensures LinesMatchPolls(StatusLines(r.events), polls, spinner)
    ensures |Notifications(r.events)| == DownCount(polls)
    ensures forall n :: n in Notifications(r.events) ==> n == DownNotification(c)
  {
    var absorbed := AbsorbAll(polls);
    OneLinePerPoll(c, spinner, absorbed);
    NotificationPerDownPoll(c, spinner, absorbed);
    AbsorbKeepsCounts(polls);
    LinesMatchAbsorbed(StatusLines(Run(c, spinner, absorbed).events), polls, spinner);
    Run(c, spinner, absorbed)
  }

  // ---------------------------------------------------------------------
  // The whole program on a finite prefix of polls
  // ---------------------------------------------------------------------

  /** What the program does: exit at startup, run the poll loop over every
      poll, or die of an uncaught exception from a notification POST, with
      exit status `code`, after the events in `events`. */
  datatype ProgramOutput =
    | Exited(code: int, stderr: string)
    | Polled(events: seq<Event>)
    | Crashed(code: int, events: seq<Event>)

  /** The program on a finite sequence of polls: the credential check, then
      the poll loop with the spinner at its first symbol. */
  function MonitorProgram(token: Option<string>, user: Option<string>, polls: seq<Poll>): (r: ProgramOutput)
    ensures r.Exited? <==> !IsPresent(token) || !IsPresent(user)
    ensures r.Exited? ==> r.code == 1 && r.stderr == MissingCredentialsError
    ensures r.Crashed? <==> !r.Exited? && Raised(polls)
    ensures r.Crashed? ==> r.code == 1
    ensures !r.Exited? ==> LinesMatchPolls(StatusLines(r.events), Ran(polls), 0)
    ensures !r.Exited? ==> |Notifications(r.events)| == DownCount(Ran(polls))
    ensures !r.Exited? ==> forall n :: n in Notifications(r.events) ==>
      n == DownNotification(Credentials(token.value, user.value))
  {
    match CheckEnvironment(token, user)
    case Exit(code, stderr) => Exited(code, stderr)
    case Proceed(c) =>
      OneLinePerPoll(c, 0, polls);
      NotificationPerDownPoll(c, 0, polls);
      var run := Run(c, 0, polls);
      if run.crashed then Crashed(1, run.events) else Polled(run.events)
  }

  // ---------------------------------------------------------------------
  // The poll loop as the program runs it
  // ---------------------------------------------------------------------

  /** The monitor's mutable state: the position of the cycling spinner and
      the log of what it has printed and posted. */
  class Monitor {
    const creds: Credentials
    var spinner: nat
    var events: seq<Event>

    ghost predicate Valid()
      reads this
    {
      spinner < |SpinnerSymbols|
    }

    constructor (creds: Credentials)
      ensures Valid()
      ensures this.creds == creds && spinner == 0 && events == []
    {
      this.creds := creds;
      spinner := 0;
      events := [];
    }

    /** Takes the next symbol from the spinner cycle. */
    method NextSpin() returns (spin: string)
      requires Valid()
      modifies this`spinner
      ensures Valid()
      ensures spin == SpinnerSymbols[old(spinner)]
      ensures spinner == (old(spinner) + 1) % 4
    {
      spin := SpinnerSymbols[spinner];
      spinner := (spinner + 1) % 4;
    }

    /** Issues the POST of the down message to the notification API;
      `raised` reports that the POST raised instead of returning. */
    method SendNotification(post: PostOutcome) returns (raised: bool)
      modifies this`events
      ensures events == old(events) + [Notify(DownNotification(creds))]
      ensures raised <==> post == PostRaised
    {
      var message := NotificationMessage(ApiUrl);
      events := events + [Notify(Notification(PushoverEndpoint, creds.token, creds.user, message))];
      raised := post == PostRaised;
    }

    /** One iteration of the poll loop; `raised` reports an exception that
        escapes it. */
    method Step(p: Poll) returns (raised: bool)
      requires Valid()
      modifies this
      ensures Valid()
      ensures spinner == PollStep(creds, old(spinner), p).spinner
      ensures events == old(events) + PollStep(creds, old(spinner), p).events
      ensures raised == PollStep(creds, old(spinner), p).crashed
    {
      if !IsServerUp(p.outcome) {
        events := events + [Print(DownLine(p.time))];
        raised := SendNotification(p.post);
      } else {
        var spin := NextSpin();
        events := events + [Print(OkLine(p.time, spin))];
        raised := false;
      }
    }

    /** The poll loop over the given polls, in order, until they are used up
        or a notification POST raises. */
    method RunPolls(polls: array<Poll>) returns (crashed: bool)
      requires Valid()
      modifies this
      ensures Valid()
      ensures spinner == Run(creds, old(spinner), polls[..]).spinner
      ensures events == old(events) + Run(creds, old(spinner), polls[..]).events
      ensures crashed == Run(creds, old(spinner), polls[..]).crashed
    {
      crashed := false;
      var i := 0;
      while i < polls.Length && !crashed
        invariant 0 <= i <= polls.Length
        invariant Valid()
        invariant spinner == Run(creds, old(spinner), polls[..i]).spinner
        invariant events == old(events) + Run(creds, old(spinner), polls[..i]).events
        invariant crashed == Run(creds, old(spinner), polls[..i]).crashed
      {
        assert polls[..i + 1][..i] == polls[..i];
        crashed := Step(polls[i]);
        i := i + 1;
      }
      if crashed {
        CrashedRunStays(creds, old(spinner), polls[..i], polls[i..]);
        assert polls[..i] + polls[i..] == polls[..];
      } else {
        assert polls[..i] == polls[..];
      }
    }
  }

  /** The program: check the credentials, exit with code 1 if one is missing,
      otherwise run the poll loop on a fresh spinner. */
  method MonitorServer(token: Option<string>, user: Option<string>, polls: array<Poll>)
    returns (r: ProgramOutput)
    ensures r == MonitorProgram(token, user, polls[..])
  {
    var startup := CheckEnvironment(token, user);
    if startup.Exit? {
      return Exited(startup.code, startup.stderr);
    }
    var monitor := new Monitor(startup.creds);
    var crashed := monitor.RunPolls(polls);
    r := if crashed then Crashed(1, monitor.events) else Polled(monitor.events);
  }
}
