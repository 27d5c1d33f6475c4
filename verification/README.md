# server-monitor in Dafny

A model of `server-monitor.py`, a polling liveness monitor for one HTTP
endpoint (`https://api.spacebots.io:8443/ping`). At startup the program
checks that the two Pushover credentials `PUSHOVER_TOKEN` and
`PUSHOVER_USER` are set. If one is missing, it writes an error to standard
error and exits with code 1. Otherwise it loops forever:

- It takes the current time.
- It requests the endpoint.
- If the server is down, it prints a red "[time] The server is down!" line
  and posts a push notification "Server <url> is down!".
- If the server is up, it prints a green "[time] OK <spin>" line. Here
  `<spin>` is the next symbol of a spinner that cycles ┌─ └─ └┐ ┌┘.
- It sleeps 300 seconds.

The model replaces the network and the clock with inputs. A poll is its
formatted time (an opaque string), the outcome of its request (a response
with a status code, or a request exception) and, for a down poll, whether
the notification POST returns or raises. Whatever the program prints or
posts becomes an event in a log. The infinite loop becomes a run over a
finite array of polls. `send_notification` does not catch the exceptions
of its POST, so the first POST that raises ends the script right after
that poll's down line; the model ends the run there too.

Files:

- `wrappers.dfy`: the `Option` datatype.
- `server_monitor.dfy`: module `ServerMonitor`. It holds the constants, the
  credential check, the up/down predicate, the notification message and
  its inverse, and the status lines and their inverse. It also holds the
  pure specification of one poll step and of a run (`PollStep`, `Run`,
  and `Ran`, the polls that actually run), the lemmas about runs, and the
  class `Monitor`. That class holds the spinner position and the event
  log, and its `Step` and `RunPolls` methods update them in place, as the
  script's loop advances its global `itertools.cycle`. `MonitorServer` is
  the whole program on a finite array of polls.

The code sends a notification on every down poll, including a down poll
that follows another down poll (`NotificationsGrowOnDown`). A down poll
leaves the spinner where it is, and an up poll moves it one step.

## Model

| member | source | states |
|---|---|---|
| `ServerMonitor.CheckEnvironment` | server-monitor.py:10-15 | startup proceeds exactly when both variables are set and non-empty, and carries their values; otherwise the result is exit code 1 with the standard-error message |
| `ServerMonitor.IsServerUp` | server-monitor.py:28-33 | a poll is up exactly when it got a response with status 200; any other status and any request exception are down |
| `ServerMonitor.NotificationMessage` | server-monitor.py:35-36 | the down message for a URL reads back as that URL (`MessageUrl` is its inverse; `MessageUrlIff` gives the other direction) |
| `ServerMonitor.MessageUrlIff` | server-monitor.py:35-36 | a message decodes to a URL exactly when it is "Server " + URL + " is down!", so the down message names the URL and can be read back |
| `ServerMonitor.DownNotification` | server-monitor.py:35-41 | the posted form goes to the Pushover messages endpoint, carries both credentials, and its message decodes to the monitored API URL |
| `ServerMonitor.RenderLine` | server-monitor.py:46-53 | every status line the loop prints (a down line, or an OK line with one of the four symbols) reads back as the same line, whatever the timestamp text, so a down line and an OK line are never confused; `RenderParseLine` gives the other direction |
| `ServerMonitor.ParseRenderLine` | server-monitor.py:46-53 | the text "[" + body + reset of a down line, or of an OK line with one of the four symbols, reads back as that line |
| `ServerMonitor.FrameRoundTrip` | server-monitor.py:46-53 | reading a printed line strips the leading "[" and the trailing colour reset and reads the body between them |
| `ServerMonitor.RenderParseLine` | server-monitor.py:46-53 | any text read back as a status line is exactly that line as printed, and its spinner field is one of the four symbols |
| `ServerMonitor.StepStatusLines` | server-monitor.py:45-53 | one loop iteration prints exactly one status line |
| `ServerMonitor.StepNotifications` | server-monitor.py:45-48 | one iteration posts exactly one notification when down and none when up |
| `ServerMonitor.StepOkSpins` | server-monitor.py:48-53 | one iteration shows the current spinner symbol when up and none when down |
| `ServerMonitor.PollStep` | server-monitor.py:43-54 | one iteration: the spinner moves one step exactly when the poll is up; the first event is the status line with the poll's time; an up line shows the current symbol; a down line is followed by one notification; the iteration raises exactly when its POST raises |
| `ServerMonitor.Run` | server-monitor.py:43-54 | folding the step over a finite sequence of polls keeps the spinner inside the 4-symbol cycle, and the run ends by an exception exactly when some poll's POST raises |
| `ServerMonitor.Ran` | server-monitor.py:37-47 | the polls that run are a prefix of the polls: all of them if no POST raises, otherwise they end at the first poll whose POST raises |
| `ServerMonitor.CrashedRunStays` | server-monitor.py:37-47 | once a POST has raised, later polls change nothing: the loop has ended |
| `ServerMonitor.RaisingPostEndsRun` | server-monitor.py:37-47 | a POST that raises ends the script after its poll's down line and notification, and no later poll runs |
| `ServerMonitor.OneLinePerPoll` | server-monitor.py:45-53 | a run prints one status line per poll that runs, in poll order, with the poll's time; a line is the down line exactly when its poll was down, and an OK line shows the symbol after as many steps as there were earlier up polls |
| `ServerMonitor.NotificationPerDownPoll` | server-monitor.py:45-47 | a run posts as many notifications as there are down polls that run, and each is the down notification |
| `ServerMonitor.NotificationsGrowOnDown` | server-monitor.py:45-47 | one more poll adds one notification if it runs and is down and none otherwise, whatever came before, consecutive down polls included |
| `ServerMonitor.SpinnerCountsUps` | server-monitor.py:45-50 | after a run the spinner has moved once per up poll that ran (mod 4); down polls never move it |
| `ServerMonitor.OkSpinsCycle` | server-monitor.py:26-53 | a run prints one OK symbol per up poll that runs, and the k-th is the symbol k places after the starting one, cyclically |
| `ServerMonitor.SpinnerSymbolsDistinct` | server-monitor.py:26 | the four spinner symbols are pairwise different |
| `ServerMonitor.SpinnerPeriodFour` | server-monitor.py:26-53 | starting from ┌─, after k up polls the spinner is at index k mod 4, and two OK lines show the same symbol exactly when their positions differ by a multiple of 4 |
| `ServerMonitor.AbsorbKeepsCounts` | server-monitor.py:35-47 | absorbing POST failures leaves the number of down polls and of up polls unchanged |
| `ServerMonitor.LinesMatchAbsorbed` | server-monitor.py:43-53 | status lines that match the polls with POST failures absorbed also match the original polls, because absorbing keeps each poll's time and outcome |
| `ServerMonitor.AbsorbingRun` | server-monitor.py:35-47 | with the POST's exceptions absorbed, the loop never ends early; it prints one matching status line per poll, in order and with the right spinner symbols, and posts the down notification once per down poll |
| `ServerMonitor.MonitorProgram` | server-monitor.py:10-54 | the program exits at startup, before any poll, exactly when a credential is missing, with code 1 and the error message; otherwise it crashes with exit status 1 exactly when a POST raises, and prints one matching line per poll that runs and one down notification, with the given credentials, per down poll that runs |
| `ServerMonitor.Monitor.constructor` | server-monitor.py:26 | a fresh monitor has the spinner at its first symbol and an empty log |
| `ServerMonitor.Monitor.NextSpin` | server-monitor.py:50 | `next` on the cycle returns the symbol at the current position and moves the position one step, wrapping after the fourth |
| `ServerMonitor.Monitor.SendNotification` | server-monitor.py:35-41 | posting appends exactly the down notification to the log, and reports whether the POST raised |
| `ServerMonitor.Monitor.Step` | server-monitor.py:44-53 | the in-place iteration leaves the spinner and the log exactly as `PollStep` describes, and raises exactly when it does |
| `ServerMonitor.Monitor.RunPolls` | server-monitor.py:43-54 | the loop over an array of polls, stopped by the first raising POST, leaves the spinner and the log exactly as `Run` describes |
| `ServerMonitor.MonitorServer` | server-monitor.py:10-54 | the imperative program, with the credential check, a fresh monitor and the loop, produces exactly `MonitorProgram`'s output |

## Left out

- The HTTP GET of `is_server_up` and the POST of `send_notification` (server-monitor.py:30, 37-41) are network calls into the `requests` library. A poll's outcome and its POST's outcome (returns or raises) are inputs, and a post is a `Notify` event with the form data. An error response to the POST is ignored, as in the script.
- The POST has no timeout, so it can block forever; a run over a finite sequence of polls does not model a poll that never finishes.
- Reading the environment (server-monitor.py:10-11) is replaced by two `Option<string>` parameters. Writing to standard error is the `stderr` field of the exit result; the traceback printed on a crash is not modelled, only its exit status 1.
- `datetime.now().strftime(...)` (server-monitor.py:44) is replaced by the poll's time, an opaque string. `time.sleep(CHECK_INTERVAL)` (server-monitor.py:54) is not modelled; the constant `CheckInterval` records the interval only.
- The infinite `while True` is modelled as a run over a finite sequence (or array) of polls.
- The ANSI colour escapes are kept only as literal strings inside the rendered lines.
- `random_emoji` (server-monitor.py:57-58) is defined after the infinite loop, so it is never reached, and it is random. It is not modelled.

## Findings

| source | as written | input that shows it | evidently intended | confidence | as-written member | corrected member |
|---|---|---|---|---|---|---|
| server-monitor.py:35-47 | `send_notification` calls `requests.post` with no `try`/`except`, so a connection error raised by the POST escapes the `while True` loop and ends the monitor | a down poll during which the Pushover API cannot be reached (the POST raises a `RequestException`) | the monitor keeps polling after a failed notification, as `is_server_up` does after a failed GET | medium, not executed | `ServerMonitor.RaisingPostEndsRun` | `ServerMonitor.AbsorbingRun` |
