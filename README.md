# screen_away: the away-status state machine, in Dafny

This project models `screen_away.py`, a WeeChat plugin script that sets the
user away on IRC when the terminal multiplexer (screen or tmux) is
detached, and back when it is attached again. Optionally, a connected relay
client counts as attached too.

The script keeps one flag, `AWAY`. A timer calls `screen_away_timer_cb`
every `interval` seconds. The callback observes whether the user is
attached. When the observation disagrees with the flag, it flips the flag.
It then sends `/nick` and `/away` commands to every IRC server it may touch,
followed by an optional user-configured command.

Layout:

- `wrappers.dfy`: the `Option` type.
- `pystr.dfy` (module `PyStr`): the Python string operations the script
  relies on: `endswith`, `split(',')`, `rsplit(',', 2)[0]` and `int()`.
  The script never calls `join`, `count` or `str()`. `Join`, `Count` and
  `IntToString` are defined here only to state the properties: a
  split/join round trip, a uniqueness lemma for `rsplit` phrased with comma
  counts, and `int(str(n)) == n`.
- `sockets.dfy` (module `Sockets`): how the script finds the socket it
  watches when it is loaded. This covers the `screen -ls` regular-expression
  search (modelled as a leftmost, greedy search), `os.path.join`, and the
  path taken from `TMUX`.
- `screen_away.dfy` (module `ScreenAway`): the server filter `get_servers`,
  the attachment observation, the nick suffix, the commands of a
  transition, one timer tick as a function (`TimerStep`), and the script's
  globals as a class (`Plugin`).

The script's host calls become plain values:

- the `irc_server` list is a `seq<Server>`;
- the `relay` list is the sequence of its `status_string`s;
- `os.access(SOCK, os.X_OK)` is a boolean;
- the environment (`STY`, `TMUX`) and the output of `screen -ls` are
  parameters;
- every `w.command(buffer, text)` is a `Command(buffer, text)` in the
  sequence a tick returns, in the order the script issues them. The
  configured command's empty buffer argument is kept as the empty name
  `CurrentBuffer`: WeeChat runs such a command in the current buffer.

The timer callback is `Plugin.OnTimer`: a method with the source's `for`
loops. It is proved equal to the pure `TimerStep`, and the properties are
proved about `TimerStep`.

The TMUX socket is derived with `rsplit(',', 2)[0]`. That removes the last
two comma-separated fields only when there are at least two commas. With
one comma it removes one field, and with none it keeps the whole value. The
model follows the code. `PyStr.RSplitFirst` states this in general, and
`Sockets.TmuxSocketOfEnv` covers the `path,pid,session` form tmux uses.

## Model

| member | source | states |
|---|---|---|
| `PyStr.Split` | screen_away.py:95 | `ignore.split(',')` gives one more field than the option has commas; no field holds a comma; joining the fields with ',' gives the option back |
| `PyStr.SplitJoin` | screen_away.py:95 | splitting a ','-join of comma-free fields gives exactly those fields (the other half of the round trip) |
| `PyStr.RSplitFirst` | screen_away.py:185 | `s.rsplit(',', n)[0]` is a prefix of `s`; it ends at the end of `s` or just before a comma; it holds `n` commas fewer than `s` (none if `s` has at most `n`) |
| `PyStr.RSplitFirstUnique` | screen_away.py:185 | the three facts above determine `rsplit(',', n)[0]` uniquely |
| `PyStr.ParseInt` | screen_away.py:82 | `int(s)`: white space around an optional sign and at least one decimal digit gives the number; anything else raises, which is `None` |
| `PyStr.IntToStringRoundTrip` | screen_away.py:82 | `int()` applied to the decimal text of any integer gives that integer back |
| `Sockets.ScreenSocketDir` | screen_away.py:178 | the directory found in `screen -ls` output, when there is one, starts with '/' and has at least two characters |
| `Sockets.ScreenSocketDirCorrect` | screen_away.py:177-179 | the search finds nothing exactly when `Sockets? in (/.+)\.` matches nowhere; otherwise it returns the group of the leftmost match, taken as long as the pattern allows |
| `Sockets.PathJoin` | screen_away.py:180 | `os.path.join(dir, STY)` ends with the `STY` name; for a relative name it starts with `dir`; a non-empty `dir` gives a non-empty path |
| `Sockets.TmuxSocket` | screen_away.py:185 | the socket taken from `TMUX` is `rsplit(',', 2)[0]` of its value |
| `Sockets.TmuxSocketOfEnv` | screen_away.py:182-185 | for `TMUX = path,pid,session`, the socket is exactly `path`, even when `path` holds commas |
| `Sockets.SocketPath` | screen_away.py:175-185 | under screen with a socket directory, the socket is non-empty and ends with the `STY` name; with neither `STY` nor `TMUX` set there is no socket |
| `ScreenAway.Eligible` | screen_away.py:99-104 | a server is kept when it is connected, its name is not in the ignore list, and it is not away or away with the script's message |
| `ScreenAway.Selected` | screen_away.py:97-108 | the `(buffer, nick)` pairs of the eligible servers, in the host's order |
| `ScreenAway.GetServers` | screen_away.py:92-108 | the loop returns exactly the `(buffer, nick)` pairs of the eligible servers, in the host's order (`Selected`) |
| `ScreenAway.SelectedMembers` | screen_away.py:98-106 | a pair is returned if and only if it belongs to a server that is connected (`is_connected == 1`), not named in the ignore list, and either not away or away with the script's message |
| `ScreenAway.SelectedAppend` | screen_away.py:98-106 | the selection keeps the host's order: selecting from `a + b` is selecting from `a`, then from `b` |
| `ScreenAway.ManuallyAwayNotSelected` | screen_away.py:102-104 | a server set away with another message is never returned (when buffers are not shared) |
| `ScreenAway.IgnoredByName` | screen_away.py:95-100 | with `ignore` written as a ','-list of comma-free names, a server is ignored if and only if its name is listed |
| `ScreenAway.EmptyIgnoreIgnoresNoNamedServer` | screen_away.py:95-100 | an empty `ignore` option ignores no server that has a name |
| `ScreenAway.RelayAttached` | screen_away.py:111-125 | the relay counts as attached only if the relay list is not empty, and only its first record matters |
| `ScreenAway.Attached` | screen_away.py:134-138 | an executable socket always means attached; the relay is consulted only when `check_relay` is "yes"; without the socket, attached means the relay is attached |
| `ScreenAway.AddSuffix` | screen_away.py:157 | the away nick ends with the suffix and starts with the original nick |
| `ScreenAway.StripSuffix` | screen_away.py:145-146 | for a non-empty suffix the nick ends with (the only case the guard lets through), `nick[:-len(suffix)]` with the suffix put back is that nick |
| `ScreenAway.StripAddSuffix` | screen_away.py:145-157 | for a non-empty suffix, stripping it from `nick + suffix` gives `nick` back |
| `ScreenAway.AttachBlock` | screen_away.py:144-147 | one server on attach: `/away`, then `/nick` with the suffix stripped when the suffix is non-empty and the nick ends with it |
| `ScreenAway.AttachCommands` | screen_away.py:143-147 | the attach blocks of the selected servers, in order |
| `ScreenAway.DetachBlock` | screen_away.py:156-158 | one server on detach: `/nick <nick><suffix>` when the suffix is non-empty, then `/away <message>` |
| `ScreenAway.DetachCommands` | screen_away.py:155-158 | the detach blocks of the selected servers, in order |
| `ScreenAway.HookCommand` | screen_away.py:149-150 | the configured command, issued with the empty buffer argument, only when it is not empty (lines 160-161 likewise) |
| `ScreenAway.DetachCommandsLayout` | screen_away.py:155-158 | on detach, each selected server gets, in order, `/nick <nick><suffix>` (only when the suffix is not empty) and then `/away <message>` |
| `ScreenAway.AttachCommandsLayout` | screen_away.py:143-147 | on attach, when every nick carries the non-empty suffix, each server gets `/away` and then `/nick` with the suffix stripped, in order |
| `ScreenAway.AttachCommandsMembers` | screen_away.py:143-147 | for any nicks and suffix, an attach command is `/away` for a selected server, or `/nick` with the suffix stripped for a selected server whose nick ends with a non-empty suffix, and every such command is sent; a nick without the suffix gets no `/nick` |
| `ScreenAway.AttachWithoutSuffixOnlyAway` | screen_away.py:143-147 | a selected server whose nick does not end with the suffix (and whose buffer is its own) is sent `/away` and nothing else on attach |
| `ScreenAway.AttachCommandsWithoutSuffix` | screen_away.py:143-147 | on attach with an empty suffix, each server gets only `/away`, in order |
| `ScreenAway.AttachCommandsGoToTargets` | screen_away.py:143-147 | every attach command goes to the buffer of a selected server |
| `ScreenAway.DetachCommandsGoToTargets` | screen_away.py:155-158 | every detach command goes to the buffer of a selected server |
| `ScreenAway.TimerStep` | screen_away.py:140-163 | after a tick the away flag is the negation of the observation (all four cases); a tick whose observation already agrees with the flag sends nothing and changes nothing |
| `ScreenAway.TimerStepIdempotent` | screen_away.py:140-163 | a second tick with the same observation is a no-op, whatever the configuration and servers |
| `ScreenAway.HookCommandComesLast` | screen_away.py:143-161 | on a transition, the configured command comes after all per-server commands; it is sent, with the empty buffer argument (the current buffer), exactly when it is not empty; when it is empty, no command of the tick carries the empty buffer argument, so the other transition's command is never sent |
| `ScreenAway.ManuallyAwayServerUntouched` | screen_away.py:92-163 | no tick ever sends a per-server command to a server that was set away by hand with another message; the configured command carries the empty buffer argument |
| `ScreenAway.SelectedAfterDetach` | screen_away.py:99-106 | once the detach commands have taken effect, the same servers are selected, now with the suffixed nicks |
| `ScreenAway.DetachThenAttachRestoresNicks` | screen_away.py:143-158 | a detach tick, then an attach tick after the host applied the detach, gives every touched server `/away` and its original nick back, in order, followed only by the configured attach command, if any |
| `ScreenAway.IntervalMs` | screen_away.py:82 | the timer interval is `int(interval) * 1000` milliseconds, or nothing when `int()` raises |
| `ScreenAway.IntervalMsOfSeconds` | screen_away.py:82 | an interval of `n` seconds, written in decimal, arms the timer for `n * 1000` milliseconds |
| `ScreenAway.DefaultInterval` | screen_away.py:61-69 | with the default `interval` of "5" the timer fires every 5000 ms |
| `ScreenAway.DefaultDetach` | screen_away.py:61-69 | with the default options the relay is not consulted, and a detach sends exactly one `/away Detached from screen` to each selected server and nothing else |
| `ScreenAway.RearmsTimer` | screen_away.py:87 | an option re-arms the timer when its name ends with `.interval` |
| `ScreenAway.RearmsTimerExactly` | screen_away.py:86-88 | an option named `plugins.var.python.screen_away.<name>` (with no '.' in the name) re-arms the timer if and only if the name is `interval` |
| `ScreenAway.OnlyIntervalRearms` | screen_away.py:86-88 | of the script's seven options, only `interval` re-arms the timer |
| `ScreenAway.Plugin.Load` | screen_away.py:175-190 | loading starts present (not away), stores the derived socket, arms the timer only when there is a socket, and hooks the options only when the timer was armed |
| `ScreenAway.Plugin.SetTimer` | screen_away.py:76-83 | the old timer is unhooked; `hook_timer` is handed `int(interval) * 1000` ms; when `int()` fails, no timer is left |
| `ScreenAway.Plugin.OnConfigChange` | screen_away.py:86-89 | an option ending in `.interval` re-arms the timer with the current interval; any other option leaves the timer unchanged |
| `ScreenAway.Plugin.OnTimer` | screen_away.py:128-163 | the callback's loops produce exactly the commands and the new flag of `TimerStep`, for the observation `Attached(...)` |

## Left out

- `sendmail_notify.py` is not part of this model. It builds a mail with `email.mime` and pipes it to an external `sendmail` process.
- WeeChat's API calls are replaced by values: `infolist_*`, `command`, `hook_timer`, `unhook`, `hook_config` and `register`. Log lines (`w.prnt`) are dropped.
- Registering the script and installing option defaults (screen_away.py:166-173) are host plumbing. `ScreenAway.Defaults` records the default values only.
- `os.access`, `os.popen('screen -ls')` and `os.environ` are inputs. The model does not say when the socket's execute bit changes.
- Timer scheduling is out of scope. Each tick is one call, as the single-threaded host makes it.
- `SOCK = None` and an empty `SOCK` are both the empty string. The timer, and with it `os.access(SOCK, ...)`, only runs once a non-empty `SOCK` has armed it (screen_away.py:187-188), so they behave alike.
- `PyStr.ParseInt` models `int()` as white space, an optional sign, decimal digits and white space. Other Python 2 details of `int()` are not modelled, such as white space after the sign or the switch to `long`.
- `ScreenAway.Plugin.SetTimer` does not model the C integer range of `hook_timer`'s interval, nor that WeeChat refuses an interval of zero or less: the model records the interval handed over, not whether a timer runs. It also does not model that, after a failed `int()`, the global `TIMER` still holds the handle of the unhooked timer. The model records "no timer".
- `ScreenAway.Plugin.Load` takes a failing `int()` during loading to stop the load before `hook_config`. What WeeChat then does with the half-loaded script is not modelled.
- `ScreenAway.HookCommand` does not model which buffer the configured command runs in. WeeChat runs a command given the empty buffer argument in whatever buffer is current, which may be a server's buffer. `ManuallyAwayServerUntouched` and `HookCommandComesLast` therefore speak of the per-server commands and of the empty buffer argument, not of the buffer that is current.
- `ScreenAway.AfterDetach` is an idealised host: it assumes the IRC server accepts the new nick unchanged and records the away message. A server that truncates or refuses the nick is not modelled. `DetachThenAttachRestoresNicks` holds under this assumption.
- A missing relay list, or one whose first record cannot be read, is the empty sequence. Both read as "not connected".
- The regular expression `Sockets? in (/.+)\.` is modelled for this one pattern only: the leftmost match, `.` not matching a line break, and the greedy group. General regular-expression semantics are not modelled.
