# TS3 RBL bot: a Dafny model of its moderation core

The bot is a TeamSpeak 3 ServerQuery client (`bot.py`). It connects to a server,
sweeps the connected clients once (`checkall`), registers for server
notifications and then loops forever: keepalive, wait up to 540 seconds for an
event, and hand any event to `joinshandler`. The handler acts only on clients of
server group `8`. For such a client it asks `clientinfo` for the address and runs
`rbl`. `rbl` looks the address up on DNS blacklists, drops the lookup's own
`SEARCH_HOST` entry, counts the blacklists that list the address and, when the
count reaches `Actions.rblListedNumber`, calls `kickban` to kick the client
(reason id 5) or ban it (`banTime`), depending on `Actions.onMatch`.

The model treats the ServerQuery connection as the bot's only state: the
commands it sends, in order (`Bot.Connection.trace`), and whether it is still
open. Each part of the bot is a method of `Bot.Connection` that appends to the
trace. Each method is proved to append exactly what a specification function
computes from the inputs:

- `Actuator.KickBanRun` specifies `kickban`.
- `Blacklist.RblRun` specifies `rbl`, built on the decision `Blacklist.Verdict`.
- `Joins.JoinRun` specifies `joinshandler`.
- `Sweep.CheckAllRun` specifies `checkall`.
- `Dispatch.RoundRun` and `Dispatch.LoopRun` specify the loop.
- `Dispatch.SessionRun` specifies the whole of `connectionhandler` from the sweep on.

The properties are lemmas about those functions.

A Python exception is a value: `Common.Exec` pairs the commands sent with the
exception raised after them (KeyError, IndexError, TypeError, or QueryError for
a `clientinfo` the server rejects). The loop sees a finite script of what each
`wait_for_event` returned: an event, a timeout or a keyboard interrupt. Its
status at the end is one of:

- `Running`: the script ran out.
- `ShutDown`: closed after an interrupt.
- `Crashed`: an exception escaped.

The configuration (`Settings.Config`) holds the three parsed sections. Each
section is a map from key to an integer or string setting.

The loop specification takes the event handler as a parameter
(`Dispatch.Handler`). This lets the loop lemmas hold for any handler that sends
only `clientinfo` and moderation commands. `Dispatch.JoinsHandlerQueriesAndModerates`
shows that `joinshandler` is such a handler. `Bot.Connection.Round` and
`Bot.Connection.EventLoop` carry that handler as a ghost argument, tied to
`Joins.JoinRun` by `Bot.Connection.Handles`. `ConnectionHandler` passes
`Joins.JoinsHandler`, so its contract is stated for `joinshandler` itself.

### Error behaviour of the code

- **An exception from `joinshandler` ends the loop.** Only `KeyboardInterrupt`
  and `TS3TimeoutError` are caught, and only around `wait_for_event`
  (bot.py:223-231). Any exception from `joinshandler` leaves the loop and the
  `with` block, which closes the connection, and the process ends. There is no
  reconnect, although the `connectionhandler` docstring mentions "reconnecting"
  (bot.py:191). The exception can be:
  - a KeyError for a missing `clid` or setting, or for a lookup result without
    `SEARCH_HOST` (bot.py:132);
  - an IndexError for an empty payload;
  - a TypeError for a string threshold;
  - a `clientinfo` query error.

  The model ends the loop with `Crashed` and a `close` (`Dispatch.SessionRun`,
  `Dispatch.SessionClosedOnEveryExit`).
- **`load` replaces sections one at a time.** It assigns `ts3server`,
  `logsection` and `actions` one after another (bot.py:58-60). When a section
  is missing, the ones read before it have already been replaced. The only
  check for required sections is the plain KeyError of the lookup, although the
  `Config` docstring mentions a parser that ensures they are present
  (bot.py:38-39). `Settings.Config.Load` states exactly which fields change.
- **Nothing is caught around `kickban`.** A missing `banTime` or `reason`
  raises KeyError and ends the loop (`Actuator.KickBanSends`). This model lets
  the server accept every kick and ban (see Left out).
- **`kickban` can send both commands.** It takes two independent flags and with
  both set would send a ban and then a kick (`Actuator.KickBanSends`). `rbl`
  always passes exactly one flag (`Blacklist.RblSendsAtMostOne`). An `onMatch`
  other than `kick` or `ban` sends nothing
  (`Blacklist.OtherOnMatchNeverActs`).

## Model

| member | source | states |
|---|---|---|
| Settings.FirstMissing | bot.py:58-60 | looking keys up in order fails exactly when some key is absent, and then names an absent key |
| Settings.FirstMissingIsFirst | bot.py:58-60 | the key named is the first absent one in reading order |
| Settings.LoadFailsIffSectionMissing | bot.py:55-60 | `load` raises iff `TS3Server`, `Logging` or `Actions` is missing, with a KeyError for the first missing one |
| Settings.Config.constructor | bot.py:47-51 | a new configuration holds three empty sections and its file name |
| Settings.Config.Load | bot.py:55-60 | raises what `FirstMissing` predicts; each section is replaced iff it and every section before it are present, the others keep their old value |
| Actuator.KickBanSends | bot.py:103-119 | `kickban` fails iff a needed setting is missing and then sends nothing; otherwise one command per flag, all aimed at `clid`, the ban with `banTime`/`reason` first and the kick with reason id 5 last |
| Blacklist.HitsPartition | bot.py:134-135 | every blacklist is either a hit or clean, so the hit count is at most the number of blacklists |
| Blacklist.OneMoreListing | bot.py:134-135 | one more blacklist listing the address raises the count by exactly one |
| Blacklist.HitsMonotone | bot.py:134-135 | the count never falls when more blacklists list the address |
| Blacklist.VerdictAtThreshold | bot.py:129-142 | without `SEARCH_HOST` the check raises KeyError; a missing `rblListedNumber` raises KeyError and a string one TypeError; a missing `onMatch` raises KeyError iff the count reaches the threshold; with it and the settings present a sanction is chosen iff the hit count among the other entries is at least `rblListedNumber` and `onMatch` is `kick` or `ban`, and it is the one `onMatch` names |
| Blacklist.SearchHostNeverCounts | bot.py:130-135 | the `SEARCH_HOST` entry's flag never changes the outcome |
| Blacklist.MoreListingsStillAct | bot.py:130-142 | once a sanction is chosen, more listings keep the same sanction |
| Blacklist.RblSendsAtMostOne | bot.py:122-142 | `rbl` sends no command, a single ban or a single kick; a ban iff the verdict is ban and the ban settings exist, a kick iff the verdict is kick and `reason` exists; nothing when it raises |
| Blacklist.BanAtThreshold | bot.py:138-142 | with `onMatch: ban`: one ban with the configured time and reason iff the count reaches the threshold (equal acts, one below does not), otherwise nothing |
| Blacklist.KickAtThreshold | bot.py:138-140 | with `onMatch: kick` and a `reason`, whether or not `banTime` is set: one kick with reason id 5 iff the count reaches the threshold, otherwise nothing |
| Blacklist.OtherOnMatchNeverActs | bot.py:138-142 | any other `onMatch` value sends nothing, whatever the count |
| Joins.JoinFilter | bot.py:165-166 | no client iff the first row lacks `client_servergroups` or it is not `'8'`; a client id iff it is `'8'` and `clid` is present, and then that `clid`; KeyError for `clid` iff it is `'8'` and `clid` is absent; IndexError iff the payload has no rows |
| Joins.JoinRunShape | bot.py:156-172 | a filtered-out event sends nothing and raises nothing; an empty payload or a group-8 row without `clid` sends nothing and raises the filter's IndexError or KeyError; otherwise `clientinfo` for the client always comes first, QueryError is raised iff the server does not know the id, and at most one moderation command follows, aimed at that client: present iff `rbl` sends one for its address, a ban iff the verdict is ban and the ban settings exist, a kick iff the verdict is kick and `reason` exists; `rbl`'s exception is the handler's |
| Dispatch.JoinsHandlerQueriesAndModerates | bot.py:156-172 | `joinshandler` sends only `clientinfo`, ban and kick commands |
| Dispatch.KeepaliveBeforeEveryWait | bot.py:221-224 | every `wait_for_event` the loop sends comes straight after a keepalive, with timeout 540 |
| Dispatch.LoopClosesOnlyOnInterrupt | bot.py:221-233 | the loop sends `close` only when it shuts down, once and as its last command; a timeout, an event or a crash sends none (with `StopsOnlyOnInterruptOrRaise`, only an interrupt shuts it down) |
| Dispatch.LoopRunReceived | bot.py:222-233 | a script starting with an event: keepalive, wait, the handler's commands, then the rest of the script unless the handler raised, which ends the loop with that exception |
| Dispatch.InterruptEndsLoop | bot.py:222-228 | an interrupt anywhere in a running loop sends keepalive, wait and `close`, ends the loop with ShutDown, and nothing after it runs |
| Dispatch.EventGoesToHandler | bot.py:222-233 | an event anywhere in a running loop goes to the handler after keepalive and wait; the handler's exception ends the loop with that exception, otherwise the loop continues with the rest of the script |
| Dispatch.StopsOnlyOnInterruptOrRaise | bot.py:221-233 | the loop shuts down only if the script holds an interrupt, and crashes only with an exception the handler raised for one of the script's events |
| Dispatch.LoopRunAppend | bot.py:221-233 | running two scripts one after the other equals running their concatenation, while the first leaves the loop running |
| Dispatch.TimeoutsOnlyPoll | bot.py:221-231 | `n` timeouts send `n` keepalive-and-wait pairs and nothing else, and the loop goes on with the rest of the script |
| Dispatch.IgnoredEventsNeverModerate | bot.py:165-233 | while no event concerns a group-8 client, the loop bans and kicks nobody and never crashes |
| Dispatch.SessionClosedOnEveryExit | bot.py:194-233 | from the sweep on, the connection is closed on every way out (interrupt or exception), exactly once and last, and never while the loop runs |
| Sweep.SweepQueriesInOrder | bot.py:182-183 | `clientinfo` for the listed ids in order; completes iff the server knows every id, having asked about all; otherwise stops at the first unknown id |
| Sweep.CheckAllNeverModerates | bot.py:175-184 | `checkall` sends `clientlist`, then `clientinfo` per listed client in order (all of them when it completes), and never bans or kicks |
| Scenarios.FiveBlacklistsHits | bot.py:132-135 | with the first `k` of five blacklists listing, the count is `k` |
| Scenarios.ThreeOfFiveBans | bot.py:156-172 | group-8 client 42, three of five listings, threshold 2, `onMatch: ban`: `clientinfo` then one ban of 42 with the configured time and reason |
| Scenarios.OneOfFiveLetsIn | bot.py:156-172 | the same join with one listing: only `clientinfo` |
| Scenarios.TimeoutThenInterrupt | bot.py:221-231 | a timeout then an interrupt: keepalive, wait, keepalive, wait, close, and the loop stops |
| Bot.Connection.constructor | bot.py:194 | a fresh connection is open and has sent nothing |
| Bot.Connection.Close | bot.py:227 | closes the connection; `quit` is sent only if it was still open |
| Bot.Connection.ClientInfo | bot.py:145-152 | sends `clientinfo` and returns the server's record, or QueryError for an unknown id |
| Bot.Connection.WaitForEvent | bot.py:224 | sends `wait_for_event` with timeout 540 and returns what the server answered |
| Bot.Connection.KickBan | bot.py:103-119 | appends exactly what `KickBanRun` specifies and raises what it raises |
| Bot.Connection.Rbl | bot.py:122-142 | appends exactly what `RblRun` specifies for the lookup of `ip`, and raises what it raises |
| Bot.Connection.JoinsHandler | bot.py:156-172 | appends exactly what `JoinRun` specifies, and raises what it raises |
| Bot.Connection.CheckAll | bot.py:175-184 | appends exactly what `CheckAllRun` specifies for the connected clients, and raises what it raises |
| Bot.Connection.Round | bot.py:222-233 | one iteration appends what `RoundRun` specifies; the connection stays open unless the loop shut down |
| Bot.Connection.EventLoop | bot.py:221-233 | appends what `LoopRun` specifies for the script and ends in its status; open iff not shut down |
| Bot.Connection.ConnectionHandler | bot.py:216-233 | appends what `SessionRun` specifies with `joinshandler` as handler; open iff still running |

## Left out

- Logging: `Config.loginit` (bot.py:62-100) and every logger call. They send nothing to the server.
- Reading the file in `load` (bot.py:56-57): YAML parsing is not modelled. `Load` receives the parsed top-level mapping, and open or parse errors are not modelled.
- Settings are integers or strings only. Python's comparisons of other YAML scalars with the threshold (floats, booleans, null) are not modelled.
- Connection setup in `connectionhandler` (bot.py:194-214) is not modelled. This covers opening the socket, `login`, `use`, `clientupdate`, the `is_connected` check, `whoami`, `clientmove`, the failure branch that closes and calls `sys.exit`, and the process exit codes. The model starts at `checkall` on an open connection.
- The DNS lookups of `RBLSearch` (bot.py:129-130) are not modelled. Their result is the input function `blacklists`, and lookup failures are not modelled.
- Server behaviour beyond `clientinfo` is not modelled. The server accepts every `banclient`, `clientkick`, `clientlist`, `servernotifyregister` and `send_keepalive`, and `wait_for_event` fails only by timeout. Transport errors are not modelled.
- Bot.Connection.ClientInfo: always returns a record with a nickname and an address. A response with no rows or without `connection_client_ip` (bot.py:168) is not modelled.
- Sweep.CheckAllNeverModerates: `clientlist` rows without `clid` (bot.py:182) are not modelled. The connected clients are given as a list of ids.
- A keyboard interrupt that arrives outside `wait_for_event` is not modelled. In the code it would end the process as any other uncaught exception does.
- The loop runs over a finite script of wait outcomes. It does not model wall-clock time or the endless repetition of `while True`.
- Leaving the `with` block after an interrupt's own `close` is modelled as sending nothing more. This assumes the library's `close` does nothing on a closed connection.
- `Config.__init__` calls `load` and `loginit` (bot.py:52-53). The constructor models only the assignments before them, and `Load` is a separate method.
- `clientinfo` answers do not change during a run. The connected clients and the server's record for each id are fixed for the connection's lifetime, at the sweep and at every later join.
- `clienthandler` is modelled only through `Bot.Connection.ClientInfo` and the `directory` of server answers.
- The global `config` that `kickban`, `rbl` and `joinshandler` read is passed explicitly as the `actions` section.
