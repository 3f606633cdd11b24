# APC power controller session, modelled in Dafny

`apc.py` drives an APC network power controller through its telnet console.
Its class `APC` takes a single-session file lock, logs in with a fixed
prompt-and-answer handshake, and sends one command. The possible commands
are: reboot an outlet after a delay, switch it on or off, or query its
status. Afterwards it logs out and releases the lock.

The model has four modules:

- `Decimal` (`decimal.dfy`) — Python's `'%d' % n`, and an approximation of
  `int(token)` that reads it back.
- `Outlets` (`outlets.dfy`) — `get_outlet`. A token names every outlet
  through one of the aliases `*`, `+` and `all`, or one outlet through an
  integer. Any other token is rejected with `Bad outlet: [token]`.
- `Commands` (`commands.dfy`) — the console's command lines (`olRbootTime`,
  `olReboot`, `olOn`, `olOff`, `olStatus`, `bye`). It also has a reader for
  them, which is their partner: every line the controller writes reads back
  as the command it was built from.
- `Session` (`session.dfy`) — class `Apc`, which stands for `APC`. Its state:
  - `phase`, where the handshake stands;
  - `lockHeld`;
  - two scripts of outcomes: `lockOutcomes` says whether each `lock()` call
    succeeds; `replies` says whether each `expect` matches or times out;
  - `trace`, the ordered log of everything the controller does to the
    channel and the lock.

  `Written(trace)` is the sequence of strings sent to the device. Each
  method's `ensures` gives its new state as a function of the old one. The
  pure functions beside the class hold the properties:
  - the lock loop's call count and when it gives up (`LockCalls`,
    `LockGivesUpOnlyAtLimit`);
  - which login answers are written once a prompt times out (`PromptsMatched`,
    `LoginTrace`, `LoginWrites`).

The exceptions the source raises become `Outcome` values: `Failed(error)`,
where `error` is `CannotAcquireLock(message)`, `Timeout`, `BadOutlet(message)`,
`BadDelay` or `FormatError`.

## Model

| member | source | states |
|---|---|---|
| Decimal.IntToDec | apc.py:94 | `'%d' % n` is non-empty, starts with `-` exactly for negative numbers, and is otherwise all digits, with no leading zero (a leading `0` only in `0` itself) |
| Decimal.ParseIntDec | apc.py:93-94 | reading back the decimal text of any integer gives that integer |
| Decimal.DecInjective | apc.py:94 | distinct integers have distinct decimal texts |
| Decimal.ParseInt | apc.py:93 | `int(token)`, approximated: a value exactly for an optional sign and then at least one ASCII digit, which reads as its value; the value is negative only after a `-`; anything else is None |
| Outlets.OutletName | apc.py:94 | `'Outlet #%d' % n`: the text `Outlet #`, then the decimal text of `n`, which reads back as `n` |
| Outlets.BadOutletMessage | apc.py:97 | `'Bad outlet: [%s]' % token`: `Bad outlet: [`, then the token unchanged, then `]` |
| Outlets.GetOutlet | apc.py:87-97 | the result is all outlets exactly for an alias; otherwise it is the parsed integer with name `Outlet #n`; it is a rejection exactly when the token is neither, and the rejection carries `Bad outlet: [token]` |
| Outlets.GetOutletAll | apc.py:88-89 | a token resolves to `('all', 'ALL outlets')` if and only if it is `*`, `+` or `all` |
| Outlets.GetOutletNumber | apc.py:91-94 | the decimal text of every integer resolves to that outlet, with no range check (negative and large numbers included) |
| Outlets.OutletNameInjective | apc.py:94 | distinct outlets get distinct display names |
| Outlets.GetOutletExamples | apc.py:87-97 | `all` gives all outlets; `3` gives `Outlet #3`; `x` is rejected as `Bad outlet: [x]`; the match is case-sensitive, so `ALL` is rejected |
| Commands.Range | apc.py:118 | Python's `range(lo, hi)`: it has `hi - lo` elements (none when `hi <= lo`), and an integer is in it exactly when `lo <= x < hi` |
| Commands.ValidDelay | apc.py:118 | `secs in range(5, 61)` holds exactly when 5 <= secs <= 60 |
| Commands.Words | apc.py:119-159 | the words of each command line (`'olRbootTime %d %d'`, `'olReboot %d'`, `'olOn %d'`, `'olOff %d'`, `'olStatus %d'`, `'olStatus all'` and `bye`, apc.py:19): between one and three, none empty and none holding a space or a carriage return |
| Commands.Join | apc.py:119-159 | the words joined by single spaces: the text starts with the first word, and it holds no carriage return when no word does |
| Commands.Render | apc.py:119-159 | a command's text starts with its keyword and holds no carriage return |
| Commands.Line | apc.py:47 | `a + '\r'`: the text unchanged, then one carriage return as the last character |
| Commands.Power | apc.py:135-140 | `on_off` picks the on command exactly when `on` holds, for the given outlet |
| Commands.ParseRender | apc.py:119-123 | every command line the controller writes reads back as the command it was built from |
| Commands.RenderInjective | apc.py:119-123 | different commands are written as different lines |
| Commands.RenderExamples | apc.py:119-123 | delay 30 on outlet 2 is written as `olRbootTime 2 30` and then `olReboot 2`; the other commands are `olOff 1`, `olStatus 5`, `olStatus all` and `bye` |
| Session.TelnetCommand | apc.py:70 | `'telnet %s' % host`: `telnet `, then the host unchanged |
| Session.PowerState | apc.py:137-140 | the state `on_off` notifies is `On` exactly when `on` holds, and `Off` otherwise |
| Session.Notification | apc.py:44 | `'APC %s: %s %s' % (host, outlet_name, state)`: `APC `, the host and `: `, then the outlet name, then a space and the state at the end |
| Session.StatusPattern | apc.py:106 | `'%d:' % outlet`: the decimal text of the outlet, which reads back as the outlet, followed by `:` |
| Session.LockCalls | apc.py:56-61 | `_lock` calls `lock()` between 1 and 60 times; every call but the last fails; the last call succeeds or is the 60th |
| Session.LockTrace | apc.py:56-61 | the trace of the first `k` calls of `lock()`: exactly `k` lock calls, the `i`-th recording the `i`-th outcome |
| Session.LockCallsCount | apc.py:56-61 | the call count is one more than the number of failures before the first success, or 60 |
| Session.LockGivesUpOnlyAtLimit | apc.py:56-61 | the lock loop gives up if and only if all 60 calls fail, and then it has made exactly 60; if any call succeeds, the lock is held |
| Session.LockBusyExample | apc.py:56-61 | a lock that stays busy is tried 60 times and not acquired; failures on the first two calls and success on the third mean 3 calls, lock held |
| Session.PromptsMatched | apc.py:75-83 | the number of login prompts that appear is the length of the initial run of matched waits, at most 3 |
| Session.LoginWrites | apc.py:75-81 | the user name is written only after its prompt appears; the password and the extra `\r\n` only after the password prompt; a timeout leaves written exactly the answers to the earlier prompts |
| Session.LoginTraceCases | apc.py:70-83 | the four ways the handshake can end, step by step, are the login steps up to the prompt that timed out, or all of them |
| Session.Apc.constructor | apc.py:31-36 | the field assignments of `__init__`: a new session holds the host, user and password, is idle, has no lock and an empty trace; `__init__` is this constructor followed by `Connect`, so no session the source creates stays idle |
| Session.Apc.TryLock | apc.py:57 | one `lock()` call consumes one lock outcome, records it, and holds the lock exactly when it is granted |
| Session.Apc.AcquireLock | apc.py:51-61 | after `_lock`, the trace has gained exactly `LockCalls` lock calls with their outcomes; the lock is held exactly when it was acquired; otherwise it fails with `Cannot acquire /tmp/apc.lock\n` (apc.py:61) |
| Session.Apc.Unlock | apc.py:63-64 | the lock is released and the release is recorded |
| Session.Apc.Send | apc.py:47 | one write, and the written strings gain exactly that text |
| Session.Apc.SendLine | apc.py:46-49 | `sendnl` writes the text followed by `\r` and nothing else |
| Session.Apc.Expect | apc.py:75 | one wait consumes one reply, records whether it matched, and writes nothing |
| Session.Apc.Connect | apc.py:66-83 | if the lock is not acquired, nothing is spawned; otherwise the trace is the lock calls and then the login steps up to the first prompt that times out; the phase says how far the login got; a prompt that times out leaves the lock held |
| Session.Apc.Handshake | apc.py:70-83 | spawn `telnet host`, then user name prompt and answer, password prompt and answer, the extra line, and the command prompt, in that order; nothing after the first wait that times out |
| Session.Apc.AnswerUserName | apc.py:75-77 | the user name is written only when its prompt appears |
| Session.Apc.AnswerPassword | apc.py:79-81 | the password and then `\r\n` are written only when the password prompt appears |
| Session.Apc.AwaitCommandPrompt | apc.py:83 | the session is ready exactly when the command prompt appears |
| Session.Apc.AwaitSuccess | apc.py:99-101 | one wait for `E000: Success`, writing nothing |
| Session.Apc.AwaitStatus | apc.py:103-109 | a matched `n:` means success; otherwise it waits for `E102:`, then fails with `Bad outlet: [n]` if that appears, or with a timeout |
| Session.Apc.Notify | apc.py:43-44 | the notification is `APC <host>: <name> <state>` and nothing is written to the device |
| Session.Apc.Reboot | apc.py:115-130 | a bad token, a delay outside 5..60 or the 'all' outlet write nothing and consume no reply; otherwise exactly `olRbootTime n secs\r` and then `olReboot n\r` are written before the one wait for the success code, and `Rebooted` is notified only when it matches |
| Session.Apc.RebootOutlet | apc.py:119-130 | for outlet `n`: `olRbootTime n secs\r`, then `olReboot n\r`, then one wait for the success code, then `Rebooted` with the outlet's name only when it matches |
| Session.Apc.OnOff | apc.py:132-146 | a bad token or the 'all' outlet write nothing; otherwise exactly one line, `olOn n\r` or `olOff n\r` as `on` says, then one wait for the success code, and `On` or `Off` is notified only when it matches |
| Session.Apc.SwitchOutlet | apc.py:135-146 | for outlet `n`: exactly one `olOn n\r` or `olOff n\r` line, one wait for the success code, then `On` or `Off` with the outlet's name only when it matches |
| Session.Apc.On | apc.py:163-164 | `on_off` with the on command and the `On` notification |
| Session.Apc.Off | apc.py:166-167 | `on_off` with the off command and the `Off` notification |
| Session.Apc.Get | apc.py:148-161 | a bad token writes nothing; 'all' writes `olStatus all\r`, waits for the prompt and reads one raw line; an indexed outlet writes `olStatus n\r` and then behaves as `get_result` |
| Session.Apc.GetOne | apc.py:159-161 | for outlet `n`: `olStatus n\r`, then the waits of `get_result`; success on `n:`, otherwise `Bad outlet: [n]` when `E102:` appears, or a timeout |
| Session.Apc.GetAll | apc.py:151-157 | `olStatus all\r`, then one wait for `apc>`, then one raw line read only when it appears |
| Session.Apc.Disconnect | apc.py:172-184 | `bye\r`, then end of input, then close, then the lock release last; the session ends logged out without the lock |

The exact steps of a login, in order, are written down once as `Session.LoginSteps` (apc.py:70-83); `Session.LoginTrace` cuts them at the first prompt that times out, and `Session.LockTrace` lists the lock calls. `Connect` and `Handshake` state their traces in these terms.

## Left out

- The telnet channel and `pexpect`: spawning, `setecho`, `logfile`, the 10-second timeout as time, `time.sleep`, the verbose echo of `child.before`, `readlines` at disconnect, and `interact` (`debug`). Each wait is an abstract outcome taken from the `replies` script. A read line is recorded, but its contents are not.
- `FilesystemLock` internals. `lock()` is an outcome taken from the `lockOutcomes` script, and the path `/tmp/apc.lock` appears only in the message `_lock` gives up with. Cross-process locking is concurrency, which is not modelled.
- The messages `info` and `disconnect` print (`Acquiring lock`, `Connecting to APC`, `DISCONNECTED`), the delay hint before `SystemExit(1)`, and the print of the matched success text. These go to the operator's terminal, not to the device.
- The version regex of `connect` (apc.py:85). Its result is never used.
- `_escape_to_main` (apc.py:111-113). Its only call is commented out.
- `main` (apc.py:187-242): argument parsing, environment-variable defaults and exit codes. As written, `main` calls `reboot` without a delay and calls `disconnect` only after a command, never after a connect timeout. So the model makes no claim that a failed `connect` is torn down. `Connect` states that the lock stays held.
- Decimal.ParseInt: Python's `int()` also accepts surrounding whitespace, underscores and non-ASCII digits. The model accepts only an optional sign followed by ASCII digits.
- Session.Apc.Reboot: for the 'all' outlet, the source fails with a `TypeError` when it formats `'%d' % 'all'`. The model reports this as `FormatError`, after the same delay check. Session.Apc.OnOff does the same for the on and off commands.
- Session.Apc.GetAll: `readline()` is itself a wait for a line end under the channel's timeout. In the model the read line never times out and consumes no reply.
- Session.Apc.AwaitStatus: `expect('%d:' % outlet)` is an unanchored regex search. The device's own `E102:` error reply therefore also matches it for outlets 2 and 102, and `get` then reports success instead of a bad outlet. Each wait's outcome in the model is an independent entry of the `replies` script, so the model cannot show that overlap.
- Session.Apc.Get: the bulk status reply for 'all' is one raw line that is not parsed, so the model states only what is sent and waited for.
- The notification text follows the code, `APC <host>: <name> <state>`, including the `APC ` prefix.
