/**
  The controller session (`class APC`): the single-session lock, the login
  handshake over the remote terminal, the outlet operations and the
  teardown.

  The terminal channel is modelled by what the controller does to it: every
  lock call, spawn, write, wait, end-of-file, close, lock release and
  notification is appended to `trace`, in order. What the device does is
  given up front as two scripts: `lockOutcomes` says whether each
  successive `lock()` call succeeds, and `replies` says whether each
  successive `expect` finds its pattern (true) or times out (false). A
  script that has run out means the lock stays busy, or the device stays
  silent.
 */
module Session {
  import opened Decimal
  import opened Outlets
  import opened Commands

  const LockPath := "/tmp/apc.lock"

  /** The message `_lock` gives up with: `'Cannot acquire %s\n' % LOCK_PATH`. */
  const CannotAcquireMessage := "Cannot acquire " + LockPath + "\n"

  /** `LOCK_TIMEOUT`: `_lock` gives up once this many `lock()` calls have failed. */
  const LockTimeout := 60

  const UserNamePrompt := "User Name : "
  const PasswordPrompt := "Password  : "
  const CommandPrompt := "apc>"
  const SuccessCode := "E000: Success"
  const BadReferenceCode := "E102:"
  const CR := "\r"
  const CRLF := "\r\n"

  /** `'telnet %s' % host`: the command `connect` spawns. */
  function TelnetCommand(host: string): (s: string)
    ensures |s| == |host| + 7 && s[..7] == "telnet " && s[7..] == host
  {
    var s := "telnet " + host;
    assert s[7..] == host;
    s
  }

  /** The line `notify` prints: `'APC %s: %s %s' % (host, outlet_name, state)`. */
  function Notification(host: string, name: string, state: string): (line: string)
    ensures |line| == |host| + |name| + |state| + 7
    ensures line[..|host| + 6] == "APC " + host + ": "
    ensures line[|host| + 6..|host| + 6 + |name|] == name
    ensures line[|line| - |state| - 1..] == " " + state
  {
    var prefix := "APC " + host + ": ";
    var line := prefix + name + " " + state;
    assert line[..|prefix|] == prefix;
    assert line[|prefix|..|prefix| + |name|] == name;
    assert line[|line| - |state| - 1..] == " " + state;
    line
  }

  /** The state `on_off` notifies (`str_cmd`). */
  function PowerState(on: bool): (s: string)
    ensures s == "On" <==> on
    ensures !on ==> s == "Off"
  {
    if on then "On" else "Off"
  }

  /** `'%d:' % n`: what the device prints in front of an outlet's status. */
  function StatusPattern(n: int): (p: string)
    ensures |p| >= 2 && p[|p| - 1] == ':'
    ensures ParseInt(p[..|p| - 1]) == Some(n)
  {
    ParseIntDec(n);
    assert (IntToDec(n) + ":")[..|IntToDec(n)|] == IntToDec(n);
    IntToDec(n) + ":"
  }

  /** One observable step of the controller. */
  datatype Event =
    | LockCall(granted: bool)                  // FilesystemLock.lock()
    | Spawned(command: string)                 // pexpect.spawn
    | Wrote(text: string)                      // child.send
    | Awaited(pattern: string, matched: bool)  // child.expect: found, or timed out
    | ReadLine                                 // child.readline
    | WroteEof                                 // child.sendeof
    | Closed                                   // child.close
    | Released                                 // FilesystemLock.unlock()
    | Notified(line: string)                   // notify

  /** The exceptions the controller raises. */
  datatype Error =
    | CannotAcquireLock(message: string)  // SystemError('Cannot acquire /tmp/apc.lock\n')
    | Timeout                     // pexpect.TIMEOUT
    | BadOutlet(message: string)  // SystemExit('Bad outlet: [...]')
    | BadDelay                    // SystemExit(1) after the delay hint
    | FormatError                 // TypeError from '%d' applied to 'all'

  datatype Outcome = Done | Failed(error: Error)

  /** Where the login handshake stands. */
  datatype Phase = Idle | AwaitingUserName | AwaitingPassword | AwaitingPrompt | Ready | LoggedOut

  /** The phases in which the controller owns the lock. */
  predicate OwnsLock(p: Phase) {
    !p.Idle? && !p.LoggedOut?
  }

  /** Whether the `i`-th entry of a script is a success; past its end there is none. */
  predicate Holds(s: seq<bool>, i: int) {
    0 <= i < |s| && s[i]
  }

  /** A script with its first `k` entries used up. */
  function Drop<T>(s: seq<T>, k: nat): (r: seq<T>)
    ensures |r| == if k <= |s| then |s| - k else 0
  {
    if k <= |s| then s[k..] else []
  }

  lemma DropHolds(s: seq<bool>, a: nat, b: nat)
    ensures Drop(Drop(s, a), b) == Drop(s, a + b)
    ensures Holds(Drop(s, a), b) == Holds(s, a + b)
  {
  }

  /** What one step writes to the channel. */
  function WrittenBy(e: Event): seq<string> {
    if e.Wrote? then [e.text] else []
  }

  /** The strings written to the channel, in order. */
  function Written(t: seq<Event>): (w: seq<string>)
    ensures |w| <= |t|
  {
    if |t| == 0 then [] else WrittenBy(t[0]) + Written(t[1..])
  }

  lemma {:induction false} WrittenAppend(a: seq<Event>, b: seq<Event>)
    ensures Written(a + b) == Written(a) + Written(b)
    decreases |a|
  {
    if |a| == 0 {
      assert a + b == b;
    } else {
      assert (a + b)[1..] == a[1..] + b;
      WrittenAppend(a[1..], b);
    }
  }

  lemma WrittenSnoc(t: seq<Event>, e: Event)
    ensures Written(t + [e]) == Written(t) + WrittenBy(e)
  {
    WrittenAppend(t, [e]);
    assert [e][1..] == [];
  }

  lemma WrittenPrefix(s: seq<Event>, k: nat)
    requires k < |s|
    ensures Written(s[..k + 1]) == Written(s[..k]) + WrittenBy(s[k])
  {
    assert s[..k + 1] == s[..k] + [s[k]];
    WrittenSnoc(s[..k], s[k]);
  }

  // ---------------------------------------------------------------------
  // The lock loop of `_lock`

  /** How many times `_lock` calls `lock()`, given the outcomes of successive calls. */
  function LockCalls(o: seq<bool>): (k: nat)
    ensures 1 <= k <= LockTimeout
    ensures forall i :: 0 <= i < k - 1 ==> !Holds(o, i)
    ensures Holds(o, k - 1) || k == LockTimeout
  {
    LockCallsFrom(o, 0)
  }

  function LockCallsFrom(o: seq<bool>, i: nat): (k: nat)
    requires i < LockTimeout
    ensures i < k <= LockTimeout
    ensures forall j :: i <= j < k - 1 ==> !Holds(o, j)
    ensures Holds(o, k - 1) || k == LockTimeout
    decreases LockTimeout - i
  {
    if Holds(o, i) || i + 1 == LockTimeout then i + 1 else LockCallsFrom(o, i + 1)
  }

  /** Whether the last of those calls got the lock. */
  predicate LockAcquired(o: seq<bool>) {
    Holds(o, LockCalls(o) - 1)
  }

  /** The trace of the first `k` calls of `lock()`. */
  function LockTrace(o: seq<bool>, k: nat): (t: seq<Event>)
    ensures |t| == k
    ensures forall i :: 0 <= i < k ==> t[i] == LockCall(Holds(o, i))
  {
    if k == 0 then [] else LockTrace(o, k - 1) + [LockCall(Holds(o, k - 1))]
  }

  /** The number of calls is determined by the first success, or by the limit. */
  lemma LockCallsCount(o: seq<bool>, c: nat)
    requires c < LockTimeout
    requires forall i :: 0 <= i < c ==> !Holds(o, i)
    requires Holds(o, c) || c == LockTimeout - 1
    ensures LockCalls(o) == c + 1
  {
  }

  /**
    `_lock` gives up only when all `LockTimeout` calls have failed, and
    then it has made exactly that many; if any of those calls succeeds it
    holds the lock.
   */
  lemma LockGivesUpOnlyAtLimit(o: seq<bool>)
    ensures !LockAcquired(o) <==> forall i :: 0 <= i < LockTimeout ==> !Holds(o, i)
    ensures !LockAcquired(o) ==> LockCalls(o) == LockTimeout
    ensures (exists i :: 0 <= i < LockTimeout && Holds(o, i)) ==> LockAcquired(o)
  {
  }

  /** A busy lock is tried exactly 60 times. */
  lemma LockBusyExample()
    ensures LockCalls([]) == 60 && !LockAcquired([])
    ensures LockCalls([false, false, true]) == 3 && LockAcquired([false, false, true])
  {
    LockCallsCount([], LockTimeout - 1);
    LockCallsCount([false, false, true], 2);
  }

  // ---------------------------------------------------------------------
  // The login handshake of `connect`

  const LoginPrompts: seq<string> := [UserNamePrompt, PasswordPrompt, CommandPrompt]

  /** Every step of a login that succeeds, in order. */
  function LoginSteps(host: string, user: string, password: string): seq<Event> {
    [Spawned(TelnetCommand(host)),
     Awaited(UserNamePrompt, true), Wrote(user + CR),
     Awaited(PasswordPrompt, true), Wrote(password + CR), Wrote(CRLF),
     Awaited(CommandPrompt, true)]
  }

  /** Where, in `LoginSteps`, the wait for the `j`-th prompt stands. */
  function PromptStep(j: nat): nat
    requires j < |LoginPrompts|
  {
    [1, 3, 6][j]
  }

  /** How many prompts appear before the first wait that times out. */
  function PromptsMatched(replies: seq<bool>): (j: nat)
    ensures j <= |LoginPrompts|
    ensures forall i :: 0 <= i < j ==> Holds(replies, i)
    ensures j < |LoginPrompts| ==> !Holds(replies, j)
  {
    if !Holds(replies, 0) then 0
    else if !Holds(replies, 1) then 1
    else if !Holds(replies, 2) then 2
    else 3
  }

  /**
    The steps of a login in which `j` prompts appeared: all of them when
    `j` is 3; otherwise the steps before the wait for prompt `j`, then that
    wait timing out, and nothing after it.
   */
  function LoginTrace(host: string, user: string, password: string, j: nat): seq<Event>
    requires j <= |LoginPrompts|
  {
    if j == |LoginPrompts| then LoginSteps(host, user, password)
    else LoginSteps(host, user, password)[..PromptStep(j)] + [Awaited(LoginPrompts[j], false)]
  }

  function PhaseAfterLogin(j: nat): Phase
    requires j <= |LoginPrompts|
  {
    [AwaitingUserName, AwaitingPassword, AwaitingPrompt, Ready][j]
  }

  /**
    The user name is written only once its prompt has appeared, the
    password and the extra line only once the password prompt has: a
    timeout at prompt `j` leaves exactly the answers to the earlier prompts
    written.
   */
  lemma LoginWrites(host: string, user: string, password: string, j: nat)
    requires j <= |LoginPrompts|
    ensures Written(LoginTrace(host, user, password, j)) == [user + CR, password + CR, CRLF][..[0, 1, 3, 3][j]]
  {
    var s := LoginSteps(host, user, password);
    assert s[..0] == [];
    WrittenPrefix(s, 0);
    WrittenPrefix(s, 1);
    WrittenPrefix(s, 2);
    WrittenPrefix(s, 3);
    WrittenPrefix(s, 4);
    WrittenPrefix(s, 5);
    WrittenPrefix(s, 6);
    assert s[..7] == s;
    if j < |LoginPrompts| {
      WrittenSnoc(s[..PromptStep(j)], Awaited(LoginPrompts[j], false));
    }
  }

  /** The four ways a login can end, written out step by step after an earlier trace `t`. */
  lemma LoginTraceCases(t: seq<Event>, host: string, user: string, password: string)
    ensures t + [Spawned(TelnetCommand(host))] + [Awaited(UserNamePrompt, false)]
            == t + LoginTrace(host, user, password, 0)
    ensures t + [Spawned(TelnetCommand(host))] + [Awaited(UserNamePrompt, true), Wrote(user + CR)]
              + [Awaited(PasswordPrompt, false)]
            == t + LoginTrace(host, user, password, 1)
    ensures t + [Spawned(TelnetCommand(host))] + [Awaited(UserNamePrompt, true), Wrote(user + CR)]
              + [Awaited(PasswordPrompt, true), Wrote(password + CR), Wrote(CRLF)]
              + [Awaited(CommandPrompt, false)]
            == t + LoginTrace(host, user, password, 2)
    ensures t + [Spawned(TelnetCommand(host))] + [Awaited(UserNamePrompt, true), Wrote(user + CR)]
              + [Awaited(PasswordPrompt, true), Wrote(password + CR), Wrote(CRLF)]
              + [Awaited(CommandPrompt, true)]
            == t + LoginTrace(host, user, password, 3)
  {
  }

  // ---------------------------------------------------------------------
  // The session object

  class Apc {
    const host: string
    const user: string
    const password: string

    var phase: Phase
    var lockHeld: bool
    /** Whether each successive `lock()` call succeeds (a made-up script). */
    var lockOutcomes: seq<bool>
    /** Whether each successive wait for a pattern succeeds (a made-up script). */
    var replies: seq<bool>
    var trace: seq<Event>

    /** The controller owns the lock exactly while a session is being set up or is up. */
    ghost predicate Valid()
      reads this
    {
      lockHeld <==> OwnsLock(phase)
    }

    /** The fields of `APC.__init__`; the `connect` it then calls is `Connect`. */
    constructor (host: string, user: string, password: string, lockOutcomes: seq<bool>, replies: seq<bool>)
      ensures Valid() && phase == Idle && !lockHeld && trace == []
      ensures this.host == host && this.user == user && this.password == password
      ensures this.lockOutcomes == lockOutcomes && this.replies == replies
    {
      this.host := host;
      this.user := user;
      this.password := password;
      this.lockOutcomes := lockOutcomes;
      this.replies := replies;
      phase := Idle;
      lockHeld := false;
      trace := [];
    }

    /** One call of `FilesystemLock.lock()`. */
    method TryLock() returns (granted: bool)
      requires !lockHeld
      modifies this`lockHeld, this`lockOutcomes, this`trace
      ensures granted == Holds(old(lockOutcomes), 0) && lockHeld == granted
      ensures lockOutcomes == Drop(old(lockOutcomes), 1)
      ensures trace == old(trace) + [LockCall(granted)]
    {
      granted := Holds(lockOutcomes, 0);
      lockHeld := granted;
      lockOutcomes := Drop(lockOutcomes, 1);
      trace := trace + [LockCall(granted)];
    }

    /** `_lock`: call `lock()` until it succeeds, giving up after `LockTimeout` failures. */
    method AcquireLock() returns (r: Outcome)
      requires !lockHeld
      modifies this`lockHeld, this`lockOutcomes, this`trace
      ensures lockOutcomes == Drop(old(lockOutcomes), LockCalls(old(lockOutcomes)))
      ensures trace == old(trace) + LockTrace(old(lockOutcomes), LockCalls(old(lockOutcomes)))
      ensures lockHeld == LockAcquired(old(lockOutcomes))
      ensures r == if lockHeld then Done else Failed(CannotAcquireLock(CannotAcquireMessage))
    {
      ghost var o := lockOutcomes;
      var count := 0;
      var granted := TryLock();
      while !granted
        invariant 0 <= count < LockTimeout
        invariant forall i :: 0 <= i < count ==> !Holds(o, i)
        invariant granted == Holds(o, count) && lockHeld == granted
        invariant lockOutcomes == Drop(o, count + 1)
        invariant trace == old(trace) + LockTrace(o, count + 1)
        decreases LockTimeout - count
      {
        count := count + 1;
        if count >= LockTimeout {
          LockCallsCount(o, count - 1);
          return Failed(CannotAcquireLock(CannotAcquireMessage));
        }
        DropHolds(o, count, 1);
        granted := TryLock();
      }
      LockCallsCount(o, count);
      r := Done;
    }

    /** `_unlock` */
    method Unlock()
      requires lockHeld
      modifies this`lockHeld, this`trace
      ensures !lockHeld && trace == old(trace) + [Released]
    {
      lockHeld := false;
      trace := trace + [Released];
    }

    /** `child.send` */
    method Send(text: string)
      modifies this`trace
      ensures trace == old(trace) + [Wrote(text)]
      ensures Written(trace) == Written(old(trace)) + [text]
    {
      WrittenSnoc(trace, Wrote(text));
      trace := trace + [Wrote(text)];
    }

    /** `sendnl`: the text followed by a carriage return. */
    method SendLine(text: string)
      modifies this`trace
      ensures trace == old(trace) + [Wrote(Line(text))]
      ensures Written(trace) == Written(old(trace)) + [Line(text)]
    {
      Send(Line(text));
    }

    /** `child.expect(pattern)`: the next reply decides whether it matches or times out. */
    method Expect(pattern: string) returns (matched: bool)
      modifies this`replies, this`trace
      ensures matched == Holds(old(replies), 0)
      ensures replies == Drop(old(replies), 1)
      ensures trace == old(trace) + [Awaited(pattern, matched)]
      ensures Written(trace) == Written(old(trace))
    {
      matched := Holds(replies, 0);
      WrittenSnoc(trace, Awaited(pattern, matched));
      replies := Drop(replies, 1);
      trace := trace + [Awaited(pattern, matched)];
    }

    /**
      `connect`: take the lock, spawn the terminal, then answer the user
      name prompt, the password prompt and wait for the command prompt. A
      lock timeout happens before anything is spawned; a prompt that times
      out ends the handshake there, still holding the lock.
     */
    method Connect() returns (r: Outcome)
      requires Valid() && phase == Idle
      modifies this
      ensures Valid()
      ensures lockOutcomes == Drop(old(lockOutcomes), LockCalls(old(lockOutcomes)))
      ensures !LockAcquired(old(lockOutcomes)) ==>
                r == Failed(CannotAcquireLock(CannotAcquireMessage)) && phase == Idle && replies == old(replies) &&
                trace == old(trace) + LockTrace(old(lockOutcomes), LockCalls(old(lockOutcomes)))
      ensures LockAcquired(old(lockOutcomes)) ==>
                var j := PromptsMatched(old(replies));
                phase == PhaseAfterLogin(j) &&
                replies == Drop(old(replies), if j < |LoginPrompts| then j + 1 else j) &&
                trace == old(trace) + LockTrace(old(lockOutcomes), LockCalls(old(lockOutcomes)))
                                    + LoginTrace(host, user, password, j) &&
                r == if j == |LoginPrompts| then Done else Failed(Timeout)
    {
      r := AcquireLock();
      if r.Done? {
        r := Handshake();
      }
    }

    /** The rest of `connect`, once the lock is held. */
    method Handshake() returns (r: Outcome)
      requires lockHeld && phase == Idle
      modifies this`phase, this`replies, this`trace
      ensures Valid()
      ensures PromptsMatched(old(replies)) == 0 ==>
                phase == PhaseAfterLogin(0) && replies == Drop(old(replies), 1) &&
                trace == old(trace) + LoginTrace(host, user, password, 0) && r == Failed(Timeout)
      ensures PromptsMatched(old(replies)) == 1 ==>
                phase == PhaseAfterLogin(1) && replies == Drop(old(replies), 2) &&
                trace == old(trace) + LoginTrace(host, user, password, 1) && r == Failed(Timeout)
      ensures PromptsMatched(old(replies)) == 2 ==>
                phase == PhaseAfterLogin(2) && replies == Drop(old(replies), 3) &&
                trace == old(trace) + LoginTrace(host, user, password, 2) && r == Failed(Timeout)
      ensures PromptsMatched(old(replies)) == 3 ==>
                phase == PhaseAfterLogin(3) && replies == Drop(old(replies), 3) &&
                trace == old(trace) + LoginTrace(host, user, password, 3) && r == Done
    {
      ghost var replies0, trace0 := replies, trace;
      trace := trace + [Spawned(TelnetCommand(host))];
      phase := AwaitingUserName;
      var ok := AnswerUserName();
      if !ok {
        assert PromptsMatched(replies0) == 0 && phase == PhaseAfterLogin(0);
        LoginTraceCases(trace0, host, user, password);
        return Failed(Timeout);
      }
      assert Holds(replies, 0) == Holds(replies0, 1) by { DropHolds(replies0, 1, 0); }
      ghost var replies1, trace1 := replies, trace;
      ok := AnswerPassword();
      if !ok {
        assert PromptsMatched(replies0) == 1 && phase == PhaseAfterLogin(1);
        assert replies == Drop(replies0, 2) by { DropHolds(replies0, 1, 1); }
        LoginTraceCases(trace0, host, user, password);
        return Failed(Timeout);
      }
      assert replies == Drop(replies0, 2) && Holds(replies, 0) == Holds(replies0, 2) by {
        DropHolds(replies0, 1, 1);
        DropHolds(replies0, 2, 0);
      }
      ok := AwaitCommandPrompt();
      assert replies == Drop(replies0, 3) by { DropHolds(replies0, 2, 1); }
      if !ok {
        assert PromptsMatched(replies0) == 2 && phase == PhaseAfterLogin(2);
        LoginTraceCases(trace0, host, user, password);
        return Failed(Timeout);
      }
      assert PromptsMatched(replies0) == 3 && phase == PhaseAfterLogin(3);
      LoginTraceCases(trace0, host, user, password);
      r := Done;
    }

    /** Wait for the user name prompt and answer it. */
    method AnswerUserName() returns (ok: bool)
      requires phase == AwaitingUserName
      modifies this`phase, this`replies, this`trace
      ensures ok == Holds(old(replies), 0) && replies == Drop(old(replies), 1)
      ensures ok ==> trace == old(trace) + [Awaited(UserNamePrompt, true), Wrote(user + CR)]
      ensures !ok ==> trace == old(trace) + [Awaited(UserNamePrompt, false)]
      ensures phase == if ok then AwaitingPassword else AwaitingUserName
    {
      ok := Expect(UserNamePrompt);
      if ok {
        Send(user + CR);
        phase := AwaitingPassword;
      }
    }

    /** Wait for the password prompt, answer it, and send the extra line the device needs. */
    method AnswerPassword() returns (ok: bool)
      requires phase == AwaitingPassword
      modifies this`phase, this`replies, this`trace
      ensures ok == Holds(old(replies), 0) && replies == Drop(old(replies), 1)
      ensures ok ==> trace == old(trace) + [Awaited(PasswordPrompt, true), Wrote(password + CR), Wrote(CRLF)]
      ensures !ok ==> trace == old(trace) + [Awaited(PasswordPrompt, false)]
      ensures phase == if ok then AwaitingPrompt else AwaitingPassword
    {
      ok := Expect(PasswordPrompt);
      if ok {
        Send(password + CR);
        Send(CRLF);
        phase := AwaitingPrompt;
      }
    }

    /** Wait for the command prompt that ends the handshake. */
    method AwaitCommandPrompt() returns (ok: bool)
      requires phase == AwaitingPrompt
      modifies this`phase, this`replies, this`trace
      ensures ok == Holds(old(replies), 0) && replies == Drop(old(replies), 1)
      ensures trace == old(trace) + [Awaited(CommandPrompt, ok)]
      ensures phase == if ok then Ready else AwaitingPrompt
    {
      ok := Expect(CommandPrompt);
      if ok {
        phase := Ready;
      }
    }

    /** `get_command_result`: wait for the generic success code. */
    method AwaitSuccess() returns (ok: bool)
      modifies this`replies, this`trace
      ensures ok == Holds(old(replies), 0)
      ensures replies == Drop(old(replies), 1)
      ensures trace == old(trace) + [Awaited(SuccessCode, ok)]
      ensures Written(trace) == Written(old(trace))
    {
      ok := Expect(SuccessCode);
    }

    /**
      `get_result`: wait for the outlet's status line; when that times
      out, wait for the bad-reference code instead, and report a bad outlet
      when it appears.
     */
    method AwaitStatus(n: int) returns (r: Outcome)
      modifies this`replies, this`trace
      ensures Holds(old(replies), 0) ==>
                r == Done && replies == Drop(old(replies), 1) &&
                trace == old(trace) + [Awaited(StatusPattern(n), true)]
      ensures !Holds(old(replies), 0) ==>
                replies == Drop(old(replies), 2) &&
                trace == old(trace) + [Awaited(StatusPattern(n), false),
                                       Awaited(BadReferenceCode, Holds(old(replies), 1))] &&
                r == if Holds(old(replies), 1) then Failed(BadOutlet(BadOutletMessage(IntToDec(n))))
                     else Failed(Timeout)
    {
      ghost var replies0 := replies;
      var found := Expect(StatusPattern(n));
      if found {
        return Done;
      }
      DropHolds(replies0, 1, 0);
      var rejected := Expect(BadReferenceCode);
      DropHolds(replies0, 1, 1);
      if rejected {
        r := Failed(BadOutlet(BadOutletMessage(IntToDec(n))));
      } else {
        r := Failed(Timeout);
      }
    }

    /** `notify` */
    method Notify(name: string, state: string)
      modifies this`trace
      ensures trace == old(trace) + [Notified(Notification(host, name, state))]
      ensures Written(trace) == Written(old(trace))
    {
      WrittenSnoc(trace, Notified(Notification(host, name, state)));
      trace := trace + [Notified(Notification(host, name, state))];
    }

    /**
      `reboot`: resolve the outlet, check the delay, then write the delay
      command and the reboot command, wait once for the success code, and
      notify. A bad token, a bad delay and the 'all' outlet write nothing.
     */
    method Reboot(token: string, secs: int) returns (r: Outcome)
      requires Valid() && phase == Ready
      modifies this`replies, this`trace
      ensures GetOutlet(token).Rejected? ==>
                r == Failed(BadOutlet(GetOutlet(token).message)) &&
                trace == old(trace) && replies == old(replies)
      ensures GetOutlet(token).Resolved? && !ValidDelay(secs) ==>
                r == Failed(BadDelay) && trace == old(trace) && replies == old(replies)
      ensures GetOutlet(token) == Resolved(All, AllName) && ValidDelay(secs) ==>
                r == Failed(FormatError) && trace == old(trace) && replies == old(replies)
      ensures GetOutlet(token).Resolved? && GetOutlet(token).outlet.Indexed? && ValidDelay(secs) ==>
                var n := GetOutlet(token).outlet.n;
                var ok := Holds(old(replies), 0);
                replies == Drop(old(replies), 1) &&
                trace == old(trace) + [Wrote(Line(Render(SetRebootDelay(n, secs)))),
                                       Wrote(Line(Render(TriggerReboot(n)))),
                                       Awaited(SuccessCode, ok)]
                                    + (if ok then [Notified(Notification(host, OutletName(n), "Rebooted"))] else []) &&
                r == if ok then Done else Failed(Timeout)
      ensures Written(trace) == Written(old(trace)) +
                if GetOutlet(token).Resolved? && GetOutlet(token).outlet.Indexed? && ValidDelay(secs) then
                  [Line(Render(SetRebootDelay(GetOutlet(token).outlet.n, secs))),
                   Line(Render(TriggerReboot(GetOutlet(token).outlet.n)))]
                else []
    {
      var res := GetOutlet(token);
      if res.Rejected? {
        return Failed(BadOutlet(res.message));
      }
      if !ValidDelay(secs) {
        return Failed(BadDelay);
      }
      if res.outlet.All? {
        return Failed(FormatError);
      }
      r := RebootOutlet(res.outlet.n, secs);
    }

    /** The writes, the wait and the notification of `reboot` for outlet `n`. */
    method RebootOutlet(n: int, secs: int) returns (r: Outcome)
      modifies this`replies, this`trace
      ensures replies == Drop(old(replies), 1)
      ensures trace == old(trace) + [Wrote(Line(Render(SetRebootDelay(n, secs)))),
                                     Wrote(Line(Render(TriggerReboot(n)))),
                                     Awaited(SuccessCode, Holds(old(replies), 0))]
                                  + (if Holds(old(replies), 0)
                                     then [Notified(Notification(host, OutletName(n), "Rebooted"))] else [])
      ensures r == if Holds(old(replies), 0) then Done else Failed(Timeout)
      ensures Written(trace) == Written(old(trace)) +
                [Line(Render(SetRebootDelay(n, secs))), Line(Render(TriggerReboot(n)))]
    {
      SendLine(Render(SetRebootDelay(n, secs)));
      SendLine(Render(TriggerReboot(n)));
      var ok := AwaitSuccess();
      if ok {
        Notify(OutletName(n), "Rebooted");
        r := Done;
      } else {
        r := Failed(Timeout);
      }
    }

    /**
      `on_off`: resolve the outlet, write the on or off command, wait for
      the success code, and notify "On" or "Off". A bad token and the 'all'
      outlet write nothing.
     */
    method OnOff(token: string, on: bool) returns (r: Outcome)
      requires Valid() && phase == Ready
      modifies this`replies, this`trace
      ensures GetOutlet(token).Rejected? ==>
                r == Failed(BadOutlet(GetOutlet(token).message)) &&
                trace == old(trace) && replies == old(replies)
      ensures GetOutlet(token) == Resolved(All, AllName) ==>
                r == Failed(FormatError) && trace == old(trace) && replies == old(replies)
      ensures GetOutlet(token).Resolved? && GetOutlet(token).outlet.Indexed? ==>
                var n := GetOutlet(token).outlet.n;
                var ok := Holds(old(replies), 0);
                replies == Drop(old(replies), 1) &&
                trace == old(trace) + [Wrote(Line(Render(Power(n, on)))), Awaited(SuccessCode, ok)]
                                    + (if ok then [Notified(Notification(host, OutletName(n), PowerState(on)))] else []) &&
                r == if ok then Done else Failed(Timeout)
      ensures Written(trace) == Written(old(trace)) +
                if GetOutlet(token).Resolved? && GetOutlet(token).outlet.Indexed? then
                  [Line(Render(Power(GetOutlet(token).outlet.n, on)))]
                else []
    {
      var res := GetOutlet(token);
      if res.Rejected? {
        return Failed(BadOutlet(res.message));
      }
      if res.outlet.All? {
        return Failed(FormatError);
      }
      r := SwitchOutlet(res.outlet.n, on);
    }

    /** The write, the wait and the notification of `on_off` for outlet `n`. */
    method SwitchOutlet(n: int, on: bool) returns (r: Outcome)
      modifies this`replies, this`trace
      ensures replies == Drop(old(replies), 1)
      ensures trace == old(trace) + [Wrote(Line(Render(Power(n, on)))), Awaited(SuccessCode, Holds(old(replies), 0))]
                                  + (if Holds(old(replies), 0)
                                     then [Notified(Notification(host, OutletName(n), PowerState(on)))] else [])
      ensures r == if Holds(old(replies), 0) then Done else Failed(Timeout)
      ensures Written(trace) == Written(old(trace)) + [Line(Render(Power(n, on)))]
    {
      SendLine(Render(Power(n, on)));
      var ok := AwaitSuccess();
      if ok {
        Notify(OutletName(n), PowerState(on));
        r := Done;
      } else {
        r := Failed(Timeout);
      }
    }

    /** `on`: `on_off` with `on` true. */
    method On(token: string) returns (r: Outcome)
      requires Valid() && phase == Ready
      modifies this`replies, this`trace
      ensures GetOutlet(token).Rejected? ==>
                r == Failed(BadOutlet(GetOutlet(token).message)) &&
                trace == old(trace) && replies == old(replies)
      ensures GetOutlet(token) == Resolved(All, AllName) ==>
                r == Failed(FormatError) && trace == old(trace) && replies == old(replies)
      ensures GetOutlet(token).Resolved? && GetOutlet(token).outlet.Indexed? ==>
                var n := GetOutlet(token).outlet.n;
                var ok := Holds(old(replies), 0);
                replies == Drop(old(replies), 1) &&
                trace == old(trace) + [Wrote(Line(Render(PowerOn(n)))), Awaited(SuccessCode, ok)]
                                    + (if ok then [Notified(Notification(host, OutletName(n), "On"))] else []) &&
                r == if ok then Done else Failed(Timeout)
    {
      r := OnOff(token, true);
    }

    /** `off`: `on_off` with `on` false. */
    method Off(token: string) returns (r: Outcome)
      requires Valid() && phase == Ready
      modifies this`replies, this`trace
      ensures GetOutlet(token).Rejected? ==>
                r == Failed(BadOutlet(GetOutlet(token).message)) &&
                trace == old(trace) && replies == old(replies)
      ensures GetOutlet(token) == Resolved(All, AllName) ==>
                r == Failed(FormatError) && trace == old(trace) && replies == old(replies)
      ensures GetOutlet(token).Resolved? && GetOutlet(token).outlet.Indexed? ==>
                var n := GetOutlet(token).outlet.n;
                var ok := Holds(old(replies), 0);
                replies == Drop(old(replies), 1) &&
                trace == old(trace) + [Wrote(Line(Render(PowerOff(n)))), Awaited(SuccessCode, ok)]
                                    + (if ok then [Notified(Notification(host, OutletName(n), "Off"))] else []) &&
                r == if ok then Done else Failed(Timeout)
    {
      r := OnOff(token, false);
    }

    /**
      `get`: for all outlets, write `olStatus all`, wait for the command
      prompt and read one raw line; for one outlet, write its status query
      and wait for its status line, or failing that for the bad-reference
      code.
     */
    method Get(token: string) returns (r: Outcome)
      requires Valid() && phase == Ready
      modifies this`replies, this`trace
      ensures GetOutlet(token).Rejected? ==>
                r == Failed(BadOutlet(GetOutlet(token).message)) &&
                trace == old(trace) && replies == old(replies)
      ensures GetOutlet(token) == Resolved(All, AllName) ==>
                var ok := Holds(old(replies), 0);
                replies == Drop(old(replies), 1) &&
                trace == old(trace) + [Wrote(Line(Render(QueryAllStatus))), Awaited(CommandPrompt, ok)]
                                    + (if ok then [ReadLine] else []) &&
                r == if ok then Done else Failed(Timeout)
      ensures GetOutlet(token).Resolved? && GetOutlet(token).outlet.Indexed? ==>
                var n := GetOutlet(token).outlet.n;
                var found := Holds(old(replies), 0);
                var rejected := Holds(old(replies), 1);
                replies == Drop(old(replies), if found then 1 else 2) &&
                trace == old(trace) + [Wrote(Line(Render(QueryStatus(n)))), Awaited(StatusPattern(n), found)]
                                    + (if found then [] else [Awaited(BadReferenceCode, rejected)]) &&
                r == if found then Done
                     else if rejected then Failed(BadOutlet(BadOutletMessage(IntToDec(n))))
                     else Failed(Timeout)
    {
      var res := GetOutlet(token);
      if res.Rejected? {
        return Failed(BadOutlet(res.message));
      }
      if res.outlet.All? {
        r := GetAll();
      } else {
        r := GetOne(res.outlet.n);
      }
    }

    /** The indexed branch of `get`: the status query for outlet `n`, then `get_result`. */
    method GetOne(n: int) returns (r: Outcome)
      modifies this`replies, this`trace
      ensures Holds(old(replies), 0) ==>
                r == Done && replies == Drop(old(replies), 1) &&
                trace == old(trace) + [Wrote(Line(Render(QueryStatus(n)))), Awaited(StatusPattern(n), true)]
      ensures !Holds(old(replies), 0) ==>
                replies == Drop(old(replies), 2) &&
                trace == old(trace) + [Wrote(Line(Render(QueryStatus(n)))), Awaited(StatusPattern(n), false),
                                       Awaited(BadReferenceCode, Holds(old(replies), 1))] &&
                r == if Holds(old(replies), 1) then Failed(BadOutlet(BadOutletMessage(IntToDec(n))))
                     else Failed(Timeout)
    {
      SendLine(Render(QueryStatus(n)));
      r := AwaitStatus(n);
    }

    /** The 'all' branch of `get`: the bulk reply is one raw line, read and not parsed. */
    method GetAll() returns (r: Outcome)
      modifies this`replies, this`trace
      ensures replies == Drop(old(replies), 1)
      ensures Holds(old(replies), 0) ==>
                r == Done && trace == old(trace) + [Wrote(Line(Render(QueryAllStatus))), Awaited(CommandPrompt, true), ReadLine]
      ensures !Holds(old(replies), 0) ==>
                r == Failed(Timeout) && trace == old(trace) + [Wrote(Line(Render(QueryAllStatus))), Awaited(CommandPrompt, false)]
    {
      Send(Render(QueryAllStatus) + CR);
      var ok := Expect(CommandPrompt);
      if ok {
        trace := trace + [ReadLine];
        r := Done;
      } else {
        r := Failed(Timeout);
      }
    }

    /** `disconnect`: log out, signal end of input, close the channel, and release the lock last. */
    method Disconnect()
      requires Valid() && phase == Ready
      modifies this`trace, this`phase, this`lockHeld
      ensures Valid() && phase == LoggedOut && !lockHeld
      ensures trace == old(trace) + [Wrote(Line(Render(Logout))), WroteEof, Closed, Released]
    {
      SendLine(Render(Logout));
      trace := trace + [WroteEof];
      trace := trace + [Closed];
      phase := LoggedOut;
      Unlock();
    }
  }
}
