/**
  The device's command vocabulary, as the controller writes it
  (`'olRbootTime %d %d'`, `'olReboot %d'`, `'olOn %d'`, `'olOff %d'`,
  `'olStatus %d'`, `'olStatus all'`, `'bye'`), and a reader for the same
  dialect. The reader is the partner of the writer: every line the
  controller renders reads back as the command it was built from, so the
  outlet number and the delay reach the device unambiguously.
 */
module Commands {
  import opened Decimal

  datatype Command =
    | SetRebootDelay(outlet: int, secs: int)
    | TriggerReboot(outlet: int)
    | PowerOn(outlet: int)
    | PowerOff(outlet: int)
    | QueryStatus(outlet: int)
    | QueryAllStatus
    | Logout

  /** The bounds of the reboot delay `reboot` accepts: `secs in range(5, 61)`. */
  const MinRebootDelay := 5
  const MaxRebootDelay := 60

  /** Python's `range(lo, hi)`: the integers from `lo` up to, not including, `hi`. */
  function Range(lo: int, hi: int): (r: seq<int>)
    ensures |r| == if lo < hi then hi - lo else 0
    ensures forall x :: x in r <==> lo <= x < hi
    decreases hi - lo
  {
    if lo >= hi then [] else [lo] + Range(lo + 1, hi)
  }

  /** `secs in range(5, 61)` */
  predicate ValidDelay(secs: int): (b: bool)
    ensures b <==> MinRebootDelay <= secs <= MaxRebootDelay
  {
    secs in Range(MinRebootDelay, MaxRebootDelay + 1)
  }

  /** The command `on_off` sends for `on`. */
  function Power(n: int, on: bool): (c: Command)
    ensures (c.PowerOn? || c.PowerOff?) && c.outlet == n && (c.PowerOn? <==> on)
  {
    if on then PowerOn(n) else PowerOff(n)
  }

  predicate NoSpace(w: string) {
    forall i :: 0 <= i < |w| ==> w[i] != ' '
  }

  predicate NoReturn(w: string) {
    forall i :: 0 <= i < |w| ==> w[i] != '\r'
  }

  /** The words of a command line: a keyword, then its arguments; none is empty or holds a space or a carriage return. */
  function Words(c: Command): (ws: seq<string>)
    ensures 1 <= |ws| <= 3
    ensures forall i :: 0 <= i < |ws| ==> |ws[i]| > 0 && NoSpace(ws[i]) && NoReturn(ws[i])
  {
    match c
    case SetRebootDelay(n, secs) => DecNoSpace(n); DecNoSpace(secs); ["olRbootTime", IntToDec(n), IntToDec(secs)]
    case TriggerReboot(n) => DecNoSpace(n); ["olReboot", IntToDec(n)]
    case PowerOn(n) => DecNoSpace(n); ["olOn", IntToDec(n)]
    case PowerOff(n) => DecNoSpace(n); ["olOff", IntToDec(n)]
    case QueryStatus(n) => DecNoSpace(n); ["olStatus", IntToDec(n)]
    case QueryAllStatus => ["olStatus", "all"]
    case Logout => ["bye"]
  }

  /** Words separated by single spaces. */
  function Join(ws: seq<string>): (s: string)
    ensures |ws| > 0 ==> ws[0] <= s
    ensures (forall i :: 0 <= i < |ws| ==> NoReturn(ws[i])) ==> NoReturn(s)
  {
    if |ws| == 0 then ""
    else if |ws| == 1 then ws[0]
    else
      var rest := Join(ws[1..]);
      assert forall i :: 0 <= i < |ws| - 1 ==> ws[1..][i] == ws[i + 1];
      ws[0] + " " + rest
  }

  /** A command's text: it starts with the command's keyword and holds no carriage return. */
  function Render(c: Command): (s: string)
    ensures |s| > 0 && Words(c)[0] <= s
    ensures NoReturn(s)
  {
    Join(Words(c))
  }

  /** What `sendnl` writes for a command: the text, then a carriage return as its last character. */
  function Line(text: string): (l: string)
    ensures |l| == |text| + 1 && l[..|text|] == text && l[|text|] == '\r'
  {
    text + "\r"
  }

  /** The pieces of `s` between single spaces (`s.split(' ')`). */
  function Split(s: string): (ws: seq<string>)
    ensures |ws| > 0
  {
    if |s| == 0 then [""]
    else
      var rest := Split(s[1..]);
      if s[0] == ' ' then [""] + rest else [[s[0]] + rest[0]] + rest[1..]
  }

  /** Reads a command line of the dialect, or None for anything else. */
  function Parse(s: string): Option<Command> {
    ParseWords(Split(s))
  }

  function ParseWords(ws: seq<string>): Option<Command> {
    if |ws| == 1 then
      if ws[0] == "bye" then Some(Logout) else None
    else if |ws| == 2 then
      if ws[0] == "olStatus" && ws[1] == "all" then Some(QueryAllStatus)
      else match ParseInt(ws[1])
        case None => None
        case Some(n) =>
          if ws[0] == "olReboot" then Some(TriggerReboot(n))
          else if ws[0] == "olOn" then Some(PowerOn(n))
          else if ws[0] == "olOff" then Some(PowerOff(n))
          else if ws[0] == "olStatus" then Some(QueryStatus(n))
          else None
    else if |ws| == 3 && ws[0] == "olRbootTime" then
      match (ParseInt(ws[1]), ParseInt(ws[2]))
      case (Some(n), Some(secs)) => Some(SetRebootDelay(n, secs))
      case _ => None
    else None
  }

  lemma {:induction false} SplitAfterWord(w: string, t: string)
    requires NoSpace(w)
    ensures Split(w + t) == [w + Split(t)[0]] + Split(t)[1..]
    decreases |w|
  {
    if |w| > 0 {
      assert (w + t)[1..] == w[1..] + t;
      SplitAfterWord(w[1..], t);
      assert [w[0]] + (w[1..] + Split(t)[0]) == w + Split(t)[0];
    } else {
      assert w + t == t;
      assert w + Split(t)[0] == Split(t)[0];
      assert Split(t) == [Split(t)[0]] + Split(t)[1..];
    }
  }

  /** Splitting undoes joining words that hold no space. */
  lemma {:induction false} SplitJoin(ws: seq<string>)
    requires |ws| > 0
    requires forall i :: 0 <= i < |ws| ==> NoSpace(ws[i])
    ensures Split(Join(ws)) == ws
    decreases |ws|
  {
    if |ws| == 1 {
      SplitAfterWord(ws[0], "");
      assert ws[0] + "" == ws[0];
    } else {
      var rest := Join(ws[1..]);
      assert ws[0] + " " + rest == ws[0] + (" " + rest);
      SplitAfterWord(ws[0], " " + rest);
      assert (" " + rest)[1..] == rest;
      assert Split(" " + rest) == [""] + Split(rest);
      assert ws[0] + "" == ws[0];
      SplitJoin(ws[1..]);
      assert ws == [ws[0]] + ws[1..];
    }
  }

  lemma DecNoSpace(n: int)
    ensures NoSpace(IntToDec(n)) && NoReturn(IntToDec(n)) && IntToDec(n) != "all"
  {
    var s := IntToDec(n);
    forall i | 0 <= i < |s| ensures s[i] != ' ' && s[i] != '\r' {
      if i > 0 { assert s[1..][i - 1] == s[i]; }
    }
  }

  /** The words of every command read back as that command. */
  lemma ParseWordsOf(c: Command)
    ensures ParseWords(Words(c)) == Some(c)
  {
    match c
    case SetRebootDelay(n, secs) => ParseIntDec(n); ParseIntDec(secs);
    case TriggerReboot(n) => ParseIntDec(n);
    case PowerOn(n) => ParseIntDec(n);
    case PowerOff(n) => ParseIntDec(n);
    case QueryStatus(n) => DecNoSpace(n); ParseIntDec(n);
    case QueryAllStatus =>
    case Logout =>
  }

  /** Every command the controller writes reads back as that command. */
  lemma ParseRender(c: Command)
    ensures Parse(Render(c)) == Some(c)
  {
    SplitJoin(Words(c));
    ParseWordsOf(c);
  }

  /** Different commands are written as different lines. */
  lemma RenderInjective(c: Command, d: Command)
    ensures Line(Render(c)) == Line(Render(d)) ==> c == d
  {
    if Line(Render(c)) == Line(Render(d)) {
      assert Render(c) == Line(Render(c))[..|Render(c)|];
      ParseRender(c);
      ParseRender(d);
    }
  }

  /** Examples: reboot outlet 2 after 30 seconds, switch outlet 1 off, query outlet 5 and all outlets, log out. */
  lemma RenderExamples()
    ensures Render(SetRebootDelay(2, 30)) == "olRbootTime 2 30"
    ensures Render(TriggerReboot(2)) == "olReboot 2"
    ensures Render(PowerOff(1)) == "olOff 1"
    ensures Render(QueryStatus(5)) == "olStatus 5"
    ensures Render(QueryAllStatus) == "olStatus all"
    ensures Render(Logout) == "bye"
  {
    assert IntToDec(30) == "30" by { DecExamples(); }
  }
}
