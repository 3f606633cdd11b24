/**
  Outlet resolution (`APC.get_outlet`): a token names every outlet through
  one of the "all" aliases, or one outlet through an integer. The integer is
  not range-checked here; the device rejects indices it does not have.
 */
module Outlets {
  import opened Decimal

  datatype Outlet = All | Indexed(n: int)

  /** What `get_outlet` returns (the outlet and its display name) or the message it exits with. */
  datatype Resolution = Resolved(outlet: Outlet, name: string) | Rejected(message: string)

  /** The tokens compared, exactly and case-sensitively, against `str(outlet)`. */
  const AllAliases: seq<string> := ["*", "+", "all"]

  const AllName := "ALL outlets"

  /** `'Outlet #%d' % n` */
  function OutletName(n: int): (s: string)
    ensures |s| > 8 && s[..8] == "Outlet #"
    ensures ParseInt(s[8..]) == Some(n)
  {
    ParseIntDec(n);
    assert ("Outlet #" + IntToDec(n))[8..] == IntToDec(n);
    "Outlet #" + IntToDec(n)
  }

  /** `'Bad outlet: [%s]' % token` */
  function BadOutletMessage(token: string): (m: string)
    ensures |m| == |token| + 14
    ensures m[..13] == "Bad outlet: [" && m[|m| - 1] == ']'
    ensures m[13..|m| - 1] == token
  {
    var m := "Bad outlet: [" + token + "]";
    assert m[13..|m| - 1] == token;
    m
  }

  function GetOutlet(token: string): (r: Resolution)
    ensures r.Resolved? && r.outlet.All? <==> token in AllAliases
    ensures r.Resolved? && r.outlet.Indexed? ==>
              ParseInt(token) == Some(r.outlet.n) && r.name == OutletName(r.outlet.n)
    ensures r.Rejected? <==> token !in AllAliases && ParseInt(token).None?
    ensures r.Rejected? ==> r.message == BadOutletMessage(token)
  {
    if token in AllAliases then Resolved(All, AllName)
    else
      match ParseInt(token)
      case Some(n) => Resolved(Indexed(n), OutletName(n))
      case None => Rejected(BadOutletMessage(token))
  }

  /** An alias, and nothing else, resolves to all outlets, always with the name "ALL outlets". */
  lemma GetOutletAll(token: string)
    ensures GetOutlet(token) == Resolved(All, AllName) <==> token in AllAliases
  {
  }

  /** The decimal text of any integer, negative or out of range included, resolves to that outlet. */
  lemma GetOutletNumber(n: int)
    ensures GetOutlet(IntToDec(n)) == Resolved(Indexed(n), OutletName(n))
  {
    var s := IntToDec(n);
    assert s !in AllAliases by {
      assert s[0] != '*' && s[0] != '+' && s[0] != 'a';
    }
    ParseIntDec(n);
  }

  /** Display names tell outlets apart. */
  lemma OutletNameInjective(m: int, n: int)
    ensures OutletName(m) == OutletName(n) ==> m == n
  {
    if OutletName(m) == OutletName(n) {
      var k := |"Outlet #"|;
      assert IntToDec(m) == OutletName(m)[k..];
      assert IntToDec(n) == OutletName(n)[k..];
      DecInjective(m, n);
    }
  }

  /** Examples: `all`, `3` and `x`; the match is case-sensitive. */
  lemma GetOutletExamples()
    ensures GetOutlet("all") == Resolved(All, "ALL outlets")
    ensures GetOutlet("3") == Resolved(Indexed(3), "Outlet #3")
    ensures GetOutlet("x") == Rejected("Bad outlet: [x]")
    ensures GetOutlet("ALL") == Rejected("Bad outlet: [ALL]")
  {
    assert ParseInt("ALL") == None by { assert !IsDigit('A'); }
    GetOutletNumber(3);
  }
}
