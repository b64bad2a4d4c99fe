/** Players: the position codes, the per-play decision flags a player
    carries, and the pitcher's pick-off choice. Every random draw a
    decision makes is a parameter here. */
module Players {
  import opened Wrappers
  import opened Text

  /** `Positions`, in the order their indices are stored. */
  const Positions: seq<string> :=
    ["DH", "P", "C", "1B", "2B", "3B", "SS", "LF", "CF", "RF", "Bench", "Unavailable"]

  /** `list.index`: the first position holding `x`. */
  function IndexOf(s: seq<string>, x: string): (r: Option<nat>)
    ensures r.Some? <==> x in s
    ensures r.Some? ==> r.value < |s| && s[r.value] == x
  {
    if s == [] then None
    else if s[0] == x then Some(0)
    else match IndexOf(s[1..], x)
      case Some(i) => Some(i + 1)
      case None => None
  }

  /** `pos_from_str(name)`: the index of a position name; any other name
      fails the assertion. */
  function PosFromStr(name: string): (r: Result<nat>)
    ensures r.Success? <==> name in Positions
    ensures r.Success? ==> r.value < |Positions| && Positions[r.value] == name
  {
    match IndexOf(Positions, name)
    case Some(i) => Success(i)
    case None => Failure("AssertionError: not a position")
  }

  lemma PositionsDistinct()
    ensures forall i, j :: 0 <= i < j < |Positions| ==> Positions[i] != Positions[j]
  {
  }

  /** Reading a stored index back through `pos_from_str` gives the index:
      the position names are all different. */
  lemma PosRoundTrip(i: nat)
    requires i < |Positions|
    ensures PosFromStr(Positions[i]) == Success(i)
  {
    PositionsDistinct();
    IndexOfDistinct(Positions, i);
  }

  /** In a list without repeats, `index` finds each entry where it stands. */
  lemma {:induction false} IndexOfDistinct(s: seq<string>, i: nat)
    requires i < |s| && forall a, b :: 0 <= a < b < |s| ==> s[a] != s[b]
    ensures IndexOf(s, s[i]) == Some(i)
  {
    if i > 0 {
      assert s[0] != s[i];
      assert s[1..][i - 1] == s[i];
      IndexOfDistinct(s[1..], i - 1);
    }
  }

  const Bench := 10
  const Pitcher := 1

  predicate StartsWith(s: string, p: string) {
    |p| <= |s| && s[..|p|] == p
  }

  // -----------------------------------------------------------------------
  // The pick-off choice

  /** One entry of the `bases` list a pitcher sees: the base's name and
      whether the runner standing there is leading off. */
  type Runner = (string, bool)

  /** The runner the loop keeps at the head of its list: the last one
      listed on a base whose name starts with `third`, by leadoff flag. */
  function ThirdRunner(bs: seq<Runner>): Option<bool>
    decreases |bs|
  {
    if bs == [] then None
    else if StartsWith(bs[|bs| - 1].0, "third") then Some(bs[|bs| - 1].1)
    else ThirdRunner(bs[..|bs| - 1])
  }

  /** The other runners, in the order listed. */
  function OtherRunners(bs: seq<Runner>): (rs: seq<Runner>)
    ensures forall r :: r in rs ==> r in bs && !StartsWith(r.0, "third")
    decreases |bs|
  {
    if bs == [] then []
    else if StartsWith(bs[|bs| - 1].0, "third") then OtherRunners(bs[..|bs| - 1])
    else OtherRunners(bs[..|bs| - 1]) + [bs[|bs| - 1]]
  }

  /** Some runner on a base whose name starts with `second` is leading off. */
  predicate SecondLeads(rs: seq<Runner>) {
    exists i :: 0 <= i < |rs| && StartsWith(rs[i].0, "second") && rs[i].1
  }

  /** The pick-off flag and target after `make_decision('pick-off', ...)`,
      from the flag and target before it. `bases` is None when no bases
      argument is passed; `yes` is the y/n draw. */
  function PickOff(flag: bool, target: Option<string>, bases: Option<seq<Runner>>, yes: bool): (bool, Option<string>) {
    if bases.None? || !yes then (false, target)
    else
      var bs := bases.value;
      var afterThird := if ThirdRunner(bs) == Some(true) then (true, Some("thirdbase")) else (flag, target);
      var others := OtherRunners(bs);
      if others == [] then (false, afterThird.1)
      else if |others| == 3 then
        if SecondLeads(others) then (true, Some("secondbase")) else afterThird
      else if others[0].1 then (true, Some(others[0].0))
      else afterThird
  }

  /** No bases argument, or an `n` draw: no pick-off. */
  lemma NoPickOffWithoutDecision(flag: bool, target: Option<string>, bases: Option<seq<Runner>>, yes: bool)
    requires bases.None? || !yes
    ensures !PickOff(flag, target, bases, yes).0
  {
  }

  /** A runner on third with nobody else on base is never picked off,
      leading off or not. */
  lemma LoneThirdNeverPickedOff(flag: bool, target: Option<string>, lead: bool)
    ensures !PickOff(flag, target, Some([("thirdbase", lead)]), true).0
  {
    var bs := [("thirdbase", lead)];
    assert StartsWith(bs[0].0, "third");
    assert bs[..0] == [];
    assert OtherRunners(bs) == [];
  }

  /** With one or two other runners, the first one listed decides: a
      leading runner becomes the target, overriding third base. */
  lemma FirstOtherRunnerOverrides(flag: bool, target: Option<string>, bs: seq<Runner>)
    requires var others := OtherRunners(bs); 0 < |others| < 3 && others[0].1
    ensures PickOff(flag, target, Some(bs), true) == (true, Some(OtherRunners(bs)[0].0))
  {
  }

  /** A pick-off is called only for a runner who leads off, unless the
      flag was already up and nothing cleared it. */
  lemma PickOffNeedsLeader(flag: bool, target: Option<string>, bs: seq<Runner>)
    requires PickOff(flag, target, Some(bs), true).0 && !flag
    ensures exists i :: 0 <= i < |bs| && bs[i].1
  {
    var others := OtherRunners(bs);
    if ThirdRunner(bs) == Some(true) {
      ThirdRunnerListed(bs);
    } else if |others| == 3 {
      var i :| 0 <= i < |others| && StartsWith(others[i].0, "second") && others[i].1;
      assert others[i] in bs;
    } else {
      assert others[0] in bs;
    }
  }

  lemma {:induction false} ThirdRunnerListed(bs: seq<Runner>)
    requires ThirdRunner(bs) == Some(true)
    ensures exists i :: 0 <= i < |bs| && bs[i].1
    decreases |bs|
  {
    var last := bs[|bs| - 1];
    if !StartsWith(last.0, "third") {
      ThirdRunnerListed(bs[..|bs| - 1]);
      var i :| 0 <= i < |bs| - 1 && bs[..|bs| - 1][i].1;
      assert bs[i].1;
    }
  }

  /** The target is third base, second base, a listed base, or the one
      set before. */
  lemma PickOffTargets(flag: bool, target: Option<string>, bs: seq<Runner>)
    ensures var t := PickOff(flag, target, Some(bs), true).1;
      t == target || t == Some("thirdbase") || t == Some("secondbase") ||
      (t.Some? && exists i :: 0 <= i < |bs| && bs[i].0 == t.value)
  {
    var others := OtherRunners(bs);
    if others != [] && |others| != 3 && others[0].1 {
      assert others[0] in bs;
    }
  }

  // -----------------------------------------------------------------------
  // The player object

  /** A `BaseBallPlayer`: jersey number, position index, team, and the
      flags a play sets and `cleanup_player` clears. */
  class Player {
    const num: int
    var pos: nat
    const team: string
    var swung: bool
    var leadoff: bool
    var steal: bool
    var pickOff: bool
    var pickoffLocation: Option<string>
    var onbase: int

    predicate Valid()
      reads this
    {
      pos < |Positions|
    }

    /** `BaseBallPlayer(num, pos, team, ...)`: the position name must be
        one of `Positions`; every flag starts down. */
    constructor (num: int, posName: string, team: string)
      requires posName in Positions
      ensures Valid() && Positions[pos] == posName
      ensures this.num == num && this.team == team
      ensures !swung && !leadoff && !steal && !pickOff && pickoffLocation.None? && onbase == -1
    {
      var r := PosFromStr(posName);
      this.num := num;
      this.team := team;
      pos := r.value;
      swung, leadoff, steal, pickOff := false, false, false, false;
      pickoffLocation := None;
      onbase := -1;
    }

    /** `posname`: the name of the stored position, which `pos_from_str`
        maps back to the stored index. */
    function PosName(): (name: string)
      reads this
      requires Valid()
      ensures name in Positions && PosFromStr(name) == Success(pos)
    {
      PosRoundTrip(pos);
      Positions[pos]
    }

    /** `__repr__`. */
    function Repr(): (s: string)
      reads this
      requires Valid()
      ensures |s| > 7 && s[..7] == "Player("
    {
      "Player(" + Str(num) + "," + Positions[pos] + "," + team + ")"
    }

    /** The `pos` setter: a position name is stored as its index; anything
        else fails the assertion and leaves the player as it was. */
    method SetPos(name: string) returns (ok: bool)
      requires Valid()
      modifies this`pos
      ensures ok <==> name in Positions
      ensures Valid() && (ok ==> PosName() == name) && (!ok ==> pos == old(pos))
    {
      var r := PosFromStr(name);
      if r.Failure? {
        return false;
      }
      pos := r.value;
      ok := true;
    }

    /** `cleanup_player`: every decision flag down, no pick-off target. */
    method Cleanup()
      modifies this
      ensures !swung && !leadoff && !steal && !pickOff && pickoffLocation.None?
      ensures pos == old(pos) && onbase == old(onbase)
    {
      swung := false;
      leadoff := false;
      steal := false;
      pickOff := false;
      pickoffLocation := None;
    }

    /** `make_decision('leadoff')`, `('steal')` and `('swing')`, with the
        drawn answer given: each sets its own flag and nothing else. */
    method DecideLeadoff(draw: bool)
      modifies this
      ensures leadoff == draw && steal == old(steal) && swung == old(swung)
      ensures pickOff == old(pickOff) && pickoffLocation == old(pickoffLocation) && pos == old(pos)
      ensures onbase == old(onbase)
    {
      leadoff := draw;
    }

    method DecideSteal(draw: bool)
      modifies this
      ensures steal == draw && leadoff == old(leadoff) && swung == old(swung)
      ensures pickOff == old(pickOff) && pickoffLocation == old(pickoffLocation) && pos == old(pos)
      ensures onbase == old(onbase)
    {
      steal := draw;
    }

    method DecideSwing(draw: bool)
      modifies this
      ensures swung == draw && leadoff == old(leadoff) && steal == old(steal)
      ensures pickOff == old(pickOff) && pickoffLocation == old(pickoffLocation) && pos == old(pos)
      ensures onbase == old(onbase)
    {
      swung := draw;
    }

    /** `make_decision('pick-off', bases)`: the runners are sorted into the
        one on third and the others, then the flag and target are set as
        `PickOff` says. */
    method DecidePickOff(bases: Option<seq<Runner>>, yes: bool)
      modifies this
      ensures (pickOff, pickoffLocation) == PickOff(old(pickOff), old(pickoffLocation), bases, yes)
      ensures pos == old(pos) && swung == old(swung) && leadoff == old(leadoff) && steal == old(steal)
      ensures onbase == old(onbase)
    {
      if bases.None? || !yes {
        pickOff := false;
        return;
      }
      var bs := bases.value;
      var third: Option<bool> := None;
      var others: seq<Runner> := [];
      var i := 0;
      while i < |bs|
        invariant 0 <= i <= |bs|
        invariant third == ThirdRunner(bs[..i]) && others == OtherRunners(bs[..i])
      {
        assert bs[..i + 1][..i] == bs[..i];
        if StartsWith(bs[i].0, "third") {
          third := Some(bs[i].1);
        } else {
          others := others + [bs[i]];
        }
        i := i + 1;
      }
      assert bs[..|bs|] == bs;
      if third == Some(true) {
        pickOff := true;
        pickoffLocation := Some("thirdbase");
      }
      if others != [] {
        if |others| == 3 {
          var j := 0;
          var found := false;
          while j < 3
            invariant 0 <= j <= 3
            invariant found <==> SecondLeads(others[..j])
          {
            assert forall k :: 0 <= k < j ==> others[..j + 1][k] == others[..j][k];
            if StartsWith(others[j].0, "second") && others[j].1 {
              found := true;
              assert others[..j + 1][j] == others[j];
            }
            j := j + 1;
          }
          assert others[..3] == others;
          if found {
            pickoffLocation := Some("secondbase");
            pickOff := true;
          }
        } else if others[0].1 {
          pickOff := true;
          pickoffLocation := Some(others[0].0);
        }
      } else {
        pickOff := false;
      }
    }
  }
}
