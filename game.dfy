/** The game: a log of records, newest first, above a `<START>`
    sentinel; the field locations the move records keep up to date; the
    deterministic play rules that push records; and the replay that
    drains the log into the game state. */
module Game {
  import opened Wrappers
  import opened Text
  import opened Context
  import opened Logic
  import opened Players
  import opened Objects
  import opened Actions

  // -----------------------------------------------------------------------
  // Locations

  /** The `Locations` tuple with its None slots left out: the occupied
      spots and who stands there. */
  type Spots = map<string, Player>

  /** The move branch's `base_dict`: bases 1 to 3 have a slot, the batter's
      box (0) and home (4) have none. */
  function BaseName(b: int): Option<string> {
    if b == 1 then Some("firstbase")
    else if b == 2 then Some("secondbase")
    else if b == 3 then Some("thirdbase")
    else None
  }

  /** Which bases a location map has a runner on. */
  function Occupancy(loc: Spots): Bases {
    Bases(Bit("thirdbase" in loc), Bit("secondbase" in loc), Bit("firstbase" in loc))
  }

  /** Writing a runner, or None, into a spot. */
  function Put(loc: Spots, spot: string, runner: Option<Player>): (r: Spots)
    ensures spot in r <==> runner.Some?
    ensures runner.Some? ==> r[spot] == runner.value
    ensures forall x :: x != spot ==> (x in r <==> x in loc) && (x in r ==> r[x] == loc[x])
  {
    match runner
    case Some(p) => loc[spot := p]
    case None => loc - {spot}
  }

  /** When the move branch gets through: the option is in the move table,
      both bases have a `base_dict` entry, and a caught runner leaves a
      real base (a None key fails the rebuild of the locations). */
  predicate MoveOk(option: string, n: int, m: int) {
    option in ["move", "steal", "caught"] && 0 <= n <= 4 && 0 <= m <= 4 &&
    (option == "caught" ==> BaseName(n).Some?)
  }

  /** The locations after a move: a move or steal vacates the runner's
      base and puts the runner on the base reached; a caught stealer
      empties both. */
  function Relocated(loc: Spots, option: string, n: int, m: int, runner: Option<Player>): Spots
  {
    if option == "caught" then
      var left := if BaseName(m).Some? then loc - {BaseName(m).value} else loc;
      if BaseName(n).Some? then left - {BaseName(n).value} else left
    else
      var left := if BaseName(n).Some? then loc - {BaseName(n).value} else loc;
      if BaseName(m).Some? then Put(left, BaseName(m).value, runner) else left
  }

  /** The score marker a run from third adds for the side at bat. */
  function ScoreOption(order: Order): string {
    if order == Top then "ASCORE" else "HSCORE"
  }

  /** The record of a fixed marker shift. */
  function MarkerRecord(opt: string): string {
    if opt == "out" then OutRecord else if opt == "ASCORE" then AwayScoreRecord else HomeScoreRecord
  }

  lemma MarkerTemplates(opt: string)
    requires opt in ["ASCORE", "HSCORE", "out"]
    ensures Template(ShiftKey(opt).value) == MarkerRecord(opt)
  {
    if opt == "out" {
      assert ShiftKey(opt) == Some(ShiftOut);
    } else if opt == "ASCORE" {
      assert ShiftKey(opt) == Some(ShiftAScore);
    } else {
      assert ShiftKey(opt) == Some(ShiftHScore);
    }
  }

  /** The records a move pushes, newest first: its own record, above the
      score marker when a move or steal leaves third. */
  function MovePushes(option: string, n: int, m: int, order: Order): seq<string> {
    [Str(n) + ":" + option + ":" + Str(m)] +
    (if option != "caught" && n == 3 then [MarkerRecord(ScoreOption(order))] else [])
  }

  // -----------------------------------------------------------------------
  // Advances

  function Min(a: int, b: int): int { if a <= b then a else b }

  /** `if self.locations.<base>: self.action_move(that runner, n, m)`:
      the locations after the move, or unchanged when the base is empty. */
  function StepSpots(loc: Spots, n: int, m: int): Spots
    requires 1 <= n <= 3
  {
    var b := BaseName(n).value;
    if b in loc then Relocated(loc, "move", n, m, Some(loc[b])) else loc
  }

  /** The records that conditional move pushes, newest first. */
  function StepPushes(loc: Spots, n: int, m: int, order: Order): seq<string>
    requires 1 <= n <= 3
  {
    if BaseName(n).value in loc then MovePushes("move", n, m, order) else []
  }

  /** What the moves of one runner do to the bases: the runner's base
      empties and the base reached fills. */
  lemma StepOccupancy(loc: Spots, n: int, m: int)
    requires 1 <= n <= 3 && 0 <= m <= 4
    ensures Occupancy(StepSpots(loc, n, m)) ==
      if BaseName(n).value in loc then Occupy(Vacate(Occupancy(loc), n), m) else Occupancy(loc)
  {
    var b := BaseName(n).value;
    if b in loc {
      RelocatedMove(loc, "move", n, m, loc[b]);
    }
  }

  /** The runner chain most advance rules share: third comes home, then
      second goes to `s`, then first goes to `f`, each only when its base
      is occupied at that point. */
  function ChainSpots(loc: Spots, s: int, f: int): Spots
    requires 0 <= s <= 4 && 0 <= f <= 4
  {
    StepSpots(StepSpots(StepSpots(loc, 3, 4), 2, s), 1, f)
  }

  /** The records of that chain, newest first. */
  function ChainPushes(loc: Spots, s: int, f: int, order: Order): seq<string>
    requires 0 <= s <= 4 && 0 <= f <= 4
  {
    var l1 := StepSpots(loc, 3, 4);
    var l2 := StepSpots(l1, 2, s);
    StepPushes(l2, 1, f, order) + StepPushes(l1, 2, s, order) + StepPushes(loc, 3, 4, order)
  }

  /** The chain's effect on the bases, runner by runner. */
  lemma ChainOccupancy(loc: Spots, s: int, f: int)
    requires 2 <= s <= 4 && 2 <= f <= 4 && f <= s
    ensures var b := Occupancy(loc);
      var t := if b.third == 1 then Vacate(b, 3) else b;
      var u := if b.second == 1 then Occupy(Vacate(t, 2), s) else t;
      Occupancy(ChainSpots(loc, s, f)) == if b.first == 1 then Occupy(Vacate(u, 1), f) else u
  {
    var l1 := StepSpots(loc, 3, 4);
    var l2 := StepSpots(l1, 2, s);
    StepOccupancy(loc, 3, 4);
    StepOccupancy(l1, 2, s);
    StepOccupancy(l2, 1, f);
  }

  /** Three pushes in turn, as one block in front of the old log. */
  lemma Stacked(a: seq<string>, b: seq<string>, c: seq<string>,
                g0: seq<string>, g1: seq<string>, g2: seq<string>, g3: seq<string>)
    requires g1 == c + g0 && g2 == b + g1 && g3 == a + g2
    ensures g3 == a + b + c + g0
  {
  }

  /** The bases `play_hit(N)` sends the runners on second and first to. */
  function SecondTo(n: int): int { Min(4, n + 2) }
  function FirstTo(n: int): int { Min(4, n + 1) }

  /** `play_hit(N)` agrees with `move_n`: the bases it leaves are the
      ones the advance table gives for a hit of N bases. */
  lemma HitFollowsMoveN(loc: Spots, n: int, batter: Player)
    requires 1 <= n <= 4
    ensures var b := Occupancy(loc);
      var r := MoveN(n, b.first, b.second, b.third, 0);
      r.Success? &&
      Occupancy(Relocated(ChainSpots(loc, SecondTo(n), FirstTo(n)), "move", 0, n, Some(batter))) ==
        Bases(r.value.third, r.value.second, r.value.first)
  {
    ChainOccupancy(loc, SecondTo(n), FirstTo(n));
    RelocatedMove(ChainSpots(loc, SecondTo(n), FirstTo(n)), "move", 0, n, batter);
  }

  /** The forced chain of a walk or a wild pitch: first moves up only
      when occupied, second only when first is, third only when first
      and second are. */
  function ForcedSpots(loc: Spots): Spots {
    if "firstbase" !in loc then loc
    else
      var l1 := if "secondbase" in loc then StepSpots(loc, 3, 4) else loc;
      StepSpots(StepSpots(l1, 2, 3), 1, 2)
  }

  /** The records of the forced chain, newest first. */
  function ForcedPushes(loc: Spots, order: Order): seq<string> {
    if "firstbase" !in loc then []
    else
      var l1 := if "secondbase" in loc then StepSpots(loc, 3, 4) else loc;
      var l2 := StepSpots(l1, 2, 3);
      StepPushes(l2, 1, 2, order) + StepPushes(l1, 2, 3, order) +
      (if "secondbase" in loc then StepPushes(loc, 3, 4, order) else [])
  }

  /** After a walk the bases are full up to the batter's chain: a runner
      moves only when forced, and the batter is on first. */
  lemma WalkForces(loc: Spots, batter: Player)
    ensures var f, s, t := "firstbase" in loc, "secondbase" in loc, "thirdbase" in loc;
      Occupancy(Relocated(ForcedSpots(loc), "move", 0, 1, Some(batter))) ==
        Bases(Bit(t || (f && s)), Bit(s || f), 1)
  {
    if "firstbase" in loc {
      var l1 := if "secondbase" in loc then StepSpots(loc, 3, 4) else loc;
      if "secondbase" in loc {
        StepOccupancy(loc, 3, 4);
      }
      StepOccupancy(l1, 2, 3);
      StepOccupancy(StepSpots(l1, 2, 3), 1, 2);
    }
    RelocatedMove(ForcedSpots(loc), "move", 0, 1, batter);
  }

  /** A balk moves every runner up one base; a run scores from third. */
  lemma BalkAdvancesAll(loc: Spots)
    ensures var b := Occupancy(loc);
      Occupancy(ChainSpots(loc, 3, 2)) == Bases(b.second, b.first, 0)
  {
    ChainOccupancy(loc, 3, 2);
  }

  /** A ground-rule double scores the runners on second and third and
      puts first on third. */
  lemma DoubleAdvances(loc: Spots, batter: Player)
    ensures var b := Occupancy(loc);
      Occupancy(Relocated(ChainSpots(loc, 4, 3), "move", 0, 2, Some(batter))) == Bases(b.first, 1, 0)
  {
    ChainOccupancy(loc, 4, 3);
    RelocatedMove(ChainSpots(loc, 4, 3), "move", 0, 2, batter);
  }

  // -----------------------------------------------------------------------
  // Replay

  /** The records `play` drains: everything in front of the first start
      sentinel, newest first. */
  function Pending(log: seq<string>): (p: seq<string>)
    ensures |p| <= |log| && p == log[..|p|] && StartTag !in p
    ensures |p| < |log| ==> log[|p|] == StartTag
  {
    if log == [] || log[0] == StartTag then []
    else [log[0]] + Pending(log[1..])
  }

  /** Replaying records in order through a decoder step: the state
      reached, how the replay ended, and how many records were taken off
      the log. A record the step rejects stops the replay with the state
      as it was; one that leads to a state failing `update`'s assertions
      stops it with that state already written. */
  function ReplayWith(step: (State, string) -> Option<State>, s: State, recs: seq<string>): (r: (State, Status, nat))
    ensures r.2 <= |recs|
    ensures r.1 == Done ==> r.2 == |recs|
    ensures r.1 != Done ==> r.2 >= 1
    decreases |recs|
  {
    if recs == [] then (s, Done, 0)
    else
      var t := step(s, recs[0]);
      if t.None? then (s, Raised, 1)
      else if !Logic.Valid(t.value) then (t.value, AssertFailed, 1)
      else var q := ReplayWith(step, t.value, recs[1..]); (q.0, q.1, q.2 + 1)
  }

  /** `update_from_event_record` applied record by record. */
  function Replay(s: State, recs: seq<string>): (State, Status, nat) {
    ReplayWith(Next, s, recs)
  }

  /** Replaying `a + b` is replaying `a`, then, if that went through,
      replaying `b` from where it left the state. */
  lemma {:induction false} ReplayAppend(step: (State, string) -> Option<State>, s: State, a: seq<string>, b: seq<string>)
    decreases |a|
    ensures var ra := ReplayWith(step, s, a);
      var rb := ReplayWith(step, ra.0, b);
      ReplayWith(step, s, a + b) == if ra.1 == Done then (rb.0, rb.1, |a| + rb.2) else ra
  {
    if a == [] {
      assert a + b == b;
    } else {
      assert (a + b)[0] == a[0];
      assert (a + b)[1..] == a[1..] + b;
      var t := step(s, a[0]);
      if t.Some? && Logic.Valid(t.value) {
        ReplayAppend(step, t.value, a[1..], b);
      }
    }
  }

  /** One more record at the end of a replay that went through: what
      `update_from_event_record` makes of it decides how the longer
      replay ends. */
  lemma ReplayOneMore(step: (State, string) -> Option<State>, s: State, a: seq<string>, x: string, u: State, st: Status)
    requires ReplayWith(step, s, a).1 == Done
    requires step(ReplayWith(step, s, a).0, x).None? ==> st == Raised && u == ReplayWith(step, s, a).0
    requires step(ReplayWith(step, s, a).0, x).Some? ==>
      u == step(ReplayWith(step, s, a).0, x).value && (st == Done <==> Logic.Valid(u)) && st != Raised
    ensures ReplayWith(step, s, a + [x]) == (u, st, |a| + 1)
  {
    ReplayAppend(step, s, a, [x]);
    assert [x][1..] == [];
  }

  /** The prefix of `i + 1` records is the prefix of `i` and record `i`. */
  lemma PrefixOneMore(p: seq<string>, i: nat)
    requires i < |p|
    ensures p[..i] + [p[i]] == p[..i + 1]
  {
  }

  /** A replay that stopped at record `i` is the replay of the whole. */
  lemma ReplayStopsAt(step: (State, string) -> Option<State>, s: State, recs: seq<string>, i: nat)
    requires i < |recs| && ReplayWith(step, s, recs[..i + 1]).1 != Done
    ensures ReplayWith(step, s, recs) == ReplayWith(step, s, recs[..i + 1])
  {
    var a, b := recs[..i + 1], recs[i + 1..];
    assert a + b == recs;
    ReplayAppend(step, s, a, b);
  }

  // -----------------------------------------------------------------------
  // What the pushed records do on replay

  /** A record the decoder reads as `e` leads to `Apply(s, e)`. */
  lemma NextIs(s: State, rec: string, e: Effect)
    requires Classify(rec) == e && !e.Unparsable?
    ensures Next(s, rec) == Some(Apply(s, e))
  {
  }

  /** Two records that both go through, replayed in order. */
  lemma ReplayPair(step: (State, string) -> Option<State>, s: State, a: string, b: string, t: State, u: State)
    requires step(s, a) == Some(t) && Logic.Valid(t)
    requires step(t, b) == Some(u) && Logic.Valid(u)
    ensures ReplayWith(step, s, [a, b]) == (u, Done, 2)
  {
    assert [a, b][0] == a && [a, b][1..] == [b];
    assert [b][1..] == [];
    assert ReplayWith(step, u, []) == (u, Done, 0);
    assert ReplayWith(step, t, [b]) == (u, Done, 1);
  }

  lemma MarkerNext(s: State, opt: string)
    requires opt in ["ASCORE", "HSCORE", "out"]
    ensures Next(s, MarkerRecord(opt)) == Some(Apply(s, ShiftEffect(opt)))
  {
    MarkerDecodes(MarkerRecord(opt));
    MarkerTemplates(opt);
    FixedShiftDecodes(opt);
    NextIs(s, MarkerRecord(opt), ShiftEffect(opt));
  }

  /** A tag-out leaves both the tag record and the out marker in the log,
      and each adds an out: with at most one out, replaying the pair adds
      two outs and touches nothing else. */
  lemma TagOutCountsTwice(s: State, tagger: Player, tagged: Player)
    requires Logic.Valid(s) && s.count.outs <= 1
    ensures var r := Replay(s, [TagOutcome("out", tagger, tagged).value.record, OutRecord]);
      r.1 == Done && r.2 == 2 &&
      r.0 == s.(count := s.count.(outs := s.count.outs + 2))
  {
    var rec := TagOutcome("out", tagger, tagged).value.record;
    TagOutcomeDecodes("out", tagger, tagged);
    NextIs(s, rec, AddOut);
    var t := Apply(s, AddOut);
    assert t == s.(count := s.count.(outs := s.count.outs + 1));
    MarkerNext(t, "out");
    var u := Apply(t, AddOut);
    assert u == s.(count := s.count.(outs := s.count.outs + 2));
    ReplayPair(Next, s, rec, MarkerRecord("out"), t, u);
  }

  /** A move or steal from third leaves both its move record and the
      batting side's score marker in the log, and each adds a run to
      that side: replaying the pair adds two runs and empties third. */
  lemma RunFromThirdCountsTwice(s: State, option: string)
    requires Logic.Valid(s) && option in ["move", "steal"]
    ensures var r := Replay(s, MovePushes(option, 3, 4, s.inning.order));
      r.1 == Done && r.2 == 2 &&
      r.0 == s.(score := if s.inning.order == Top then s.score.(away := s.score.away + 2)
                         else s.score.(home := s.score.home + 2),
                bases := s.bases.(third := 0))
  {
    var rec := Str(3) + ":" + option + ":" + Str(4);
    var opt := ScoreOption(s.inning.order);
    MoveNext(s, option, 3, 4);
    var t := Apply(s, Advance(3, 4));
    MarkerNext(t, opt);
    TwoRuns(s);
    ReplayPair(Next, s, rec, MarkerRecord(opt), t, Apply(t, ShiftEffect(opt)));
  }

  lemma TwoRuns(s: State)
    requires Logic.Valid(s)
    ensures var t := Apply(s, Advance(3, 4));
      var u := Apply(t, ShiftEffect(ScoreOption(s.inning.order)));
      Logic.Valid(t) && Logic.Valid(u) &&
      u == s.(score := if s.inning.order == Top then s.score.(away := s.score.away + 2)
                       else s.score.(home := s.score.home + 2),
              bases := s.bases.(third := 0))
  {
  }

  lemma MoveNext(s: State, option: string, n: int, m: int)
    requires option in ["move", "steal", "caught"]
    ensures Next(s, Str(n) + ":" + option + ":" + Str(m)) ==
      Some(Apply(s, if option == "caught" then CaughtStealing(n) else Advance(n, m)))
  {
    MoveTextDecodes(option, n, m);
    NextIs(s, Str(n) + ":" + option + ":" + Str(m), if option == "caught" then CaughtStealing(n) else Advance(n, m));
  }

  /** The locations a move leaves agree with the bases its record leads
      to on replay, when they agreed before: for a move or steal the
      runner lands where the decoder puts them. A caught stealer is the
      exception: the locations also empty the base the runner was
      heading for, which the decoder leaves alone. */
  lemma MoveAgreesWithReplay(loc: Spots, s: State, option: string, n: int, m: int, runner: Option<Player>)
    requires MoveOk(option, n, m) && Occupancy(loc) == s.bases
    requires option != "caught" ==> runner.Some?
    ensures var t := Apply(s, Classify(Str(n) + ":" + option + ":" + Str(m)));
      Occupancy(Relocated(loc, option, n, m, runner)) ==
        if option == "caught" then Vacate(t.bases, m) else t.bases
  {
    MoveTextDecodes(option, n, m);
    var e := if option == "caught" then CaughtStealing(n) else Advance(n, m);
    MovedBases(loc, s, option, n, m, runner, e);
  }

  lemma MovedBases(loc: Spots, s: State, option: string, n: int, m: int, runner: Option<Player>, e: Effect)
    requires MoveOk(option, n, m) && Occupancy(loc) == s.bases
    requires option != "caught" ==> runner.Some?
    requires e == if option == "caught" then CaughtStealing(n) else Advance(n, m)
    ensures Occupancy(Relocated(loc, option, n, m, runner)) ==
      if option == "caught" then Vacate(Apply(s, e).bases, m) else Apply(s, e).bases
  {
    ApplyBases(s, e);
    if option == "caught" {
      RelocatedCaught(loc, n, m);
    } else {
      RelocatedMove(loc, option, n, m, runner.value);
    }
  }

  lemma ApplyBases(s: State, e: Effect)
    requires e.CaughtStealing? || e.Advance?
    ensures Apply(s, e).bases == if e.CaughtStealing? then Vacate(s.bases, e.from) else Occupy(Vacate(s.bases, e.from), e.to)
  {
  }

  lemma RelocatedCaught(loc: Spots, n: int, m: int)
    requires MoveOk("caught", n, m)
    ensures Occupancy(Relocated(loc, "caught", n, m, None)) == Vacate(Vacate(Occupancy(loc), n), m)
  {
  }

  lemma RelocatedMove(loc: Spots, option: string, n: int, m: int, p: Player)
    requires MoveOk(option, n, m) && option != "caught"
    ensures Occupancy(Relocated(loc, option, n, m, Some(p))) == Occupy(Vacate(Occupancy(loc), n), m)
  {
  }

  /** Three records that all go through, replayed in order. */
  lemma ReplayTriple(step: (State, string) -> Option<State>, s: State, a: string, b: string, c: string,
                     t: State, u: State, v: State)
    requires step(s, a) == Some(t) && Logic.Valid(t)
    requires step(t, b) == Some(u) && Logic.Valid(u)
    requires step(u, c) == Some(v) && Logic.Valid(v)
    ensures ReplayWith(step, s, [a, b, c]) == (v, Done, 3)
  {
    assert [a, b, c][0] == a && [a, b, c][1..] == [b, c];
    ReplayPair(step, t, b, c, u, v);
  }

  /** The records a walk with a lone runner on first pushes, newest
      first: the walk, the batter's move, the runner's move. */
  lemma LoneRunnerWalkPushes(loc: Spots, p: Player, order: Order)
    requires loc == map["firstbase" := p]
    ensures ["W"] + MovePushes("move", 0, 1, order) + ForcedPushes(loc, order) ==
      ["W", Str(0) + ":" + "move" + ":" + Str(1), Str(1) + ":" + "move" + ":" + Str(2)]
  {
    assert StepSpots(loc, 2, 3) == loc;
  }

  /** Replay runs newest first, so a walk with a runner on first is
      replayed batter before runner: the batter's move fills first, then
      the runner's move empties it again. The replayed bases end with
      only second occupied, while the locations have first and second. */
  lemma NewestFirstLosesBatter(s: State, p: Player, batter: Player)
    requires Logic.Valid(s) && s.count.balls <= 3 && s.bases == Bases(0, 0, 1)
    ensures var loc := map["firstbase" := p];
      var r := Replay(s, ["W"] + MovePushes("move", 0, 1, s.inning.order) + ForcedPushes(loc, s.inning.order));
      r.1 == Done && r.0.bases == Bases(0, 1, 0) &&
      Occupancy(Relocated(ForcedSpots(loc), "move", 0, 1, Some(batter))) == Bases(0, 1, 1)
  {
    var loc := map["firstbase" := p];
    LoneRunnerWalkPushes(loc, p, s.inning.order);
    WalkForces(loc, batter);
    WalkReplayOrder(s);
  }

  lemma WalkReplayOrder(s: State)
    requires Logic.Valid(s) && s.count.balls <= 3 && s.bases == Bases(0, 0, 1)
    ensures var r := Replay(s, ["W", Str(0) + ":" + "move" + ":" + Str(1), Str(1) + ":" + "move" + ":" + Str(2)]);
      r.1 == Done && r.0.bases == Bases(0, 1, 0)
  {
    BallRecordDecodes("W");
    NextIs(s, "W", AddBall);
    var t := Apply(s, AddBall);
    MoveNext(t, "move", 0, 1);
    var u := Apply(t, Advance(0, 1));
    MoveNext(u, "move", 1, 2);
    var v := Apply(u, Advance(1, 2));
    BatterThenRunner(s);
    ReplayTriple(Next, s, "W", Str(0) + ":" + "move" + ":" + Str(1), Str(1) + ":" + "move" + ":" + Str(2), t, u, v);
  }

  lemma BatterThenRunner(s: State)
    requires Logic.Valid(s) && s.count.balls <= 3 && s.bases == Bases(0, 0, 1)
    ensures var t := Apply(s, AddBall);
      var u := Apply(t, Advance(0, 1));
      var v := Apply(u, Advance(1, 2));
      Logic.Valid(t) && Logic.Valid(u) && Logic.Valid(v) && v.bases == Bases(0, 1, 0)
  {
  }

  // -----------------------------------------------------------------------
  // Balls in play

  /** `int(rec.split(':')[1])`, the bases of a hit record. */
  function HitBases(rec: string): Option<int> {
    var parts := Split(rec, ":");
    if |parts| < 2 then None else ParseInt(parts[1])
  }

  /** The result labels the pitch branch knows. */
  const PitchResults: seq<string> :=
    ["balk", "hbp", "strike", "strikeout", "ball", "walk", "wild",
     "single", "double", "triple", "four", "gdb", "hr", "bunt", "foul"]

  /** A hit record gives back the bases it was written with. */
  lemma HitBasesRoundTrip(n: int)
    ensures HitBases("Hit:" + Str(n)) == Some(n)
  {
    assert "Hit:" + Str(n) == "Hit" + ":" + Str(n);
    SplitJoin("Hit", ":", Str(n));
    SplitNone(Str(n), ":");
    StrRoundTrip(n);
  }

  /** The four hit records are `Hit:1` to `Hit:4`. */
  lemma HitRecordsBases(rec: string)
    requires rec in HitRecords
    ensures HitBases(rec).Some? && 1 <= HitBases(rec).value <= 4
  {
    var n := if rec == "Hit:1" then 1 else if rec == "Hit:2" then 2 else if rec == "Hit:3" then 3 else 4;
    assert rec == "Hit:" + Str(n);
    HitBasesRoundTrip(n);
  }

  /** The out record a fielder's catch writes: `FO:{}`, `U:{}`, `LO:{}`
      or `GO:{}` filled with the fielder's position. */
  function OutText(word: string, pos: int): string {
    word + ":" + Str(pos)
  }

  // -----------------------------------------------------------------------
  // Steals

  /** The player a `Locations` slot holds, if any. */
  function At(loc: Spots, spot: string): Option<Player> {
    if spot in loc then Some(loc[spot]) else None
  }

  /** The runners on bases 1 to `k` who are stealing, in base order. */
  function StealersOf(loc: Spots, k: nat): seq<(int, Player)>
    requires k <= 3
    reads loc.Values
  {
    if k == 0 then []
    else
      var b := BaseName(k).value;
      StealersOf(loc, k - 1) + (if b in loc && loc[b].steal then [(k, loc[b])] else [])
  }

  /** The first entry for base `b`. */
  function FirstAt(st: seq<(int, Player)>, b: int): Option<Player> {
    if st == [] then None
    else if FirstAt(st[..|st| - 1], b).Some? then FirstAt(st[..|st| - 1], b)
    else if st[|st| - 1].0 == b then Some(st[|st| - 1].1)
    else None
  }

  /** The last entry for base `b`. */
  function LastAt(st: seq<(int, Player)>, b: int): Option<Player> {
    if st == [] then None
    else if st[|st| - 1].0 == b then Some(st[|st| - 1].1)
    else LastAt(st[..|st| - 1], b)
  }

  /** The runner the catcher goes after and the base they leave: a runner
      stealing home first, then one stealing third, else the first
      stealer listed, who is taken to leave first. */
  function StealTarget(st: seq<(int, Player)>): (int, Player)
    requires |st| > 0
  {
    if FirstAt(st, 3).Some? then (3, FirstAt(st, 3).value)
    else if LastAt(st, 2).Some? then (2, LastAt(st, 2).value)
    else (1, st[0].1)
  }

  /** The records a steal of home that gets through pushes, oldest
      last: the out marker on a tag-out, the catcher's tag on the runner
      (by their numbers), then the runner's caught-stealing or steal
      record. */
  function HomeStealPushes(catcherNum: int, runnerNum: int, tagDraw: string, order: Order): seq<string> {
    if tagDraw !in ["safe", "out"] then []
    else MovePushes(if tagDraw == "out" then "caught" else "steal", 3, 4, order) +
         [Str(catcherNum) + ":" + TagWord(tagDraw == "out") + ":" + Str(runnerNum)] +
         (if tagDraw == "out" then [OutRecord] else [])
  }

  /** The records a steal of first or second that gets through pushes:
      the throw from the catcher's spot to the covering fielder's spot,
      then the move. */
  function BaseStealPushes(catcherPos: int, n: int, targetPos: int, throwDraw: string, order: Order): seq<string> {
    if throwDraw !in ["good", "dirt", "low", "high"] then []
    else MovePushes("steal", n, n + 1, order) + [Str(catcherPos) + ":" + throwDraw + ":" + Str(targetPos)]
  }

  /** The throw record and then the move make up a base steal's records. */
  lemma BaseStealLog(catcherPos: int, n: int, targetPos: int, throwDraw: string, order: Order,
                     g0: seq<string>, g1: seq<string>, g2: seq<string>)
    requires throwDraw in ["good", "dirt", "low", "high"]
    requires g1 == [Str(catcherPos) + ":" + throwDraw + ":" + Str(targetPos)] + g0
    requires g2 == MovePushes("steal", n, n + 1, order) + g1
    ensures g2 == BaseStealPushes(catcherPos, n, targetPos, throwDraw, order) + g0
  {
  }

  /** The records any steal that gets through pushes; the base a steal
      of first or second aims at is the one ahead of the runner. */
  function StealPushes(loc: Spots, catcher: Player, n: int, runner: Player,
                       throwDraw: string, tagDraw: string, order: Order): seq<string>
    reads catcher, runner, CoverOf(loc, n)
  {
    if n == 3 then HomeStealPushes(catcher.num, runner.num, tagDraw, order)
    else match At(loc, CoverBase(n))
      case None => []
      case Some(target) => BaseStealPushes(catcher.pos, n, target.pos, throwDraw, order)
  }

  /** The base whose fielder takes the throw on a steal from base `n`. */
  function CoverBase(n: int): string {
    if n == 2 then "third" else "second"
  }

  /** The fielder covering that base, as a set to read. */
  function CoverOf(loc: Spots, n: int): set<Player> {
    if CoverBase(n) in loc then {loc[CoverBase(n)]} else {}
  }

  /** One more entry, or none, at the end of a list of stealers. */
  lemma AtAppend(a: seq<(int, Player)>, x: seq<(int, Player)>, b: int)
    requires |x| <= 1
    ensures LastAt(a + x, b) == if x != [] && x[0].0 == b then Some(x[0].1) else LastAt(a, b)
    ensures FirstAt(a + x, b) ==
      if FirstAt(a, b).Some? then FirstAt(a, b) else if x != [] && x[0].0 == b then Some(x[0].1) else None
  {
    if x == [] {
      assert a + x == a;
    } else {
      assert (a + x)[..|a + x| - 1] == a;
    }
  }

  /** An entry found in a prefix stays the first one in the whole list. */
  lemma {:induction false} FirstAtPrefix(st: seq<(int, Player)>, i: nat, b: int)
    requires i <= |st| && FirstAt(st[..i], b).Some?
    ensures FirstAt(st, b) == FirstAt(st[..i], b)
    decreases |st| - i
  {
    if i < |st| {
      assert st[..i + 1][..i] == st[..i];
      assert FirstAt(st[..i + 1], b) == FirstAt(st[..i], b);
      FirstAtPrefix(st, i + 1, b);
    } else {
      assert st[..i] == st;
    }
  }

  /** Each base has at most one stealer listed: the one on it, if
      stealing. */
  lemma {:induction false} StealersAt(loc: Spots, k: nat, b: int)
    requires k <= 3
    ensures var st := StealersOf(loc, k);
      FirstAt(st, b) == LastAt(st, b) &&
      FirstAt(st, b) == (if 1 <= b <= k && BaseName(b).value in loc && loc[BaseName(b).value].steal
                         then Some(loc[BaseName(b).value]) else None)
  {
    if k > 0 {
      StealersAt(loc, k - 1, b);
      var bk := BaseName(k).value;
      AtAppend(StealersOf(loc, k - 1), if bk in loc && loc[bk].steal then [(k, loc[bk])] else [], b);
    }
  }

  /** The catcher goes after the lead stealer: third if that runner is
      stealing, else second, else first. */
  lemma StealPriority(loc: Spots)
    requires StealersOf(loc, 3) != []
    ensures var t := StealTarget(StealersOf(loc, 3));
      var third, second, first := At(loc, "thirdbase"), At(loc, "secondbase"), At(loc, "firstbase");
      (third.Some? && third.value.steal ==> t == (3, third.value)) &&
      (!(third.Some? && third.value.steal) && second.Some? && second.value.steal ==> t == (2, second.value)) &&
      (!(third.Some? && third.value.steal) && !(second.Some? && second.value.steal) ==>
         first.Some? && first.value.steal && t == (1, first.value))
  {
    StealersAt(loc, 3, 3);
    StealersAt(loc, 3, 2);
    var st := StealersOf(loc, 3);
    if FirstAt(st, 3).None? && LastAt(st, 2).None? {
      assert StealersOf(loc, 3) == StealersOf(loc, 2) == StealersOf(loc, 1);
    }
  }

  // -----------------------------------------------------------------------
  // Innings, batting order and the end of the game

  /** The half a half-inning count falls in: the console loop's whole
      innings are the top halves. */
  function HalfOrder(h: int): Order { if h % 2 == 0 then Top else Bottom }

  /** One step of a `cycle(range(0, 9))` cursor. */
  function Step9(c: nat): nat { (c + 1) % 9 }

  /** The cursor after `k` steps. */
  function Cycle(c: nat, k: nat): nat {
    if k == 0 then c else Step9(Cycle(c, k - 1))
  }

  /** The batting order comes round: `k` calls from spot `c` land on
      spot `(c + k) mod 9`. */
  lemma {:induction false} CycleWraps(c: nat, k: nat)
    requires c < 9
    ensures Cycle(c, k) == (c + k) % 9
  {
    if k > 0 {
      CycleWraps(c, k - 1);
      ModStep(c + k - 1);
    }
  }

  lemma ModStep(x: nat)
    ensures ((x % 9) + 1) % 9 == (x + 1) % 9
  {
    var q, r := x / 9, x % 9;
    assert x == 9 * q + r;
    if r == 8 {
      assert x + 1 == 9 * (q + 1);
    } else {
      assert x + 1 == 9 * q + (r + 1);
    }
  }

  /** Every nine calls bring the same batter back. */
  lemma CycleComesRound(c: nat, k: nat)
    requires c < 9 && k % 9 == 0
    ensures Cycle(c, k) == c
  {
    CycleWraps(c, k);
    assert c + k == 9 * (k / 9) + c;
  }

  /** The pitcher `change_lineup` settles on: the last player of the
      fielding lineup whose position is `P`, or the current pitcher when
      there is none. */
  function LastPitcher(lineup: seq<Player>, current: Option<Player>): Option<Player>
    reads set p | p in lineup
    decreases |lineup|
  {
    if lineup == [] then current
    else if lineup[|lineup| - 1].pos == Pitcher then Some(lineup[|lineup| - 1])
    else LastPitcher(lineup[..|lineup| - 1], current)
  }

  /** The pitcher found is a pitcher from the lineup with no pitcher after
      it; the current one is kept only when the lineup has none. */
  lemma {:induction false} LastPitcherIsLast(lineup: seq<Player>, current: Option<Player>)
    ensures var r := LastPitcher(lineup, current);
      (r == current && forall i :: 0 <= i < |lineup| ==> lineup[i].pos != Pitcher) ||
      (exists j :: 0 <= j < |lineup| && r == Some(lineup[j]) && lineup[j].pos == Pitcher &&
         forall i :: j < i < |lineup| ==> lineup[i].pos != Pitcher)
    decreases |lineup|
  {
    if lineup != [] {
      var n := |lineup| - 1;
      if lineup[n].pos == Pitcher {
        assert LastPitcher(lineup, current) == Some(lineup[n]);
      } else {
        var init := lineup[..n];
        LastPitcherIsLast(init, current);
        assert LastPitcher(lineup, current) == LastPitcher(init, current);
        assert forall i :: 0 <= i < n ==> lineup[i] == init[i];
      }
    }
  }

  /** `win(I)` for the home side: from the ninth inning on, ahead. */
  predicate HomeWins(h: int, sc: Score) { h >= 18 && sc.home > sc.away }

  /** `win(I)` for the away side: only once the bottom of the ninth has
      begun, ahead. */
  predicate AwayWins(h: int, sc: Score) { h >= 19 && sc.home < sc.away }

  function WinMessage(winner: string, loser: string, diff: int): string {
    winner + " beat " + loser + " by " + Str(diff) + " points!"
  }

  /** A tie never ends the game, the two sides never both win, and
      the away side cannot win at the start of the bottom of the ninth. */
  lemma WinIsDecided(h: int, sc: Score)
    ensures sc.home == sc.away ==> !HomeWins(h, sc) && !AwayWins(h, sc)
    ensures !(HomeWins(h, sc) && AwayWins(h, sc))
    ensures h < 19 ==> !AwayWins(h, sc)
  {
  }

  // -----------------------------------------------------------------------
  // The game object

  class BaseBallGame {
    /** The record deque, newest first; the start sentinel stays last. */
    var log: seq<string>
    const state: GameState
    var locations: Spots
    var batter: Option<Player>
    var pitcher: Option<Player>
    var batterDone: bool
    var winMsg: Option<string>
    /** The cursors of the two `cycle(range(0, 9))` batting orders: the
        last index drawn and the next one the cycle yields. */
    var awayPos: nat
    var homePos: nat
    var awayNext: nat
    var homeNext: nat
    const awayName: string
    const homeName: string
    const awayLineup: seq<Player>
    const homeLineup: seq<Player>

    /** The log keeps the sentinel at its old end. */
    predicate Valid()
      reads this
    {
      |log| >= 1 && log[|log| - 1] == StartTag && awayNext < 9 && homeNext < 9
    }

    /** A new game: the log holds the start event's result, the state is
        all zeros, nobody is on the field or at bat, and the first batter
        is still to be called up. */
    constructor (awayName: string, awayLineup: seq<Player>, homeName: string, homeLineup: seq<Player>)
      ensures Valid() && log == [StartTag]
      ensures state.Snapshot() == State(ScoreZero, InningZero, CountZero, BasesZero)
      ensures locations == map[] && batter.None? && pitcher.None? && batterDone && winMsg.None?
      ensures awayPos == homePos == awayNext == homeNext == 0
      ensures this.awayName == awayName && this.homeName == homeName
      ensures this.awayLineup == awayLineup && this.homeLineup == homeLineup
      ensures fresh(state)
    {
      this.awayName := awayName;
      this.homeName := homeName;
      this.awayLineup := awayLineup;
      this.homeLineup := homeLineup;
      state := new GameState(None, None, None, None);
      locations := map[];
      batter, pitcher := None, None;
      batterDone := true;
      winMsg := None;
      awayPos, homePos, awayNext, homeNext := 0, 0, 0, 0;
      new;
      var start := StartEvent(StartTag);
      log := [start.Result().value];
    }

    /** `play`'s replay: the sentinel is taken from the old end and put
        back, then records are taken from the newest end and decoded one
        by one until the sentinel is in front; the log must then hold the
        sentinel alone. A record that raises, or whose `update` fails its
        assertions, ends the replay with that record already removed. */
    method Play() returns (history: seq<string>, status: Status)
      requires Valid()
      modifies this`log, state
      ensures var pending := Pending(old(log));
        var r := Replay(old(state.Snapshot()), pending);
        state.Snapshot() == r.0 && log == old(log)[r.2..] &&
        status == (if r.1 != Done then r.1 else if |old(log)| == |pending| + 1 then Done else AssertFailed) &&
        (r.1 == Done ==> history == pending)
    {
      var start := log[|log| - 1];
      log := log[..|log| - 1] + [start];
      assert log == old(log);
      history, status := Unwind();
    }

    /** The replay loop of `play`, once the sentinel is back at the oldest
        end. */
    method Unwind() returns (history: seq<string>, status: Status)
      requires Valid()
      modifies this`log, state
      ensures var pending := Pending(old(log));
        var r := Replay(old(state.Snapshot()), pending);
        state.Snapshot() == r.0 && log == old(log)[r.2..] &&
        status == (if r.1 != Done then r.1 else if |old(log)| == |pending| + 1 then Done else AssertFailed) &&
        (r.1 == Done ==> history == pending)
    {
      ghost var s0 := state.Snapshot();
      ghost var pending := Pending(log);
      history := [];
      var i := 0;
      var st := Done;
      while st == Done && log[0] != StartTag
        invariant 0 <= i <= |pending| && log == old(log)[i..]
        invariant st == Done ==> Replay(s0, pending[..i]) == (state.Snapshot(), Done, i) && history == pending[..i]
        invariant st != Done ==> Replay(s0, pending) == (state.Snapshot(), st, i)
        decreases |log|
      {
        var rec;
        rec, st := DecodeNewest(s0, pending, i);
        if st != Done {
          ReplayStopsAt(Next, s0, pending, i);
        } else {
          assert pending[..i] + [rec] == pending[..i + 1];
          history := history + [rec];
        }
        i := i + 1;
      }
      if st != Done {
        return [], st;
      }
      assert pending[..i] == pending;
      status := if |log| == 1 then Done else AssertFailed;
    }

    /** One turn of the replay loop: the newest record is taken off the
        log and decoded into the state. */
    method DecodeNewest(ghost s0: State, ghost pending: seq<string>, ghost i: nat) returns (rec: string, st: Status)
      requires i < |pending| && |log| >= 1 && log[0] == pending[i]
      requires Replay(s0, pending[..i]) == (state.Snapshot(), Done, i)
      modifies this`log, state
      ensures rec == old(log)[0] && log == old(log)[1..]
      ensures Replay(s0, pending[..i + 1]) == (state.Snapshot(), st, i + 1)
    {
      rec := log[0];
      log := log[1..];
      ghost var before := state.Snapshot();
      assert ReplayWith(Next, s0, pending[..i]) == (before, Done, i);
      st := state.UpdateFromEventRecord(rec);
      ghost var after := state.Snapshot();
      assert Next(before, rec).None? ==> st == Raised && after == before;
      assert Next(before, rec).Some? ==> after == Next(before, rec).value && (st == Done <==> Logic.Valid(after)) && st != Raised;
      PrefixOneMore(pending, i);
      ReplayOneMore(Next, s0, pending[..i], rec, after, st);
    }

    /** `add_record(rec)`: the record goes on the left, newest end. */
    method AddRecord(rec: string)
      modifies this`log
      ensures log == [rec] + old(log)
    {
      log := [rec] + log;
    }

    /** The shift branch: a lead marks the first player as leading off; a
        substitution always raises (the roster lookup reads a team field
        that does not exist); a swap compares the event's class name with
        the option and so changes nobody; then the record is pushed. */
    method Shift(opt: string, stack: seq<Player>) returns (status: Status)
      requires forall i :: 0 <= i < |stack| ==> stack[i].Valid()
      modifies this`log, (if |stack| > 0 then {stack[0]} else {})`leadoff
      ensures var r := old(ShiftOutcome(opt, stack));
        (status == Done <==> r.Success? && opt != "sub") &&
        (status == Done ==> log == [r.value.record] + old(log)) &&
        (status != Done ==> status == Raised && log == old(log))
      ensures status == Done && opt == "lead" ==> stack[0].leadoff
    {
      var r := ShiftOutcome(opt, stack);
      if r.Failure? || opt == "sub" {
        return Raised;
      }
      if opt == "lead" {
        stack[0].leadoff := true;
      }
      AddRecord(r.value.record);
      status := Done;
    }

    /** A shift to one of the fixed markers: its record is pushed. */
    method Marker(opt: string)
      requires opt in ["ASCORE", "HSCORE", "out"]
      modifies this`log
      ensures log == [MarkerRecord(opt)] + old(log)
    {
      var status := Shift(opt, []);
      MarkerTemplates(opt);
    }

    /** The move branch: the move event checks its option, the bases are
        looked up in `base_dict`, a move or steal out of third first
        pushes the batting side's score marker, and the locations are
        rebuilt before the move record is pushed. */
    method Move(runner: Option<Player>, n: int, m: int, option: string) returns (status: Status)
      modifies this`log, this`locations
      ensures status == Done <==> MoveOk(option, n, m)
      ensures option !in ["move", "steal", "caught"] ==> status == AssertFailed
      ensures status == Done ==>
        locations == Relocated(old(locations), option, n, m, runner) &&
        log == MovePushes(option, n, m, state.inning.order) + old(log)
      ensures status != Done ==> locations == old(locations) && log == old(log)
    {
      var performed := MoveOutcome(option, n, m, if runner.Some? then Person(runner.value) else Nothing);
      if performed.Failure? {
        return AssertFailed;
      }
      if !(0 <= n <= 4 && 0 <= m <= 4) {
        return Raised;
      }
      if option == "caught" && BaseName(n).None? {
        // `loc[None] = None` leaves a key the rebuild refuses
        return Raised;
      }
      MoveRunner(runner, n, m, option, performed.value.record);
      status := Done;
    }

    /** The move branch once its lookups have succeeded. */
    method MoveRunner(runner: Option<Player>, n: int, m: int, option: string, rec: string)
      requires MoveOk(option, n, m) && rec == Str(n) + ":" + option + ":" + Str(m)
      modifies this`log, this`locations
      ensures locations == Relocated(old(locations), option, n, m, runner)
      ensures log == MovePushes(option, n, m, state.inning.order) + old(log)
    {
      if option != "caught" && n == 3 {
        Marker(ScoreOption(state.inning.order));
      }
      var loc := Rebuilt(locations, option, n, m, runner);
      locations := loc;
      AddRecord(rec);
    }

    /** The dictionary edit behind the rebuilt `Locations`. */
    static method Rebuilt(locs: Spots, option: string, n: int, m: int, runner: Option<Player>) returns (loc: Spots)
      requires MoveOk(option, n, m)
      ensures loc == Relocated(locs, option, n, m, runner)
    {
      var fromb, tob := BaseName(n), BaseName(m);
      loc := locs;
      if option == "move" || option == "steal" {
        if fromb.Some? {
          loc := loc - {fromb.value};
        }
        if tob.Some? {
          loc := Put(loc, tob.value, runner);
        }
      } else {
        if tob.Some? {
          loc := loc - {tob.value};
        }
        loc := loc - {fromb.value};
      }
    }

    /** The tag branch: the drawn result picks the record; a tag-out
        pushes the out marker before the tag record. */
    method Tag(tagger: Player, tagged: Player, o: string) returns (status: Status)
      modifies this`log
      ensures status == Done <==> o in ["safe", "out"]
      ensures status != Done ==> status == Raised && log == old(log)
      ensures status == Done ==>
        log == [TagOutcome(o, tagger, tagged).value.record] + ((if o == "out" then [OutRecord] else []) + old(log))
    {
      var r := TagOutcome(o, tagger, tagged);
      if r.Failure? {
        return Raised;
      }
      ghost var g0 := log;
      if o == "out" {
        Marker("out");
      }
      assert log == (if o == "out" then [OutRecord] else []) + g0;
      AddRecord(r.value.record);
      status := Done;
    }

    /** The throw branch: the record is pushed; a missing thrower or
        target has no position and raises. */
    method Throw(thrower: Option<Player>, target: Option<Player>, o: string) returns (status: Status)
      modifies this`log
      ensures status == Done <==> thrower.Some? && target.Some? && o in ["good", "dirt", "low", "high"]
      ensures status != Done ==> status == Raised && log == old(log)
      ensures status == Done ==> log == [ThrowOutcome(o, thrower.value, target.value).value.record] + old(log)
    {
      if thrower.None? || target.None? {
        return Raised;
      }
      var r := ThrowOutcome(o, thrower.value, target.value);
      if r.Failure? {
        return Raised;
      }
      AddRecord(r.value.record);
      status := Done;
    }

    /** The catch branch: the record is pushed; its error recovery is
        never reached, since no catch result is `error`. */
    method Catch(fielder: Option<Player>, o: string) returns (status: Status)
      modifies this`log
      ensures status == Done <==> fielder.Some? && o in ["yes", "drop", "miss"]
      ensures status != Done ==> status == Raised && log == old(log)
      ensures status == Done ==> log == [CatchOutcome(o, fielder.value).value.record] + old(log)
    {
      if fielder.None? {
        return Raised;
      }
      var r := CatchOutcome(o, fielder.value);
      if r.Failure? {
        return Raised;
      }
      AddRecord(r.value.record);
      status := Done;
    }

    /** A move action with the `move` option, which always gets through. */
    method Send(runner: Option<Player>, n: int, m: int)
      requires 0 <= n <= 4 && 0 <= m <= 4
      modifies this`log, this`locations
      ensures locations == Relocated(old(locations), "move", n, m, runner)
      ensures log == MovePushes("move", n, m, state.inning.order) + old(log)
    {
      var status := Move(runner, n, m, "move");
    }

    /** One conditional move of the advance rules. */
    method MoveIfOn(n: int, m: int)
      requires 1 <= n <= 3 && 0 <= m <= 4
      modifies this`log, this`locations
      ensures locations == StepSpots(old(locations), n, m)
      ensures log == StepPushes(old(locations), n, m, state.inning.order) + old(log)
    {
      var b := BaseName(n).value;
      if b in locations {
        Send(Some(locations[b]), n, m);
      }
    }

    /** The shared runner chain: third home, second to `s`, first to `f`. */
    method RunChain(s: int, f: int)
      requires 0 <= s <= 4 && 0 <= f <= 4
      modifies this`log, this`locations
      ensures locations == ChainSpots(old(locations), s, f)
      ensures log == ChainPushes(old(locations), s, f, state.inning.order) + old(log)
    {
      ghost var order := state.inning.order;
      ghost var l0, g0 := locations, log;
      MoveIfOn(3, 4);
      ghost var l1, g1 := locations, log;
      MoveIfOn(2, s);
      ghost var l2, g2 := locations, log;
      MoveIfOn(1, f);
      Stacked(StepPushes(l2, 1, f, order), StepPushes(l1, 2, s, order), StepPushes(l0, 3, 4, order), g0, g1, g2, log);
    }

    /** `play_hit(N)`: the most conservative advance for a hit of N bases,
        the runners first and the batter last. */
    method PlayHit(n: int, batterMove: bool)
      requires 1 <= n <= 4
      modifies this`log, this`locations, this`batterDone
      ensures var l := ChainSpots(old(locations), SecondTo(n), FirstTo(n));
        locations == if batterMove then Relocated(l, "move", 0, n, batter) else l
      ensures log == (if batterMove then MovePushes("move", 0, n, state.inning.order) else []) +
        ChainPushes(old(locations), SecondTo(n), FirstTo(n), state.inning.order) + old(log)
      ensures batterDone
    {
      RunChain(SecondTo(n), FirstTo(n));
      if batterMove {
        Send(batter, 0, n);
      }
      batterDone := true;
    }

    /** The forced chain of a walk or a wild pitch. */
    method Force()
      modifies this`log, this`locations
      ensures locations == ForcedSpots(old(locations))
      ensures log == ForcedPushes(old(locations), state.inning.order) + old(log)
    {
      ghost var order := state.inning.order;
      ghost var l0, g0 := locations, log;
      if "firstbase" in locations {
        if "secondbase" in locations {
          MoveIfOn(3, 4);
        }
        ghost var l1, g1 := locations, log;
        MoveIfOn(2, 3);
        ghost var l2, g2 := locations, log;
        MoveIfOn(1, 2);
        Stacked(StepPushes(l2, 1, 2, order), StepPushes(l1, 2, 3, order),
                if "secondbase" in l0 then StepPushes(l0, 3, 4, order) else [], g0, g1, g2, log);
      }
    }

    /** The balk and hit-by-pitch branch: every runner moves up one base;
        a hit batter then takes first and is done; the pitch record goes
        last. */
    method OnBalkOrHbp(hbp: bool, rec: string)
      modifies this`log, this`locations, this`batterDone
      ensures var l := ChainSpots(old(locations), 3, 2);
        locations == if hbp then Relocated(l, "move", 0, 1, batter) else l
      ensures log == [rec] + (if hbp then MovePushes("move", 0, 1, state.inning.order) else []) +
        ChainPushes(old(locations), 3, 2, state.inning.order) + old(log)
      ensures batterDone == (hbp || old(batterDone))
    {
      RunChain(3, 2);
      if hbp {
        TakeFirst(rec);
      } else {
        AddRecord(rec);
      }
    }

    /** The hit batter takes first and is done; then the pitch record. */
    method TakeFirst(rec: string)
      modifies this`log, this`locations, this`batterDone
      ensures locations == Relocated(old(locations), "move", 0, 1, batter)
      ensures log == [rec] + MovePushes("move", 0, 1, state.inning.order) + old(log)
      ensures batterDone
    {
      Send(batter, 0, 1);
      batterDone := true;
      AddRecord(rec);
    }

    /** The walk branch: the batter is done, the forced runners move, the
        batter takes first, and the pitch record goes last. */
    method OnWalk(rec: string)
      modifies this`log, this`locations, this`batterDone
      ensures locations == Relocated(ForcedSpots(old(locations)), "move", 0, 1, batter)
      ensures log == [rec] + MovePushes("move", 0, 1, state.inning.order) +
        ForcedPushes(old(locations), state.inning.order) + old(log)
      ensures batterDone
    {
      batterDone := true;
      ghost var order := state.inning.order;
      ghost var g0 := log;
      ghost var forced := ForcedPushes(locations, order);
      Force();
      ghost var g1 := log;
      Send(batter, 0, 1);
      ghost var g2 := log;
      AddRecord(rec);
      Stacked([rec], MovePushes("move", 0, 1, order), forced, g0, g1, g2, log);
    }

    /** The wild-pitch branch: the forced runners move and the pitch
        record is pushed; the batter is done only if the state already
        shows four balls. */
    method OnWild(rec: string)
      modifies this`log, this`locations, this`batterDone
      ensures locations == ForcedSpots(old(locations))
      ensures log == [rec] + ForcedPushes(old(locations), state.inning.order) + old(log)
      ensures batterDone == (old(batterDone) || state.count.balls == 4)
    {
      Force();
      AddRecord(rec);
      if state.count.balls == 4 {
        batterDone := true;
      }
    }

    /** The ground-rule double branch: third and second score, first goes
        to third, the batter to second. */
    method OnGroundRuleDouble(rec: string)
      modifies this`log, this`locations, this`batterDone
      ensures locations == Relocated(ChainSpots(old(locations), 4, 3), "move", 0, 2, batter)
      ensures log == [rec] + MovePushes("move", 0, 2, state.inning.order) +
        ChainPushes(old(locations), 4, 3, state.inning.order) + old(log)
      ensures batterDone
    {
      RunChain(4, 3);
      Send(batter, 0, 2);
      AddRecord(rec);
      batterDone := true;
    }

    /** The home-run branch: `play_hit(4)`, then the pitch record. */
    method OnHomeRun(rec: string)
      modifies this`log, this`locations, this`batterDone
      ensures locations == Relocated(ChainSpots(old(locations), 4, 4), "move", 0, 4, batter)
      ensures log == [rec] + MovePushes("move", 0, 4, state.inning.order) +
        ChainPushes(old(locations), 4, 4, state.inning.order) + old(log)
      ensures batterDone
    {
      PlayHit(4, true);
      AddRecord(rec);
    }

    /** `win(I)`: the home side wins from the ninth inning on when ahead,
        the away side from the bottom of the ninth on when ahead; the
        message names the winner, the loser and the margin. */
    method Win(h: int) returns (won: bool)
      modifies this`winMsg
      ensures var sc := state.score;
        (won <==> HomeWins(h, sc) || AwayWins(h, sc)) &&
        (HomeWins(h, sc) ==> winMsg == Some(WinMessage(homeName, awayName, sc.home - sc.away))) &&
        (AwayWins(h, sc) ==> winMsg == Some(WinMessage(awayName, homeName, sc.away - sc.home))) &&
        (!won ==> winMsg == old(winMsg))
    {
      var sc := state.score;
      if h >= 18 && sc.home > sc.away {
        winMsg := Some(WinMessage(homeName, awayName, sc.home - sc.away));
        return true;
      } else if h >= 19 && sc.home < sc.away {
        winMsg := Some(WinMessage(awayName, homeName, sc.away - sc.home));
        return true;
      }
      return false;
    }

    /** `upkeep(I)`: the count and the bases are cleared, then the half
        and the half-inning count are set. Either `update` can fail its
        assertions: the first on a negative score or inning already in
        the state, the second on a negative `h`. */
    method Upkeep(h: int) returns (status: Status)
      modifies state
      ensures var s := old(state.Snapshot());
        var first := s.score.home >= 0 && s.score.away >= 0 && s.inning.inning >= 0;
        (status == Done <==> first && h >= 0) && status != Raised &&
        state.Snapshot() == if first then State(s.score, Inning(HalfOrder(h), h), CountZero, BasesZero)
                            else Reset(s, false, true)
    {
      var ok := state.Update(false, true, NoParams);
      if !ok {
        return AssertFailed;
      }
      ok := state.Update(false, false, NoParams.(order := Some(HalfOrder(h)), inning := Some(h)));
      status := if ok then Done else AssertFailed;
    }

    /** The pitcher loop of `change_lineup`. */
    static method FindPitcher(lineup: seq<Player>, current: Option<Player>) returns (p: Option<Player>)
      ensures p == LastPitcher(lineup, current)
    {
      p := current;
      var i := 0;
      while i < |lineup|
        invariant 0 <= i <= |lineup|
        invariant p == LastPitcher(lineup[..i], current)
      {
        assert lineup[..i + 1][..i] == lineup[..i];
        if lineup[i].pos == Pitcher {
          p := Some(lineup[i]);
        }
        i := i + 1;
      }
      assert lineup[..i] == lineup;
    }

    /** The batter half of `change_lineup`: a finished batter is replaced
        by the next spot of the batting side's order, after a soft reset
        of the count; an unfinished one stays. The cursor moves before
        the lineup is read, so a short lineup raises with it moved. */
    method NextBatter(top: bool) returns (status: Status)
      requires Valid()
      modifies this`batter, this`batterDone, this`awayPos, this`awayNext, this`homePos, this`homeNext, state
      ensures Valid()
      ensures !old(batterDone) ==>
        status == Done && batter == old(batter) && !batterDone && state.Snapshot() == old(state.Snapshot()) &&
        awayPos == old(awayPos) && awayNext == old(awayNext) && homePos == old(homePos) && homeNext == old(homeNext)
      ensures old(batterDone) ==>
        state.Snapshot() == Updated(old(state.Snapshot()), true, false, NoParams) &&
        (status == AssertFailed <==> !Logic.Valid(state.Snapshot()))
      ensures old(batterDone) && status != AssertFailed ==>
        (top ==> awayPos == old(awayNext) && awayNext == Step9(old(awayNext)) &&
                 homePos == old(homePos) && homeNext == old(homeNext)) &&
        (!top ==> homePos == old(homeNext) && homeNext == Step9(old(homeNext)) &&
                  awayPos == old(awayPos) && awayNext == old(awayNext))
      ensures old(batterDone) && status != AssertFailed ==>
        var lineup := if top then awayLineup else homeLineup;
        var spot := if top then awayPos else homePos;
        (status == Done <==> spot < |lineup|) &&
        (status == Done ==> batter == Some(lineup[spot]) && !batterDone) &&
        (status == Raised ==> batter == old(batter) && batterDone)
      ensures status == AssertFailed ==>
        batter == old(batter) && batterDone == old(batterDone) &&
        awayPos == old(awayPos) && awayNext == old(awayNext) && homePos == old(homePos) && homeNext == old(homeNext)
    {
      if !batterDone {
        return Done;
      }
      var ok := state.Update(true, false, NoParams);
      if !ok {
        return AssertFailed;
      }
      var lineup, spot;
      if top {
        awayPos := awayNext;
        awayNext := Step9(awayNext);
        lineup, spot := awayLineup, awayPos;
      } else {
        homePos := homeNext;
        homeNext := Step9(homeNext);
        lineup, spot := homeLineup, homePos;
      }
      if spot >= |lineup| {
        return Raised;
      }
      batter := Some(lineup[spot]);
      batterDone := false;
      status := Done;
    }

    /** `change_lineup`: the batter half for the side at bat, then the
        fielding side's pitcher. */
    method ChangeLineup() returns (status: Status)
      requires Valid()
      modifies this`batter, this`pitcher, this`batterDone, this`awayPos, this`awayNext, this`homePos, this`homeNext, state
      ensures Valid()
      ensures status == Done ==>
        pitcher == LastPitcher(if old(state.inning.order) == Top then homeLineup else awayLineup, old(pitcher))
      ensures status != Done ==> pitcher == old(pitcher)
      ensures !old(batterDone) ==> status == Done && batter == old(batter) && state.Snapshot() == old(state.Snapshot())
      ensures old(batterDone) && status == Done ==>
        var top := old(state.inning.order) == Top;
        !batterDone && state.Snapshot() == Updated(old(state.Snapshot()), true, false, NoParams) &&
        (if top then old(awayNext) < |awayLineup| && batter == Some(awayLineup[old(awayNext)])
         else old(homeNext) < |homeLineup| && batter == Some(homeLineup[old(homeNext)]))
      ensures old(batterDone) ==>
        state.Snapshot() == Updated(old(state.Snapshot()), true, false, NoParams) &&
        (status == AssertFailed <==> !Logic.Valid(state.Snapshot()))
      ensures old(batterDone) && status != AssertFailed ==>
        var top := old(state.inning.order) == Top;
        (top ==> awayPos == old(awayNext) && awayNext == Step9(old(awayNext)) &&
                 homePos == old(homePos) && homeNext == old(homeNext)) &&
        (!top ==> homePos == old(homeNext) && homeNext == Step9(old(homeNext)) &&
                  awayPos == old(awayPos) && awayNext == old(awayNext))
      ensures status != Done ==> status == Raised || status == AssertFailed
      ensures status == Raised ==> old(batterDone) && batter == old(batter) && batterDone
      ensures status == AssertFailed ==>
        batter == old(batter) && batterDone == old(batterDone) &&
        awayPos == old(awayPos) && awayNext == old(awayNext) && homePos == old(homePos) && homeNext == old(homeNext)
      ensures !old(batterDone) ==>
        awayPos == old(awayPos) && awayNext == old(awayNext) && homePos == old(homePos) && homeNext == old(homeNext)
    {
      var top := state.inning.order == Top;
      status := NextBatter(top);
      if status != Done {
        return;
      }
      pitcher := FindPitcher(if top then homeLineup else awayLineup, pitcher);
    }

    /** The stealer loop of `catcher_catch_pitch`: the runners on first,
        second and third, in that order, who are stealing. */
    method CollectStealers() returns (st: seq<(int, Player)>)
      ensures st == StealersOf(locations, 3)
    {
      st := [];
      var k := 1;
      while k <= 3
        invariant 1 <= k <= 4 && st == StealersOf(locations, k - 1)
      {
        var b := BaseName(k).value;
        if b in locations && locations[b].steal {
          st := st + [(k, locations[b])];
        }
        k := k + 1;
      }
    }

    /** The target loop of `catcher_catch_pitch`: a stealer from third
        ends the search; a stealer from second is kept; with neither, the
        first stealer listed is taken to run from first to second. */
    static method ChooseStealer(st: seq<(int, Player)>) returns (n: int, m: int, runner: Player, base: Option<string>)
      requires |st| > 0
      ensures (n, runner) == StealTarget(st) && m == n + 1
      ensures base == if n == 3 then None else if n == 2 then Some("third") else Some("second")
    {
      var found: Option<Player> := None;
      n, m, base := -1, -1, None;
      var i := 0;
      while i < |st|
        invariant 0 <= i <= |st|
        invariant FirstAt(st[..i], 3).None? && found == LastAt(st[..i], 2)
        invariant found.Some? ==> n == 2 && m == 3 && base == Some("third")
      {
        assert st[..i + 1][..i] == st[..i];
        if st[i].0 == 3 {
          FirstAtPrefix(st, i + 1, 3);
          return 3, 4, st[i].1, None;
        }
        if st[i].0 == 2 {
          found := Some(st[i].1);
          n, m, base := 2, 3, Some("third");
        }
        i := i + 1;
      }
      assert st[..i] == st;
      if found.None? {
        return 1, 2, st[0].1, Some("second");
      }
      runner := found.value;
    }

    /** The steal attempt of `catcher_catch_pitch`. A steal of home is
        decided by the catcher's tag. Any other steal brings a throw to
        the fielder covering the base, but no throw result is `yes`, so
        no tag follows and the runner always makes it. */
    method AttemptSteal(catcher: Player, n: int, runner: Player, base: Option<string>, throwDraw: string, tagDraw: string)
      returns (status: Status)
      requires 1 <= n <= 3 && base == if n == 3 then None else if n == 2 then Some("third") else Some("second")
      modifies this`log, this`locations
      ensures n == 3 ==>
        (status == Done <==> tagDraw in ["safe", "out"]) &&
        (status == Done ==>
          locations == Relocated(old(locations), if tagDraw == "out" then "caught" else "steal", 3, 4, Some(runner)))
      ensures n < 3 ==>
        (status == Done <==> At(old(locations), base.value).Some? && throwDraw in ["good", "dirt", "low", "high"]) &&
        (status == Done ==> locations == Relocated(old(locations), "steal", n, n + 1, Some(runner)))
      ensures status == Done ==>
        log == StealPushes(old(locations), catcher, n, runner, throwDraw, tagDraw, state.inning.order) + old(log)
      ensures status != Done ==> locations == old(locations) && log == old(log)
    {
      if n == 3 {
        status := StealHome(catcher, runner, tagDraw);
      } else {
        status := StealBase(catcher, n, runner, At(locations, base.value), throwDraw);
      }
    }

    /** A steal of home: the catcher's tag, then the runner's record. */
    method StealHome(catcher: Player, runner: Player, tagDraw: string) returns (status: Status)
      modifies this`log, this`locations
      ensures status == Done <==> tagDraw in ["safe", "out"]
      ensures status == Done ==>
        locations == Relocated(old(locations), if tagDraw == "out" then "caught" else "steal", 3, 4, Some(runner)) &&
        log == HomeStealPushes(catcher.num, runner.num, tagDraw, state.inning.order) + old(log)
      ensures status != Done ==> locations == old(locations) && log == old(log)
    {
      ghost var g0 := log;
      status := Tag(catcher, runner, tagDraw);
      if status != Done {
        return;
      }
      ghost var g2 := log;
      status := Move(Some(runner), 3, 4, if tagDraw == "out" then "caught" else "steal");
      Stacked(MovePushes(if tagDraw == "out" then "caught" else "steal", 3, 4, state.inning.order),
              [TagOutcome(tagDraw, catcher, runner).value.record],
              if tagDraw == "out" then [OutRecord] else [], g0, (if tagDraw == "out" then [OutRecord] else []) + g0, g2, log);
    }

    /** A steal of first or second: the throw to the fielder covering
        the base, then the move. */
    method StealBase(catcher: Player, n: int, runner: Player, target: Option<Player>, throwDraw: string)
      returns (status: Status)
      requires 1 <= n <= 2
      modifies this`log, this`locations
      ensures status == Done <==> target.Some? && throwDraw in ["good", "dirt", "low", "high"]
      ensures status == Done ==>
        locations == Relocated(old(locations), "steal", n, n + 1, Some(runner)) &&
        log == BaseStealPushes(catcher.pos, n, target.value.pos, throwDraw, state.inning.order) + old(log)
      ensures status != Done ==> locations == old(locations) && log == old(log)
    {
      status := Throw(Some(catcher), target, throwDraw);
      if status != Done {
        return;
      }
      ghost var g1 := log;
      status := Move(Some(runner), n, n + 1, "steal");
      BaseStealLog(catcher.pos, n, target.value.pos, throwDraw, state.inning.order, old(log), g1, log);
    }

    /** `catcher_catch_pitch`: the catcher at home takes the pitch; on a
        clean catch of anything but a walk (and the pitch record is never
        the word `walk`), the lead stealer, if any, is played on. */
    method CatcherCatch(pitchRecord: string, catchDraw: string, throwDraw: string, tagDraw: string)
      returns (status: Status)
      modifies this`log, this`locations
      ensures var catcher := At(old(locations), "home");
        catcher.None? || catchDraw !in ["yes", "drop", "miss"] ==>
          status == Raised && log == old(log) && locations == old(locations)
      ensures var catcher := At(old(locations), "home");
        catcher.Some? && catchDraw in ["yes", "drop", "miss"] &&
        !(catchDraw == "yes" && pitchRecord != "walk" && StealersOf(old(locations), 3) != []) ==>
          status == Done && locations == old(locations) &&
          log == [CatchOutcome(catchDraw, catcher.value).value.record] + old(log)
      ensures var catcher := At(old(locations), "home");
        var st := StealersOf(old(locations), 3);
        catcher.Some? && catchDraw == "yes" && pitchRecord != "walk" && st != [] ==>
          var t := StealTarget(st);
          (status == Done <==>
            if t.0 == 3 then tagDraw in ["safe", "out"]
            else At(old(locations), if t.0 == 2 then "third" else "second").Some? &&
                 throwDraw in ["good", "dirt", "low", "high"]) &&
          (status == Done ==>
            locations == Relocated(old(locations), if t.0 == 3 && tagDraw == "out" then "caught" else "steal",
                                   t.0, t.0 + 1, Some(t.1))) &&
          (status == Done ==>
            log == StealPushes(old(locations), catcher.value, t.0, t.1, throwDraw, tagDraw, state.inning.order) +
                   ([CatchOutcome(catchDraw, catcher.value).value.record] + old(log))) &&
          (status != Done ==>
            locations == old(locations) && log == [CatchOutcome(catchDraw, catcher.value).value.record] + old(log))
    {
      var catcher := At(locations, "home");
      status := Catch(catcher, catchDraw);
      if status != Done {
        return;
      }
      status := PlayOnStealers(catcher.value, catchDraw == "yes" && pitchRecord != "walk", throwDraw, tagDraw);
    }

    /** The second half of `catcher_catch_pitch`: with a clean catch of
        anything but a walk, the lead stealer is played on. */
    method PlayOnStealers(catcher: Player, clean: bool, throwDraw: string, tagDraw: string) returns (status: Status)
      modifies this`log, this`locations
      ensures !clean || StealersOf(old(locations), 3) == [] ==>
        status == Done && locations == old(locations) && log == old(log)
      ensures var st := StealersOf(old(locations), 3);
        clean && st != [] ==>
          var t := StealTarget(st);
          (status == Done <==>
            if t.0 == 3 then tagDraw in ["safe", "out"]
            else At(old(locations), if t.0 == 2 then "third" else "second").Some? &&
                 throwDraw in ["good", "dirt", "low", "high"]) &&
          (status == Done ==>
            locations == Relocated(old(locations), if t.0 == 3 && tagDraw == "out" then "caught" else "steal",
                                   t.0, t.0 + 1, Some(t.1))) &&
          (status == Done ==>
            log == StealPushes(old(locations), catcher, t.0, t.1, throwDraw, tagDraw, state.inning.order) + old(log)) &&
          (status != Done ==> locations == old(locations) && log == old(log))
    {
      var stealers := CollectStealers();
      status := Done;
      if clean && |stealers| > 0 {
        var n, m, runner, base := ChooseStealer(stealers);
        status := AttemptSteal(catcher, n, runner, base, throwDraw, tagDraw);
      }
    }

    /** A ball in play caught: the out record, the out marker, and the
        batter is done. */
    method CaughtOut(outRec: string)
      modifies this`log, this`batterDone
      ensures log == [OutRecord, outRec] + old(log) && batterDone
    {
      AddRecord(outRec);
      Marker("out");
      batterDone := true;
    }

    /** The records an uncaught hit for `n` bases pushes, newest first:
        the hit record, the batter's move, then the forced runners. */
    ghost function HitLog(rec: string, n: int, loc: Spots, order: Order): seq<string>
      requires 1 <= n <= 4
    {
      [rec] + MovePushes("move", 0, n, order) + ChainPushes(loc, SecondTo(n), FirstTo(n), order)
    }

    /** An uncaught ball played as a hit for `n` bases, the record last. */
    method HitPlayed(rec: string, n: int)
      requires 1 <= n <= 4
      modifies this`log, this`locations, this`batterDone
      ensures batterDone
      ensures locations == Relocated(ChainSpots(old(locations), SecondTo(n), FirstTo(n)), "move", 0, n, batter)
      ensures log == HitLog(rec, n, old(locations), state.inning.order) + old(log)
    {
      ghost var g0 := log;
      ghost var moves := MovePushes("move", 0, n, state.inning.order);
      ghost var chain := ChainPushes(locations, SecondTo(n), FirstTo(n), state.inning.order);
      PlayHit(n, true);
      ghost var g2 := log;
      AddRecord(rec);
      Stacked([rec], moves, chain, g0, chain + g0, g2, log);
    }

    /** The hit branch: the fielder tries to catch it; a catch is an out
        whose record word is drawn from the out table; otherwise the hit
        is played for the bases its record names and the hit record goes
        last. */
    method OnHit(rec: string, fielder: Option<Player>, catchDraw: string, outWord: string) returns (status: Status)
      requires rec in HitRecords && outWord in ["FO", "U", "LO", "GO"]
      modifies this`log, this`locations, this`batterDone
      ensures status == Done <==> fielder.Some? && catchDraw in ["yes", "drop", "miss"]
      ensures status != Done ==> log == old(log) && locations == old(locations) && batterDone == old(batterDone)
      ensures status == Done && catchDraw == "yes" ==>
        log == [OutRecord, OutText(outWord, fielder.value.pos)] + ([CatchOutcome(catchDraw, fielder.value).value.record] + old(log)) &&
        locations == old(locations) && batterDone
      ensures status == Done && catchDraw != "yes" ==>
        HitBases(rec).Some? && 1 <= HitBases(rec).value <= 4 && batterDone &&
        locations == Relocated(ChainSpots(old(locations), SecondTo(HitBases(rec).value), FirstTo(HitBases(rec).value)), "move", 0, HitBases(rec).value, batter) &&
        log == HitLog(rec, HitBases(rec).value, old(locations), state.inning.order) +
          ([CatchOutcome(catchDraw, fielder.value).value.record] + old(log))
    {
      status := Catch(fielder, catchDraw);
      if status != Done {
        return;
      }
      if catchDraw == "yes" {
        CaughtOut(OutText(outWord, fielder.value.pos));
      } else {
        HitRecordsBases(rec);
        HitPlayed(rec, HitBases(rec).value);
      }
    }

    /** The bunt branch: a catch is a ground out; otherwise the bunt is
        played as a single. */
    method OnBunt(rec: string, fielder: Option<Player>, catchDraw: string) returns (status: Status)
      modifies this`log, this`locations, this`batterDone
      ensures status == Done <==> fielder.Some? && catchDraw in ["yes", "drop", "miss"]
      ensures status != Done ==> log == old(log) && locations == old(locations) && batterDone == old(batterDone)
      ensures status == Done && catchDraw == "yes" ==>
        log == [OutRecord, OutText("GO", fielder.value.pos)] + ([CatchOutcome(catchDraw, fielder.value).value.record] + old(log)) &&
        locations == old(locations) && batterDone
      ensures status == Done && catchDraw != "yes" ==>
        batterDone &&
        locations == Relocated(ChainSpots(old(locations), 3, 2), "move", 0, 1, batter) &&
        log == HitLog(rec, 1, old(locations), state.inning.order) +
          ([CatchOutcome(catchDraw, fielder.value).value.record] + old(log))
    {
      status := Catch(fielder, catchDraw);
      if status != Done {
        return;
      }
      if catchDraw == "yes" {
        CaughtOut(OutText("GO", fielder.value.pos));
      } else {
        HitPlayed(rec, 1);
      }
    }

    /** The foul branch: a catch is a fly out; the foul record is pushed
        once more in either case, so an uncaught foul lands in the log
        twice. */
    method OnFoul(rec: string, fielder: Option<Player>, catchDraw: string) returns (status: Status)
      modifies this`log, this`batterDone
      ensures status == Done <==> fielder.Some? && catchDraw in ["yes", "drop", "miss"]
      ensures status != Done ==> log == old(log) && batterDone == old(batterDone)
      ensures status == Done ==>
        var caught := CatchOutcome(catchDraw, fielder.value).value.record;
        if catchDraw == "yes" then
          log == [rec] + ([OutRecord, OutText("FO", fielder.value.pos)] + ([caught] + old(log))) && batterDone
        else
          log == [rec] + ([rec] + ([caught] + old(log))) && batterDone == old(batterDone)
    {
      status := Catch(fielder, catchDraw);
      if status != Done {
        return;
      }
      if catchDraw == "yes" {
        CaughtOut(OutText("FO", fielder.value.pos));
      } else {
        AddRecord(rec);
      }
      AddRecord(rec);
    }

    /** The records a called strike, strikeout or ball pushes before the
        catcher handles the pitch: a strikeout also marks an out. */
    static function CalledPushes(result: string, rec: string): seq<string> {
      if result == "strikeout" then [OutRecord, rec] else [rec]
    }

    /** Called strike, strikeout and ball: the pitch record (and for a
        strikeout the out marker) goes in first, then the catcher takes the
        pitch and may play on a stealer. A missing catcher is raised only
        after the pitch record is in the log. */
    method OnCalledPitch(result: string, rec: string, catchDraw: string, throwDraw: string, tagDraw: string)
      returns (status: Status)
      requires result in ["strike", "strikeout", "ball"]
      modifies this`log, this`locations, this`batterDone
      ensures batterDone == (old(batterDone) || result == "strikeout")
      ensures var catcher := At(old(locations), "home");
        catcher.None? || catchDraw !in ["yes", "drop", "miss"] ==>
          status == Raised && locations == old(locations) && log == CalledPushes(result, rec) + old(log)
      ensures var catcher := At(old(locations), "home");
        catcher.Some? && catchDraw in ["yes", "drop", "miss"] &&
        !(catchDraw == "yes" && rec != "walk" && StealersOf(old(locations), 3) != []) ==>
          status == Done && locations == old(locations) &&
          log == [CatchOutcome(catchDraw, catcher.value).value.record] + (CalledPushes(result, rec) + old(log))
      ensures var catcher := At(old(locations), "home");
        var st := StealersOf(old(locations), 3);
        catcher.Some? && catchDraw == "yes" && rec != "walk" && st != [] ==>
          var t := StealTarget(st);
          var caught := [CatchOutcome(catchDraw, catcher.value).value.record] + (CalledPushes(result, rec) + old(log));
          (status == Done <==>
            if t.0 == 3 then tagDraw in ["safe", "out"]
            else At(old(locations), if t.0 == 2 then "third" else "second").Some? &&
                 throwDraw in ["good", "dirt", "low", "high"]) &&
          (status == Done ==>
            locations == Relocated(old(locations), if t.0 == 3 && tagDraw == "out" then "caught" else "steal",
                                   t.0, t.0 + 1, Some(t.1)) &&
            log == StealPushes(old(locations), catcher.value, t.0, t.1, throwDraw, tagDraw, state.inning.order) + caught) &&
          (status != Done ==> locations == old(locations) && log == caught)
    {
      PushCalled(result, rec);
      status := CatcherCatch(rec, catchDraw, throwDraw, tagDraw);
    }

    /** The records of a called pitch, before the catcher takes it. */
    method PushCalled(result: string, rec: string)
      modifies this`log, this`batterDone
      ensures batterDone == (old(batterDone) || result == "strikeout")
      ensures log == CalledPushes(result, rec) + old(log)
    {
      if result == "strikeout" {
        batterDone := true;
        AddRecord(rec);
        Marker("out");
      } else {
        AddRecord(rec);
      }
    }

    /** The pitches that move runners without a fielder: balk, hit by
        pitch, walk, wild pitch, ground-rule double and home run. */
    method OnAdvancePitch(result: string, rec: string)
      requires result in ["balk", "hbp", "walk", "wild", "gdb", "hr"]
      modifies this`log, this`locations, this`batterDone
      ensures result in ["hbp", "walk", "gdb", "hr"] ==> batterDone
      ensures result == "balk" ==> batterDone == old(batterDone)
      ensures |log| > |old(log)|
      ensures result == "balk" ==>
        locations == ChainSpots(old(locations), 3, 2) &&
        log == [rec] + ChainPushes(old(locations), 3, 2, state.inning.order) + old(log)
      ensures result == "hbp" ==>
        locations == Relocated(ChainSpots(old(locations), 3, 2), "move", 0, 1, batter) &&
        log == [rec] + MovePushes("move", 0, 1, state.inning.order) +
          ChainPushes(old(locations), 3, 2, state.inning.order) + old(log)
      ensures result == "walk" ==>
        locations == Relocated(ForcedSpots(old(locations)), "move", 0, 1, batter) &&
        log == [rec] + MovePushes("move", 0, 1, state.inning.order) +
          ForcedPushes(old(locations), state.inning.order) + old(log)
      ensures result == "wild" ==>
        locations == ForcedSpots(old(locations)) &&
        log == [rec] + ForcedPushes(old(locations), state.inning.order) + old(log) &&
        batterDone == (old(batterDone) || state.count.balls == 4)
      ensures result == "gdb" ==>
        locations == Relocated(ChainSpots(old(locations), 4, 3), "move", 0, 2, batter) &&
        log == [rec] + MovePushes("move", 0, 2, state.inning.order) +
          ChainPushes(old(locations), 4, 3, state.inning.order) + old(log)
      ensures result == "hr" ==>
        locations == Relocated(ChainSpots(old(locations), 4, 4), "move", 0, 4, batter) &&
        log == [rec] + MovePushes("move", 0, 4, state.inning.order) +
          ChainPushes(old(locations), 4, 4, state.inning.order) + old(log)
    {
      if result in ["balk", "hbp"] {
        OnBalkOrHbp(result == "hbp", rec);
      } else if result == "walk" {
        OnWalk(rec);
      } else if result == "wild" {
        OnWild(rec);
      } else if result == "gdb" {
        OnGroundRuleDouble(rec);
      } else {
        OnHomeRun(rec);
      }
    }

    /** The balls put in play that a fielder tries to catch. */
    method OnFielded(result: string, rec: string, fielder: Option<Player>, catchDraw: string, outWord: string)
      returns (status: Status)
      requires result in ["single", "double", "triple", "four", "bunt", "foul"]
      requires result in ["single", "double", "triple", "four"] ==> rec in HitRecords
      requires outWord in ["FO", "U", "LO", "GO"]
      modifies this`log, this`locations, this`batterDone
      ensures status == Done <==> fielder.Some? && catchDraw in ["yes", "drop", "miss"]
      ensures status == Done && catchDraw == "yes" ==> batterDone
      ensures status == Done && catchDraw != "yes" && result != "foul" ==> batterDone
      ensures status != Done ==> log == old(log) && locations == old(locations) && batterDone == old(batterDone)
      ensures result == "foul" ==> locations == old(locations)
      ensures result != "foul" && status == Done && catchDraw == "yes" ==>
        log == [OutRecord, OutText(if result == "bunt" then "GO" else outWord, fielder.value.pos)] +
          ([CatchOutcome(catchDraw, fielder.value).value.record] + old(log)) &&
        locations == old(locations)
      ensures result == "bunt" && status == Done && catchDraw != "yes" ==>
        locations == Relocated(ChainSpots(old(locations), 3, 2), "move", 0, 1, batter) &&
        log == HitLog(rec, 1, old(locations), state.inning.order) +
          ([CatchOutcome(catchDraw, fielder.value).value.record] + old(log))
      ensures result != "bunt" && result != "foul" && status == Done && catchDraw != "yes" ==>
        HitBases(rec).Some? && 1 <= HitBases(rec).value <= 4 &&
        var n := HitBases(rec).value;
        locations == Relocated(ChainSpots(old(locations), SecondTo(n), FirstTo(n)), "move", 0, n, batter) &&
        log == HitLog(rec, n, old(locations), state.inning.order) +
          ([CatchOutcome(catchDraw, fielder.value).value.record] + old(log))
      ensures result == "foul" && status == Done ==>
        var caught := CatchOutcome(catchDraw, fielder.value).value.record;
        if catchDraw == "yes" then
          log == [rec] + ([OutRecord, OutText("FO", fielder.value.pos)] + ([caught] + old(log)))
        else
          log == [rec] + ([rec] + ([caught] + old(log))) && batterDone == old(batterDone)
    {
      if result == "bunt" {
        status := OnBunt(rec, fielder, catchDraw);
      } else if result == "foul" {
        status := OnFoul(rec, fielder, catchDraw);
      } else {
        status := OnHit(rec, fielder, catchDraw, outWord);
      }
    }

    /** What a pitch does once thrown: one branch per result label; an
        unknown label is raised and changes nothing. */
    method OnPitch(result: string, rec: string, fielder: Option<Player>, catchDraw: string,
                   throwDraw: string, tagDraw: string, outWord: string) returns (status: Status)
      requires result in ["single", "double", "triple", "four"] ==> rec in HitRecords
      requires outWord in ["FO", "U", "LO", "GO"]
      modifies this`log, this`locations, this`batterDone
      ensures result !in PitchResults ==>
        status == Raised && log == old(log) && locations == old(locations) && batterDone == old(batterDone)
      ensures result in ["hbp", "strikeout", "walk", "gdb", "hr"] ==> batterDone
      ensures result in ["balk", "hbp", "walk", "wild", "gdb", "hr"] ==> status == Done && |log| > |old(log)|
    {
      if result in ["balk", "hbp", "walk", "wild", "gdb", "hr"] {
        OnAdvancePitch(result, rec);
        status := Done;
      } else if result in ["strike", "strikeout", "ball"] {
        status := OnCalledPitch(result, rec, catchDraw, throwDraw, tagDraw);
      } else if result in ["single", "double", "triple", "four", "bunt", "foul"] {
        status := OnFielded(result, rec, fielder, catchDraw, outWord);
      } else {
        status := Raised;
      }
    }
  }
}
