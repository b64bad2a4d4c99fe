/** The game state (score, inning, count, bases), its field-wise update
    with the soft and full count resets, the base-advance table `move_n`,
    and the decoder that replays one record string into the state. */
module Logic {
  import opened Wrappers
  import opened Text
  import opened Context
  import opened Helpers

  datatype Order = Top | Bottom

  datatype Score = Score(away: int, home: int)
  /** `inning` counts half-innings: the console loop's 1, 1.5, 2, ... are
      2, 3, 4, ... here. */
  datatype Inning = Inning(order: Order, inning: int)
  datatype Count = Count(strikes: int, balls: int, outs: int)
  datatype Bases = Bases(third: int, second: int, first: int)

  datatype State = State(score: Score, inning: Inning, count: Count, bases: Bases)

  const ScoreZero := Score(0, 0)
  const InningZero := Inning(Top, 0)
  const CountZero := Count(0, 0, 0)
  const BasesZero := Bases(0, 0, 0)

  /** The assertions `update` ends with. */
  predicate Valid(s: State) {
    0 <= s.score.home && 0 <= s.score.away && 0 <= s.inning.inning
    && 0 <= s.count.strikes <= 3 && 0 <= s.count.balls <= 4 && 0 <= s.count.outs <= 3
    && 0 <= s.bases.first <= 1 && 0 <= s.bases.second <= 1 && 0 <= s.bases.third <= 1
  }

  // -----------------------------------------------------------------------
  // move_n

  datatype Advanced = Advanced(first: int, second: int, third: int, score: int)

  function Bit(b: bool): int { if b then 1 else 0 }

  /** The base a runner occupies after moving `n` bases from base `k`
      (0 is the batter), as an occupancy bit; base 4 and beyond is home. */
  function Occupied(n: int, first: int, second: int, third: int, base: int): int {
    if base < n then 0
    else if base == n then 1
    else if base - n == 1 then first
    else if base - n == 2 then second
    else third
  }

  /** `move_n(n, first, second, third, score)`: the batter reaches base n
      and every runner moves n bases. The arguments are asserted in range;
      n = 0 has no table entry, so the sum over the missing entry raises. */
  function MoveN(n: int, first: int, second: int, third: int, score: int): (r: Result<Advanced>)
    ensures r.Success? <==>
      1 <= n <= 4 && 0 <= score && first in {0, 1} && second in {0, 1} && third in {0, 1}
    ensures r.Success? ==>
      r.value.first == Occupied(n, first, second, third, 1) &&
      r.value.second == Occupied(n, first, second, third, 2) &&
      r.value.third == Occupied(n, first, second, third, 3)
    ensures r.Success? ==>
      r.value.score - score == 1 + first + second + third
                               - (r.value.first + r.value.second + r.value.third)
  {
    if !(0 <= n <= 4) then Failure("AssertionError: n")
    else if !(0 <= score) then Failure("AssertionError: score")
    else if !(first in {0, 1} && second in {0, 1} && third in {0, 1}) then Failure("AssertionError: bases")
    else if n == 0 then Failure("TypeError: no table entry")
    else
      var post :=
        if n == 4 then [0, 0, 0]
        else if n == 3 then [0, 0, 1]
        else if n == 2 then [0, 1, first]
        else [1, first, second];
      var gained := 1 + (first + second + third) - (post[0] + post[1] + post[2]);
      Success(Advanced(post[0], post[1], post[2], score + Max(gained, 0)))
  }

  function Max(a: int, b: int): int { if a >= b then a else b }

  /** Every runner on base, and the batter, either stands on a base after
      `move_n` or has scored: no runner is lost and none is invented. */
  lemma MoveNConserves(n: int, first: int, second: int, third: int, score: int)
    requires MoveN(n, first, second, third, score).Success?
    ensures var a := MoveN(n, first, second, third, score).value;
      a.score >= score &&
      (1 + first + second + third) == (a.first + a.second + a.third) + (a.score - score)
    ensures var a := MoveN(n, first, second, third, score).value;
      a.first in {0, 1} && a.second in {0, 1} && a.third in {0, 1}
  {
  }

  /** A home run clears the bases and scores everyone. */
  lemma HomeRunClears(first: int, second: int, third: int, score: int)
    requires 0 <= score && first in {0, 1} && second in {0, 1} && third in {0, 1}
    ensures MoveN(4, first, second, third, score) ==
      Success(Advanced(0, 0, 0, score + 1 + first + second + third))
  {
  }

  // -----------------------------------------------------------------------
  // update

  /** The keyword arguments of `update`: a named field, or absent. */
  datatype Params = Params(
    away: Option<int>, home: Option<int>,
    order: Option<Order>, inning: Option<int>,
    strikes: Option<int>, balls: Option<int>, outs: Option<int>,
    third: Option<int>, second: Option<int>, first: Option<int>)

  const NoParams := Params(None, None, None, None, None, None, None, None, None, None)

  function Or<T>(o: Option<T>, d: T): T {
    match o case Some(v) => v case None => d
  }

  /** The reset step of `update`: `reset` zeroes strikes and balls and
      keeps outs; `reset_all` zeroes the whole count and the bases. */
  function Reset(s: State, reset: bool, resetAll: bool): (r: State)
    ensures r.score == s.score && r.inning == s.inning
    ensures resetAll ==> r.count == CountZero && r.bases == BasesZero
    ensures reset && !resetAll ==> r.count == Count(0, 0, s.count.outs) && r.bases == s.bases
    ensures !reset && !resetAll ==> r == s
  {
    if resetAll then s.(count := CountZero, bases := BasesZero)
    else if reset then s.(count := Count(0, 0, s.count.outs))
    else s
  }

  /** The field step of `update`: every named field takes its value and
      every other field keeps its previous one. */
  function Merge(s: State, p: Params): State {
    State(
      Score(Or(p.away, s.score.away), Or(p.home, s.score.home)),
      Inning(Or(p.order, s.inning.order), Or(p.inning, s.inning.inning)),
      Count(Or(p.strikes, s.count.strikes), Or(p.balls, s.count.balls), Or(p.outs, s.count.outs)),
      Bases(Or(p.third, s.bases.third), Or(p.second, s.bases.second), Or(p.first, s.bases.first)))
  }

  /** Merging changes exactly the named fields. */
  lemma MergeFields(s: State, p: Params)
    ensures Merge(s, p).score.away == (if p.away.Some? then p.away.value else s.score.away)
    ensures Merge(s, p).score.home == (if p.home.Some? then p.home.value else s.score.home)
    ensures Merge(s, p).inning.order == (if p.order.Some? then p.order.value else s.inning.order)
    ensures Merge(s, p).inning.inning == (if p.inning.Some? then p.inning.value else s.inning.inning)
    ensures Merge(s, p).count.strikes == (if p.strikes.Some? then p.strikes.value else s.count.strikes)
    ensures Merge(s, p).count.balls == (if p.balls.Some? then p.balls.value else s.count.balls)
    ensures Merge(s, p).count.outs == (if p.outs.Some? then p.outs.value else s.count.outs)
    ensures Merge(s, p).bases.third == (if p.third.Some? then p.third.value else s.bases.third)
    ensures Merge(s, p).bases.second == (if p.second.Some? then p.second.value else s.bases.second)
    ensures Merge(s, p).bases.first == (if p.first.Some? then p.first.value else s.bases.first)
  {
  }

  /** No named field: nothing changes. Merging twice with the same fields
      is merging once. */
  lemma MergeLaws(s: State, p: Params)
    ensures Merge(s, NoParams) == s
    ensures Merge(Merge(s, p), p) == Merge(s, p)
  {
  }

  /** The whole `update(reset, reset_all, **params)` before its assertions. */
  function Updated(s: State, reset: bool, resetAll: bool, p: Params): State {
    Merge(Reset(s, reset, resetAll), p)
  }

  /** A named field beats the reset: the reset happens first. */
  lemma ResetThenNamed(s: State, outs: int)
    ensures Updated(s, false, true, NoParams.(outs := Some(outs))).count == Count(0, 0, outs)
    ensures Updated(s, true, false, NoParams).count.outs == s.count.outs
  {
  }

  // -----------------------------------------------------------------------
  // update_from_event_record

  /** What one record does to the state, in the order of the decoder's
      branch chain. */
  datatype Effect =
    | AddStrike        // strike and strikeout records
    | AddBall          // ball, walk and wild-pitch records
    | FoulStrike       // a foul: a strike only below two strikes
    | NoEffect         // counted elsewhere or ignored
    | AddOut           // the out record and tag-outs
    | HomeRun          // the home-score record
    | AwayRun          // the away-score record
    | CaughtStealing(from: int)
    | Advance(from: int, to: int)
    | Unparsable       // the record raises before the state is touched

  /** The records the decoder looks for, sub-table by sub-table. */
  const StrikeRecords: seq<string> := ["Sc", "Ss"]
  const StrikeoutRecords: seq<string> := ["PB", "Ks", "Kc"]
  const BallRecords: seq<string> := ["B"]
  const WalkRecords: seq<string> := ["W"]
  const HbpRecords: seq<string> := ["HBP"]
  const FoulRecords: seq<string> := ["Foul"]
  const OopRecords: seq<string> := ["GDB", "HR"]
  const HitRecords: seq<string> := ["Hit:1", "Hit:2", "Hit:3", "Hit:4"]
  const BuntRecords: seq<string> := ["Bunt"]
  const OutFormats: seq<string> := ["FO:{}", "U:{}", "LO:{}", "GO:{}"]
  const MoveFormats: seq<string> := [Around("move"), Around("steal"), Around("caught")]
  const WildPitch := "WP"
  const OutRecord := "<Out>"
  const HomeScoreRecord := "<HomeScore>"
  const AwayScoreRecord := "<AwayScore>"
  const TagSafeFormat := Around("tagsafe")
  const TagOutFormat := Around("tagout")
  const CaughtFormat := Around("caught")
  const MoveFormat := Around("move")
  const StealFormat := Around("steal")

  /** A two-placeholder template with a literal middle token. */
  function Around(u: string): string { "{}:" + u + ":{}" }

  /** The `:`-tokens of the templates, as `match` splits them
      (`MatchAround` and the lemmas after it). */
  const OutTokens: seq<seq<string>> := [["FO", "{}"], ["U", "{}"], ["LO", "{}"], ["GO", "{}"]]
  const MoveTokens: seq<seq<string>> := [AroundTokens("move"), AroundTokens("steal"), AroundTokens("caught")]

  function AroundTokens(u: string): seq<string> { ["{}", u, "{}"] }

  /** `match` against a template already split into its tokens. */
  predicate Hits(rec: string, toks: seq<string>) {
    AnyShared(toks, Split(rec, ":"))
  }

  /** `match_array` against templates already split into their tokens. */
  predicate HitsAny(rec: string, tokss: seq<seq<string>>) {
    tokss != [] && (Hits(rec, tokss[0]) || HitsAny(rec, tokss[1..]))
  }

  lemma AroundSplit(u: string)
    requires NoChar(u, ':')
    ensures Split(Around(u), ":") == AroundTokens(u)
  {
    assert Around(u) == "{}" + ":" + u + ":" + "{}";
    ThreeTokens("{}", u, "{}");
  }

  lemma OutFormatSplit(i: nat)
    requires i < |OutFormats|
    ensures Split(OutFormats[i], ":") == OutTokens[i]
  {
    var h := OutTokens[i][0];
    assert OutFormats[i] == h + ":" + "{}";
    SplitJoin(h, ":", "{}");
    SplitNone("{}", ":");
  }

  /** `match_array` over templates is the same test over their tokens. */
  lemma {:induction false} MatchArrayTokens(rec: string, xs: seq<string>, tokss: seq<seq<string>>)
    requires |xs| == |tokss| && forall i :: 0 <= i < |xs| ==> Split(xs[i], ":") == tokss[i]
    ensures MatchArray(rec, xs) == HitsAny(rec, tokss)
  {
    if xs != [] {
      MatchArrayTokens(rec, xs[1..], tokss[1..]);
    }
  }

  /** A `match` against a two-placeholder template is the same test
      against its tokens. */
  lemma MatchAround(rec: string, u: string)
    requires NoChar(u, ':')
    ensures Match(rec, Around(u)) == Hits(rec, AroundTokens(u))
  {
    AroundSplit(u);
  }

  lemma MatchOutFormats(rec: string)
    ensures MatchArray(rec, OutFormats) == HitsAny(rec, OutTokens)
  {
    forall i | 0 <= i < |OutFormats|
      ensures Split(OutFormats[i], ":") == OutTokens[i]
    {
      OutFormatSplit(i);
    }
    MatchArrayTokens(rec, OutFormats, OutTokens);
  }

  lemma MatchMoveFormats(rec: string)
    ensures MatchArray(rec, MoveFormats) == HitsAny(rec, MoveTokens)
  {
    forall i | 0 <= i < |MoveFormats|
      ensures Split(MoveFormats[i], ":") == MoveTokens[i]
    {
      AroundSplit(["move", "steal", "caught"][i]);
    }
    MatchArrayTokens(rec, MoveFormats, MoveTokens);
  }

  /** The pitch-record lists above are the record table's own entries. */
  lemma StrikeRecordsFromTable()
    ensures StrikeRecords == Templates(StrikeKeys) && StrikeoutRecords == Templates(StrikeoutKeys)
  {
  }

  lemma BallRecordsFromTable()
    ensures BallRecords == Templates(BallKeys) && WalkRecords == Templates(WalkKeys)
    ensures HbpRecords == Templates(HbpKeys) && FoulRecords == Templates(FoulKeys)
    ensures WildPitch == Template(WildWp)
  {
  }

  lemma ContactRecordsFromTable()
    ensures OopRecords == Templates(OopKeys) && BuntRecords == Templates(BuntKeys)
  {
    var os := Templates(OopKeys);
    assert os[0] == Template(OopGdb) == "GDB" && os[1] == Template(OopHr) == "HR";
    assert |os| == 2;
    var bs := Templates(BuntKeys);
    assert bs[0] == Template(BuntBunt) == "Bunt" && |bs| == 1;
  }

  lemma HitRecordsFromTable()
    ensures HitRecords == Templates(HitKeys)
  {
    var hs := Templates(HitKeys);
    assert hs[0] == Template(HitSingle) == "Hit:1";
    assert hs[1] == Template(HitDouble) == "Hit:2";
    assert hs[2] == Template(HitTriple) == "Hit:3";
    assert hs[3] == Template(HitFour) == "Hit:4";
    assert |hs| == 4;
  }

  lemma OutFormatsFromTable()
    ensures OutFormats == Templates(OutKeys)
  {
    var ts := Templates(OutKeys);
    assert ts[0] == Template(OutFo) == "FO:" + "{}";
    assert ts[1] == Template(OutUno) == "U:" + "{}";
    assert ts[2] == Template(OutLo) == "LO:" + "{}";
    assert ts[3] == Template(OutGo) == "GO:" + "{}";
    assert "FO:" + "{}" == "FO:{}" && "U:" + "{}" == "U:{}";
    assert "LO:" + "{}" == "LO:{}" && "GO:" + "{}" == "GO:{}";
    assert |ts| == 4;
  }

  /** The play-record formats above are the record table's own entries. */
  lemma MoveFormatsFromTable()
    ensures MoveFormats == Templates(MoveKeys)
    ensures CaughtFormat == Template(MoveCaught) && MoveFormat == Template(MoveMove)
    ensures StealFormat == Template(MoveSteal)
  {
    assert Template(MoveMove) == "{}" + ":move:" + "{}" == MoveFormat;
    assert Template(MoveSteal) == "{}" + ":steal:" + "{}" == StealFormat;
    assert Template(MoveCaught) == "{}" + ":caught:" + "{}" == CaughtFormat;
    var ms := Templates(MoveKeys);
    assert ms[0] == MoveFormat && ms[1] == StealFormat && ms[2] == CaughtFormat;
    assert |ms| == 3;
  }

  lemma TagFormatsFromTable()
    ensures TagSafeFormat == Template(TagSafe) && TagOutFormat == Template(TagOut)
  {
    assert Template(TagSafe) == "{}" + ":tagsafe:" + "{}" == TagSafeFormat;
    assert Template(TagOut) == "{}" + ":tagout:" + "{}" == TagOutFormat;
  }

  lemma ShiftRecordsFromTable()
    ensures OutRecord == Template(ShiftOut)
    ensures HomeScoreRecord == Template(ShiftHScore) && AwayScoreRecord == Template(ShiftAScore)
  {
  }

  /** `a<sep>b` with both sides decimal integers; anything else raises
      in the two-way unpack or in `int`. */
  function SplitPair(rec: string, sep: string): (r: Option<(int, int)>)
    requires |sep| > 0
    ensures r.Some? ==> |Split(rec, sep)| == 2
  {
    var parts := Split(rec, sep);
    if |parts| != 2 then None
    else match (ParseInt(parts[0]), ParseInt(parts[1]))
      case (Some(a), Some(b)) => Some((a, b))
      case _ => None
  }

  /** The decoder's branch chain. */
  function Classify(rec: string): Effect {
    if PitchRecord(rec) then PitchEffect(rec) else PlayEffect(rec)
  }

  /** The first stretch of the chain: the records a pitch writes. */
  predicate PitchRecord(rec: string) {
    rec in StrikeRecords || rec in StrikeoutRecords || rec in BallRecords ||
    rec in WalkRecords || rec == WildPitch || rec in HbpRecords || rec in FoulRecords ||
    rec in OopRecords || rec in HitRecords || rec in BuntRecords ||
    HitsAny(rec, OutTokens)
  }

  function PitchEffect(rec: string): Effect {
    if rec in StrikeRecords then AddStrike
    else if rec in StrikeoutRecords then AddStrike
    else if rec in BallRecords then AddBall
    else if rec in WalkRecords then AddBall
    else if rec == WildPitch then AddBall
    else if rec in HbpRecords then NoEffect
    else if rec in FoulRecords then FoulStrike
    else NoEffect
  }

  /** The rest of the chain: shift, tag and move records. */
  function PlayEffect(rec: string): Effect {
    if rec == OutRecord then AddOut
    else if rec == HomeScoreRecord then HomeRun
    else if rec == AwayScoreRecord then AwayRun
    else if Hits(rec, AroundTokens("tagsafe")) then NoEffect
    else if Hits(rec, AroundTokens("tagout")) then AddOut
    else if HitsAny(rec, MoveTokens) then MoveEffect(rec)
    else NoEffect
  }

  function MoveEffect(rec: string): Effect {
    if Hits(rec, AroundTokens("caught")) then MoveSplit(rec, "caught")
    else if Hits(rec, AroundTokens("move")) then MoveSplit(rec, "move")
    else if Hits(rec, AroundTokens("steal")) then MoveSplit(rec, "steal")
    else Unparsable
  }

  /** `result.split(':' + o + ':')` read as two integers: the runner's
      base and, unless caught, the base reached. */
  function MoveSplit(rec: string, o: string): Effect {
    match SplitPair(rec, ":" + o + ":")
    case Some((a, b)) => if o == "caught" then CaughtStealing(a) else Advance(a, b)
    case None => Unparsable
  }

  function Vacate(b: Bases, base: int): Bases {
    if base == 1 then b.(first := 0)
    else if base == 2 then b.(second := 0)
    else if base == 3 then b.(third := 0)
    else b
  }

  function Occupy(b: Bases, base: int): Bases {
    if base == 1 then b.(first := 1)
    else if base == 2 then b.(second := 1)
    else if base == 3 then b.(third := 1)
    else b
  }

  /** The eight fields the decoder hands to `update`; a run home goes to
      the batting side and outs are capped at three. */
  function EffectParams(s: State, e: Effect): Params {
    var c := s.count;
    var strikes := if e.AddStrike? || (e.FoulStrike? && c.strikes < 2) then c.strikes + 1 else c.strikes;
    var balls := if e.AddBall? then c.balls + 1 else c.balls;
    var outs := if e.AddOut? then c.outs + 1 else c.outs;
    var bases :=
      match e
      case CaughtStealing(a) => Vacate(s.bases, a)
      case Advance(a, b) => Occupy(Vacate(s.bases, a), b)
      case _ => s.bases;
    var rel := if e.Advance? && e.to == 4 then 1 else 0;
    var home := s.score.home + (if e.HomeRun? then 1 else 0) + (if s.inning.order == Bottom then rel else 0);
    var away := s.score.away + (if e.AwayRun? then 1 else 0) + (if s.inning.order == Top then rel else 0);
    Params(Some(away), Some(home), None, None,
           Some(strikes), Some(balls), Some(if outs > 3 then 3 else outs),
           Some(bases.third), Some(bases.second), Some(bases.first))
  }

  /** The state an effect leads to before `update`'s assertions. It never
      touches the half and the inning, and runs come only from the score
      records and from a move to base 4, credited to the side at bat. On a
      valid state it keeps bases in {0, 1} and outs within [0, 3]:
      `update`'s assertion fails only for a fourth strike or a fifth ball. */
  function Apply(s: State, e: Effect): (t: State)
    ensures t.inning == s.inning
    ensures t.score.away - s.score.away ==
        (if e.AwayRun? then 1 else 0) + (if e.Advance? && e.to == 4 && s.inning.order == Top then 1 else 0)
    ensures t.score.home - s.score.home ==
        (if e.HomeRun? then 1 else 0) + (if e.Advance? && e.to == 4 && s.inning.order == Bottom then 1 else 0)
    ensures Valid(s) ==>
      (Valid(t) <==> !(s.count.strikes == 3 && e.AddStrike?) && !(s.count.balls == 4 && e.AddBall?))
  {
    Updated(s, false, false, EffectParams(s, e))
  }

  /** The state a record leads to before `update`'s assertions, or None
      when the record raises first and the state is left as it was. */
  function Next(s: State, rec: string): Option<State> {
    var e := Classify(rec);
    if e.Unparsable? then None else Some(Apply(s, e))
  }

  /** A record that parses: the same two facts about the state it leads to. */
  lemma NextKeepsValid(s: State, rec: string)
    requires Valid(s) && Next(s, rec).Some?
    ensures var t := Next(s, rec).value;
      t.inning == s.inning && t.score.home >= s.score.home && t.score.away >= s.score.away
    ensures Valid(Next(s, rec).value) <==>
      !(s.count.strikes == 3 && Classify(rec).AddStrike?) &&
      !(s.count.balls == 4 && Classify(rec).AddBall?)
  {
    var e := Classify(rec);
    assert Next(s, rec) == Some(Apply(s, e));
  }

  // -----------------------------------------------------------------------
  // What the decoder makes of the records the actions write

  /** Strike and strikeout records bump strikes. */
  lemma StrikeRecordDecodes(rec: string)
    requires rec in StrikeRecords + StrikeoutRecords
    ensures Classify(rec) == AddStrike
  {
    if rec in StrikeRecords {
      assert rec == "Sc" || rec == "Ss";
    } else {
      assert rec == "PB" || rec == "Ks" || rec == "Kc";
    }
  }

  /** Ball, walk and wild-pitch records bump balls. */
  lemma BallRecordDecodes(rec: string)
    requires rec in BallRecords + WalkRecords + [WildPitch]
    ensures Classify(rec) == AddBall
  {
    assert rec == "B" || rec == "W" || rec == "WP";
  }

  /** A foul counts as a strike only below two strikes. */
  lemma FoulRecordDecodes(s: State)
    ensures Classify(FoulRecords[0]) == FoulStrike
    ensures Apply(s, FoulStrike).count.strikes == if s.count.strikes < 2 then s.count.strikes + 1 else s.count.strikes
  {
  }

  /** Hit-by-pitch, contact and bunt records leave the count alone: the
      runners they move are written as separate move records. */
  lemma ContactRecordDecodes(rec: string)
    requires rec in HbpRecords + OopRecords + HitRecords + BuntRecords
    ensures Classify(rec) == NoEffect
  {
    if rec in HitRecords {
      assert rec == "Hit:1" || rec == "Hit:2" || rec == "Hit:3" || rec == "Hit:4";
    } else {
      assert rec == "HBP" || rec == "GDB" || rec == "HR" || rec == "Bunt";
    }
  }

  /** `PB` is also the passed-ball entry of the wild-pitch table, but the
      strikeout list is tested first, so it decodes as a strike. */
  lemma PassedBallDecodesAsStrike()
    ensures Classify(Template(WildPb)) == AddStrike
  {
    PassedBallTwice();
    StrikeRecordsFromTable();
    StrikeRecordDecodes(Template(WildPb));
  }

  /** A string shaped like `str(n)`: it starts with a digit or a minus
      sign and has no colon. */
  predicate Numeric(s: string) {
    |s| >= 1 && (s[0] == '-' || IsDigit(s[0])) && NoChar(s, ':')
  }

  lemma StrNumeric(n: int)
    ensures Numeric(Str(n))
  {
    if n < 0 {
      assert Str(n)[0] == '-';
    } else {
      assert Str(n) == Digits(n);
    }
  }

  /** `rec` reads `a:t:b`, with integers outside and a word in the middle. */
  predicate PlayShaped(rec: string, a: string, t: string, b: string) {
    Numeric(a) && Numeric(b) && NoChar(t, ':') && |t| >= 1 && 'a' <= t[0] <= 'z' &&
    |rec| >= 1 && rec[0] == a[0] && Split(rec, ":") == [a, t, b]
  }

  lemma ThreePlayTokens(a: string, t: string, b: string)
    requires Numeric(a) && Numeric(b) && NoChar(t, ':') && |t| >= 1 && 'a' <= t[0] <= 'z'
    ensures PlayShaped(a + ":" + t + ":" + b, a, t, b)
  {
    ThreeTokens(a, t, b);
  }

  /** A record `a:t:b` is none of the count records and matches none of
      the one-fielder out templates. */
  lemma PlayRecordSkipsCountRecords(rec: string, a: string, t: string, b: string)
    requires PlayShaped(rec, a, t, b) && t !in ["FO", "U", "LO", "GO"]
    ensures !PitchRecord(rec) && rec != OutRecord && rec != HomeScoreRecord && rec != AwayScoreRecord
  {
    assert !Wordlike(rec);
    LiteralRecordsWordlike();
    NotOutTokens(rec, a, t, b, OutTokens);
  }

  lemma {:induction false} NotOutTokens(rec: string, a: string, t: string, b: string, tokss: seq<seq<string>>)
    requires PlayShaped(rec, a, t, b)
    requires forall i :: 0 <= i < |tokss| ==>
      |tokss[i]| == 2 && tokss[i][1] == "{}" && Wordlike(tokss[i][0]) && tokss[i][0] != t
    ensures !HitsAny(rec, tokss)
  {
    if tokss != [] {
      var h := tokss[0][0];
      assert a != h && b != h && a != "{}" && b != "{}" && t != "{}";
      AnySharedMeans(tokss[0], Split(rec, ":"));
      NotOutTokens(rec, a, t, b, tokss[1..]);
    }
  }

  /** Starts with something other than a digit or a minus sign. */
  predicate Wordlike(x: string) {
    |x| >= 1 && !(x[0] == '-' || IsDigit(x[0]))
  }

  /** Every literal record the decoder tests starts with a letter or `<`. */
  lemma LiteralRecordsWordlike()
    ensures forall x :: x in StrikeRecords + StrikeoutRecords + BallRecords + WalkRecords ==> Wordlike(x)
    ensures forall x :: x in HbpRecords + FoulRecords + OopRecords + HitRecords + BuntRecords ==> Wordlike(x)
    ensures Wordlike(WildPitch) && Wordlike(OutRecord) && Wordlike(HomeScoreRecord) && Wordlike(AwayScoreRecord)
  {
  }

  /** Against a template `{}:u:{}`, a record `a:t:b` matches exactly when
      the middle tokens agree. */
  lemma PlayRecordMatches(rec: string, a: string, t: string, b: string, u: string)
    requires PlayShaped(rec, a, t, b)
    requires |u| >= 1 && 'a' <= u[0] <= 'z'
    ensures Hits(rec, AroundTokens(u)) <==> t == u
  {
    AnySharedMeans(AroundTokens(u), Split(rec, ":"));
    assert u != a && u != b && a != "{}" && b != "{}" && t != "{}";
    if t == u {
      assert AroundTokens(u)[1] in Split(rec, ":");
    }
  }

  /** A tag record `x:tagout:y` adds an out; `x:tagsafe:y` changes nothing. */
  lemma DecodeTagRecord(rec: string, a: string, t: string, b: string)
    requires PlayShaped(rec, a, t, b) && t in ["tagsafe", "tagout"]
    ensures Classify(rec) == if t == "tagout" then AddOut else NoEffect
  {
    PlayRecordSkipsCountRecords(rec, a, t, b);
    TagTokens(rec, a, t, b);
  }

  /** Which tag template a record `a:t:b` matches. */
  lemma TagTokens(rec: string, a: string, t: string, b: string)
    requires PlayShaped(rec, a, t, b)
    ensures (Hits(rec, AroundTokens("tagsafe")) <==> t == "tagsafe") && (Hits(rec, AroundTokens("tagout")) <==> t == "tagout")
  {
    PlayRecordMatches(rec, a, t, b, "tagsafe");
    PlayRecordMatches(rec, a, t, b, "tagout");
  }

  /** A move record `a:o:b` reaches the move branch and is cut at `:o:`. */
  lemma DecodeMoveRecord(rec: string, a: string, o: string, b: string)
    requires PlayShaped(rec, a, o, b) && o in ["move", "steal", "caught"]
    ensures Classify(rec) ==
        MoveSplit(rec, o)
  {
    PlayRecordSkipsCountRecords(rec, a, o, b);
    TagTokens(rec, a, o, b);
    MoveRecordTokens(rec, a, o, b);
  }

  lemma MoveRecordTokens(rec: string, a: string, o: string, b: string)
    requires PlayShaped(rec, a, o, b) && o in ["move", "steal", "caught"]
    ensures (Hits(rec, AroundTokens("caught")) <==> o == "caught") && (Hits(rec, AroundTokens("move")) <==> o == "move")
    ensures (Hits(rec, AroundTokens("steal")) <==> o == "steal") && HitsAny(rec, MoveTokens)
  {
    CaughtMoveTokens(rec, a, o, b);
    PlayRecordMatches(rec, a, o, b, "steal");
  }

  lemma CaughtMoveTokens(rec: string, a: string, o: string, b: string)
    requires PlayShaped(rec, a, o, b)
    ensures (Hits(rec, AroundTokens("caught")) <==> o == "caught") && (Hits(rec, AroundTokens("move")) <==> o == "move")
  {
    PlayRecordMatches(rec, a, o, b, "caught");
    PlayRecordMatches(rec, a, o, b, "move");
  }

  /** Cutting `str(x) + sep + str(y)` at a separator that starts with a
      colon gives back the two integers. */
  lemma SplitPairRoundTrip(x: int, sep: string, y: int)
    requires |sep| > 0 && sep[0] == ':'
    ensures SplitPair(Str(x) + sep + Str(y), sep) == Some((x, y))
  {
    SplitJoin(Str(x), sep, Str(y));
    SplitNone(Str(y), sep);
    StrRoundTrip(x);
    StrRoundTrip(y);
  }

  /** The text of a move record: `str(x)`, the option between colons,
      `str(y)`. */
  lemma MoveRecordText(o: string, x: int, y: int)
    requires o in ["move", "steal", "caught"]
    ensures Format(Template(MoveKey(o).value), [Str(x), Str(y)]) == Some(Str(x) + ":" + o + ":" + Str(y))
  {
    MoveTemplate(o);
    FormatAround(o, Str(x), Str(y));
  }

  lemma MoveTemplate(o: string)
    requires o in ["move", "steal", "caught"]
    ensures Template(MoveKey(o).value) == "{}" + (":" + o + ":") + "{}" && NoBrace(":" + o + ":")
  {
  }

  /** A template with the word `w` between colons and a placeholder on
      each side writes `a:w:b`. */
  lemma FormatAround(w: string, a: string, b: string)
    requires NoBrace(":" + w + ":")
    ensures Format("{}" + (":" + w + ":") + "{}", [a, b]) == Some(a + ":" + w + ":" + b)
  {
    FormatPair(":" + w + ":", a, b);
    Regroup(a, w, b);
  }

  lemma MoveRecordShaped(o: string, x: int, y: int)
    requires o in ["move", "steal", "caught"]
    ensures PlayShaped(Str(x) + ":" + o + ":" + Str(y), Str(x), o, Str(y))
  {
    StrNumeric(x);
    StrNumeric(y);
    ThreePlayTokens(Str(x), o, Str(y));
  }

  lemma Regroup(a: string, t: string, b: string)
    ensures a + ":" + t + ":" + b == a + (":" + t + ":") + b
  {
  }

  lemma MoveSplitRoundTrip(o: string, x: int, y: int)
    requires NoChar(o, ':')
    ensures MoveSplit(Str(x) + (":" + o + ":") + Str(y), o) == if o == "caught" then CaughtStealing(x) else Advance(x, y)
  {
    SplitPairRoundTrip(x, ":" + o + ":", y);
  }

  /** A move record is cut at the separator its option names. */
  lemma MoveRecordSplits(o: string, x: int, y: int)
    requires NoChar(o, ':')
    ensures MoveSplit(Str(x) + ":" + o + ":" + Str(y), o) == if o == "caught" then CaughtStealing(x) else Advance(x, y)
  {
    Regroup(Str(x), o, Str(y));
    MoveSplitRoundTrip(o, x, y);
  }

  lemma MoveTextDecodes(o: string, x: int, y: int)
    requires o in ["move", "steal", "caught"]
    ensures Classify(Str(x) + ":" + o + ":" + Str(y)) == if o == "caught" then CaughtStealing(x) else Advance(x, y)
  {
    MoveRecordShaped(o, x, y);
    DecodeMoveRecord(Str(x) + ":" + o + ":" + Str(y), Str(x), o, Str(y));
    MoveRecordSplits(o, x, y);
  }

  /** The record a move action writes for a runner going from base `x`
      to base `y` decodes back to that move; a caught-stealing record
      decodes to the runner leaving base `x`. */
  lemma MoveRecordRoundTrip(o: string, x: int, y: int)
    requires o in ["move", "steal", "caught"]
    ensures var rec := Format(Template(MoveKey(o).value), [Str(x), Str(y)]);
      rec.Some? && Classify(rec.value) == if o == "caught" then CaughtStealing(x) else Advance(x, y)
  {
    MoveRecordText(o, x, y);
    MoveTextDecodes(o, x, y);
  }

  function TagWord(out: bool): (t: string)
    ensures NoChar(t, ':') && NoBrace(":" + t + ":")
  {
    if out then "tagout" else "tagsafe"
  }

  lemma TagTemplate(out: bool)
    ensures Template(if out then TagOut else TagSafe) == "{}" + (":" + TagWord(out) + ":") + "{}"
  {
    TagFormatsFromTable();
  }

  lemma TagRecordText(out: bool, tagger: int, tagged: int)
    ensures Format(Template(if out then TagOut else TagSafe), [Str(tagger), Str(tagged)]) ==
      Some(Str(tagger) + ":" + TagWord(out) + ":" + Str(tagged))
  {
    TagTemplate(out);
    FormatAround(TagWord(out), Str(tagger), Str(tagged));
  }

  /** The record a tag action writes decodes to an out for `out` and to
      no change for a safe tag. */
  lemma TagRecordRoundTrip(out: bool, tagger: int, tagged: int)
    ensures var rec := Format(Template(if out then TagOut else TagSafe), [Str(tagger), Str(tagged)]);
      rec.Some? && Classify(rec.value) == if out then AddOut else NoEffect
  {
    var t := TagWord(out);
    TagRecordText(out, tagger, tagged);
    StrNumeric(tagger);
    StrNumeric(tagged);
    ThreePlayTokens(Str(tagger), t, Str(tagged));
    DecodeTagRecord(Str(tagger) + ":" + t + ":" + Str(tagged), Str(tagger), t, Str(tagged));
  }

  // -----------------------------------------------------------------------
  // The GameState object

  class GameState {
    var score: Score
    var inning: Inning
    var count: Count
    var bases: Bases

    function Snapshot(): State
      reads this
    {
      State(score, inning, count, bases)
    }

    /** `GameState(**initial_params)`: each tuple given, or its zero. */
    constructor (s: Option<Score>, i: Option<Inning>, c: Option<Count>, b: Option<Bases>)
      ensures Snapshot() == State(Or(s, ScoreZero), Or(i, InningZero), Or(c, CountZero), Or(b, BasesZero))
    {
      score := Or(s, ScoreZero);
      inning := Or(i, InningZero);
      count := Or(c, CountZero);
      bases := Or(b, BasesZero);
    }

    /** `update(reset, reset_all, **params)`: the fields are written first
        and checked afterwards, so a failed check leaves the new values in
        place; `ok` is false exactly when an assertion fails. */
    method Update(reset: bool, resetAll: bool, p: Params) returns (ok: bool)
      modifies this
      ensures Snapshot() == Updated(old(Snapshot()), reset, resetAll, p)
      ensures ok <==> Valid(Snapshot())
    {
      if resetAll || reset {
        count := Count(0, 0, count.outs);
        if resetAll {
          bases := BasesZero;
          count := CountZero;
        }
      }
      score := Score(Or(p.away, score.away), Or(p.home, score.home));
      inning := Inning(Or(p.order, inning.order), Or(p.inning, inning.inning));
      count := Count(Or(p.strikes, count.strikes), Or(p.balls, count.balls), Or(p.outs, count.outs));
      bases := Bases(Or(p.third, bases.third), Or(p.second, bases.second), Or(p.first, bases.first));
      ok := Valid(Snapshot());
    }

    /** `update_from_event_record(result)`: local copies of the fields are
        bumped as the record says and written back through `update`. A
        record that fails to parse raises before anything is written. */
    method UpdateFromEventRecord(result: string) returns (status: Status)
      modifies this
      ensures Next(old(Snapshot()), result).None? ==> status == Raised && Snapshot() == old(Snapshot())
      ensures Next(old(Snapshot()), result).Some? ==>
        Snapshot() == Next(old(Snapshot()), result).value &&
        (status == Done <==> Valid(Snapshot())) && status != Raised
    {
      var e := DecodeRecord(result);
      if e.Unparsable? {
        return Raised;
      }
      var ok := ApplyEffect(e);
      status := if ok then Done else AssertFailed;
    }

    /** The second half of `update_from_event_record`: the counters the
        branch chain selected are bumped and written back through
        `update`. */
    method ApplyEffect(e: Effect) returns (ok: bool)
      requires !e.Unparsable?
      modifies this
      ensures Snapshot() == Apply(old(Snapshot()), e)
      ensures ok <==> Valid(Snapshot())
    {
      ghost var s := Snapshot();
      var outs, balls, strikes := count.outs, count.balls, count.strikes;
      var first, second, third := bases.first, bases.second, bases.third;
      var homeScore, awayScore := score.home, score.away;
      var relScore := 0;
      match e {
        case AddStrike => strikes := strikes + 1;
        case AddBall => balls := balls + 1;
        case FoulStrike =>
          if strikes < 2 {
            strikes := strikes + 1;
          }
        case AddOut => outs := outs + 1;
        case HomeRun => homeScore := homeScore + 1;
        case AwayRun => awayScore := awayScore + 1;
        case NoEffect =>
        case CaughtStealing(fromb) =>
          if fromb == 1 { first := 0; }
          if fromb == 2 { second := 0; }
          if fromb == 3 { third := 0; }
          assert Bases(third, second, first) == Vacate(s.bases, fromb);
        case Advance(fromb, tob) =>
          if fromb == 1 { first := 0; }
          if fromb == 2 { second := 0; }
          if fromb == 3 { third := 0; }
          assert Bases(third, second, first) == Vacate(s.bases, fromb);
          if tob == 1 { first := 1; }
          if tob == 2 { second := 1; }
          if tob == 3 { third := 1; }
          if tob == 4 { relScore := relScore + 1; }
          assert Bases(third, second, first) == Occupy(Vacate(s.bases, fromb), tob);
      }
      if inning.order == Top {
        awayScore := awayScore + relScore;
      } else {
        homeScore := homeScore + relScore;
      }
      outs := if outs > 3 then 3 else outs;
      var p := Params(Some(awayScore), Some(homeScore), None, None,
        Some(strikes), Some(balls), Some(outs), Some(third), Some(second), Some(first));
      ghost var q := EffectParams(s, e);
      assert p.strikes == q.strikes;
      assert p.balls == q.balls;
      assert p.outs == q.outs;
      assert p.first == q.first;
      assert p.second == q.second;
      assert p.third == q.third;
      assert p.home == q.home;
      assert p.away == q.away;
      assert p == q;
      ok := Update(false, false, p);
    }
  }

  /** `match(rec, fmt)` against a template `'{}:' + u + ':{}'`. */
  method MatchesAround(rec: string, u: string) returns (r: bool)
    requires NoChar(u, ':')
    ensures r == Hits(rec, AroundTokens(u))
  {
    MatchAround(rec, u);
    r := Match(rec, Around(u));
  }

  /** `match_array(rec, out_formats)`. */
  method MatchesOut(rec: string) returns (r: bool)
    ensures r == HitsAny(rec, OutTokens)
  {
    MatchOutFormats(rec);
    r := MatchArray(rec, OutFormats);
  }

  /** `match_array(rec, move_formats)`. */
  method MatchesMove(rec: string) returns (r: bool)
    ensures r == HitsAny(rec, MoveTokens)
  {
    MatchMoveFormats(rec);
    r := MatchArray(rec, MoveFormats);
  }

  lemma PlayWordsHaveNoColon()
    ensures NoChar("tagsafe", ':') && NoChar("tagout", ':')
    ensures NoChar("caught", ':') && NoChar("move", ':') && NoChar("steal", ':')
  {
  }

  /** The branch chain of `update_from_event_record`: which counter a
      record bumps, or which runner moves where. This is the statement
      form that `UpdateFromEventRecord` runs; `Classify` is the value it
      computes, kept as a function because the replay lemmas and the
      decoding lemmas, which cannot call a method, are stated with it. */
  method DecodeRecord(result: string) returns (e: Effect)
    ensures e == Classify(result)
  {
    // `match` has no side effects, so every template is tried up front.
    PlayWordsHaveNoColon();
    var isOut := MatchesOut(result);
    var isTagSafe := MatchesAround(result, "tagsafe");
    var isTagOut := MatchesAround(result, "tagout");
    var isMove := MatchesMove(result);
    var isCaught := MatchesAround(result, "caught");
    var isAdvance := MatchesAround(result, "move");
    var isSteal := MatchesAround(result, "steal");
    if result in StrikeRecords {
      e := AddStrike;
    } else if result in StrikeoutRecords {
      e := AddStrike;
    } else if result in BallRecords {
      e := AddBall;
    } else if result in WalkRecords {
      e := AddBall;
    } else if result == WildPitch {
      e := AddBall;
    } else if result in HbpRecords {
      e := NoEffect;
    } else if result in FoulRecords {
      e := FoulStrike;
    } else if result in OopRecords {
      e := NoEffect;
    } else if result in HitRecords {
      e := NoEffect;
    } else if result in BuntRecords {
      e := NoEffect;
    } else if isOut {
      e := NoEffect;
    } else if result == OutRecord {
      e := AddOut;
    } else if result == HomeScoreRecord {
      e := HomeRun;
    } else if result == AwayScoreRecord {
      e := AwayRun;
    } else if isTagSafe {
      e := NoEffect;
    } else if isTagOut {
      e := AddOut;
    } else if isMove {
      var word;
      if isCaught {
        word := "caught";
      } else if isAdvance {
        word := "move";
      } else if isSteal {
        word := "steal";
      } else {
        return Unparsable;
      }
      var pair := SplitPair(result, ":" + word + ":");
      if pair.None? {
        e := Unparsable;
      } else if word == "caught" {
        e := CaughtStealing(pair.value.0);
      } else {
        e := Advance(pair.value.0, pair.value.1);
      }
    } else {
      e := NoEffect;
    }
  }

  /** How a call that can raise ended. */
  datatype Status = Done | AssertFailed | Raised
}
