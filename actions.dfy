/** The actions of a game: their priors, the pitch probabilities a swing
    reshapes, and the outcome each action writes, record text included.
    Every random draw (`choice`, a player's decision) is a parameter. */
module Actions {
  import opened Wrappers
  import opened Text
  import opened Context
  import opened Helpers
  import opened Logic
  import opened Players
  import opened Objects

  // -----------------------------------------------------------------------
  // Priors

  function Abs(x: real): real { if x < 0.0 then -x else x }

  /** `math.isclose(x, 1, rel_tol=.0001)`. */
  predicate CloseToOne(x: real) {
    Abs(x - 1.0) <= 0.0001 * (if Abs(x) >= 1.0 then Abs(x) else 1.0)
  }

  /** `action_prior(**fields)`: the fields as a prior, provided their
      probabilities sum to one. */
  function ActionPrior(fields: Table): (r: Result<Table>)
    ensures r.Success? <==> CloseToOne(Total(fields))
    ensures r.Success? ==> r.value == fields
  {
    if CloseToOne(Total(fields)) then Success(fields)
    else Failure("AssertionError: prior does not sum to one")
  }

  const CatchPrior: Table := [("yes", 0.6), ("miss", 0.3), ("drop", 0.1)]
  const ThrowPrior: Table := [("good", 0.7), ("dirt", 0.1), ("low", 0.1), ("high", 0.1)]
  const TagPrior: Table := [("safe", 0.8), ("out", 0.2)]
  const PitchPrior: Table :=
    [("wild", 0.03), ("balk", 0.01), ("hbp", 0.01), ("strike", 0.3), ("ball", 0.3), ("contact", 0.35)]
  const HitTypePrior: Table := [("hit", 0.4), ("foul", 0.45), ("oop", 0.1), ("bunt", 0.05)]
  const WildPrior: Table := [("wp", 1.0)]
  const BalkPrior: Table := [("blk", 1.0)]
  const HbpPrior: Table := [("hbp", 1.0)]
  const FoulPrior: Table := [("foul", 1.0)]
  const BuntPrior: Table := [("bunt", 1.0)]
  const OopPrior: Table := [("gdb", 0.05), ("hr", 0.95)]
  const HitBallPrior: Table := [("single", 0.5), ("double", 0.35), ("triple", 0.149), ("four", 0.001)]

  /** `upkeep`: the prior each action sets when it is built; move, shift
      and start set none. */
  function Upkeep(action: ActionKind): Option<Table> {
    match action
    case Catch => Some(CatchPrior)
    case Throw => Some(ThrowPrior)
    case Tag => Some(TagPrior)
    case Pitch => Some(PitchPrior)
    case _ => None
  }

  /** `base_prior_map`: the prior of the second draw, by the first. */
  function SubPrior(kind: string): Option<Table> {
    match kind
    case "bunt" => Some(BuntPrior)
    case "oop" => Some(OopPrior)
    case "foul" => Some(FoulPrior)
    case "hit" => Some(HitBallPrior)
    case "wild" => Some(WildPrior)
    case "balk" => Some(BalkPrior)
    case "hbp" => Some(HbpPrior)
    case _ => None
  }

  /** Every prior the actions set passes `action_prior`: over the reals
      each sums to exactly one. */
  lemma ActionPriorsPass()
    ensures ActionPrior(CatchPrior).Success? && ActionPrior(ThrowPrior).Success?
    ensures ActionPrior(TagPrior).Success? && ActionPrior(PitchPrior).Success?
  {
    assert Total(CatchPrior) == 1.0;
    assert Total(ThrowPrior) == 1.0;
    assert Total(TagPrior) == 1.0;
    PitchPriorShape();
  }

  /** The contact priors of a pitch pass as well. */
  lemma ContactPriorsPass()
    ensures ActionPrior(HitTypePrior).Success? && ActionPrior(HitBallPrior).Success?
    ensures ActionPrior(OopPrior).Success?
  {
    assert Total(HitTypePrior) == 1.0;
    assert Total(HitBallPrior) == 1.0;
    assert Total(OopPrior) == 1.0;
  }

  /** Every entry of `base_prior_map` passes. */
  lemma SubPriorsPass(k: string)
    requires k in ["bunt", "oop", "foul", "hit", "wild", "balk", "hbp"]
    ensures SubPrior(k).Some? && ActionPrior(SubPrior(k).value).Success?
  {
    ContactPriorsPass();
  }

  // -----------------------------------------------------------------------
  // The pitch probabilities

  const SwingDampened: seq<string> := ["balk", "ball", "wild"]
  const HoldDampened: seq<string> := ["balk", "contact"]

  /** A pitch is a pitch type and a grid location. */
  type Pitch = (string, (string, string))

  /** `batter_mod` and `pitcher_mod`: a tenth to whoever wins the pitch
      type guess, then a tenth per location coordinate. The location loop
      compares the pitcher's own location with itself, so both tenths go
      to the batter whatever the guess. */
  method PitchMods(pitch: Pitch, guess: Pitch) returns (batterMod: real, pitcherMod: real)
    ensures batterMod == (if pitch.0 == guess.0 then 0.3 else 0.2)
    ensures pitcherMod == (if pitch.0 == guess.0 then 0.0 else 0.1)
  {
    var unit := 0.1;
    batterMod, pitcherMod := 0.0, 0.0;
    if pitch.0 == guess.0 {
      batterMod := batterMod + unit;
    } else {
      pitcherMod := pitcherMod + unit;
    }
    var loc := [pitch.1.0, pitch.1.1];
    for x := 0 to 2
      invariant batterMod == (if pitch.0 == guess.0 then 0.1 else 0.0) + (x as real) * unit
      invariant pitcherMod == (if pitch.0 == guess.0 then 0.0 else 0.1)
    {
      if loc[x] == loc[x] {
        batterMod := batterMod + unit;
      } else {
        pitcherMod := pitcherMod + unit;
      }
    }
  }

  /** The renormalisation after the mods: strike gains the pitcher's mod,
      contact the batter's, and ball the pitcher's unless the batter swung
      (then ball is zero); everything is divided by the new total. */
  function Reweigh(d: Table, swung: bool, batterMod: real, pitcherMod: real): Result<Table> {
    var newBall := if swung then 0.0 else Get(d, "ball") + pitcherMod;
    var strike := Get(d, "strike") + pitcherMod;
    var contact := Get(d, "contact") + batterMod;
    var n := Get(d, "wild") + Get(d, "balk") + Get(d, "hbp") + strike + newBall + contact;
    if n == 0.0 then Failure("ZeroDivisionError")
    else Success([("wild", Get(d, "wild") / n), ("balk", Get(d, "balk") / n), ("hbp", Get(d, "hbp") / n),
                  ("strike", strike / n), ("ball", newBall / n), ("contact", contact / n)])
  }

  /** The prior a pitch is drawn from: dampen balk, ball and wild pitches
      on a swing, or balk and contact on a take, re-check it, reweigh it by
      the mods, and check it again. */
  function PitchProbs(swung: bool, batterMod: real, pitcherMod: real): Result<Table> {
    match DampenSpec(PitchPrior, if swung then SwingDampened else HoldDampened, 0.0)
    case Failure(e) => Failure(e)
    case Success(d) =>
      match ActionPrior(d)
      case Failure(e) => Failure(e)
      case Success(d1) =>
        match Reweigh(d1, swung, batterMod, pitcherMod)
        case Failure(e) => Failure(e)
        case Success(r) => ActionPrior(r)
  }

  /** The pitch prior's labels, in order. */
  const PitchLabels: seq<string> := ["wild", "balk", "hbp", "strike", "ball", "contact"]

  lemma PitchPriorShape()
    ensures Labels(PitchPrior) == PitchLabels && IsTable(PitchPrior) && Total(PitchPrior) == 1.0
  {
  }

  /** Whatever the swing and for any non-negative mods, the pitch prior
      passes every `action_prior` check and sums to exactly one. */
  lemma PitchProbsPass(swung: bool, batterMod: real, pitcherMod: real)
    requires batterMod >= 0.0 && pitcherMod >= 0.0 && batterMod + pitcherMod > 0.0
    ensures PitchProbs(swung, batterMod, pitcherMod).Success?
    ensures Labels(PitchProbs(swung, batterMod, pitcherMod).value) == PitchLabels
    ensures Total(PitchProbs(swung, batterMod, pitcherMod).value) == 1.0
  {
    var sub := if swung then SwingDampened else HoldDampened;
    DampenedPitch(swung);
    var d := DampenSpec(PitchPrior, sub, 0.0).value;
    ReweighSums(d, swung, batterMod, pitcherMod);
  }

  /** The dampened pitch table: same labels, still a distribution, and
      no weight left on ball after a swing. */
  lemma DampenedPitch(swung: bool)
    ensures var sub := if swung then SwingDampened else HoldDampened;
      var r := DampenSpec(PitchPrior, sub, 0.0);
      r.Success? && Labels(r.value) == PitchLabels && Total(r.value) == 1.0 &&
      ActionPrior(r.value) == Success(r.value) &&
      (swung ==> r.value[4].1 == 0.0)
  {
    var sub := if swung then SwingDampened else HoldDampened;
    PitchPriorShape();
    assert forall e :: e in sub ==> e in Labels(PitchPrior);
    assert Distinct(sub);
    DampenKeepsMass(PitchPrior, sub);
    DampenValues(PitchPrior, sub, 0.0);
    assert PitchPrior[4].0 == "ball";
  }

  /** Reweighing a six-entry distribution by non-negative mods gives a
      distribution over the same labels. */
  lemma ReweighSums(d: Table, swung: bool, batterMod: real, pitcherMod: real)
    requires Labels(d) == PitchLabels && Total(d) == 1.0 && (swung ==> d[4].1 == 0.0)
    requires batterMod >= 0.0 && pitcherMod >= 0.0 && batterMod + pitcherMod > 0.0
    ensures var r := Reweigh(d, swung, batterMod, pitcherMod);
      r.Success? && Labels(r.value) == PitchLabels && Total(r.value) == 1.0 &&
      ActionPrior(d) == Success(d) && ActionPrior(r.value) == Success(r.value)
  {
    SixGets(d);
    var w, b, h, s, ba, c := d[0].1, d[1].1, d[2].1, d[3].1, d[4].1, d[5].1;
    var newBall := if swung then 0.0 else ba + pitcherMod;
    var n := w + b + h + (s + pitcherMod) + newBall + (c + batterMod);
    assert n > 0.0;
    var r := [("wild", w / n), ("balk", b / n), ("hbp", h / n),
              ("strike", (s + pitcherMod) / n), ("ball", newBall / n), ("contact", (c + batterMod) / n)];
    assert Reweigh(d, swung, batterMod, pitcherMod) == Success(r);
    SixTotal(r);
    SharedDenominator(w, b, h, s + pitcherMod, newBall, c + batterMod, n);
  }

  /** The named reads of a six-entry table with the pitch labels. */
  lemma SixGets(d: Table)
    requires Labels(d) == PitchLabels
    ensures Get(d, "wild") == d[0].1 && Get(d, "balk") == d[1].1 && Get(d, "hbp") == d[2].1
    ensures Get(d, "strike") == d[3].1 && Get(d, "ball") == d[4].1 && Get(d, "contact") == d[5].1
    ensures Total(d) == d[0].1 + d[1].1 + d[2].1 + d[3].1 + d[4].1 + d[5].1
  {
    assert IsTable(d);
    GetIndexed(d, 0);
    GetIndexed(d, 1);
    GetIndexed(d, 2);
    GetIndexed(d, 3);
    GetIndexed(d, 4);
    GetIndexed(d, 5);
    SixTotal(d);
  }

  lemma SixTotal(d: Table)
    requires |d| == 6
    ensures Total(d) == d[0].1 + d[1].1 + d[2].1 + d[3].1 + d[4].1 + d[5].1
  {
    assert d[5..][1..] == [];
    assert Total(d[5..]) == d[5].1;
    assert d[4..][1..] == d[5..];
    assert Total(d[4..]) == d[4].1 + Total(d[5..]);
    assert d[3..][1..] == d[4..];
    assert Total(d[3..]) == d[3].1 + Total(d[4..]);
    assert d[2..][1..] == d[3..];
    assert Total(d[2..]) == d[2].1 + Total(d[3..]);
    assert d[1..][1..] == d[2..];
    assert Total(d[1..]) == d[1].1 + Total(d[2..]);
  }

  lemma SharedDenominator(a: real, b: real, c: real, d: real, e: real, f: real, n: real)
    requires n != 0.0 && a + b + c + d + e + f == n
    ensures a / n + b / n + c / n + d / n + e / n + f / n == 1.0
  {
    assert a / n + b / n + c / n + d / n + e / n + f / n == (a + b + c + d + e + f) / n;
  }

  // -----------------------------------------------------------------------
  // Outcomes

  /** A template filled with its arguments; too few raise. */
  function Fill(k: RecordKey, args: seq<string>): Result<string> {
    match Format(Template(k), args)
    case Some(s) => Success(s)
    case None => Failure("IndexError: too few arguments for the record")
  }

  const StartTag := "<START>"

  /** `StartEvent(event_tag)`: built already happened, with the tag as
      both result and record and no details. */
  method StartEvent(tag: string) returns (ev: Event)
    ensures fresh(ev) && ev.happened && ev.probs.None?
    ensures ev.Result() == Success(tag) && ev.Record() == Success(tag) && ev.Details() == Success(None)
  {
    ev := new Event("StartEvent", "start", [], Upkeep(Start));
    ev.MakeHappen(Success(Outcome(tag, tag, None)));
  }

  // Catch

  function CatchKey(o: string): Option<RecordKey> {
    match o
    case "yes" => Some(CatchYes)
    case "drop" => Some(CatchDrop)
    case "miss" => Some(CatchMiss)
    case _ => None
  }

  /** The word a catch record starts with. */
  function CatchWord(o: string): string {
    if o == "yes" then "catch" else if o == "drop" then "dropped" else "missed"
  }

  lemma CatchTemplate(o: string)
    requires o in ["yes", "drop", "miss"]
    ensures Template(CatchKey(o).value) == (CatchWord(o) + ":") + "{}" && NoBrace(CatchWord(o) + ":")
  {
    if o == "yes" {
      assert Template(CatchYes) == "catch:" + "{}";
    } else if o == "drop" {
      assert Template(CatchDrop) == "dropped:" + "{}";
    } else {
      assert Template(CatchMiss) == "missed:" + "{}";
    }
  }

  lemma CatchRecordText(o: string, x: int)
    requires o in ["yes", "drop", "miss"]
    ensures Fill(CatchKey(o).value, [Str(x)]) == Success(CatchWord(o) + ":" + Str(x))
  {
    CatchTemplate(o);
    FormatSuffix(CatchWord(o) + ":", Str(x));
  }

  /** The catch action: the drawn outcome picks the record, which names
      the fielder's position; an outcome outside the table raises. */
  function CatchOutcome(o: string, fielder: Player): (r: Result<Outcome>)
    reads fielder
    ensures r.Success? <==> o in ["yes", "drop", "miss"]
    ensures r.Success? ==>
      r.value == Outcome(o, CatchWord(o) + ":" + Str(fielder.pos), Some(map["fielder" := Person(fielder)]))
  {
    match CatchKey(o)
    case None => Failure("KeyError: " + o)
    case Some(k) =>
      CatchRecordText(o, fielder.pos);
      Success(Outcome(o, Fill(k, [Str(fielder.pos)]).value, Some(map["fielder" := Person(fielder)])))
  }

  // Pitch

  /** `precs['contact'][contactType][sub]`; a pair outside the table raises. */
  function ContactKey(contactType: string, sub: string): Option<RecordKey> {
    match (contactType, sub)
    case ("bunt", "bunt") => Some(BuntBunt)
    case ("foul", "foul") => Some(FoulFoul)
    case ("hit", "single") => Some(HitSingle)
    case ("hit", "double") => Some(HitDouble)
    case ("hit", "triple") => Some(HitTriple)
    case ("hit", "four") => Some(HitFour)
    case ("oop", "gdb") => Some(OopGdb)
    case ("oop", "hr") => Some(OopHr)
    case _ => None
  }

  /** The contact record of `precs['contact'][contactType][sub]`, for a
      pair in the table. */
  function ContactRecord(contactType: string, sub: string): (rec: string)
    requires ContactKey(contactType, sub).Some?
    ensures rec == Template(ContactKey(contactType, sub).value)
    ensures contactType == "bunt" ==> rec == "Bunt"
    ensures contactType == "foul" ==> rec == "Foul"
    ensures contactType == "oop" ==> rec == (if sub == "gdb" then "GDB" else "HR")
    ensures contactType == "hit" ==>
      rec == (if sub == "single" then "Hit:1" else if sub == "double" then "Hit:2"
              else if sub == "triple" then "Hit:3" else "Hit:4")
  {
    Template(ContactKey(contactType, sub).value)
  }

  /** The pitch action's record choice: the drawn label, the count and
      the swing pick the record, and the label may turn into `strikeout`,
      `walk` or, for contact, the drawn sub-outcome. A wild pitch on three
      balls writes the walk record but keeps its `wild` label. */
  function PitchKey(kind: string, swung: bool, strikes: int, balls: int, contactType: string, sub: string)
    : (r: Result<(string, RecordKey)>)
    ensures r.Success? <==> PitchDrawn(kind, balls, contactType, sub)
  {
    if kind == "strike" then
      if strikes >= 2 then Success(("strikeout", if swung then StrikeoutSwing else StrikeoutLook))
      else Success(("strike", if swung then StrikeSwing else StrikeLook))
    else if kind == "ball" then
      if balls >= 3 then Success(("walk", WalkW)) else Success(("ball", BallB))
    else if kind == "contact" then
      match ContactKey(contactType, sub)
      case Some(k) => Success((sub, k))
      case None => Failure("KeyError: " + contactType + " " + sub)
    else if kind == "wild" then
      if balls >= 3 then Success(("wild", WalkW))
      else if sub == "wp" then Success(("wild", WildWp))
      else if sub == "pb" then Success(("wild", WildPb))
      else Failure("KeyError: " + sub)
    else if kind == "hbp" then
      if sub == "hbp" then Success(("hbp", HbpHbp)) else Failure("KeyError: " + sub)
    else if kind == "balk" then
      if sub == "blk" then Success(("balk", BalkBlk)) else Failure("KeyError: " + sub)
    else Failure("NotImplementedError")
  }

  /** The fielder a pitch names: the catcher's spot for strikes, balls
      and wild pitches, the drawn spot for a ball in the park, and None
      for hit-by-pitch, balk and a ball out of the park. */
  function PitchFielder(kind: string, contactType: string, home: Value, drawn: Value): Value {
    if kind == "strike" || kind == "ball" || kind == "wild" then home
    else if kind == "contact" && contactType != "oop" then drawn
    else Nothing
  }

  /** When the pitch's draws name a record: every label of the pitch
      prior does, contact only with a pair from the table, and the
      wild, hit-by-pitch and balk sub-draws only with their own keys.
      The wild-pitch prior gives all its weight to `wp`, so `pb` is
      never drawn there; it is admitted because the table has the key. */
  predicate PitchDrawn(kind: string, balls: int, contactType: string, sub: string) {
    (kind == "strike" || kind == "ball") ||
    (kind == "contact" && ContactKey(contactType, sub).Some?) ||
    (kind == "wild" && (balls >= 3 || sub == "wp" || sub == "pb")) ||
    (kind == "hbp" && sub == "hbp") ||
    (kind == "balk" && sub == "blk")
  }

  /** The outcome of a pitch, with the draws as parameters. The details
      always hold no ball and the fielder. */
  function PitchOutcome(kind: string, swung: bool, strikes: int, balls: int, contactType: string, sub: string,
                        home: Value, drawn: Value): (r: Result<Outcome>)
    ensures r.Success? <==> PitchDrawn(kind, balls, contactType, sub)
    ensures r.Success? ==>
      r.value.result ==
      (if kind == "strike" && strikes >= 2 then "strikeout"
       else if kind == "ball" && balls >= 3 then "walk"
       else if kind == "contact" then sub
       else kind)
    ensures r.Success? ==> (r.value.record == "W" <==> (kind == "ball" || kind == "wild") && balls >= 3)
    ensures r.Success? && kind == "strike" ==>
      r.value.record == (if strikes >= 2 then (if swung then "Ks" else "Kc") else (if swung then "Ss" else "Sc"))
    ensures r.Success? && kind == "ball" ==> r.value.record == (if balls >= 3 then "W" else "B")
    ensures r.Success? && kind == "wild" ==>
      r.value.record == (if balls >= 3 then "W" else if sub == "wp" then "WP" else "PB")
    ensures r.Success? && kind == "hbp" ==> r.value.record == "HBP"
    ensures r.Success? && kind == "balk" ==> r.value.record == "BK"
    ensures r.Success? && kind == "contact" ==> r.value.record == ContactRecord(contactType, sub)
    ensures r.Success? ==>
      r.value.details == Some(map["ball" := Nothing, "fielder" := PitchFielder(kind, contactType, home, drawn)])
  {
    match PitchKey(kind, swung, strikes, balls, contactType, sub)
    case Failure(e) => Failure(e)
    case Success(rk) =>
      WalkOnlyOnFourBalls(kind, swung, strikes, balls, contactType, sub);
      Success(Outcome(rk.0, Template(rk.1), Some(map["ball" := Nothing, "fielder" := PitchFielder(kind, contactType, home, drawn)])))
  }

  /** The walk record is written exactly for a ball or a wild pitch on
      three balls. */
  lemma WalkOnlyOnFourBalls(kind: string, swung: bool, strikes: int, balls: int, contactType: string, sub: string)
    requires PitchDrawn(kind, balls, contactType, sub)
    ensures Template(PitchKey(kind, swung, strikes, balls, contactType, sub).value.1) == "W" <==>
            (kind == "ball" || kind == "wild") && balls >= 3
  {
    var k := PitchKey(kind, swung, strikes, balls, contactType, sub).value.1;
    if kind == "contact" {
      assert k in [BuntBunt, FoulFoul, HitSingle, HitDouble, HitTriple, HitFour, OopGdb, OopHr];
    }
  }

  /** What a pitch does to the count, in baseball terms: a strike or a
      ball counts as one, a wild pitch as a ball unless it is the passed
      ball, a foul as a strike below two strikes, and the rest not at
      all. */
  function PitchCount(kind: string, balls: int, contactType: string, sub: string): Effect {
    if kind == "strike" then AddStrike
    else if kind == "ball" then AddBall
    else if kind == "wild" then (if balls >= 3 || sub == "wp" then AddBall else AddStrike)
    else if kind == "contact" && contactType == "foul" then FoulStrike
    else NoEffect
  }

  /** Replaying a pitch record changes the count as the pitch did. A
      passed ball counts as a strike, because `PB` is first found among
      the strikeout records. */
  lemma PitchOutcomeDecodes(kind: string, swung: bool, strikes: int, balls: int, contactType: string, sub: string,
                            home: Value, drawn: Value)
    requires PitchDrawn(kind, balls, contactType, sub)
    ensures Classify(PitchOutcome(kind, swung, strikes, balls, contactType, sub, home, drawn).value.record)
            == PitchCount(kind, balls, contactType, sub)
  {
    var k := PitchKey(kind, swung, strikes, balls, contactType, sub).value.1;
    if kind == "strike" || (kind == "wild" && balls < 3 && sub == "pb") {
      StrikeKeyDecodes(k);
    } else if kind == "ball" || kind == "wild" {
      BallKeyDecodes(k);
    } else if kind == "contact" {
      ContactKeyDecodes(contactType, sub);
    } else if kind == "hbp" {
      assert k == HbpHbp;
      QuietKeyDecodes(k);
    } else {
      assert k == BalkBlk;
      BalkIgnored();
    }
  }

  lemma StrikeKeyDecodes(k: RecordKey)
    requires k in [StrikeLook, StrikeSwing, StrikeoutSwing, StrikeoutLook, WildPb]
    ensures Classify(Template(k)) == AddStrike
  {
    var rec := Template(k);
    assert rec in ["Sc", "Ss", "Ks", "Kc", "PB"];
    StrikeRecordDecodes(rec);
  }

  lemma BallKeyDecodes(k: RecordKey)
    requires k in [WalkW, BallB, WildWp]
    ensures Classify(Template(k)) == AddBall
  {
    var rec := Template(k);
    assert rec in ["W", "B", "WP"];
    BallRecordDecodes(rec);
  }

  lemma QuietKeyDecodes(k: RecordKey)
    requires k in [HbpHbp, BuntBunt, HitSingle, HitDouble, HitTriple, HitFour, OopGdb, OopHr]
    ensures Classify(Template(k)) == NoEffect
  {
    var rec := Template(k);
    assert rec in ["HBP", "Bunt", "Hit:1", "Hit:2", "Hit:3", "Hit:4", "GDB", "HR"];
    ContactRecordDecodes(rec);
  }

  lemma ContactKeyDecodes(contactType: string, sub: string)
    requires ContactKey(contactType, sub).Some?
    ensures Classify(Template(ContactKey(contactType, sub).value)) ==
            if contactType == "foul" then FoulStrike else NoEffect
  {
    var k := ContactKey(contactType, sub).value;
    if contactType == "foul" {
      assert k == FoulFoul;
      FoulRecordDecodes(State(ScoreZero, InningZero, CountZero, BasesZero));
    } else {
      assert k in [BuntBunt, HitSingle, HitDouble, HitTriple, HitFour, OopGdb, OopHr];
      QuietKeyDecodes(k);
    }
  }

  /** The balk record `BK` is in no list the decoder reads. */
  lemma BalkIgnored()
    ensures Classify(Template(BalkBlk)) == NoEffect
  {
    var rec := Template(BalkBlk);
    assert rec == "BK" && NoChar(rec, ':') && Sig(rec) == ('B', 2);
    SingleTokenIgnored(rec);
  }

  /** The pitch action's `_perform_action`, with the draws as parameters:
      the pitcher's pitch and the batter's guess, the swing, the drawn
      kind, contact type and sub-outcome, and the fielder drawn for a
      ball in play. The event is marked as happened first; the reweighed
      prior always passes its checks and replaces the event's prior; the
      outcome is written when the draws name a record. */
  method PerformPitch(ev: Event, pitch: Pitch, guess: Pitch, swung: bool, strikes: int, balls: int,
                      kind: string, contactType: string, sub: string, home: Value, drawn: Value)
    requires ev.probs == Some(PitchPrior)
    modifies ev
    ensures ev.happened
    ensures ev.probs.Some? && Labels(ev.probs.value) == PitchLabels && Total(ev.probs.value) == 1.0
    ensures PitchProbs(swung, if pitch.0 == guess.0 then 0.3 else 0.2, if pitch.0 == guess.0 then 0.0 else 0.1).Success?
    ensures ev.probs == Some(PitchProbs(swung, if pitch.0 == guess.0 then 0.3 else 0.2,
                                              if pitch.0 == guess.0 then 0.0 else 0.1).value)
    ensures ev.outcome == match PitchOutcome(kind, swung, strikes, balls, contactType, sub, home, drawn)
                          case Success(o) => Some(o)
                          case Failure(_) => old(ev.outcome)
  {
    var batterMod, pitcherMod := PitchMods(pitch, guess);
    PitchProbsPass(swung, batterMod, pitcherMod);
    var probs := PitchProbs(swung, batterMod, pitcherMod).value;
    ev.probs := Some(probs);
    ev.MakeHappen(PitchOutcome(kind, swung, strikes, balls, contactType, sub, home, drawn));
  }

  // Throw

  function ThrowKey(o: string): Option<RecordKey> {
    match o
    case "good" => Some(ThrowGood)
    case "dirt" => Some(ThrowDirt)
    case "low" => Some(ThrowLow)
    case "high" => Some(ThrowHigh)
    case _ => None
  }

  lemma ThrowTemplate(o: string)
    requires o in ["good", "dirt", "low", "high"]
    ensures Template(ThrowKey(o).value) == "{}" + (":" + o + ":") + "{}" && NoBrace(":" + o + ":")
  {
  }

  lemma ThrowRecordText(o: string, x: int, y: int)
    requires o in ["good", "dirt", "low", "high"]
    ensures Fill(ThrowKey(o).value, [Str(x), Str(y)]) == Success(Str(x) + ":" + o + ":" + Str(y))
  {
    ThrowTemplate(o);
    FormatAround(o, Str(x), Str(y));
  }

  /** The throw action: the record names the thrower's and the target's
      positions around the drawn outcome. */
  function ThrowOutcome(o: string, fielder: Player, target: Player): (r: Result<Outcome>)
    reads fielder, target
    ensures r.Success? <==> o in ["good", "dirt", "low", "high"]
    ensures r.Success? ==>
      r.value == Outcome(o, Str(fielder.pos) + ":" + o + ":" + Str(target.pos),
                         Some(map["player" := Person(fielder), "target" := Person(target)]))
  {
    match ThrowKey(o)
    case None => Failure("KeyError: " + o)
    case Some(k) =>
      ThrowRecordText(o, fielder.pos, target.pos);
      Success(Outcome(o, Fill(k, [Str(fielder.pos), Str(target.pos)]).value,
                      Some(map["player" := Person(fielder), "target" := Person(target)])))
  }

  // Move

  /** The move action's `make_happen(outcome)`: the record is the runner's
      base and the base reached around the option; an option outside the
      table fails the assertion. */
  function MoveOutcome(o: string, fromBase: int, toBase: int, player: Value): (r: Result<Outcome>)
    ensures r.Success? <==> o in ["move", "steal", "caught"]
    ensures r.Success? ==>
      r.value == Outcome(o, Str(fromBase) + ":" + o + ":" + Str(toBase),
        Some(map["from_base" := Num(fromBase), "to_base" := Num(toBase), "player" := player]))
  {
    match MoveKey(o)
    case None => Failure("AssertionError: " + o)
    case Some(k) =>
      MoveRecordText(o, fromBase, toBase);
      Success(Outcome(o, Format(Template(k), [Str(fromBase), Str(toBase)]).value,
        Some(map["from_base" := Num(fromBase), "to_base" := Num(toBase), "player" := player])))
  }

  /** Replaying a move record moves that runner: the decoder recovers
      both bases, or, for a caught stealer, the base left. */
  lemma MoveOutcomeDecodes(o: string, fromBase: int, toBase: int, player: Value)
    requires o in ["move", "steal", "caught"]
    ensures Classify(MoveOutcome(o, fromBase, toBase, player).value.record) ==
      if o == "caught" then CaughtStealing(fromBase) else Advance(fromBase, toBase)
  {
    MoveTextDecodes(o, fromBase, toBase);
  }

  // Tag

  function TagKey(o: string): Option<RecordKey> {
    match o
    case "safe" => Some(TagSafe)
    case "out" => Some(TagOut)
    case _ => None
  }

  /** The tag action: the record names the tagger's and the runner's
      numbers around `tagsafe` or `tagout`. */
  function TagOutcome(o: string, tagger: Player, tagged: Player): (r: Result<Outcome>)
    reads tagger, tagged
    ensures r.Success? <==> o in ["safe", "out"]
    ensures r.Success? ==>
      r.value == Outcome(o, Str(tagger.num) + ":" + TagWord(o == "out") + ":" + Str(tagged.num),
                         Some(map["tagger" := Person(tagger), "tagged" := Person(tagged)]))
  {
    match TagKey(o)
    case None => Failure("KeyError: " + o)
    case Some(k) =>
      TagRecordText(o == "out", tagger.num, tagged.num);
      Success(Outcome(o, Fill(k, [Str(tagger.num), Str(tagged.num)]).value,
                      Some(map["tagger" := Person(tagger), "tagged" := Person(tagged)])))
  }

  /** Replaying a tag record adds an out exactly when the runner was
      tagged out. */
  lemma TagOutcomeDecodes(o: string, tagger: Player, tagged: Player)
    requires o in ["safe", "out"]
    ensures Classify(TagOutcome(o, tagger, tagged).value.record) == if o == "out" then AddOut else NoEffect
  {
    TagRecordRoundTrip(o == "out", tagger.num, tagged.num);
  }

  // Shift

  /** The shift action's `make_happen(shift_option)`: sub and swap write
      both players (the first coming in, the second going out), lead the
      first player, and the score, out and walk options their fixed
      record; an option outside the table raises, and so does a stack
      too short for its option. */
  function ShiftOutcome(opt: string, stack: seq<Player>): (r: Result<Outcome>)
    reads stack
    requires forall i :: 0 <= i < |stack| ==> stack[i].Valid()
    ensures r.Success? <==>
      opt in ["ASCORE", "HSCORE", "out", "iwalk"] || (opt == "lead" && |stack| >= 1) ||
      (opt in ["sub", "swap"] && |stack| >= 2)
    ensures r.Success? ==> r.value.result == opt
    ensures r.Success? && opt in ["sub", "swap"] ==>
      r.value.record == stack[0].Repr() + ":" + opt + ":" + stack[1].Repr() &&
      r.value.details == Some(map["new_player" := Person(stack[0]), "old_player" := Person(stack[1])])
    ensures r.Success? && opt == "lead" ==>
      r.value.record == "leadoff:" + stack[0].Repr() && r.value.details == Some(map["leadoff" := Person(stack[0])])
    ensures r.Success? && opt in ["ASCORE", "HSCORE", "out", "iwalk"] ==>
      r.value.record == Template(ShiftKey(opt).value) && r.value.details == Some(map[])
  {
    match ShiftKey(opt)
    case None => Failure("KeyError: " + opt)
    case Some(k) =>
      if opt == "sub" || opt == "swap" then
        if |stack| < 2 then Failure("IndexError: list index out of range")
        else
          ShiftPairText(opt, stack[0].Repr(), stack[1].Repr());
          Success(Outcome(opt, Fill(k, [stack[0].Repr(), stack[1].Repr()]).value,
                          Some(map["new_player" := Person(stack[0]), "old_player" := Person(stack[1])])))
      else if opt in ["ASCORE", "HSCORE", "out", "iwalk"] then
        Success(Outcome(opt, Template(k), Some(map[])))
      else
        if |stack| < 1 then Failure("IndexError: list index out of range")
        else
          LeadText(stack[0].Repr());
          Success(Outcome(opt, Fill(k, [stack[0].Repr()]).value, Some(map["leadoff" := Person(stack[0])])))
  }

  lemma ShiftPairText(opt: string, a: string, b: string)
    requires opt in ["sub", "swap"]
    ensures Fill(ShiftKey(opt).value, [a, b]) == Success(a + ":" + opt + ":" + b)
  {
    ShiftPairTemplate(opt);
    FormatAround(opt, a, b);
  }

  lemma ShiftPairTemplate(opt: string)
    requires opt in ["sub", "swap"]
    ensures Template(ShiftKey(opt).value) == "{}" + (":" + opt + ":") + "{}" && NoBrace(":" + opt + ":")
  {
    if opt == "sub" {
      assert ShiftKey(opt) == Some(ShiftSub);
    } else {
      assert ShiftKey(opt) == Some(ShiftSwap);
    }
  }

  lemma LeadText(a: string)
    ensures Fill(ShiftLead, [a]) == Success("leadoff:" + a)
  {
    assert Template(ShiftLead) == "leadoff:" + "{}";
    FormatSuffix("leadoff:", a);
  }

  /** Replaying the fixed shift records: an out, a run for either side,
      and nothing for an intentional walk. */
  lemma ShiftOutcomeDecodes(opt: string)
    requires opt in ["ASCORE", "HSCORE", "out", "iwalk"]
    ensures Classify(ShiftOutcome(opt, []).value.record) == ShiftEffect(opt)
  {
    FixedShiftDecodes(opt);
  }

  /** What each fixed shift option does on replay. */
  function ShiftEffect(opt: string): Effect {
    if opt == "ASCORE" then AwayRun else if opt == "HSCORE" then HomeRun
    else if opt == "out" then AddOut else NoEffect
  }

  lemma FixedShiftDecodes(opt: string)
    requires opt in ["ASCORE", "HSCORE", "out", "iwalk"]
    ensures Classify(Template(ShiftKey(opt).value)) == ShiftEffect(opt)
  {
    if opt == "out" {
      assert ShiftKey(opt) == Some(ShiftOut);
      MarkerRecordDecodes(ShiftOut);
    } else if opt == "HSCORE" {
      assert ShiftKey(opt) == Some(ShiftHScore);
      MarkerRecordDecodes(ShiftHScore);
    } else if opt == "ASCORE" {
      assert ShiftKey(opt) == Some(ShiftAScore);
      MarkerRecordDecodes(ShiftAScore);
    } else {
      assert ShiftKey(opt) == Some(ShiftIwalk);
      IntentionalWalkIgnored();
    }
  }

  lemma MarkerRecordDecodes(k: RecordKey)
    requires k in [ShiftOut, ShiftHScore, ShiftAScore]
    ensures Classify(Template(k)) == if k == ShiftOut then AddOut else if k == ShiftHScore then HomeRun else AwayRun
  {
    ShiftRecordsFromTable();
    MarkerDecodes(Template(k));
  }

  lemma IntentionalWalkIgnored()
    ensures Classify(Template(ShiftIwalk)) == NoEffect
  {
    var rec := Template(ShiftIwalk);
    assert rec == "IW" && NoChar(rec, ':') && Sig(rec) == ('I', 2);
    SingleTokenIgnored(rec);
  }

  /** The three markers a shift writes reach their own branch. */
  lemma MarkerDecodes(rec: string)
    requires rec in [OutRecord, HomeScoreRecord, AwayScoreRecord]
    ensures Classify(rec) == if rec == OutRecord then AddOut else if rec == HomeScoreRecord then HomeRun else AwayRun
  {
    assert NoChar(rec, ':') && Sig(rec) !in PitchSigs;
    OneToken(rec);
    NotPitchLiteral(rec);
    NotOutToken(rec);
  }

  /** The first character and the length of a record. */
  function Sig(x: string): (char, int) {
    if x == [] then (' ', 0) else (x[0], |x|)
  }

  /** The signatures of the literal pitch records. */
  const PitchSigs: set<(char, int)> :=
    {('S', 2), ('P', 2), ('K', 2), ('B', 1), ('W', 1), ('W', 2), ('H', 3), ('F', 4), ('G', 3), ('H', 2), ('H', 5), ('B', 4)}

  lemma PitchLiteralSigs()
    ensures forall x :: x in StrikeRecords ==> Sig(x) in PitchSigs
    ensures forall x :: x in StrikeoutRecords ==> Sig(x) in PitchSigs
    ensures forall x :: x in BallRecords ==> Sig(x) in PitchSigs
    ensures forall x :: x in WalkRecords ==> Sig(x) in PitchSigs
    ensures forall x :: x in HbpRecords ==> Sig(x) in PitchSigs
    ensures forall x :: x in FoulRecords ==> Sig(x) in PitchSigs
    ensures forall x :: x in OopRecords ==> Sig(x) in PitchSigs
    ensures forall x :: x in HitRecords ==> Sig(x) in PitchSigs
    ensures forall x :: x in BuntRecords ==> Sig(x) in PitchSigs
    ensures Sig(WildPitch) in PitchSigs
  {
  }

  /** A record whose signature no literal pitch record has is a pitch
      record only if it matches an out template. */
  lemma NotPitchLiteral(rec: string)
    requires Sig(rec) !in PitchSigs
    ensures PitchRecord(rec) <==> HitsAny(rec, OutTokens)
  {
    PitchLiteralSigs();
  }

  /** A one-token record that is none of the out templates' tokens
      matches no out template. */
  lemma NotOutToken(rec: string)
    requires forall toks :: Logic.Hits(rec, toks) <==> rec in toks
    requires rec !in ["FO", "U", "LO", "GO", "{}"]
    ensures !HitsAny(rec, OutTokens)
  {
    HitsAnyMeans(rec, OutTokens);
    assert !Logic.Hits(rec, OutTokens[0]) && !Logic.Hits(rec, OutTokens[1]);
    assert !Logic.Hits(rec, OutTokens[2]) && !Logic.Hits(rec, OutTokens[3]);
    assert |OutTokens| == 4;
  }

  lemma {:induction false} HitsAnyMeans(rec: string, tokss: seq<seq<string>>)
    ensures HitsAny(rec, tokss) <==> exists i :: 0 <= i < |tokss| && Logic.Hits(rec, tokss[i])
  {
    if tokss != [] {
      HitsAnyMeans(rec, tokss[1..]);
      if HitsAny(rec, tokss[1..]) {
        var i :| 0 <= i < |tokss[1..]| && Logic.Hits(rec, tokss[1..][i]);
        assert tokss[1..][i] == tokss[i + 1];
      }
      forall i | 1 <= i < |tokss| && Logic.Hits(rec, tokss[i]) ensures HitsAny(rec, tokss[1..]) {
        assert tokss[1..][i - 1] == tokss[i];
      }
    }
  }

  /** A record without a colon is one token: it matches a template
      exactly when it is one of the template's tokens. */
  lemma OneToken(rec: string)
    requires NoChar(rec, ':')
    ensures forall toks :: Logic.Hits(rec, toks) <==> rec in toks
  {
    SplitNone(rec, ":");
    forall toks ensures Logic.Hits(rec, toks) <==> rec in toks {
      AnySharedMeans(toks, [rec]);
    }
  }

  /** A one-token record that is no literal record and no template token
      changes nothing. */
  lemma SingleTokenIgnored(rec: string)
    requires NoChar(rec, ':') && Sig(rec) !in PitchSigs
    requires rec !in ["FO", "U", "LO", "GO", "{}", "tagsafe", "tagout", "move", "steal", "caught"]
    requires rec !in [OutRecord, HomeScoreRecord, AwayScoreRecord]
    ensures Classify(rec) == NoEffect
  {
    OneTokenNotPitch(rec);
    OneTokenPlaysNothing(rec);
  }

  lemma OneTokenNotPitch(rec: string)
    requires NoChar(rec, ':') && Sig(rec) !in PitchSigs && rec !in ["FO", "U", "LO", "GO", "{}"]
    ensures !PitchRecord(rec)
  {
    OneToken(rec);
    NotPitchLiteral(rec);
    NotOutToken(rec);
  }

  lemma OneTokenPlaysNothing(rec: string)
    requires NoChar(rec, ':') && rec !in ["{}", "tagsafe", "tagout", "move", "steal", "caught"]
    requires rec !in [OutRecord, HomeScoreRecord, AwayScoreRecord]
    ensures PlayEffect(rec) == NoEffect
  {
    OneToken(rec);
    NotPlayToken(rec);
  }

  /** A one-token record that is none of the tag and move words matches
      no tag or move template. */
  lemma NotPlayToken(rec: string)
    requires forall toks :: Logic.Hits(rec, toks) <==> rec in toks
    requires rec !in ["{}", "tagsafe", "tagout", "move", "steal", "caught"]
    ensures !Logic.Hits(rec, AroundTokens("tagsafe")) && !Logic.Hits(rec, AroundTokens("tagout"))
    ensures !HitsAny(rec, MoveTokens)
  {
    HitsAnyMeans(rec, MoveTokens);
    assert !Logic.Hits(rec, AroundTokens("tagsafe")) && !Logic.Hits(rec, AroundTokens("tagout"));
    assert !Logic.Hits(rec, MoveTokens[0]) && !Logic.Hits(rec, MoveTokens[1]) && !Logic.Hits(rec, MoveTokens[2]);
    assert |MoveTokens| == 3;
  }
}
