/** The static tables of the simulator: action names, their outcome
    names and subject fields, the record templates every event is
    rendered with, and the pitch-location grids. */
module Context {
  import opened Wrappers
  import opened Text

  /** The seven primitive actions, in the order of the `actions` list. */
  datatype ActionKind = Start | Pitch | Throw | Catch | Move | Tag | Shift

  const Actions: seq<string> := ["start", "pitch", "throw", "catch", "move", "tag", "shift"]

  function Index(a: ActionKind): (i: nat)
    ensures i < |Actions|
  {
    match a
    case Start => 0 case Pitch => 1 case Throw => 2 case Catch => 3
    case Move => 4 case Tag => 5 case Shift => 6
  }

  /** The coarse outcome names of each action, indexed like `Actions`. */
  const Outcomes: seq<seq<string>> := [
    [],
    ["strike", "ball", "hit", "error", "misc"],
    ["thrown", "error", "misc"],
    ["caught", "missed", "error"],
    ["move", "steal"],
    ["out", "safe", "error"],
    ["sub", "strat", "Score", "Out"]
  ]

  /** The subject fields of each action, indexed like `Actions`. */
  const ActionContextFormat: seq<seq<string>> := [
    [],
    ["bball", "pitcher", "batter"],
    ["bball", "player", "target"],
    ["bball", "player"],
    ["player", "from_base", "to_base"],
    ["bball", "tagger", "tagged"],
    ["playerstack", "varstack"]
  ]

  const GameContextFormat: seq<string> := ["away_team", "home_team", "game_data"]

  function SubjectFields(a: ActionKind): seq<string> {
    ActionContextFormat[Index(a)]
  }

  /** The number of subjects each action takes. */
  function Arity(a: ActionKind): (n: nat)
    ensures n == |SubjectFields(a)|
    ensures n == match a
      case Start => 0 case Pitch => 3 case Throw => 3 case Catch => 2
      case Move => 3 case Tag => 3 case Shift => 2
  {
    |SubjectFields(a)|
  }

  /** Python list indexing, negative indices counting from the end. */
  function PyIndex<T>(s: seq<T>, i: int): (r: Option<T>)
    ensures r.Some? <==> -|s| <= i < |s|
    ensures r.Some? ==> r.value == s[if i < 0 then |s| + i else i]
  {
    if 0 <= i < |s| then Some(s[i])
    else if -|s| <= i < 0 then Some(s[|s| + i])
    else None
  }

  predicate NoUnderscore(s: string) { NoChar(s, '_') }

  /** `oc_name(i, j)`: the action name, an underscore and the outcome
      name; a position out of range raises. Because no action or outcome
      name contains an underscore, the key splits back into the two names. */
  function OcName(i: int, j: int): (r: Result<string>)
    ensures r.Success? <==>
      (-|Actions| <= i < |Actions| &&
       -|Outcomes[if i < 0 then |Actions| + i else i]| <= j <
         |Outcomes[if i < 0 then |Actions| + i else i]|)
    ensures r.Success? ==>
      var a := if i < 0 then |Actions| + i else i;
      var oc := Outcomes[a];
      Split(r.value, "_") == [Actions[a], oc[if j < 0 then |oc| + j else j]]
  {
    match PyIndex(Actions, i)
    case None => Failure("IndexError: action position")
    case Some(action) =>
      var a := if i < 0 then |Actions| + i else i;
      match PyIndex(Outcomes[a], j)
      case None => Failure("IndexError: outcome position")
      case Some(oc) =>
        NamesHaveNoUnderscore(a, if j < 0 then |Outcomes[a]| + j else j);
        SplitJoin(action, "_", oc);
        SplitNone(oc, "_");
        Success(action + "_" + oc)
  }

  lemma NamesHaveNoUnderscore(a: nat, j: nat)
    requires a < |Actions| && j < |Outcomes[a]|
    ensures NoUnderscore(Actions[a]) && NoUnderscore(Outcomes[a][j])
  {
  }

  /** `get_action_context(act, *args)`: the action index must be a key of
      the subject table and the argument count its arity; the arguments
      are then zipped with the GAME context names, as the source does. */
  function GetActionContext<T>(act: int, args: seq<T>): (r: Result<map<string, T>>)
    ensures r.Success? <==> 0 <= act < |ActionContextFormat| && |args| == |ActionContextFormat[act]|
    ensures r.Success? ==>
      var n := if |args| < |GameContextFormat| then |args| else |GameContextFormat|;
      r.value.Keys == (set i | 0 <= i < n :: GameContextFormat[i])
      && forall i :: 0 <= i < n ==> r.value[GameContextFormat[i]] == args[i]
  {
    if !(0 <= act < |ActionContextFormat|) then Failure("Unrecognized Action Type")
    else if |args| != |ActionContextFormat[act]| then Failure("Bad Action Context")
    else
      var n := if |args| < |GameContextFormat| then |args| else |GameContextFormat|;
      Success(map i | 0 <= i < n :: GameContextFormat[i] := args[i])
  }

  // -----------------------------------------------------------------------
  // Record templates

  /** One key per entry of the `outcome_records` table. */
  datatype RecordKey =
    | WalkW | BalkBlk | HbpHbp
    | StrikeoutWild | StrikeoutSwing | StrikeoutLook
    | StrikeLook | StrikeSwing
    | BallB
    | WildWp | WildPb
    | BuntBunt | FoulFoul
    | HitSingle | HitDouble | HitTriple | HitFour
    | OopGdb | OopHr
    | OutFo | OutUno | OutLo | OutGo
    | SackSacf | InterfCatcher | InterfFielder
    | ThrowGood | ThrowDirt | ThrowLow | ThrowHigh
    | CatchYes | CatchDrop | CatchMiss
    | MoveMove | MoveSteal | MoveCaught
    | TagSafe | TagOut
    | ShiftSub | ShiftSwap | ShiftLead | ShiftIwalk
    | ShiftHScore | ShiftAScore | ShiftOut

  /** How a template is built: a literal record, a literal head followed
      by one `{}`, or a literal middle between two `{}`. */
  datatype Shape = Literal(text: string) | OneAfter(head: string) | TwoAround(mid: string)

  function Render(sh: Shape): string {
    match sh
    case Literal(t) => t
    case OneAfter(h) => h + "{}"
    case TwoAround(m) => "{}" + m + "{}"
  }

  /** The `outcome_records` table, entry by entry. */
  function ShapeOf(k: RecordKey): Shape {
    match k
    case WalkW => Literal("W")
    case BalkBlk => Literal("BK")
    case HbpHbp => Literal("HBP")
    case StrikeoutWild => Literal("PB")
    case StrikeoutSwing => Literal("Ks")
    case StrikeoutLook => Literal("Kc")
    case StrikeLook => Literal("Sc")
    case StrikeSwing => Literal("Ss")
    case BallB => Literal("B")
    case WildWp => Literal("WP")
    case WildPb => Literal("PB")
    case BuntBunt => Literal("Bunt")
    case FoulFoul => Literal("Foul")
    case HitSingle => Literal("Hit:1")
    case HitDouble => Literal("Hit:2")
    case HitTriple => Literal("Hit:3")
    case HitFour => Literal("Hit:4")
    case OopGdb => Literal("GDB")
    case OopHr => Literal("HR")
    case OutFo => OneAfter("FO:")
    case OutUno => OneAfter("U:")
    case OutLo => OneAfter("LO:")
    case OutGo => OneAfter("GO:")
    case SackSacf => Literal("SF")
    case InterfCatcher => Literal("CI")
    case InterfFielder => OneAfter("I:")
    case ThrowGood => TwoAround(":good:")
    case ThrowDirt => TwoAround(":dirt:")
    case ThrowLow => TwoAround(":low:")
    case ThrowHigh => TwoAround(":high:")
    case CatchYes => OneAfter("catch:")
    case CatchDrop => OneAfter("dropped:")
    case CatchMiss => OneAfter("missed:")
    case MoveMove => TwoAround(":move:")
    case MoveSteal => TwoAround(":steal:")
    case MoveCaught => TwoAround(":caught:")
    case TagSafe => TwoAround(":tagsafe:")
    case TagOut => TwoAround(":tagout:")
    case ShiftSub => TwoAround(":sub:")
    case ShiftSwap => TwoAround(":swap:")
    case ShiftLead => OneAfter("leadoff:")
    case ShiftIwalk => Literal("IW")
    case ShiftHScore => Literal("<HomeScore>")
    case ShiftAScore => Literal("<AwayScore>")
    case ShiftOut => Literal("<Out>")
  }

  function Template(k: RecordKey): string {
    Render(ShapeOf(k))
  }

  /** The action a template belongs to in the table. */
  function ActionOf(k: RecordKey): ActionKind {
    if k.ThrowGood? || k.ThrowDirt? || k.ThrowLow? || k.ThrowHigh? then Throw
    else if k.CatchYes? || k.CatchDrop? || k.CatchMiss? then Catch
    else if k.MoveMove? || k.MoveSteal? || k.MoveCaught? then Move
    else if k.TagSafe? || k.TagOut? then Tag
    else if k.ShiftSub? || k.ShiftSwap? || k.ShiftLead? || k.ShiftIwalk?
         || k.ShiftHScore? || k.ShiftAScore? || k.ShiftOut? then Shift
    else Pitch
  }

  /** The pitch out records carry one fielder placeholder. */
  predicate IsOutRecord(k: RecordKey) {
    k.OutFo? || k.OutUno? || k.OutLo? || k.OutGo?
  }

  /** The literal part of a shape. */
  function Piece(sh: Shape): string {
    match sh case Literal(t) => t case OneAfter(h) => h case TwoAround(m) => m
  }

  /** Throw templates put the literal between the thrower's and the
      target's positions. */
  lemma ThrowTemplates(k: RecordKey)
    requires ActionOf(k) == Throw
    ensures ShapeOf(k).TwoAround? && Holes(Template(k)) == 2
  {
    ThrowShapes(k);
    ShapeHoles(ShapeOf(k));
  }

  lemma ThrowShapes(k: RecordKey)
    requires ActionOf(k) == Throw
    ensures ShapeOf(k).TwoAround? && NoBrace(Piece(ShapeOf(k)))
  {
    match k
    case ThrowGood => case ThrowDirt => case ThrowLow => case ThrowHigh =>
  }

  /** Move and tag templates, and the sub and swap shift templates, put the
      literal between two placeholders. */
  lemma MoveTagTemplates(k: RecordKey)
    requires ActionOf(k) in {Move, Tag} || k.ShiftSub? || k.ShiftSwap?
    ensures ShapeOf(k).TwoAround? && Holes(Template(k)) == 2
  {
    MoveTagShapes(k);
    ShapeHoles(ShapeOf(k));
  }

  lemma MoveTagShapes(k: RecordKey)
    requires k.MoveMove? || k.MoveSteal? || k.MoveCaught? || k.TagSafe? || k.TagOut? || k.ShiftSub? || k.ShiftSwap?
    ensures ShapeOf(k).TwoAround? && NoBrace(Piece(ShapeOf(k)))
  {
    match k
    case MoveMove => case MoveSteal => case MoveCaught =>
    case TagSafe => case TagOut => case ShiftSub => case ShiftSwap =>
  }

  /** Catch and lead records carry one placeholder after a literal head. */
  lemma CatchLeadTemplates(k: RecordKey)
    requires ActionOf(k) == Catch || k.ShiftLead?
    ensures ShapeOf(k).OneAfter? && Holes(Template(k)) == 1
  {
    CatchLeadShapes(k);
    ShapeHoles(ShapeOf(k));
  }

  lemma CatchLeadShapes(k: RecordKey)
    requires ActionOf(k) == Catch || k.ShiftLead?
    ensures ShapeOf(k).OneAfter? && NoBrace(Piece(ShapeOf(k)))
  {
    match k
    case CatchYes => case CatchDrop => case CatchMiss => case ShiftLead =>
  }

  /** The four out records and fielder interference carry one fielder
      placeholder after a literal head. */
  lemma OutTemplates(k: RecordKey)
    requires IsOutRecord(k) || k.InterfFielder?
    ensures ShapeOf(k).OneAfter? && Holes(Template(k)) == 1
  {
    OutShapes(k);
    ShapeHoles(ShapeOf(k));
  }

  lemma OutShapes(k: RecordKey)
    requires IsOutRecord(k) || k.InterfFielder?
    ensures ShapeOf(k).OneAfter? && NoBrace(Piece(ShapeOf(k)))
  {
    match k
    case OutFo => case OutUno => case OutLo => case OutGo => case InterfFielder =>
  }

  lemma ShapeHoles(sh: Shape)
    requires NoBrace(Piece(sh))
    ensures Holes(Render(sh)) == match sh case Literal(_) => 0 case OneAfter(_) => 1 case TwoAround(_) => 2
  {
    match sh
    case Literal(t) => NoBraceNoHoles(t);
    case OneAfter(h) =>
      HolesAfterLiteral(h, "{}");
      assert Holes("{}") == 1;
    case TwoAround(m) =>
      var t := "{}" + m + "{}";
      assert t[2..] == m + "{}";
      HolesAfterLiteral(m, "{}");
      assert Holes("{}") == 1;
  }

  lemma {:induction false} NoBraceNoHoles(t: string)
    requires NoBrace(t)
    ensures Holes(t) == 0
    decreases |t|
  {
    if |t| >= 2 { NoBraceNoHoles(t[1..]); }
  }

  lemma {:induction false} HolesAfterLiteral(lit: string, rest: string)
    requires NoBrace(lit)
    ensures Holes(lit + rest) == Holes(rest)
    decreases |lit|
  {
    if lit == [] {
      assert lit + rest == rest;
    } else {
      var t := lit + rest;
      if |t| < 2 {
        assert rest == [];
      } else {
        assert t[0] == lit[0] != '{';
        assert t[1..] == lit[1..] + rest;
        HolesAfterLiteral(lit[1..], rest);
      }
    }
  }

  /** The values of each sub-table of `outcome_records`, in table order. */
  const WalkKeys: seq<RecordKey> := [WalkW]
  const HbpKeys: seq<RecordKey> := [HbpHbp]
  const StrikeoutKeys: seq<RecordKey> := [StrikeoutWild, StrikeoutSwing, StrikeoutLook]
  const StrikeKeys: seq<RecordKey> := [StrikeLook, StrikeSwing]
  const BallKeys: seq<RecordKey> := [BallB]
  const BuntKeys: seq<RecordKey> := [BuntBunt]
  const FoulKeys: seq<RecordKey> := [FoulFoul]
  const HitKeys: seq<RecordKey> := [HitSingle, HitDouble, HitTriple, HitFour]
  const OopKeys: seq<RecordKey> := [OopGdb, OopHr]
  const OutKeys: seq<RecordKey> := [OutFo, OutUno, OutLo, OutGo]
  const MoveKeys: seq<RecordKey> := [MoveMove, MoveSteal, MoveCaught]

  function Templates(ks: seq<RecordKey>): (ts: seq<string>)
    ensures |ts| == |ks| && forall i :: 0 <= i < |ks| ==> ts[i] == Template(ks[i])
  {
    if ks == [] then [] else [Template(ks[0])] + Templates(ks[1..])
  }

  /** `outcome_records['move'][o]`: a move option names one of the three
      move templates, or raises. */
  function MoveKey(o: string): (r: Option<RecordKey>)
    ensures r.Some? <==> o in ["move", "steal", "caught"]
    ensures r.Some? ==> r.value in MoveKeys && ShapeOf(r.value) == TwoAround(":" + o + ":")
  {
    if o == "move" then assert ":" + o + ":" == ":move:"; Some(MoveMove)
    else if o == "steal" then assert ":" + o + ":" == ":steal:"; Some(MoveSteal)
    else if o == "caught" then assert ":" + o + ":" == ":caught:"; Some(MoveCaught)
    else None
  }

  /** `outcome_records['shift'][opt]`. */
  function ShiftKey(opt: string): (r: Option<RecordKey>)
    ensures r.Some? <==> opt in ["sub", "swap", "lead", "iwalk", "HSCORE", "ASCORE", "out"]
    ensures r.Some? ==> ActionOf(r.value) == Shift
  {
    match opt
    case "sub" => Some(ShiftSub)
    case "swap" => Some(ShiftSwap)
    case "lead" => Some(ShiftLead)
    case "iwalk" => Some(ShiftIwalk)
    case "HSCORE" => Some(ShiftHScore)
    case "ASCORE" => Some(ShiftAScore)
    case "out" => Some(ShiftOut)
    case _ => None
  }

  /** `PB` is filed both as a passed-ball strikeout and as a wild pitch. */
  lemma PassedBallTwice()
    ensures Template(StrikeoutWild) == Template(WildPb) == "PB"
    ensures StrikeoutWild in StrikeoutKeys && StrikeoutWild != WildPb
  {
  }

  // -----------------------------------------------------------------------
  // Location grids

  /** `to_matrix(V, H)`: one row per entry of H, each row pairing that
      entry with every entry of V. */
  function ToMatrix<T>(V: seq<T>, H: seq<T>): (rows: seq<seq<(T, T)>>)
    ensures |rows| == |H|
    ensures forall i :: 0 <= i < |H| ==> |rows[i]| == |V|
    ensures forall i, j :: 0 <= i < |H| && 0 <= j < |V| ==> rows[i][j] == (H[i], V[j])
  {
    seq(|H|, i requires 0 <= i < |H| => seq(|V|, j requires 0 <= j < |V| => (H[i], V[j])))
  }

  /** `shallow_flatten(A)`: the rows concatenated in order. */
  function ShallowFlatten<T>(A: seq<seq<T>>): seq<T> {
    if A == [] then [] else A[0] + ShallowFlatten(A[1..])
  }

  lemma FlattenLength<T>(V: seq<T>, H: seq<T>)
    ensures |ShallowFlatten(ToMatrix(V, H))| == |H| * |V|
  {
    FlattenRows(ToMatrix(V, H), |V|);
  }

  /** An element is in the flattened list exactly when some row holds it. */
  lemma {:induction false} FlattenMember<T>(A: seq<seq<T>>, x: T)
    ensures x in ShallowFlatten(A) <==> exists r :: 0 <= r < |A| && x in A[r]
  {
    if A != [] {
      FlattenMember(A[1..], x);
      assert ShallowFlatten(A) == A[0] + ShallowFlatten(A[1..]);
      if x in A[0] {
        assert 0 < |A| && x in A[0];
      }
      if exists r :: 0 < r < |A| && x in A[r] {
        var r :| 0 < r < |A| && x in A[r];
        assert x in A[1..][r - 1];
      }
      if exists r :: 0 <= r < |A[1..]| && x in A[1..][r] {
        var r :| 0 <= r < |A[1..]| && x in A[1..][r];
        assert x in A[r + 1];
      }
    }
  }

  lemma {:induction false} FlattenRows<T>(A: seq<seq<T>>, n: nat)
    requires forall r :: 0 <= r < |A| ==> |A[r]| == n
    ensures |ShallowFlatten(A)| == |A| * n
  {
    if A != [] {
      FlattenRows(A[1..], n);
      assert |A| * n == n + (|A| - 1) * n;
    }
  }

  /** Flattening `to_matrix(V, H)` yields |H| * |V| pairs, and a pair
      occurs exactly when its first part is in H and its second in V. */
  lemma FlattenMatrix<T>(V: seq<T>, H: seq<T>, h: T, v: T)
    ensures |ShallowFlatten(ToMatrix(V, H))| == |H| * |V|
    ensures (h, v) in ShallowFlatten(ToMatrix(V, H)) <==> h in H && v in V
  {
    var rows := ToMatrix(V, H);
    FlattenRows(rows, |V|);
    FlattenMember(rows, (h, v));
    if h in H && v in V {
      var i :| 0 <= i < |H| && H[i] == h;
      var j :| 0 <= j < |V| && V[j] == v;
      assert rows[i][j] == (h, v);
    }
  }

  const KHoriz: seq<string> := ["up", "middle", "down"]
  const KVert: seq<string> := ["in", "over", "away"]
  const BVert: seq<string> := ["inside", "outside"]
  const BHoriz: seq<string> := ["high", "low"]
  const HHoriz: seq<string> := ["outfield", "infield"]
  const HVert: seq<string> := ["left_line", "left", "center", "right", "right_line"]
  const FHoriz: seq<string> := ["ahead", "behind"]
  const FVert: seq<string> := ["catchable", "stands", "fence"]
  const BuHoriz: seq<string> := ["infield", "catcher", "foul"]
  const BuVert: seq<string> := ["left_line", "left", "center", "right", "right_line"]

  function Strikes(): seq<(string, string)> { ShallowFlatten(ToMatrix(KVert, KHoriz)) }
  function Balls(): seq<(string, string)> { ShallowFlatten(ToMatrix(BVert, BHoriz)) }
  function Hits(): seq<(string, string)> { ShallowFlatten(ToMatrix(HVert, HHoriz)) }
  function Fouls(): seq<(string, string)> { ShallowFlatten(ToMatrix(FVert, FHoriz)) }
  function Bunts(): seq<(string, string)> { ShallowFlatten(ToMatrix(BuVert, BuHoriz)) }

  /** The five location lists have 9, 4, 10, 6 and 15 entries, each a
      (row label, column label) pair in row-major order. */
  lemma LocationListSizes()
    ensures |Strikes()| == 9 && |Balls()| == 4 && |Hits()| == 10
    ensures |Fouls()| == 6 && |Bunts()| == 15
    ensures ("down", "away") in Strikes() && ("foul", "right_line") in Bunts()
    ensures ("outfield", "left") !in Strikes()
  {
    FlattenMatrix(KVert, KHoriz, "down", "away");
    FlattenMatrix(KVert, KHoriz, "outfield", "left");
    FlattenLength(BVert, BHoriz);
    FlattenLength(HVert, HHoriz);
    FlattenLength(FVert, FHoriz);
    FlattenMatrix(BuVert, BuHoriz, "foul", "right_line");
  }

  const PitchTypes: seq<string> := ["fastball", "curveball"]
  const HitTypes: seq<string> := ["power", "contact"]
}
