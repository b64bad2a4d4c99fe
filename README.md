# BayesBall in Dafny

BayesBall simulates baseball games. A game is a `BaseBallGame`: a log of
event records (newest first, a start sentinel at the oldest end), a
`GameState` (score, inning, count, bases), the players on the field and
at bat, and both batting orders. The simulation has seven primitive
actions: start, pitch, throw, catch, move, tag and shift. Each action
event draws an outcome from its prior. The outcome's record text (for
example `Hit:2`, `1:move:3`, `<Out>`) goes into the log. `play` then
replays the records through `update_from_event_record` to bring the
`GameState` up to date.

This project models that core, one module per source file:

- `Text`: the Python string operations the records rely on: `str.split`,
  `str(n)`, `int(s)` and `str.format` with `{}` placeholders.
- `Context`: the action and outcome tables, the `outcome_records` record
  table, `oc_name`, `get_action_context`, `to_matrix`, `shallow_flatten`
  and the location lists.
- `Helpers`: `match`, `match_array`, `build_subjects` and `cond_dampen`.
  `cond_dampen` is modelled twice: as a loop (`CondDampen`) and as a
  function (`DampenSpec`) that states what the loop computes.
- `Logic`: `move_n`, and the `GameState` class with `update` and
  `update_from_event_record`. The record decoder is a pure function
  (`Next`), and the class's methods are proved against it.
- `Players`: position names, `BaseBallPlayer` with its decision flags,
  `cleanup_player` and `make_decision`, including the pick-off logic.
- `Objects`: the event with its outcome slot, `result`, `record`,
  `details` and `make_happen`.
- `Actions`: the priors, the pitch's probability reshaping, and the
  outcome (result, record, details) of every action.
- `Game`: `BaseBallGame` as a class whose methods push records and move
  runners exactly as the play branches do, plus the replay loop of
  `play`, `win`, `upkeep` and `change_lineup`.

Random draws (`np.random.choice`, a player's decision) are parameters of
the members that use them. Probabilities are reals. The log is a
`seq<string>` with its newest record first.

Several proved lemmas record behaviour that is in the code as written
and that a reader might not expect:

- The log is replayed newest first, so a walk with a runner on first
  replays the batter's move before the runner's.
- A run from third is counted twice on replay: once by the score marker
  and once by the move to base 4.
- A tag-out is counted twice as well.
- `PB` decodes as a strike.
- The balk record `BK` is ignored by the decoder.

## Model

| member | source | states |
|---|---|---|
| Text.SplitNone | logic.py:225 | a string that never shows the separator's first character splits into itself alone |
| Text.SplitJoin | logic.py:225 | `a + sep + b` splits at exactly that separator, when `a` has no separator character, as `[a]` followed by the pieces of `b` |
| Text.ParseInt | logic.py:227-228 | `int(s)` on the ASCII text `str` writes: succeeds exactly on one or more ASCII digits with an optional leading sign (whitespace and underscores are under Left out) |
| Text.StrRoundTrip | logic.py:227-228 | `int(str(n)) == n` for every integer |
| Text.Format | actions.py:181 | `t.format(*args)` succeeds exactly when there are at least as many arguments as `{}` placeholders |
| Text.FormatPair | actions.py:160 | `'{}' + mid + '{}'` formats two arguments around the literal middle |
| Text.FormatSuffix | actions.py:133 | `head + '{}'` formats one argument after the literal head |
| Context.Arity | context.py:51-71 | each action's subject count is the length of its field list: 0, 3, 3, 2, 3, 3, 2 |
| Context.PyIndex | context.py:80-94 | Python indexing: defined exactly for `-len <= i < len`, negative indices counting from the end |
| Context.OcName | context.py:80-94 | `oc_name(i, j)` succeeds exactly for in-range (possibly negative) positions, and the key splits at `_` back into the action and outcome names |
| Context.GetActionContext | context.py:203-213 | succeeds exactly for a known action with the right argument count; the result maps the game context names to the leading arguments |
| Context.ThrowTemplates | context.py:160-165 | every throw template has two placeholders around a literal |
| Context.MoveTagTemplates | context.py:171-188 | move, tag, sub and swap templates have two placeholders around a literal |
| Context.CatchLeadTemplates | context.py:166-188 | catch and lead templates have one placeholder after a literal head |
| Context.OutTemplates | context.py:146-151 | the four out templates and fielder interference have one placeholder after a literal head |
| Context.MoveKey | context.py:171-175 | a move option is found exactly for `move`, `steal`, `caught`, and its template is `{}:option:{}` |
| Context.ShiftKey | context.py:180-188 | a shift option is found exactly for the seven table keys, and names a shift template |
| Context.PassedBallTwice | context.py:112-127 | `PB` is both the passed-ball strikeout and a wild-pitch entry, under two different keys |
| Context.ToMatrix | context.py:215-216 | `len(H)` rows of `len(V)` entries, entry `(i, j)` being `(H[i], V[j])` |
| Context.FlattenMember | context.py:218-219 | an element is in the flattened list exactly when some row holds it |
| Context.FlattenMatrix | context.py:215-219 | flattening `to_matrix(V, H)` gives `len(H) * len(V)` pairs, and `(h, v)` occurs exactly when `h` is in H and `v` in V |
| Context.LocationListSizes | context.py:225-262 | the five location lists have 9, 4, 10, 6 and 15 entries, with sample members and non-members |
| Helpers.MatchMeans | helpers.py:48-54 | `match` holds exactly when some `:`-token of the template is a `:`-token of the record |
| Helpers.MatchArray | helpers.py:56-60 | `match_array` holds exactly when the record matches one of the templates; never for an empty list |
| Helpers.RecordMatchesOwnTemplate | helpers.py:48-54 | a record `a:t:b` matches the template `{}:t:{}` |
| Helpers.RecordMatchesTemplate | helpers.py:48-54 | `a:t:b` matches `{}:u:{}` exactly when `u` equals one of the record's tokens or the record has a `{}` token |
| Helpers.BuildSubjects | helpers.py:69-80 | succeeds exactly for a known action with as many subjects as fields; then field `i` is paired with subject `i` |
| Helpers.DampenSpec | helpers.py:91-107 | succeeds exactly when `cond` is outside `[0, 1]` (table unchanged) or every listed label is in the table and fewer are listed than entries |
| Helpers.CondDampen | helpers.py:91-107 | the two loops return `DampenSpec` |
| Helpers.AbsorbListed | helpers.py:97-99 | the first loop computes `Absorb`: listed labels set to `cond`, their old mass summed |
| Helpers.SpreadUnlisted | helpers.py:102-104 | the second loop computes `Spread`: `norm` added to every unlisted label |
| Helpers.DampenValues | helpers.py:91-107 | labels keep their order; a listed label weighs `cond`; every other gains the removed mass divided by the unlisted count |
| Helpers.DampenTotal | helpers.py:91-107 | with distinct listed labels the total rises by exactly `len(sub) * cond` |
| Helpers.DampenKeepsMass | helpers.py:91-107 | with `cond = 0` the total weight is kept |
| Logic.MoveN | logic.py:52-92 | succeeds exactly for `1 <= n <= 4`, bits on base and a non-negative score; each base holds a runner exactly when one lands there; the score grows by those who left the field |
| Logic.MoveNConserves | logic.py:52-92 | runners and batter are either on a base or scored; bases stay bits; the score never drops |
| Logic.HomeRunClears | logic.py:82-91 | a home run clears the bases and scores the batter and every runner |
| Logic.Reset | logic.py:133-137 | `reset` zeroes strikes and balls and keeps outs and bases; `reset_all` zeroes count and bases; score and inning always kept |
| Logic.MergeFields | logic.py:140-152 | each field takes its named value, or keeps its old one |
| Logic.MergeLaws | logic.py:140-152 | no named field changes nothing; merging twice is merging once |
| Logic.ResetThenNamed | logic.py:133-152 | a named `outs` survives `reset_all`; `reset` keeps the outs |
| Logic.StrikeRecordsFromTable | context.py:112-120 | the strike and strikeout records the decoder tests are the table's own entries |
| Logic.MoveFormatsFromTable | context.py:171-175 | the move formats the decoder tests are the table's own entries |
| Logic.Apply | logic.py:189-282 | the inning is untouched; each side gains exactly the runs of its score marker and of a move home while it bats; on a valid state the result fails `update`'s checks only on a fourth strike or fifth ball |
| Logic.NextKeepsValid | logic.py:166-282 | a record that parses keeps the inning, never lowers a score, and passes `update`'s checks exactly unless it is a fourth strike or fifth ball |
| Logic.StrikeRecordDecodes | logic.py:190-193 | strike and strikeout records add a strike |
| Logic.BallRecordDecodes | logic.py:194-199 | ball, walk and wild-pitch records add a ball |
| Logic.FoulRecordDecodes | logic.py:202-204 | a foul adds a strike only below two strikes |
| Logic.ContactRecordDecodes | logic.py:200-210 | hit-by-pitch, out-of-park, hit and bunt records change nothing |
| Logic.PassedBallDecodesAsStrike | logic.py:190-199 | `PB` decodes as a strike, since the strikeout list is tested first |
| Logic.DecodeTagRecord | logic.py:219-222 | `x:tagout:y` adds an out; `x:tagsafe:y` changes nothing |
| Logic.DecodeMoveRecord | logic.py:223-260 | a move record reaches the move branch and is cut at its own option |
| Logic.SplitPairRoundTrip | logic.py:225-228 | cutting `str(x) + sep + str(y)` gives back `x` and `y` |
| Logic.MoveRecordRoundTrip | logic.py:223-260 | a move record from `x` to `y` decodes to that advance; a caught record to the runner leaving `x` |
| Logic.TagRecordRoundTrip | logic.py:219-222 | a tag record decodes to an out exactly for a tag-out |
| Logic.GameState.constructor | logic.py:102-107 | each tuple given, or its zero |
| Logic.GameState.Update | logic.py:117-163 | the state becomes `Updated(old, ...)` (written before the checks); `ok` exactly when the checks pass |
| Logic.GameState.UpdateFromEventRecord | logic.py:166-282 | a record that raises leaves the state alone; otherwise the state becomes `Next(old, rec)`, `Done` exactly when it passes `update`'s checks |
| Logic.GameState.ApplyEffect | logic.py:272-282 | the state becomes `Apply(old, e)`; `ok` exactly when it passes `update`'s checks |
| Logic.DecodeRecord | logic.py:189-270 | the branch chain returns `Classify(rec)` |
| Players.PosFromStr | player.py:34-36 | succeeds exactly for a name in `Positions`, returning its index |
| Players.PosRoundTrip | player.py:34-36 | reading a stored index back through `pos_from_str` gives the index |
| Players.NoPickOffWithoutDecision | player.py:197-204 | no bases argument, or an `n` draw: no pick-off |
| Players.LoneThirdNeverPickedOff | player.py:205-236 | a lone runner on third is never picked off, leading or not |
| Players.FirstOtherRunnerOverrides | player.py:223-236 | with one or two other runners and the first leading, that runner's base is the target |
| Players.PickOffNeedsLeader | player.py:205-236 | a pick-off raised from a lowered flag needs some listed runner leading off |
| Players.PickOffTargets | player.py:205-236 | the target is third, second, a listed base, or the earlier target |
| Players.Player.constructor | player.py:76-80 | the stored position names `posName`; number and team kept; every flag down |
| Players.Player.PosName | player.py:59-61 | a position name that `pos_from_str` maps back to the stored index |
| Players.Player.Repr | player.py:69-73 | the text starts with `Player(` |
| Players.Player.SetPos | player.py:63-67 | succeeds exactly for a position name, which `PosName` then reads back; otherwise the position is unchanged |
| Players.Player.Cleanup | player.py:177-183 | every decision flag down and no target; position and base kept |
| Players.Player.DecideSteal | player.py:187-191 | the steal flag takes the draw; the other flags, the position and the base are kept |
| Players.Player.DecideSwing | player.py:192-193 | the swing flag takes the draw; the other flags, the position and the base are kept |
| Players.Player.DecideLeadoff | player.py:194-196 | the leadoff flag takes the draw; the other flags, the position and the base are kept |
| Players.Player.DecidePickOff | player.py:197-238 | flag and target become `PickOff` of the old ones, the runners and the draw; the other flags are kept |
| Objects.Event.constructor | objects.py:173-182 | name, action, subjects and prior stored; outcome empty; not happened |
| Objects.Event.Result | objects.py:97-104 | defined exactly when the outcome is set, and then its result |
| Objects.Event.Record | objects.py:106-111 | defined exactly when the outcome is set, and then its record |
| Objects.Event.Details | objects.py:113-118 | defined exactly when the outcome is set, and then its details |
| Objects.Event.MakeHappen | objects.py:188-197 | happened afterwards; a performed outcome fills the slot, a raise keeps the old one; prior kept |
| Objects.Event.Perform | actions.py:213-232 | as `MakeHappen`, but the happened flag is left as it was |
| Actions.ActionPrior | actions.py:47-50 | the fields pass exactly when their sum is close to one |
| Actions.ActionPriorsPass | actions.py:126-190 | the catch, throw, tag and pitch priors pass |
| Actions.ContactPriorsPass | actions.py:363-376 | the contact-type, ball-in-play and out-of-park priors pass |
| Actions.SubPriorsPass | actions.py:377-382 | every entry of `base_prior_map` exists and passes |
| Actions.PitchMods | actions.py:310-326 | the batter's mod is 0.3 on a right guess and 0.2 otherwise, the pitcher's 0 or 0.1, since both location tenths go to the batter |
| Actions.PitchPriorShape | actions.py:278-280 | the pitch prior has the six labels, once each, summing to one |
| Actions.DampenedPitch | actions.py:289-300 | the dampened prior keeps the labels, sums to one, passes, and has no ball weight after a swing |
| Actions.ReweighSums | actions.py:328-340 | reweighing by non-negative mods keeps the labels and sums to one |
| Actions.PitchProbsPass | actions.py:289-340 | for any swing and non-negative mods the pitch prior passes every check and sums to one |
| Actions.StartEvent | actions.py:61-70 | already happened, no prior, the tag as result and record, no details |
| Actions.CatchOutcome | actions.py:128-135 | succeeds exactly for `yes`, `drop`, `miss`; the record names the fielder's position |
| Actions.ContactRecord | actions.py:410-413 | the contact record of a table pair: `Bunt`, `Foul`, `GDB` or `HR`, and `Hit:1` to `Hit:4` for single to four |
| Actions.PitchOutcome | actions.py:388-465 | succeeds exactly when the draws name a record; strike and ball turn into strikeout and walk on the last one; the record per label: `Ks`/`Kc` on two strikes and `Ss`/`Sc` otherwise by the swing, `W` on three balls and `B` otherwise, `W`, `WP` or `PB` for a wild pitch, `HBP`, `BK`, and the contact record of the drawn pair; `W` exactly for a ball or wild pitch on three balls |
| Actions.WalkOnlyOnFourBalls | actions.py:403-448 | the walk record is written exactly for a ball or a wild pitch on three balls |
| Actions.PitchOutcomeDecodes | actions.py:388-465 | replaying a pitch record changes the count as `PitchCount` says the pitch did |
| Actions.BalkIgnored | actions.py:456-459 | the balk record decodes to no effect |
| Actions.PerformPitch | actions.py:282-465 | happened; the prior becomes the reweighed pitch prior, which passes and sums to one; the outcome is `PitchOutcome` |
| Actions.ThrowOutcome | actions.py:154-162 | succeeds exactly for the four throw results; the record names thrower and target around the result |
| Actions.MoveOutcome | actions.py:174-183 | succeeds exactly for `move`, `steal`, `caught`; the record is `from:option:to` |
| Actions.MoveOutcomeDecodes | actions.py:174-183 | replaying a move record advances that runner, or empties the base left when caught |
| Actions.TagOutcome | actions.py:194-203 | succeeds exactly for `safe` and `out`; the record names tagger and runner around `tagsafe` or `tagout` |
| Actions.TagOutcomeDecodes | actions.py:194-203 | replaying a tag record adds an out exactly for a tag-out |
| Actions.ShiftOutcome | actions.py:213-232 | succeeds exactly for a fixed option, or for lead, sub and swap with enough players; the records and details of each |
| Actions.ShiftOutcomeDecodes | actions.py:213-232 | the fixed shift records replay as an out, a run for either side, or nothing |
| Actions.MarkerDecodes | logic.py:213-218 | the out and score markers add an out or a run for their side |
| Actions.SingleTokenIgnored | logic.py:261-270 | a one-token record that no list or template names changes nothing |
| Game.HitFollowsMoveN | game.py:326-343 | `play_hit(N)` leaves the bases that `move_n` gives for a hit of N bases |
| Game.WalkForces | game.py:485-494 | after a walk a runner moves only when forced, and the batter is on first |
| Game.BalkAdvancesAll | game.py:458-469 | a balk moves every runner up one base |
| Game.DoubleAdvances | game.py:544-555 | a ground-rule double scores second and third and puts first on third, the batter on second |
| Game.ReplayAppend | game.py:960-963 | replaying `a + b` is replaying `a`, then `b` from there if `a` went through |
| Game.ReplayStopsAt | game.py:960-963 | a replay that stopped at record `i` is the replay of the whole |
| Game.ReplayOneMore | game.py:960-963 | one more record after a replay that went through ends the longer replay as that record's update does |
| Game.TagOutCountsTwice | game.py:823-831 | replaying a tag-out's two records adds two outs and changes nothing else |
| Game.RunFromThirdCountsTwice | game.py:873-880 | replaying a run from third's two records adds two runs for the side at bat and empties third |
| Game.MoveAgreesWithReplay | game.py:862-894 | the locations after a move agree with the bases its record replays to, except that a caught stealer also empties the target base |
| Game.LoneRunnerWalkPushes | game.py:485-494 | a walk with a lone runner on first pushes `W`, the batter's move, the runner's move, in that order |
| Game.NewestFirstLosesBatter | game.py:960-963 | replaying that walk newest first ends with only second occupied, while the locations have first and second |
| Game.HitBasesRoundTrip | game.py:509-542 | a hit record gives back its number of bases |
| Game.HitRecordsBases | game.py:509-542 | each of the four hit records gives 1 to 4 bases |
| Game.StealersAt | game.py:366-370 | each base has at most one listed stealer: the runner on it, if stealing |
| Game.StealPriority | game.py:374-396 | the catcher goes after third's stealer, else second's, else first's |
| Game.CycleWraps | game.py:156-157 | `k` calls from spot `c` land on spot `(c + k) mod 9` |
| Game.CycleComesRound | game.py:156-157 | every nine calls bring the same batter back |
| Game.LastPitcherIsLast | game.py:916-918 | the pitcher found is a lineup pitcher with none after it, or the current one when the lineup has none |
| Game.WinIsDecided | game.py:239-257 | a tie never wins; the two sides never both win; the away side never wins before the bottom of the ninth |
| Game.BaseBallGame.constructor | game.py:151-163 | the log holds the start record; all-zero state; nobody placed or at bat; both order cursors at zero |
| Game.BaseBallGame.Play | game.py:955-964 | the state is the replay of the pending records and the log loses what was taken; `Done` exactly when the replay went through and only the sentinel is left |
| Game.BaseBallGame.Unwind | game.py:960-964 | the replay loop, with the same contract once the sentinel is at the oldest end |
| Game.BaseBallGame.DecodeNewest | game.py:961-963 | the newest record is removed and the replay is extended by it |
| Game.BaseBallGame.AddRecord | game.py:94-105 | the record goes on the newest end |
| Game.BaseBallGame.Shift | game.py:833-855 | `Done` exactly when `ShiftOutcome` succeeds and the option is not `sub`; then its record is pushed, otherwise the log is unchanged; a lead sets the player's leadoff flag |
| Game.BaseBallGame.Marker | game.py:833-855 | a fixed marker's record is pushed |
| Game.BaseBallGame.Move | game.py:862-894 | `Done` exactly when `MoveOk`; then the runner is relocated and the move's records pushed; otherwise nothing changes |
| Game.BaseBallGame.MoveRunner | game.py:867-894 | the runner is relocated and the move's records pushed |
| Game.BaseBallGame.Tag | game.py:823-831 | `Done` exactly for `safe` and `out`; a tag-out pushes the out marker, then the tag record; otherwise the log is unchanged |
| Game.BaseBallGame.Throw | game.py:856-861 | `Done` exactly with both players and a throw result; then the throw record is pushed |
| Game.BaseBallGame.Catch | game.py:692-700 | `Done` exactly with a fielder and a catch result; then the catch record is pushed |
| Game.BaseBallGame.PlayHit | game.py:326-343 | third comes home, second and first advance by the chain, then the batter moves; batter done |
| Game.BaseBallGame.Force | game.py:485-506 | the forced chain of a walk or wild pitch |
| Game.BaseBallGame.OnBalkOrHbp | game.py:458-469 | every runner up one base; a hit batter takes first and is done; the pitch record goes last |
| Game.BaseBallGame.OnWalk | game.py:485-494 | forced runners move, the batter takes first and is done, the pitch record goes last |
| Game.BaseBallGame.OnWild | game.py:496-506 | forced runners move; the batter is done only on four balls |
| Game.BaseBallGame.OnGroundRuleDouble | game.py:544-555 | third and second score, first goes to third, the batter to second |
| Game.BaseBallGame.OnHomeRun | game.py:557-562 | every runner and the batter come home; the pitch record goes last |
| Game.BaseBallGame.OnHit | game.py:509-542 | a catch is an out with the drawn word and the fielder's position; otherwise a hit for the record's bases |
| Game.BaseBallGame.OnBunt | game.py:564-576 | a catch is a ground out; otherwise the bunt is played as a single |
| Game.BaseBallGame.OnFoul | game.py:578-590 | a catch is a fly out; the foul record is pushed once more either way, so an uncaught foul is logged twice |
| Game.BaseBallGame.OnCalledPitch | game.py:471-483 | the pitch record (and a strikeout's out marker) first, then the catcher's play: a missing catcher or bad draw raises with the pitch records in; without a steal play only the catch record follows; with one, the status condition of the steal, and on success the new locations and the steal records (`StealPushes`) on top of the catch record, with nothing more on failure |
| Game.BaseBallGame.OnPitch | game.py:456-596 | an unknown label raises and changes nothing; batter done after hit-by-pitch, strikeout, walk, double and home run |
| Game.BaseBallGame.OnAdvancePitch | game.py:458-562 | per label, the new locations and log: balk and hit-by-pitch move every runner up one (the hit batter to first), a walk and a wild pitch move the forced runners (the walked batter to first), a ground-rule double and a home run move runners and batter by their bases, each with the pitch record last; the batter is done after all but balk and wild pitch |
| Game.BaseBallGame.OnFielded | game.py:509-590 | `Done` exactly with a fielder and a catch result, and nothing changes otherwise; per label, the new log and locations: a catch pushes the catch record, the out record (`GO` for a bunt, the drawn word for a hit, `FO` for a foul) and the out marker; an uncaught hit or bunt moves runners and batter by its bases; a foul never moves anyone and its record lands in the log twice when not caught |
| Game.BaseBallGame.CaughtOut | game.py:526-528 | the out record, then the out marker; the batter is done |
| Game.BaseBallGame.PlayOnStealers | game.py:374-415 | without a clean catch or stealers nothing changes; otherwise the lead stealer's attempt decides the status, and on success the locations and the log (`StealPushes` on top of the old log); a failed attempt changes nothing |
| Game.BaseBallGame.CollectStealers | game.py:366-370 | the stealing runners on first, second and third, in that order |
| Game.BaseBallGame.ChooseStealer | game.py:374-396 | the chosen stealer is `StealTarget`, running one base, with the covering base named |
| Game.BaseBallGame.AttemptSteal | game.py:397-415 | a steal of home is decided by the tag; any other steal succeeds once the throw is made; on success the log gains `StealPushes`, and a failure changes nothing |
| Game.BaseBallGame.StealHome | game.py:397-398 | the tag, then `caught` on a tag-out and `steal` otherwise: the out marker, the tag record and the move records in that order, the runner moved from third to home |
| Game.BaseBallGame.StealBase | game.py:399-415 | the throw to the covering fielder, then the steal move: the throw record and the move records, the runner moved one base; a missing fielder or bad throw draw raises and changes nothing |
| Game.BaseBallGame.CatcherCatch | game.py:359-415 | a missing catcher or a bad draw raises and changes nothing; the catch record goes in; on a clean catch with stealers the lead one is played on, with the status condition, the locations and the steal records on top of the catch record |
| Game.BaseBallGame.Win | game.py:239-257 | `won` exactly when `HomeWins` or `AwayWins`; the message names winner, loser and margin |
| Game.BaseBallGame.Upkeep | game.py:932-936 | count and bases cleared, then the half and the half-inning count `h` set (the source stores the inning number `I` as a float, 1, 1.5, 2, ...; here `h` = 2·I, an integer); `Done` exactly when both `update`s pass |
| Game.BaseBallGame.FindPitcher | game.py:916-918 | the loop returns `LastPitcher` |
| Game.BaseBallGame.NextBatter | game.py:910-925 | an unfinished batter stays; a finished one is replaced by the next spot, after a soft reset; only the batting side's cursor moves; a failed reset changes no cursor and no batter |
| Game.BaseBallGame.ChangeLineup | game.py:897-930 | the batter half, then the fielding pitcher becomes `LastPitcher`: a finished batter gets the soft reset and only the batting side's cursor moves; `Raised` keeps the batter and leaves them done; `AssertFailed` changes no batter and no cursor |

## Left out

- Pick-off throws and pitch-outs (`throw_arc` at game.py:345-357 and
  game.py:430-451): the pick-off decision is modelled in `Players`, but
  the throw sequence it starts in the game is not.
- Double plays, triple plays and the sacrifice fly (game.py:598-683):
  the tail of the pitch branch, marked broken in the source, is not
  modelled.
- The catch branch's error recovery (game.py:692-821): no catch result
  is `error`, so it is never reached.
- `sub_players` and `swap_players` (game.py:200-237): roster code. The
  shift branch that calls them always raises (sub) or changes nobody
  (swap), and the model reflects that.
- `initial_upkeep` player placement (game.py:166-191) and
  `populate_random_roster`: roster setup. Placement is a fixed map from
  position to location; the random roster comes from draws. The
  constructor starts with nobody placed, and every method is stated for
  any `locations`.
- `has_name` (objects.py:132-141) and the dispatch on the event's class
  name in `play_next_state` (game.py:428-862): each event kind is its
  own method here, so the name test is not needed.
- The console loop, logging and debug messages, `app.py`, `ninja.py`,
  `setup.py` and `game_exceptions.py`: I/O and packaging. Exceptions
  are the `Raised` and `AssertFailed` statuses.
- Floating point: probabilities are reals, so `isclose` tolerance is
  modelled but rounding is not.
- Random draws are parameters. The time field of a game record is
  dropped, since no core operation reads it.
- The `ChainMap` layering of an event's contexts: an event holds its
  subjects, prior and outcome directly.
- Dead helpers never called by the core: `avg`, `sample_on`,
  `gappy_to_probs`, `categorical_dist`, `get_action_branch`,
  `bbdata`, `inverse_logistic`.
- Game.BaseBallGame.OnHit: the out word (`FO`, `U`, `LO`, `GO`) is drawn
  by the source; here it is a parameter. The record must be one of the
  four hit records, which is what a pitch writes for those labels.
- Game.BaseBallGame.PlayHit: requires `1 <= N <= 4`; the source only
  calls it with those values.
- Game.BaseBallGame.AttemptSteal: the throw's result is compared with
  `yes`, which no throw produces, so a stealer on first or second
  always makes it. This is modelled as written.
- Game.BaseBallGame.OnPitch: its own contract states only the unknown
  label, which labels finish the batter, and that the runner-moving
  labels push records. OnAdvancePitch, OnCalledPitch and OnFielded, which
  it calls, state the new log and locations per label.
- Game.BaseBallGame.Play: models the replay of the log (game.py:955-964).
  The lineup change and the pitch that start the turn (game.py:941-947)
  are ChangeLineup and OnPitch; no member runs the three in a row.
- Text.ParseInt: Python's `int()` also strips surrounding whitespace,
  accepts single underscores between digits and accepts non-ASCII
  decimal digits; the model rejects those. The core decodes only the
  records it writes itself with `str.format` on integers, which never
  hold them (StrRoundTrip), but a record such as ` 1:move:2` would
  decode in the source and is `Unparsable` here.
- Players.Player.constructor: requires the position name to be in the
  position list, which the source asserts (player.py:35, player.py:80);
  every caller passes a listed name.
- The half of an inning is the two-valued `Order` type, so the
  assertion on the order at logic.py:157 and the `ValueError` for an
  unknown order at logic.py:276-277 cannot be reached in the model;
  every caller passes `top` or `bottom`.
- Players.Player.Repr: states only the `Player(` prefix of the text, not
  the whole text.
- `PitchEvent.build_outcome_from_hit_result` (actions.py:467-486): never
  called by the core.
- The `if self._steal: self._leadoff` step of a steal decision
  (player.py:189-190) reads a flag and does nothing, and is left out.
