/**
 * The settlement rules of the processing worker: the four per-market result
 * functions that turn a locked-in selection and a final score record into a leg
 * status, the category dispatch, and the first-match-wins rule that derives a parent
 * bet's outcome from the statuses of its legs.
 *
 * Scores compare with JavaScript's semantics: `null` counts as 0 in `<`/`>` and in
 * `Math.max`, but `null === 0` is false.  An absent `points` behaves like `NaN`: it
 * equals nothing and every comparison with it is false.
 */
module Settlement {
  import opened Wrappers
  import opened Records
  import opened Utils

  /** The numeric value of a score in a relational comparison or in `Math.max`. */
  function NumOf(s: Option<int>): int
  {
    if s.None? then 0 else s.value
  }

  function Abs(x: real): real
  {
    if x < 0.0 then -x else x
  }

  /** `scores.find(team => team.name === name)?.score`: `None` is `undefined` (no such entrant), `Some(None)` a `null` score. */
  function ScoreOf(scores: seq<TeamScore>, name: string): (r: Option<Option<int>>)
    ensures r.None? <==> forall i :: 0 <= i < |scores| ==> scores[i].name != name
    ensures r.Some? ==> exists i :: 0 <= i < |scores| && scores[i].name == name && scores[i].score == r.value
  {
    if scores == [] then None
    else if scores[0].name == name then Some(scores[0].score)
    else
      var rest := ScoreOf(scores[1..], name);
      assert forall i :: 1 <= i < |scores| ==> scores[i] == scores[1..][i - 1];
      rest
  }

  /** A score that is neither `undefined` nor `null` (the `== null` test). */
  predicate Present(s: Option<Option<int>>)
  {
    s.Some? && s.value.Some?
  }

  // ---------------------------------------------------------------- h2h

  /** `checkH2HBetResult`: the selection is a team name, or the word `"draw"`. */
  function CheckH2HBetResult(d: BetDetail, g: Game): (r: Status)
    ensures r != Redeem
    ensures r == Pending <==> !g.completed
    ensures r == Failed <==> g.completed && (ScoreOf(g.scores, g.homeTeam).None? || ScoreOf(g.scores, g.awayTeam).None?)
    ensures r == Draw ==> d.betOn.name != "draw"
  {
    if !g.completed then Pending
    else
      var home := ScoreOf(g.scores, g.homeTeam);
      var away := ScoreOf(g.scores, g.awayTeam);
      if home.None? || away.None? then Failed
      else if home.value == away.value then (if d.betOn.name == "draw" then Won else Draw)
      else
        var winner := if NumOf(home.value) > NumOf(away.value) then g.homeTeam else g.awayTeam;
        if d.betOn.name == winner then Won else Lost
  }

  /** Two final scores were reported for the game's home and away teams. */
  predicate BothScored(g: Game)
  {
    g.completed && Present(ScoreOf(g.scores, g.homeTeam)) && Present(ScoreOf(g.scores, g.awayTeam))
  }

  function HomeScore(g: Game): int
    requires BothScored(g)
  {
    ScoreOf(g.scores, g.homeTeam).value.value
  }

  function AwayScore(g: Game): int
    requires BothScored(g)
  {
    ScoreOf(g.scores, g.awayTeam).value.value
  }

  /** With two scores reported, a tie pays only the literal selection `"draw"`, and otherwise exactly the higher-scoring team wins. */
  lemma H2HDecided(d: BetDetail, g: Game)
    requires BothScored(g)
    ensures HomeScore(g) == AwayScore(g) ==>
      CheckH2HBetResult(d, g) == (if d.betOn.name == "draw" then Won else Draw)
    ensures HomeScore(g) > AwayScore(g) ==>
      (CheckH2HBetResult(d, g) == Won <==> d.betOn.name == g.homeTeam)
    ensures HomeScore(g) < AwayScore(g) ==>
      (CheckH2HBetResult(d, g) == Won <==> d.betOn.name == g.awayTeam)
    ensures HomeScore(g) != AwayScore(g) ==> CheckH2HBetResult(d, g) in {Won, Lost}
  {
  }

  /** The capitalised selection `'Draw'` that aggregation tests for never wins a tied h2h leg: it settles as `draw`. */
  lemma H2HCapitalDrawIsNotWon(d: BetDetail, g: Game)
    requires BothScored(g) && HomeScore(g) == AwayScore(g)
    requires d.betOn.name == "Draw"
    ensures CheckH2HBetResult(d, g) == Draw
  {
  }

  /** Two selections on different names cannot both win the same h2h game. */
  lemma H2HOneWinner(a: BetDetail, b: BetDetail, g: Game)
    requires a.betOn.name != b.betOn.name
    ensures !(CheckH2HBetResult(a, g) == Won && CheckH2HBetResult(b, g) == Won)
  {
  }

  // ---------------------------------------------------------------- spreads

  /** The spread line is defined and negative (`spreadLine < 0`). */
  predicate Favorite(p: Option<real>)
  {
    p.Some? && p.value < 0.0
  }

  /** `checkSpreadBetResult`: the selection is a team and `points` its handicap line. */
  function CheckSpreadBetResult(d: BetDetail, g: Game): (r: Status)
    ensures r in {Won, Lost, Draw, Pending, Failed}
    ensures r == Pending <==> !g.completed
    ensures r == Failed <==> g.completed && !BothScored(g)
    ensures r == Won ==> d.betOn.name in {g.homeTeam, g.awayTeam}
    ensures r == Won ==> d.betOn.points.Some?
  {
    if !g.completed then Pending
    else
      var home := ScoreOf(g.scores, g.homeTeam);
      var away := ScoreOf(g.scores, g.awayTeam);
      if !Present(home) || !Present(away) then Failed
      else
        var diff := (home.value.value - away.value.value) as real;
        var line := d.betOn.points;
        var name := d.betOn.name;
        if line.Some? && Abs(diff) == Abs(line.value) then Draw
        else if Favorite(line) then
          if name == g.homeTeam && diff > Abs(line.value) then Won
          else if name == g.awayTeam && diff < -Abs(line.value) then Won
          else Lost
        else if name == g.homeTeam && line.Some? && diff >= line.value then Won
        else if name == g.awayTeam && line.Some? && diff <= line.value then Won
        else Lost
  }

  /** The spread rule on a scored game, branch by branch: the push test on |d| = |points| first, then the favourite or underdog comparison. */
  lemma SpreadDecided(d: BetDetail, g: Game)
    requires BothScored(g) && d.betOn.points.Some?
    ensures var diff := (HomeScore(g) - AwayScore(g)) as real;
      var p := d.betOn.points.value;
      var r := CheckSpreadBetResult(d, g);
      (Abs(diff) == Abs(p) ==> r == Draw) &&
      (Abs(diff) != Abs(p) && p < 0.0 ==>
        (r == Won <==> (d.betOn.name == g.homeTeam && diff > -p) || (d.betOn.name == g.awayTeam && diff < p))) &&
      (Abs(diff) != Abs(p) && p >= 0.0 ==>
        (r == Won <==> (d.betOn.name == g.homeTeam && diff >= p) || (d.betOn.name == g.awayTeam && diff <= p))) &&
      (Abs(diff) != Abs(p) ==> r in {Won, Lost})
  {
  }

  /** A leg with no line never wins a spread market: it loses once the game is scored. */
  lemma SpreadWithoutLineLoses(d: BetDetail, g: Game)
    requires BothScored(g) && d.betOn.points.None?
    ensures CheckSpreadBetResult(d, g) == Lost
  {
  }

  /**
   * The two sides of one handicap, home at `-p` and away at `+p` with `p > 0`, settle
   * complementarily: both push, or exactly one of them wins and the other loses.
   */
  lemma SpreadSidesComplementary(home: BetDetail, away: BetDetail, g: Game, p: real)
    requires BothScored(g) && g.homeTeam != g.awayTeam && p > 0.0
    requires home.betOn.name == g.homeTeam && home.betOn.points == Some(-p)
    requires away.betOn.name == g.awayTeam && away.betOn.points == Some(p)
    ensures var h := CheckSpreadBetResult(home, g);
      var a := CheckSpreadBetResult(away, g);
      (h == Draw && a == Draw) || (h == Won && a == Lost) || (h == Lost && a == Won)
  {
  }

  /** A home underdog at `+p` that ends level or loses by less than `p` is graded `lost`: the home side needs d ≥ p. */
  lemma SpreadHomeUnderdogNeedsMargin(d: BetDetail, g: Game, p: real)
    requires BothScored(g) && g.homeTeam != g.awayTeam
    requires p > 0.0 && d.betOn.name == g.homeTeam && d.betOn.points == Some(p)
    requires var diff := (HomeScore(g) - AwayScore(g)) as real; -p < diff < p
    ensures CheckSpreadBetResult(d, g) == Lost
  {
  }

  // ---------------------------------------------------------------- totals

  /** `checkTotalsBetResult`: the selection is `"Over"` or `"Under"` and `points` the total line. */
  function CheckTotalsBetResult(d: BetDetail, g: Game): (r: Status)
    ensures r in {Won, Lost, Draw, Pending, Failed}
    ensures r == Failed <==> g.completed && (!BothScored(g) || HomeScore(g) < 0 || AwayScore(g) < 0)
    ensures r == Pending <==> !g.completed || (!(r in {Failed, Draw}) && d.betOn.name !in {"Over", "Under"})
    ensures r == Won ==> d.betOn.name in {"Over", "Under"} && d.betOn.points.Some?
  {
    if !g.completed then Pending
    else
      var home := ScoreOf(g.scores, g.homeTeam);
      var away := ScoreOf(g.scores, g.awayTeam);
      if !Present(home) || !Present(away) then Failed
      else if home.value.value < 0 || away.value.value < 0 then Failed
      else
        var total := (home.value.value + away.value.value) as real;
        var line := d.betOn.points;
        if line.Some? && total == line.value then Draw
        else if d.betOn.name == "Over" then (if line.Some? && total > line.value then Won else Lost)
        else if d.betOn.name == "Under" then (if line.Some? && total < line.value then Won else Lost)
        else Pending
  }

  /** A valid final score settles `"Over"` as won iff the total exceeds the line, and `"Under"` iff it falls short. */
  lemma TotalsDecided(d: BetDetail, g: Game)
    requires BothScored(g) && HomeScore(g) >= 0 && AwayScore(g) >= 0 && d.betOn.points.Some?
    ensures var total := (HomeScore(g) + AwayScore(g)) as real;
      var line := d.betOn.points.value;
      var r := CheckTotalsBetResult(d, g);
      (total == line ==> r == Draw) &&
      (total != line && d.betOn.name == "Over" ==> (r == Won <==> total > line) && r in {Won, Lost}) &&
      (total != line && d.betOn.name == "Under" ==> (r == Won <==> total < line) && r in {Won, Lost})
  {
  }

  /** `"Over"` and `"Under"` on the same line settle complementarily: both push, or exactly one wins and the other loses. */
  lemma TotalsSidesComplementary(over: BetDetail, under: BetDetail, g: Game)
    requires over.betOn.name == "Over" && under.betOn.name == "Under"
    requires over.betOn.points == under.betOn.points && over.betOn.points.Some?
    requires BothScored(g) && HomeScore(g) >= 0 && AwayScore(g) >= 0
    ensures var o := CheckTotalsBetResult(over, g);
      var u := CheckTotalsBetResult(under, g);
      (o == Draw && u == Draw) || (o == Won && u == Lost) || (o == Lost && u == Won)
  {
  }

  // ---------------------------------------------------------------- outrights

  /** `Math.max(...scores.map(team => team.score))` for a non-empty field, with `null` as 0. */
  function MaxScore(scores: seq<TeamScore>): (m: int)
    requires |scores| > 0
    ensures forall i :: 0 <= i < |scores| ==> NumOf(scores[i].score) <= m
    ensures exists i :: 0 <= i < |scores| && NumOf(scores[i].score) == m
  {
    if |scores| == 1 then NumOf(scores[0].score)
    else
      var rest := MaxScore(scores[1..]);
      assert forall i :: 1 <= i < |scores| ==> scores[i] == scores[1..][i - 1];
      if NumOf(scores[0].score) >= rest then NumOf(scores[0].score) else rest
  }

  /** `scores.filter(team => team.score === max)`: a `null` score never equals a number. */
  function Leaders(scores: seq<TeamScore>, max: int): (r: seq<TeamScore>)
    ensures |r| <= |scores|
    ensures forall t :: t in r <==> t in scores && t.score == Some(max)
  {
    if scores == [] then []
    else (if scores[0].score == Some(max) then [scores[0]] else []) + Leaders(scores[1..], max)
  }

  /** Some entrant's name is `name` (`some(team => team.name === betOn)`). */
  predicate NamedAmong(ts: seq<TeamScore>, name: string)
  {
    exists i :: 0 <= i < |ts| && ts[i].name == name
  }

  /** When a selection with a valid score exists, the maximum is attained by a non-null score, so the leaders are never empty. */
  lemma LeadersNonEmpty(scores: seq<TeamScore>, name: string)
    requires |scores| > 0
    requires ScoreOf(scores, name).Some? && ScoreOf(scores, name).value.Some? && ScoreOf(scores, name).value.value >= 0
    ensures |Leaders(scores, MaxScore(scores))| > 0
  {
    var m := MaxScore(scores);
    var v := ScoreOf(scores, name).value.value;
    var i :| 0 <= i < |scores| && NumOf(scores[i].score) == m;
    var j :| 0 <= j < |scores| && scores[j].name == name && scores[j].score == Some(v);
    if scores[i].score.Some? {
      assert scores[i] in Leaders(scores, m);
    } else {
      assert NumOf(scores[j].score) <= m == 0;
      assert v == m;
      assert scores[j] in scores;
      assert scores[j] in Leaders(scores, m);
    }
  }

  /** `checkOutrightsBetResult`: the selection is one entrant of a field. */
  function CheckOutrightsBetResult(d: BetDetail, g: Game): (r: Status)
    ensures r in {Won, Lost, Draw, Pending, Failed}
    ensures r == Pending <==> !g.completed
    ensures var s := ScoreOf(g.scores, d.betOn.name);
      r == Failed <==> g.completed && (s.None? || s.value.None? || s.value.value < 0)
  {
    if !g.completed then Pending
    else
      var s := ScoreOf(g.scores, d.betOn.name);
      if s.None? then Failed
      else if s.value.None? || s.value.value < 0 then Failed
      else
        var leaders := Leaders(g.scores, MaxScore(g.scores));
        LeadersNonEmpty(g.scores, d.betOn.name);
        if |leaders| > 1 then (if NamedAmong(leaders, d.betOn.name) then Draw else Lost)
        else if leaders[0].name == d.betOn.name then Won
        else Lost
  }

  /** The outright rule on a valid selection: a shared maximum is a draw for its holders, a sole maximum wins for its holder only. */
  lemma OutrightsDecided(d: BetDetail, g: Game)
    requires g.completed
    requires var s := ScoreOf(g.scores, d.betOn.name); s.Some? && s.value.Some? && s.value.value >= 0
    ensures var leaders := Leaders(g.scores, MaxScore(g.scores));
      var r := CheckOutrightsBetResult(d, g);
      |leaders| >= 1 &&
      (|leaders| > 1 ==> (r == Draw <==> NamedAmong(leaders, d.betOn.name)) && r in {Draw, Lost}) &&
      (|leaders| == 1 ==> (r == Won <==> leaders[0].name == d.betOn.name) && r in {Won, Lost})
  {
    LeadersNonEmpty(g.scores, d.betOn.name);
  }

  /** Two selections on different entrants cannot both win the same outright market. */
  lemma OutrightsOneWinner(a: BetDetail, b: BetDetail, g: Game)
    requires a.betOn.name != b.betOn.name
    ensures !(CheckOutrightsBetResult(a, g) == Won && CheckOutrightsBetResult(b, g) == Won)
  {
  }

  // ---------------------------------------------------------------- dispatch

  /** The `switch` on the leg's category; `None` is the `default` branch, which returns without settling. */
  function ResultFor(d: BetDetail, g: Game): (r: Option<Status>)
    ensures r.None? <==> d.category !in {H2H, SPREAD, TOTAL, OUTRIGHT}
    ensures d.category == H2H ==> r == Some(CheckH2HBetResult(d, g))
    ensures d.category == SPREAD ==> r == Some(CheckSpreadBetResult(d, g))
    ensures d.category == TOTAL ==> r == Some(CheckTotalsBetResult(d, g))
    ensures d.category == OUTRIGHT ==> r == Some(CheckOutrightsBetResult(d, g))
    ensures r.Some? ==> r.value != Redeem && (!g.completed ==> r.value == Pending)
  {
    if d.category == H2H then Some(CheckH2HBetResult(d, g))
    else if d.category == SPREAD then Some(CheckSpreadBetResult(d, g))
    else if d.category == TOTAL then Some(CheckTotalsBetResult(d, g))
    else if d.category == OUTRIGHT then Some(CheckOutrightsBetResult(d, g))
    else None
  }

  // ---------------------------------------------------------------- aggregation

  /** The six branches of `checkAndUpdateParentBet`, in the order they are tried. */
  datatype ParentOutcome = SettledLost | SettledFailed | DrawNotBacked | SettledWon | SettledDraw | Unresolved

  /** `legs.some(detail => detail.status === s)`. */
  predicate AnyStatus(legs: seq<BetDetail>, s: Status)
  {
    exists i :: 0 <= i < |legs| && legs[i].status == s
  }

  /** `legs.every(detail => detail.status === s)`. */
  predicate AllStatus(legs: seq<BetDetail>, s: Status)
  {
    forall i :: 0 <= i < |legs| ==> legs[i].status == s
  }

  /** `legs.every(detail => detail.bet_on.name === 'Draw')`. */
  predicate AllNamedDraw(legs: seq<BetDetail>)
  {
    forall i :: 0 <= i < |legs| ==> legs[i].betOn.name == "Draw"
  }

  /** The first-match-wins classification of a parent bet from its found legs. */
  function Classify(legs: seq<BetDetail>): (r: ParentOutcome)
    ensures r == SettledLost <==> AnyStatus(legs, Lost)
    ensures r == SettledFailed <==> !AnyStatus(legs, Lost) && AnyStatus(legs, Failed)
    ensures r == DrawNotBacked <==>
      !AnyStatus(legs, Lost) && !AnyStatus(legs, Failed) && AnyStatus(legs, Draw) && !AllNamedDraw(legs)
    ensures r == SettledWon <==> AllStatus(legs, Won)
    ensures r == SettledDraw <==> |legs| > 0 && AllStatus(legs, Draw) && AllNamedDraw(legs)
  {
    if AnyStatus(legs, Lost) then SettledLost
    else if AnyStatus(legs, Failed) then SettledFailed
    else if AnyStatus(legs, Draw) && !AllNamedDraw(legs) then DrawNotBacked
    else if AllStatus(legs, Won) then
      assert |legs| > 0 ==> legs[0].status == Won;
      SettledWon
    else if AllStatus(legs, Draw) && AllNamedDraw(legs) then SettledDraw
    else Unresolved
  }

  /** Only the won and draw branches pay out. */
  predicate Pays(o: ParentOutcome)
  {
    o == SettledWon || o == SettledDraw
  }

  /** The status the parent is written with, if the branch writes one. */
  function ParentStatus(o: ParentOutcome): (r: Option<Status>)
    ensures r.None? <==> o == Unresolved
    ensures r == Some(Lost) <==> o == SettledLost || o == DrawNotBacked
  {
    match o
    case SettledLost => Some(Lost)
    case SettledFailed => Some(Failed)
    case DrawNotBacked => Some(Lost)
    case SettledWon => Some(Won)
    case SettledDraw => Some(Draw)
    case Unresolved => None
  }

  /** A parent is paid only when no leg is lost, failed or still pending. */
  lemma PaidParentHasNoOpenLeg(legs: seq<BetDetail>)
    requires Pays(Classify(legs))
    ensures !AnyStatus(legs, Lost) && !AnyStatus(legs, Failed) && !AnyStatus(legs, Pending)
  {
  }

  /** A drawn leg whose selection is a team name, even a single-leg bet, makes the parent lost. */
  lemma DrawnTeamLegLosesParent(leg: BetDetail)
    requires leg.status == Draw && leg.betOn.name != "Draw"
    ensures Classify([leg]) == DrawNotBacked && ParentStatus(Classify([leg])) == Some(Lost)
  {
    assert [leg][0].status == Draw;
    assert AnyStatus([leg], Draw);
  }

  /** A tied h2h game settles a lone `'Draw'` selection as `draw`, and the parent is then paid as drawn. */
  lemma TiedDrawSelectionPaysAsDraw(leg: BetDetail, g: Game)
    requires BothScored(g) && HomeScore(g) == AwayScore(g)
    requires leg.category == H2H && leg.betOn.name == "Draw"
    ensures var settled := leg.(status := CheckH2HBetResult(leg, g));
      settled.status == Draw && Classify([settled]) == SettledDraw && Pays(Classify([settled]))
  {
    var settled := leg.(status := CheckH2HBetResult(leg, g));
    assert AllStatus([settled], Draw);
  }

  /** A leg still pending on a parent with no lost, failed or drawn leg leaves the parent unresolved. */
  lemma PendingLegKeepsParentOpen(legs: seq<BetDetail>, i: int)
    requires 0 <= i < |legs| && legs[i].status == Pending
    requires !AnyStatus(legs, Lost) && !AnyStatus(legs, Failed) && !AnyStatus(legs, Draw)
    ensures Classify(legs) == Unresolved
  {
  }
}
