/**
  The shot-resolution rules of the level (src/level.cpp, `change_state`),
  stated declaratively: the shooter's group, fouls, the potted-ball
  outcomes, the eight-ball verdict and the assignment of groups.  The level
  method that runs these rules step by step is proved to agree with `Judge`.
*/
module Rules {
  import opened Bodies

  /** The group of object balls a player must pot. */
  datatype Group = Undecided | Solids | Stripes

  /** The state the game asks to switch to (`GameState::next_state`); None asks for nothing. */
  datatype GameResult = None | Won | Lost | Quit

  const CueId := 0
  const EightId := 8

  /** `team_color`: 0 undecided, 1 player 1 pots solids, 2 player 1 pots stripes. */
  predicate ValidTeam(team: int) { 0 <= team <= 2 }

  predicate IsSolid(id: int) { 0 < id < 8 }
  predicate IsStripe(id: int) { 8 < id < 16 }

  predicate InGroup(id: int, g: Group)
  {
    match g
    case Undecided => false
    case Solids => IsSolid(id)
    case Stripes => IsStripe(id)
  }

  /** The group the player to shoot owns under a team colour. */
  function ShooterGroup(player1: bool, team: int): (g: Group)
    requires ValidTeam(team)
    ensures g == Undecided <==> team == 0
    ensures team != 0 ==> (g == Solids <==> (team == 1) == player1)
  {
    if team == 1 then (if player1 then Solids else Stripes)
    else if team == 2 then (if player1 then Stripes else Solids)
    else Undecided
  }

  /** The team colour under which the given player owns group g. */
  function TeamFor(player1: bool, g: Group): (team: int)
    requires g != Undecided
    ensures team == 1 || team == 2
    ensures ShooterGroup(player1, team) == g
    ensures ShooterGroup(!player1, team) != g
  {
    if (g == Solids) == player1 then 1 else 2
  }

  /**
    A foul on the first hit: the shooter's group is known and the first
    object ball struck (an id in 1..15) is not one of theirs, the
    eight-ball included.
  */
  predicate IsFoul(g: Group, firstHit: int)
  {
    g != Undecided && 0 < firstHit < 16 && !InGroup(firstHit, g)
  }

  predicate SomePotted(pockets: seq<int>, g: Group)
  {
    exists k :: 0 <= k < |pockets| && InGroup(pockets[k], g)
  }

  /** Some ball of group g is still on the table. */
  predicate GroupRemains(balls: seq<Ball>, g: Group)
  {
    exists k :: 0 <= k < |balls| && balls[k].visible && InGroup(balls[k].id, g)
  }

  /** The group a shot claims: every potted ball is a solid, or every one a stripe. */
  function Claimed(pockets: seq<int>): (g: Group)
    ensures |pockets| > 0 ==> (g == Solids <==> forall k :: 0 <= k < |pockets| ==> IsSolid(pockets[k]))
    ensures |pockets| > 0 ==> (g == Stripes <==> forall k :: 0 <= k < |pockets| ==> IsStripe(pockets[k]))
  {
    // The first potted ball is not both a solid and a stripe, so no non-empty shot is all of both.
    assert |pockets| > 0 ==> !(IsSolid(pockets[0]) && IsStripe(pockets[0]));
    if forall k :: 0 <= k < |pockets| ==> IsSolid(pockets[k]) then Solids
    else if forall k :: 0 <= k < |pockets| ==> IsStripe(pockets[k]) then Stripes
    else Undecided
  }

  /** What the rules decide about one shot, before the off-table checks. */
  datatype Verdict = Verdict(pass: bool, scratch: bool, team: int, result: GameResult)

  /**
    The rules of one shot.  `cur` is the shooter (true for player 1),
    `pockets` the ids potted during the shot in order, `firstHit` the first
    ball the cue ball touched and `balls` the object balls as they lie.
    The turn passes on a foul, on an empty shot, on a scratch, and when a
    player with a group pots none of it; the eight-ball decides the game
    only when none of these last three happened; a shot that pots only
    solids or only stripes gives the shooter that group while none is set.
  */
  function Judge(cur: bool, team: int, pockets: seq<int>, firstHit: int, balls: seq<Ball>): (v: Verdict)
    requires ValidTeam(team)
    ensures ValidTeam(v.team)
    // Fouls on the first hit, in the terms of the team colour.
    ensures team != 0 && (team == 1) == cur && 8 <= firstHit < 16 ==> v.pass
    ensures team != 0 && (team == 2) == cur && 0 < firstHit <= 8 ==> v.pass
    ensures firstHit <= 0 ==>
      (v.pass <==> |pockets| == 0 || CueId in pockets || (team != 0 && !SomePotted(pockets, ShooterGroup(cur, team))))
    // Potted balls.
    ensures |pockets| == 0 ==> v.pass && !v.scratch && v.result == None && v.team == team
    ensures CueId in pockets ==> v.pass && v.scratch && v.result == None
    ensures CueId !in pockets ==> !v.scratch
    ensures team != 0 && CueId !in pockets && !SomePotted(pockets, ShooterGroup(cur, team)) ==>
      v.pass && v.result == None
    // The eight-ball.
    ensures EightId !in pockets ==> v.result == None
    ensures EightId in pockets && CueId !in pockets && team == 0 ==> v.result == Lost
    ensures EightId in pockets && CueId !in pockets && team != 0 && SomePotted(pockets, ShooterGroup(cur, team)) ==>
      (v.result == Won <==> !GroupRemains(balls, ShooterGroup(cur, team))) &&
      (v.result == Lost <==> GroupRemains(balls, ShooterGroup(cur, team)))
    // Groups.
    ensures team != 0 ==> v.team == team
    ensures team == 0 && |pockets| > 0 && (forall k :: 0 <= k < |pockets| ==> IsSolid(pockets[k])) ==>
      v.team == (if cur then 1 else 2)
    ensures team == 0 && |pockets| > 0 && (forall k :: 0 <= k < |pockets| ==> IsStripe(pockets[k])) ==>
      v.team == (if cur then 2 else 1)
    ensures v.team != team ==> team == 0 && |pockets| > 0 && ShooterGroup(cur, v.team) == Claimed(pockets)
    // The turn stays exactly when none of the passing conditions holds.
    ensures !v.pass <==>
      !IsFoul(ShooterGroup(cur, team), firstHit) && |pockets| > 0 && CueId !in pockets &&
      (team == 0 || SomePotted(pockets, ShooterGroup(cur, team)))
  {
    var g := ShooterGroup(cur, team);
    var scratch := CueId in pockets;
    var missed := g != Undecided && !SomePotted(pockets, g);
    var eightDecides := EightId in pockets && !scratch && !missed;
    var claim := Claimed(pockets);
    Verdict(
      pass := IsFoul(g, firstHit) || |pockets| == 0 || scratch || missed,
      scratch := scratch,
      team := if team == 0 && |pockets| > 0 && claim != Undecided then TeamFor(cur, claim) else team,
      result := if !eightDecides then None
                else if g != Undecided && !GroupRemains(balls, g) then Won
                else Lost)
  }
}
