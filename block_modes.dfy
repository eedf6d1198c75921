/**
 * The positioning and extruder modes across the inserted block. The block
 * switches the extruder to relative mode (M83) before it retracts and back
 * (M82) after it re-extrudes, and wraps each motor-locking jog in G91/G90,
 * but only when the printer was in absolute mode to begin with. Here the
 * four mode lines are read as the firmware would, and the block is shown
 * to hand the printer back in the modes it found it in, having extruded
 * only in relative extruder mode, jogged only in relative positioning, and
 * moved the head (lift, park, return) in the positioning mode it found.
 * The head moves carry absolute coordinates and are emitted without a
 * G90 of their own, so they land where they are meant to only when the
 * printer was in absolute positioning at the triggering line.
 */
module BlockModes {
  import opened Settings
  import opened PauseBlock

  datatype Modes = Modes(positionAbsolute: bool, extruderAbsolute: bool)

  /** The effect of one block line on the modes. */
  function ModeStep(m: Modes, line: string): Modes {
    if line == PositionRelative then m.(positionAbsolute := false)
    else if line == PositionAbsolute then m.(positionAbsolute := true)
    else if line == ExtruderRelative then m.(extruderAbsolute := false)
    else if line == ExtruderAbsolute then m.(extruderAbsolute := true)
    else m
  }

  function ModesAfter(m: Modes, lines: seq<string>): Modes
    decreases |lines|
  {
    if lines == [] then m else ModesAfter(ModeStep(m, lines[0]), lines[1..])
  }

  /** A move of the extruder alone (`G1 E…`), whose amount is meant relatively. */
  predicate Extrudes(line: string) {
    |line| >= 4 && line[0] == 'G' && line[1] == '1' && line[2] == ' ' && line[3] == 'E'
  }

  /** The motor-locking jog, whose amounts are meant relatively. */
  predicate Jogs(line: string) {
    line == JogDown || line == JogUp
  }

  /**
   * A G1 move of the head to a rendered position, meant absolutely: a `G1`
   * line whose first word is not `E` and whose first coordinate is rendered
   * with at least four characters (as `%f` always renders one). In the block
   * these are exactly the lift, park and return moves (`HeadMoveLines`);
   * the jogs' short relative amounts and the extruder moves are not.
   */
  predicate MovesHead(line: string) {
    |line| >= 9 && line[0] == 'G' && line[1] == '1' && line[2] == ' ' && line[3] != 'E' &&
    line[7] != ' ' && line[8] != ' '
  }

  /**
   * Each line is read in the mode its amounts assume: extruder moves in
   * relative extruder mode, jogs in relative positioning, and head moves
   * in the positioning mode `p` the printer was in at the triggering line.
   */
  predicate Safe(p: bool, m: Modes, lines: seq<string>)
    decreases |lines|
  {
    lines == [] ||
    ((Extrudes(lines[0]) ==> !m.extruderAbsolute) &&
     (Jogs(lines[0]) ==> !m.positionAbsolute) &&
     (MovesHead(lines[0]) ==> m.positionAbsolute == p) &&
     Safe(p, ModeStep(m, lines[0]), lines[1..]))
  }

  /**
   * Lines of the block that change no mode: comments, M commands other
   * than M82/M83, G92, and head moves (which depend on the positioning
   * mode, see `Safe`).
   */
  predicate Inert(line: string) {
    |line| >= 9 &&
    (line[0] == ';' ||
     (line[0] == 'M' && line[1] != '8') ||
     (line[0] == 'G' && line[1] == '9' && line[2] == '2') ||
     MovesHead(line))
  }

  /** A line that is inert, or an extruder move read in relative extruder mode. */
  predicate Quiet(m: Modes, line: string) {
    Inert(line) || (Extrudes(line) && !m.extruderAbsolute)
  }

  /** A quiet line is neither a mode line nor a jog. */
  lemma QuietLine(m: Modes, line: string)
    requires Quiet(m, line)
    ensures ModeStep(m, line) == m
    ensures !Jogs(line)
  {
    PositionRelativeLoud(m);
    PositionAbsoluteLoud(m);
    ExtruderRelativeLoud(m);
    ExtruderAbsoluteLoud(m);
    JogDownLoud(m);
    JogUpLoud(m);
  }

  lemma PositionRelativeLoud(m: Modes)
    ensures !Quiet(m, PositionRelative)
  {
    assert PositionRelative[0] == 'G' && PositionRelative[1] == '9' && PositionRelative[2] == '1';
  }

  lemma PositionAbsoluteLoud(m: Modes)
    ensures !Quiet(m, PositionAbsolute)
  {
    assert PositionAbsolute[0] == 'G' && PositionAbsolute[1] == '9' && PositionAbsolute[2] == '0';
  }

  lemma ExtruderRelativeLoud(m: Modes)
    ensures !Quiet(m, ExtruderRelative)
  {
    assert ExtruderRelative[0] == 'M' && ExtruderRelative[1] == '8';
  }

  lemma ExtruderAbsoluteLoud(m: Modes)
    ensures !Quiet(m, ExtruderAbsolute)
  {
    assert ExtruderAbsolute[0] == 'M' && ExtruderAbsolute[1] == '8';
  }

  lemma JogDownLoud(m: Modes)
    ensures !Quiet(m, JogDown)
  {
    assert JogDown[3] == 'X' && JogDown[8] == ' ';
  }

  lemma JogUpLoud(m: Modes)
    ensures !Quiet(m, JogUp)
  {
    assert JogUp[3] == 'X' && JogUp[7] == ' ';
  }

  /** The jogs change no mode and do not move the extruder. */
  lemma JogLine(m: Modes, line: string)
    requires Jogs(line)
    ensures ModeStep(m, line) == m
    ensures !Extrudes(line) && !MovesHead(line)
  {
    assert JogDown[0] == 'G' && JogDown[1] == '1' && JogDown[3] == 'X';
    assert JogUp[0] == 'G' && JogUp[1] == '1' && JogUp[3] == 'X';
    assert JogDown[8] == ' ' && JogUp[7] == ' ';
    assert PositionRelative[1] == '9' && PositionAbsolute[1] == '9';
    assert ExtruderRelative[0] == 'M' && ExtruderAbsolute[0] == 'M';
  }

  /** Every line of a run is quiet. */
  predicate AllQuiet(m: Modes, lines: seq<string>)
    decreases |lines|
  {
    lines == [] || (Quiet(m, lines[0]) && AllQuiet(m, lines[1..]))
  }

  /**
   * A run of lines takes the modes from `m` to `m2`, each line read in the
   * mode it assumes, head moves in the positioning mode the run starts in.
   */
  predicate Takes(m: Modes, lines: seq<string>, m2: Modes) {
    ModesAfter(m, lines) == m2 && Safe(m.positionAbsolute, m, lines)
  }

  /** A run of quiet lines changes no mode and is safe. */
  lemma {:induction false} QuietRun(m: Modes, lines: seq<string>)
    requires AllQuiet(m, lines)
    ensures Takes(m, lines, m)
    decreases |lines|
  {
    if lines != [] {
      QuietLine(m, lines[0]);
      QuietRun(m, lines[1..]);
    }
  }

  /** Modes and safety compose over concatenation. */
  lemma {:induction false} Chain(p: bool, m: Modes, a: seq<string>, b: seq<string>)
    ensures ModesAfter(m, a + b) == ModesAfter(ModesAfter(m, a), b)
    ensures Safe(p, m, a + b) <==> Safe(p, m, a) && Safe(p, ModesAfter(m, a), b)
    decreases |a|
  {
    if a != [] {
      assert (a + b)[0] == a[0] && (a + b)[1..] == a[1..] + b;
      Chain(p, ModeStep(m, a[0]), a[1..], b);
    } else {
      assert a + b == b;
    }
  }

  lemma Then(m: Modes, a: seq<string>, m1: Modes, b: seq<string>, m2: Modes)
    requires Takes(m, a, m1) && Takes(m1, b, m2) && m1.positionAbsolute == m.positionAbsolute
    ensures Takes(m, a + b, m2)
  {
    Chain(m.positionAbsolute, m, a, b);
  }

  /** A run followed by quiet lines ends where the run ended. */
  lemma ThenQuiet(m: Modes, a: seq<string>, m1: Modes, b: seq<string>)
    requires Takes(m, a, m1) && AllQuiet(m1, b) && m1.positionAbsolute == m.positionAbsolute
    ensures Takes(m, a + b, m1)
  {
    QuietRun(m1, b);
    Then(m, a, m1, b, m1);
  }

  lemma {:induction false} QuietJoin(m: Modes, a: seq<string>, b: seq<string>)
    requires AllQuiet(m, a) && AllQuiet(m, b)
    ensures AllQuiet(m, a + b)
    decreases |a|
  {
    if a != [] {
      assert (a + b)[0] == a[0] && (a + b)[1..] == a[1..] + b;
      QuietJoin(m, a[1..], b);
    } else {
      assert a + b == b;
    }
  }

  lemma One(m: Modes, a: string)
    requires Quiet(m, a)
    ensures AllQuiet(m, [a])
  {
    assert [a][1..] == [];
  }

  lemma Two(m: Modes, a: string, b: string)
    requires Quiet(m, a) && Quiet(m, b)
    ensures AllQuiet(m, [a, b])
  {
    One(m, b);
    assert [a, b][1..] == [b];
  }

  lemma Three(m: Modes, a: string, b: string, c: string)
    requires Quiet(m, a) && Quiet(m, b) && Quiet(m, c)
    ensures AllQuiet(m, [a, b, c])
  {
    Two(m, b, c);
    assert [a, b, c][1..] == [b, c];
  }

  /** One line's effect, as a run of one. */
  lemma Single(p: bool, m: Modes, a: string)
    ensures ModesAfter(m, [a]) == ModeStep(m, a)
    ensures Safe(p, m, [a]) <==>
      (Extrudes(a) ==> !m.extruderAbsolute) && (Jogs(a) ==> !m.positionAbsolute) &&
      (MovesHead(a) ==> m.positionAbsolute == p)
  {
    assert [a][1..] == [];
  }

  /** The fixed comment and M-command lines of the block are inert. */
  lemma FixedLines()
    ensures Inert(TypeCustom) && Inert(";added code by post processing") && Inert(";script: ChangeAtHeight.py")
    ensures Inert(PauseDone) && Inert(";Prime nozzle")
    ensures Inert(PressContinue) && Inert("M117 Heating extruder...") && Inert("M117 Printing...")
    ensures Inert(CoolOff) && Inert(FilamentChange)
    ensures Inert("M400  ;Wait for buffer to clear") && Inert("M300  ;Beep")
    ensures Inert("M25 ; Pause") && Inert("M0 Press to Continue...")
  {
  }

  /** The rendered lines the block holds are inert or extruder moves. */
  lemma RenderedLines(v: real, w: real)
    ensures Extrudes(Retract(v)) && Extrudes(RetractAgain(v)) && Extrudes(Extrude(v))
    ensures Extrudes("G1 E" + Fmt(v) + " F6000") && Extrudes("G1 E-" + Fmt(v) + " F6000")
    ensures Inert(Lift(v)) && Inert(ParkMove(v, w)) && Inert(ReturnXY(v, w)) && Inert(ReturnZ(v))
    ensures Inert(Reheat(v)) && Inert(ResetE(v)) && Inert(";current z: " + Fmt(v))
  {
    ExtruderMoves(v);
    LiftInert(v);
    ParkMoveInert(v, w);
    ReturnXYInert(v, w);
    ReturnZInert(v);
    ReheatInert(v);
    ResetEInert(v);
    HeightInert(v);
  }

  lemma ExtruderMoves(v: real)
    ensures Extrudes(Retract(v)) && Extrudes(RetractAgain(v)) && Extrudes(Extrude(v))
    ensures Extrudes("G1 E" + Fmt(v) + " F6000") && Extrudes("G1 E-" + Fmt(v) + " F6000")
  {
  }

  /** The block's lift, park and return moves are head moves. */
  lemma HeadMoveLines(v: real, w: real)
    ensures MovesHead(Lift(v)) && MovesHead(ParkMove(v, w)) && MovesHead(ReturnXY(v, w)) && MovesHead(ReturnZ(v))
  {
    LiftInert(v);
    ParkMoveInert(v, w);
    ReturnXYInert(v, w);
    ReturnZInert(v);
  }

  lemma LiftInert(v: real)
    ensures Inert(Lift(v)) && MovesHead(Lift(v))
  {
    FmtChars(v);
    assert Lift(v)[7] == Fmt(v)[3] && Lift(v)[8] == Fmt(v)[4];
  }

  lemma ParkMoveInert(v: real, w: real)
    ensures Inert(ParkMove(v, w)) && MovesHead(ParkMove(v, w))
  {
    FmtChars(v);
    assert ParkMove(v, w)[7] == Fmt(v)[3] && ParkMove(v, w)[8] == Fmt(v)[4];
  }

  lemma ReturnXYInert(v: real, w: real)
    ensures Inert(ReturnXY(v, w)) && MovesHead(ReturnXY(v, w))
  {
    FmtChars(v);
    assert ReturnXY(v, w)[7] == Fmt(v)[3] && ReturnXY(v, w)[8] == Fmt(v)[4];
  }

  lemma ReturnZInert(v: real)
    ensures Inert(ReturnZ(v)) && MovesHead(ReturnZ(v))
  {
    FmtChars(v);
    assert ReturnZ(v)[7] == Fmt(v)[3] && ReturnZ(v)[8] == Fmt(v)[4];
  }

  lemma ReheatInert(v: real)
    ensures Inert(Reheat(v))
  {
  }

  lemma ResetEInert(v: real)
    ensures Inert(ResetE(v))
  {
  }

  lemma HeightInert(v: real)
    ensures Inert(";current z: " + Fmt(v))
  {
  }

  lemma WaitQuiet(m: Modes, cfg: Config)
    ensures AllQuiet(m, Beeps(cfg)) && AllQuiet(m, PauseCommand(cfg))
    ensures AllQuiet(m, Wait(cfg))
  {
    FixedLines();
    if cfg.beep {
      Two(m, "M400  ;Wait for buffer to clear", "M300  ;Beep");
    }
    if cfg.pauseMethod == M25 {
      One(m, "M25 ; Pause");
    } else if cfg.pauseMethod == M0 {
      One(m, "M0 Press to Continue...");
    }
    One(m, PressContinue);
    QuietJoin(m, [PressContinue], Beeps(cfg));
    QuietJoin(m, [PressContinue] + Beeps(cfg), PauseCommand(cfg));
  }

  /** The motor lock leaves the positioning mode as it found it and jogs only in relative positioning. */
  lemma LockMotorsModes(m: Modes)
    ensures Takes(m, LockMotors(m.positionAbsolute), m)
  {
    var p := m.positionAbsolute;
    var rel := m.(positionAbsolute := false);
    var jog := [JogDown, JogUp];
    JogsRelative(p, rel);
    if m.positionAbsolute {
      SwitchRelative(m);
      SwitchAbsolute(m);
      Chain(p, m, [PositionRelative], jog);
      Chain(p, m, [PositionRelative] + jog, [PositionAbsolute]);
      assert LockMotors(m.positionAbsolute) == [PositionRelative] + jog + [PositionAbsolute];
    } else {
      assert rel == m;
      assert LockMotors(m.positionAbsolute) == [] + jog + [] == jog;
    }
  }

  /** The two jogs, read in relative positioning, change no mode. */
  lemma JogsRelative(p: bool, rel: Modes)
    requires !rel.positionAbsolute
    ensures ModesAfter(rel, [JogDown, JogUp]) == rel && Safe(p, rel, [JogDown, JogUp])
  {
    JogLine(rel, JogDown);
    JogLine(rel, JogUp);
    Single(p, rel, JogDown);
    Single(p, rel, JogUp);
    Chain(p, rel, [JogDown], [JogUp]);
    assert [JogDown, JogUp] == [JogDown] + [JogUp];
  }

  /** G91 switches to relative positioning, and nothing else. */
  lemma SwitchRelative(m: Modes)
    ensures ModesAfter(m, [PositionRelative]) == m.(positionAbsolute := false)
    ensures Safe(m.positionAbsolute, m, [PositionRelative])
  {
    assert PositionRelative[0] == 'G' && PositionRelative[1] == '9';
    Single(m.positionAbsolute, m, PositionRelative);
  }

  /** G90 switches back to absolute positioning, and nothing else. */
  lemma SwitchAbsolute(m: Modes)
    ensures ModesAfter(m.(positionAbsolute := false), [PositionAbsolute]) == m.(positionAbsolute := true)
    ensures Safe(m.positionAbsolute, m.(positionAbsolute := false), [PositionAbsolute])
  {
    assert PositionAbsolute[0] == 'G' && PositionAbsolute[1] == '9';
    Single(m.positionAbsolute, m.(positionAbsolute := false), PositionAbsolute);
  }

  /** The second pause of a plain pause leaves the modes alone. */
  lemma HoldModes(cfg: Config, r: Resume)
    ensures var m := Modes(r.positionAbsolute, false);
      Takes(m, Hold(cfg, r), m)
  {
    var m := Modes(r.positionAbsolute, false);
    WaitQuiet(m, cfg);
    if !cfg.changeFilament {
      LockMotorsModes(m);
      ThenQuiet(m, LockMotors(r.positionAbsolute), m, Wait(cfg));
    } else {
      QuietRun(m, []);
    }
  }

  /** Reheating leaves the modes alone. */
  lemma HeatUpModes(cfg: Config, r: Resume)
    ensures var m := Modes(r.positionAbsolute, false);
      Takes(m, HeatUp(cfg, r), m)
  {
    var m := Modes(r.positionAbsolute, false);
    if cfg.coolDown {
      var lock := LockMotors(r.positionAbsolute);
      var first := ["M117 Heating extruder...", Reheat(r.temp), PressContinue];
      WaitQuiet(m, cfg);
      LockMotorsModes(m);
      RenderedLines(r.temp, 0.0);
      FixedLines();
      Three(m, first[0], first[1], first[2]);
      ThenQuiet(m, lock, m, first);
      ThenQuiet(m, lock + first, m, Beeps(cfg));
      ThenQuiet(m, lock + first + Beeps(cfg), m, PauseCommand(cfg));
    } else {
      QuietRun(m, []);
    }
  }

  /** Priming the new filament extrudes only in relative extruder mode and leaves the modes alone. */
  lemma ChangeFilamentModes(cfg: Config, r: Resume)
    ensures var m := Modes(r.positionAbsolute, false);
      Takes(m, ChangeFilament(cfg, r), m)
  {
    var m := Modes(r.positionAbsolute, false);
    if cfg.changeFilament {
      var lock := LockMotors(r.positionAbsolute);
      var prime := PrimeNozzle(cfg);
      var again := [RetractAgain(cfg.retraction)];
      WaitQuiet(m, cfg);
      LockMotorsModes(m);
      RenderedLines(cfg.prime + 1.0, 0.0);
      RenderedLines(cfg.prime, 0.0);
      RenderedLines(cfg.retraction, 0.0);
      FixedLines();
      if cfg.prime > 0.0 {
        Three(m, prime[0], prime[1], prime[2]);
      } else {
        QuietRun(m, prime);
      }
      One(m, again[0]);
      ThenQuiet(m, lock, m, prime);
      ThenQuiet(m, lock + prime, m, Wait(cfg));
      ThenQuiet(m, lock + prime + Wait(cfg), m, again);
    } else {
      QuietRun(m, []);
    }
  }

  /** Between leaving and returning, in relative extruder mode, the modes are left alone. */
  lemma PausedModes(cfg: Config, r: Resume)
    ensures var m := Modes(r.positionAbsolute, false);
      Takes(m, Paused(cfg, r), m)
  {
    var m := Modes(r.positionAbsolute, false);
    HoldModes(cfg, r);
    HeatUpModes(cfg, r);
    ChangeFilamentModes(cfg, r);
    Then(m, Hold(cfg, r), m, HeatUp(cfg, r), m);
    Then(m, Hold(cfg, r) + HeatUp(cfg, r), m, ChangeFilament(cfg, r), m);
  }

  /** Leaving switches to relative extruder mode first and only then retracts. */
  lemma LeaveModes(cfg: Config, r: Resume, parkZ: real, park: Park)
    ensures var m := Modes(r.positionAbsolute, r.extruderAbsolute);
      Takes(m, Leave(cfg, r, parkZ, park), m.(extruderAbsolute := false))
  {
    var m := Modes(r.positionAbsolute, r.extruderAbsolute);
    var rel := m.(extruderAbsolute := false);
    var switch: seq<string> := if r.extruderAbsolute then [ExtruderRelative] else [];
    var moves := [Retract(cfg.retraction), Lift(parkZ), ParkMove(park.x, park.y)];
    var cool: seq<string> := if cfg.coolDown then [CoolOff] else [];
    FixedLines();
    assert ExtruderRelative[0] == 'M';
    assert !Extrudes(ExtruderRelative) && !Jogs(ExtruderRelative) && !MovesHead(ExtruderRelative);
    Single(m.positionAbsolute, m, ExtruderRelative);
    assert Takes(m, switch, rel);
    LeaveTail(rel, cfg, parkZ, park);
    ThenQuiet(m, switch, rel, moves);
    ThenQuiet(m, switch + moves, rel, cool);
    ThenQuiet(m, switch + moves + cool, rel, Wait(cfg));
    assert Leave(cfg, r, parkZ, park) == switch + moves + cool + Wait(cfg);
  }

  /** Retract, lift, park, cool and wait leave the modes alone. */
  lemma LeaveTail(m: Modes, cfg: Config, parkZ: real, park: Park)
    requires !m.extruderAbsolute
    ensures AllQuiet(m, [Retract(cfg.retraction), Lift(parkZ), ParkMove(park.x, park.y)])
    ensures AllQuiet(m, if cfg.coolDown then [CoolOff] else [])
    ensures AllQuiet(m, Wait(cfg))
  {
    RenderedLines(cfg.retraction, 0.0);
    RenderedLines(parkZ, 0.0);
    RenderedLines(park.x, park.y);
    FixedLines();
    Three(m, Retract(cfg.retraction), Lift(parkZ), ParkMove(park.x, park.y));
    if cfg.coolDown {
      One(m, CoolOff);
    }
    WaitQuiet(m, cfg);
  }

  /** Travelling back and re-extruding, in relative extruder mode, leave the modes alone. */
  lemma ReturnTravel(m: Modes, cfg: Config, r: Resume)
    requires !m.extruderAbsolute
    ensures Takes(m, [ReturnXY(r.x, r.y), ReturnZ(r.z), Extrude(cfg.extrusion)], m)
  {
    ReturnXYInert(r.x, r.y);
    ReturnZInert(r.z);
    ExtruderMoves(cfg.extrusion);
    Three(m, ReturnXY(r.x, r.y), ReturnZ(r.z), Extrude(cfg.extrusion));
    QuietRun(m, [ReturnXY(r.x, r.y), ReturnZ(r.z), Extrude(cfg.extrusion)]);
  }

  /** Restoring an absolute extruder switches back to M82 and then resets E. */
  lemma RestoreExtruder(r: Resume)
    ensures var m := Modes(r.positionAbsolute, r.extruderAbsolute);
      Takes(m.(extruderAbsolute := false),
        if r.extruderAbsolute then [ExtruderAbsolute, ResetE(r.lastE)] else [], m)
  {
    var m := Modes(r.positionAbsolute, r.extruderAbsolute);
    var rel := m.(extruderAbsolute := false);
    if r.extruderAbsolute {
      ExtruderAbsoluteLoud(m);
      ExtruderAbsoluteNoMove();
      Single(rel.positionAbsolute, rel, ExtruderAbsolute);
      ResetEInert(r.lastE);
      One(m, ResetE(r.lastE));
      ThenQuiet(rel, [ExtruderAbsolute], m, [ResetE(r.lastE)]);
      assert [ExtruderAbsolute, ResetE(r.lastE)] == [ExtruderAbsolute] + [ResetE(r.lastE)];
    } else {
      assert Takes(rel, [], m);
    }
  }

  /** The M82 line neither moves the extruder nor jogs. */
  lemma ExtruderAbsoluteNoMove()
    ensures !Extrudes(ExtruderAbsolute) && !Jogs(ExtruderAbsolute) && !MovesHead(ExtruderAbsolute)
  {
    assert ExtruderAbsolute[0] == 'M';
  }

  /** Returning re-extrudes in relative mode and then restores an absolute extruder. */
  lemma ReturnModes(cfg: Config, r: Resume)
    ensures var m := Modes(r.positionAbsolute, r.extruderAbsolute);
      Takes(m.(extruderAbsolute := false), Return(cfg, r), m)
  {
    var m := Modes(r.positionAbsolute, r.extruderAbsolute);
    var rel := m.(extruderAbsolute := false);
    var back := [ReturnXY(r.x, r.y), ReturnZ(r.z), Extrude(cfg.extrusion)];
    var restore: seq<string> := if r.extruderAbsolute then [ExtruderAbsolute, ResetE(r.lastE)] else [];
    ReturnTravel(rel, cfg, r);
    RestoreExtruder(r);
    Then(rel, back, rel, restore, m);
    PrintingQuiet(m);
    ThenQuiet(rel, back + restore, m, ["M117 Printing..."]);
  }

  lemma PrintingQuiet(m: Modes)
    ensures AllQuiet(m, ["M117 Printing..."])
  {
    assert Inert("M117 Printing...");
    One(m, "M117 Printing...");
  }

  /**
   * The whole block hands the printer back in the positioning and extruder
   * modes it was in at the triggering line, and reads every extruder move
   * in relative extruder mode, every jog in relative positioning, and every
   * head move in the positioning mode found at the triggering line.
   */
  lemma BlockRestoresModes(cfg: Config, r: Resume, parkZ: real, park: Park)
    ensures var m := Modes(r.positionAbsolute, r.extruderAbsolute);
      var b := Block(cfg, r, parkZ, park);
      ModesAfter(m, b) == m && Safe(r.positionAbsolute, m, b)
  {
    var m := Modes(r.positionAbsolute, r.extruderAbsolute);
    var head, body := Header(r.z), Body(cfg, r, parkZ, park);
    HeaderQuiet(m, r.z);
    QuietRun(m, head);
    BodyModes(cfg, r, parkZ, park);
    Then(m, head, m, body, m);
    FixedLines();
    One(m, PauseDone);
    ThenQuiet(m, head + body, m, [PauseDone]);
  }

  /** The header is made of comments. */
  lemma HeaderQuiet(m: Modes, z: real)
    ensures AllQuiet(m, Header(z))
  {
    var head := Header(z);
    HeightInert(z);
    FixedLines();
    Three(m, head[1], head[2], head[3]);
    One(m, head[0]);
    QuietJoin(m, [head[0]], [head[1], head[2], head[3]]);
    assert head == [head[0]] + [head[1], head[2], head[3]];
  }

  /** Between header and end marker the modes come back to where they were. */
  lemma BodyModes(cfg: Config, r: Resume, parkZ: real, park: Park)
    ensures var m := Modes(r.positionAbsolute, r.extruderAbsolute);
      Takes(m, Body(cfg, r, parkZ, park), m)
  {
    var m := Modes(r.positionAbsolute, r.extruderAbsolute);
    if cfg.pauseMethod == M600 {
      WaitQuiet(m, cfg);
      FixedLines();
      One(m, FilamentChange);
      QuietJoin(m, Beeps(cfg), [FilamentChange]);
      QuietRun(m, Beeps(cfg) + [FilamentChange]);
    } else {
      var rel := m.(extruderAbsolute := false);
      var leave, paused, ret := Leave(cfg, r, parkZ, park), Paused(cfg, r), Return(cfg, r);
      LeaveModes(cfg, r, parkZ, park);
      PausedModes(cfg, r);
      ReturnModes(cfg, r);
      Then(m, leave, rel, paused, rel);
      Then(m, leave + paused, rel, ret, m);
    }
  }
}
