/**
 * The inserted block as text: every line is a single line, and the block
 * is a well-formed custom block (opened by `;TYPE:CUSTOM`, closed by the
 * only line holding `;CUSTOM`), so a later scan passes over it without
 * reading it and without firing inside it.
 */
module BlockText {
  import opened Text
  import opened LineValue
  import opened Settings
  import opened ScanState
  import opened PauseBlock

  /** No line terminator, and no `U` (so no `;CUSTOM`). */
  predicate Clean(line: string) {
    forall i :: 0 <= i < |line| ==> line[i] != '\n' && line[i] != 'U'
  }

  predicate AllClean(lines: seq<string>) {
    forall i :: 0 <= i < |lines| ==> Clean(lines[i])
  }

  lemma CleanJoin(a: seq<string>, b: seq<string>)
    requires AllClean(a) && AllClean(b)
    ensures AllClean(a + b)
  {
    forall i | 0 <= i < |a + b| ensures Clean((a + b)[i]) {
      if i >= |a| {
        assert (a + b)[i] == b[i - |a|];
      }
    }
  }

  lemma FmtClean(v: real)
    ensures Clean(Fmt(v))
  {
    var f := Fmt(v);
    FmtChars(v);
    forall i | 0 <= i < |f| ensures f[i] != '\n' && f[i] != 'U' {
      assert IsDigit(f[i]) || f[i] == '-' || f[i] == '.';
    }
  }

  /** A line without `U` holds no `;CUSTOM`. */
  lemma NoCustomEnd(line: string)
    requires Clean(line)
    ensures !Contains(line, ";CUSTOM")
  {
    forall j | 0 <= j <= |line| ensures !OccursAt(line, ";CUSTOM", j) {
      if j + 7 <= |line| {
        assert line[j..j + 7][2] == line[j + 2];
      }
    }
  }

  /** Joining clean text gives clean text. */
  lemma CleanCat(a: string, b: string)
    requires Clean(a) && Clean(b)
    ensures Clean(a + b)
  {
  }

  /** The short pieces the rendered lines are built from. */
  lemma PiecesClean()
    ensures Clean("G1 E-") && Clean("G1 E") && Clean(" F6000") && Clean("G1 Z") && Clean("G1 X") && Clean(" Y") && Clean("M109 S") && Clean("G92  E") && Clean(";current z: ")
  {
  }

  lemma CommentClean()
    ensures Clean(";added code by post processing")
  {
  }

  lemma ScriptClean()
    ensures Clean(";script: ChangeAtHeight.py")
  {
  }

  lemma PrimeCommentClean()
    ensures Clean(";Prime nozzle")
  {
  }

  lemma HeatingClean()
    ensures Clean("M117 Heating extruder...")
  {
  }

  lemma PrintingClean()
    ensures Clean("M117 Printing...")
  {
  }

  lemma WaitBufferClean()
    ensures Clean("M400  ;Wait for buffer to clear")
  {
  }

  lemma BeepClean()
    ensures Clean("M300  ;Beep")
  {
  }

  lemma PauseM25Clean()
    ensures Clean("M25 ; Pause")
  {
  }

  lemma PauseM0Clean()
    ensures Clean("M0 Press to Continue...")
  {
  }

  lemma RetractTailClean()
    ensures Clean(" F2400  ;Retract")
  {
  }

  lemma RetractAgainTailClean()
    ensures Clean(" F2400 ;Retract")
  {
  }

  lemma ExtrudeTailClean()
    ensures Clean(" F2400 ;Extrude")
  {
  }

  lemma LiftTailClean()
    ensures Clean(" F3000   ;Move head up")
  {
  }

  lemma AwayTailClean()
    ensures Clean(" F3000   ;Move head away")
  {
  }

  lemma ReturnXYTailClean()
    ensures Clean(" F3000  ;Move to next layer position")
  {
  }

  lemma ReturnZTailClean()
    ensures Clean(" F3000  ;Move to next layer Z position")
  {
  }

  lemma ReheatTailClean()
    ensures Clean("  ;Heat extruder back up")
  {
  }

  lemma ResetTailClean()
    ensures Clean("  ;Set the extrude value to the previous (before last retraction)")
  {
    ResetTailFrontClean();
    ResetTailBackClean();
    CleanCat("  ;Set the extrude value to the", " previous (before last retraction)");
    ResetTailSplit();
  }

  lemma ResetTailSplit()
    ensures "  ;Set the extrude value to the" + " previous (before last retraction)" ==
      "  ;Set the extrude value to the previous (before last retraction)"
  {
  }

  lemma ResetTailFrontClean()
    ensures Clean("  ;Set the extrude value to the")
  {
  }

  lemma ResetTailBackClean()
    ensures Clean(" previous (before last retraction)")
  {
  }

  lemma PressContinueClean()
    ensures Clean(PressContinue)
  {
  }

  lemma CoolOffClean()
    ensures Clean(CoolOff)
  {
  }

  lemma FilamentChangeClean()
    ensures Clean(FilamentChange)
  {
  }

  lemma ExtruderRelativeClean()
    ensures Clean(ExtruderRelative)
  {
  }

  lemma ExtruderAbsoluteClean()
    ensures Clean(ExtruderAbsolute)
  {
  }

  lemma PositionRelativeClean()
    ensures Clean(PositionRelative)
  {
  }

  lemma PositionAbsoluteClean()
    ensures Clean(PositionAbsolute)
  {
  }

  lemma JogDownClean()
    ensures Clean(JogDown)
  {
  }

  lemma JogUpClean()
    ensures Clean(JogUp)
  {
  }

  lemma FixedClean()
    ensures Clean(";added code by post processing") && Clean(";script: ChangeAtHeight.py") && Clean(";Prime nozzle") && Clean("M117 Heating extruder...") && Clean("M117 Printing...") && Clean("M400  ;Wait for buffer to clear") && Clean("M300  ;Beep") && Clean("M25 ; Pause") && Clean("M0 Press to Continue...")
    ensures Clean(PressContinue) && Clean(CoolOff) && Clean(FilamentChange) && Clean(ExtruderRelative) && Clean(ExtruderAbsolute) && Clean(PositionRelative) && Clean(PositionAbsolute) && Clean(JogDown) && Clean(JogUp)
  {
    CommentClean();
    ScriptClean();
    PrimeCommentClean();
    HeatingClean();
    PrintingClean();
    WaitBufferClean();
    BeepClean();
    PauseM25Clean();
    PauseM0Clean();
    PressContinueClean();
    CoolOffClean();
    FilamentChangeClean();
    ExtruderRelativeClean();
    ExtruderAbsoluteClean();
    PositionRelativeClean();
    PositionAbsoluteClean();
    JogDownClean();
    JogUpClean();
  }

  lemma RetractClean(v: real)
    ensures Clean(Retract(v))
  {
    FmtClean(v);
    PiecesClean();
    RetractTailClean();
    CleanCat("G1 E-", Fmt(v));
    CleanCat("G1 E-" + Fmt(v), " F2400  ;Retract");
  }

  lemma RetractAgainClean(v: real)
    ensures Clean(RetractAgain(v))
  {
    FmtClean(v);
    PiecesClean();
    RetractAgainTailClean();
    CleanCat("G1 E-", Fmt(v));
    CleanCat("G1 E-" + Fmt(v), " F2400 ;Retract");
  }

  lemma ExtrudeClean(v: real)
    ensures Clean(Extrude(v))
  {
    FmtClean(v);
    PiecesClean();
    ExtrudeTailClean();
    CleanCat("G1 E", Fmt(v));
    CleanCat("G1 E" + Fmt(v), " F2400 ;Extrude");
  }

  /** The two priming moves, forward (`G1 E`) and back (`G1 E-`). */
  lemma PrimeClean(head: string, v: real)
    requires head == "G1 E" || head == "G1 E-"
    ensures Clean(head + Fmt(v) + " F6000")
  {
    FmtClean(v);
    PiecesClean();
    CleanCat(head, Fmt(v));
    CleanCat(head + Fmt(v), " F6000");
  }

  lemma LiftClean(v: real)
    ensures Clean(Lift(v))
  {
    FmtClean(v);
    PiecesClean();
    LiftTailClean();
    CleanCat("G1 Z", Fmt(v));
    CleanCat("G1 Z" + Fmt(v), " F3000   ;Move head up");
  }

  lemma ParkMoveClean(v: real, w: real)
    ensures Clean(ParkMove(v, w))
  {
    FmtClean(v);
    FmtClean(w);
    PiecesClean();
    AwayTailClean();
    CleanCat("G1 X", Fmt(v));
    CleanCat("G1 X" + Fmt(v), " Y");
    CleanCat("G1 X" + Fmt(v) + " Y", Fmt(w));
    CleanCat("G1 X" + Fmt(v) + " Y" + Fmt(w), " F3000   ;Move head away");
  }

  lemma ReturnXYClean(v: real, w: real)
    ensures Clean(ReturnXY(v, w))
  {
    FmtClean(v);
    FmtClean(w);
    PiecesClean();
    ReturnXYTailClean();
    CleanCat("G1 X", Fmt(v));
    CleanCat("G1 X" + Fmt(v), " Y");
    CleanCat("G1 X" + Fmt(v) + " Y", Fmt(w));
    CleanCat("G1 X" + Fmt(v) + " Y" + Fmt(w), " F3000  ;Move to next layer position");
  }

  lemma ReturnZClean(v: real)
    ensures Clean(ReturnZ(v))
  {
    FmtClean(v);
    PiecesClean();
    ReturnZTailClean();
    CleanCat("G1 Z", Fmt(v));
    CleanCat("G1 Z" + Fmt(v), " F3000  ;Move to next layer Z position");
  }

  lemma ReheatClean(v: real)
    ensures Clean(Reheat(v))
  {
    FmtClean(v);
    PiecesClean();
    ReheatTailClean();
    CleanCat("M109 S", Fmt(v));
    CleanCat("M109 S" + Fmt(v), "  ;Heat extruder back up");
  }

  lemma ResetEClean(v: real)
    ensures Clean(ResetE(v))
  {
    FmtClean(v);
    PiecesClean();
    ResetTailClean();
    CleanCat("G92  E", Fmt(v));
    CleanCat("G92  E" + Fmt(v), "  ;Set the extrude value to the previous (before last retraction)");
  }

  lemma HeightClean(v: real)
    ensures Clean(";current z: " + Fmt(v))
  {
    FmtClean(v);
    PiecesClean();
    CleanCat(";current z: ", Fmt(v));
  }

  lemma RenderedClean(v: real, w: real)
    ensures Clean(Retract(v)) && Clean(RetractAgain(v)) && Clean(Extrude(v))
    ensures Clean("G1 E" + Fmt(v) + " F6000") && Clean("G1 E-" + Fmt(v) + " F6000")
    ensures Clean(Lift(v)) && Clean(ParkMove(v, w)) && Clean(ReturnXY(v, w)) && Clean(ReturnZ(v))
    ensures Clean(Reheat(v)) && Clean(ResetE(v)) && Clean(";current z: " + Fmt(v))
  {
    RetractClean(v);
    RetractAgainClean(v);
    ExtrudeClean(v);
    PrimeClean("G1 E", v);
    PrimeClean("G1 E-", v);
    LiftClean(v);
    ParkMoveClean(v, w);
    ReturnXYClean(v, w);
    ReturnZClean(v);
    ReheatClean(v);
    ResetEClean(v);
    HeightClean(v);
  }

  lemma WaitClean(cfg: Config)
    ensures AllClean(Beeps(cfg)) && AllClean(PauseCommand(cfg)) && AllClean(Wait(cfg))
    ensures AllClean(LockMotors(true)) && AllClean(LockMotors(false))
  {
    FixedClean();
    CleanJoin([PressContinue], Beeps(cfg));
    CleanJoin([PressContinue] + Beeps(cfg), PauseCommand(cfg));
  }

  lemma LeaveClean(cfg: Config, r: Resume, parkZ: real, park: Park)
    ensures AllClean(Leave(cfg, r, parkZ, park))
  {
    FixedClean();
    WaitClean(cfg);
    RenderedClean(cfg.retraction, 0.0);
    RenderedClean(parkZ, 0.0);
    RenderedClean(park.x, park.y);
    var switch: seq<string> := if r.extruderAbsolute then [ExtruderRelative] else [];
    var moves := [Retract(cfg.retraction), Lift(parkZ), ParkMove(park.x, park.y)];
    var cool: seq<string> := if cfg.coolDown then [CoolOff] else [];
    CleanJoin(switch, moves);
    CleanJoin(switch + moves, cool);
    CleanJoin(switch + moves + cool, Wait(cfg));
  }

  lemma HoldClean(cfg: Config, r: Resume)
    ensures AllClean(Hold(cfg, r))
  {
    WaitClean(cfg);
    CleanJoin(LockMotors(r.positionAbsolute), Wait(cfg));
  }

  lemma HeatUpClean(cfg: Config, r: Resume)
    ensures AllClean(HeatUp(cfg, r))
  {
    FixedClean();
    WaitClean(cfg);
    RenderedClean(r.temp, 0.0);
    var lock := LockMotors(r.positionAbsolute);
    var first := ["M117 Heating extruder...", Reheat(r.temp), PressContinue];
    CleanJoin(lock, first);
    CleanJoin(lock + first, Beeps(cfg));
    CleanJoin(lock + first + Beeps(cfg), PauseCommand(cfg));
  }

  lemma ChangeFilamentClean(cfg: Config, r: Resume)
    ensures AllClean(ChangeFilament(cfg, r))
  {
    FixedClean();
    WaitClean(cfg);
    RenderedClean(cfg.prime + 1.0, 0.0);
    RenderedClean(cfg.prime, 0.0);
    RenderedClean(cfg.retraction, 0.0);
    var lock := LockMotors(r.positionAbsolute);
    var prime := PrimeNozzle(cfg);
    CleanJoin(lock, prime);
    CleanJoin(lock + prime, Wait(cfg));
    CleanJoin(lock + prime + Wait(cfg), [RetractAgain(cfg.retraction)]);
  }

  lemma PausedClean(cfg: Config, r: Resume)
    ensures AllClean(Paused(cfg, r))
  {
    HoldClean(cfg, r);
    HeatUpClean(cfg, r);
    ChangeFilamentClean(cfg, r);
    CleanJoin(Hold(cfg, r), HeatUp(cfg, r));
    CleanJoin(Hold(cfg, r) + HeatUp(cfg, r), ChangeFilament(cfg, r));
  }

  lemma ReturnClean(cfg: Config, r: Resume)
    ensures AllClean(Return(cfg, r))
  {
    FixedClean();
    RenderedClean(r.x, r.y);
    RenderedClean(r.z, 0.0);
    RenderedClean(cfg.extrusion, 0.0);
    RenderedClean(r.lastE, 0.0);
    var back := [ReturnXY(r.x, r.y), ReturnZ(r.z), Extrude(cfg.extrusion)];
    var restore: seq<string> := if r.extruderAbsolute then [ExtruderAbsolute, ResetE(r.lastE)] else [];
    CleanJoin(back, restore);
    CleanJoin(back + restore, ["M117 Printing..."]);
  }

  /** The header's lines after the custom-block marker are clean. */
  lemma HeaderClean(z: real)
    ensures AllClean(Header(z)[1..])
  {
    FixedClean();
    HeightClean(z);
    assert Header(z)[1..] == [";added code by post processing", ";script: ChangeAtHeight.py", ";current z: " + Fmt(z)];
  }

  /** The lines between the header and the end marker are clean. */
  lemma BodyClean(cfg: Config, r: Resume, parkZ: real, park: Park)
    ensures AllClean(Body(cfg, r, parkZ, park))
  {
    if cfg.pauseMethod == M600 {
      FixedClean();
      WaitClean(cfg);
      CleanJoin(Beeps(cfg), [FilamentChange]);
    } else {
      LeaveClean(cfg, r, parkZ, park);
      PausedClean(cfg, r);
      ReturnClean(cfg, r);
      CleanJoin(Leave(cfg, r, parkZ, park), Paused(cfg, r));
      CleanJoin(Leave(cfg, r, parkZ, park) + Paused(cfg, r), Return(cfg, r));
    }
  }

  lemma Middle(head: seq<string>, body: seq<string>, last: string)
    requires |head| >= 1
    ensures var b := head + body + [last]; b[1..|b| - 1] == head[1..] + body
  {
  }

  /** Every line of the block between its first and last is clean. */
  lemma InnerClean(cfg: Config, r: Resume, parkZ: real, park: Park)
    ensures var b := Block(cfg, r, parkZ, park);
      |b| >= 2 && b[0] == TypeCustom && b[|b| - 1] == PauseDone &&
      AllClean(b[1..|b| - 1])
  {
    var head, body := Header(r.z), Body(cfg, r, parkZ, park);
    HeaderClean(r.z);
    BodyClean(cfg, r, parkZ, park);
    CleanJoin(head[1..], body);
    Middle(head, body, PauseDone);
    BlockMarkers(cfg, r, parkZ, park);
  }

  /** A clean line holds no line terminator. */
  lemma CleanSingle(line: string)
    requires Clean(line)
    ensures '\n' !in line
  {
  }

  /** The two marker lines hold no line terminator. */
  lemma MarkersSingle()
    ensures '\n' !in TypeCustom && '\n' !in PauseDone
  {
  }

  /** Lines framed by two single lines around clean ones are all single lines. */
  lemma FramedSingle(b: seq<string>)
    requires |b| >= 2 && '\n' !in b[0] && '\n' !in b[|b| - 1]
    requires AllClean(b[1..|b| - 1])
    ensures forall i :: 0 <= i < |b| ==> '\n' !in b[i]
  {
    forall i | 0 < i < |b| - 1 ensures '\n' !in b[i] {
      assert b[i] == b[1..|b| - 1][i - 1];
      CleanSingle(b[i]);
    }
  }

  /** Every line of the block is a single line. */
  lemma BlockSingleLines(cfg: Config, r: Resume, parkZ: real, park: Park)
    ensures var b := Block(cfg, r, parkZ, park);
      forall i :: 0 <= i < |b| ==> '\n' !in b[i]
  {
    InnerClean(cfg, r, parkZ, park);
    MarkersSingle();
    FramedSingle(Block(cfg, r, parkZ, park));
  }

  /**
   * A scan outside a custom block that meets lines opened by `;TYPE:CUSTOM`,
   * closed by `;CUSTOM Pause Done` and clean in between leaves its state as
   * it was, and none of those lines fires.
   */
  lemma CustomFramedSkipped(cfg: Config, b: seq<string>, s: State)
    requires !s.inCustom && |b| >= 2 && b[0] == TypeCustom && b[|b| - 1] == PauseDone
    requires AllClean(b[1..|b| - 1])
    ensures var rs := ReadAll(b);
      NextAll(s, rs) == s &&
      forall i :: 0 <= i < |rs| ==> !Fires(cfg, NextAll(s, rs[..i]), rs[i])
  {
    FramedRead(b);
    SkipCustomBlock(cfg, s, ReadAll(b));
  }

  /** The block's readings form a custom block. */
  lemma FramedRead(b: seq<string>)
    requires |b| >= 2 && b[0] == TypeCustom && b[|b| - 1] == PauseDone
    requires AllClean(b[1..|b| - 1])
    ensures CustomFramed(ReadAll(b))
  {
    var rs := ReadAll(b);
    MarkersRead(b);
    MiddleRead(b);
    assert |rs| >= 2 && rs[0].opensCustom && rs[|rs| - 1].closesCustom;
    assert forall i :: 0 < i < |rs| - 1 ==> !rs[i].closesCustom;
  }

  /** No line between the first and the last closes a custom block. */
  lemma MiddleRead(b: seq<string>)
    requires |b| >= 2 && AllClean(b[1..|b| - 1])
    ensures forall i :: 0 < i < |b| - 1 ==> !ReadAll(b)[i].closesCustom
  {
    forall i | 0 < i < |b| - 1 ensures !ReadAll(b)[i].closesCustom {
      assert b[i] == b[1..|b| - 1][i - 1];
      CleanRead(b, i);
    }
  }

  /** The block's first line opens a custom block and its last closes it. */
  lemma MarkersRead(b: seq<string>)
    requires |b| >= 2 && b[0] == TypeCustom && b[|b| - 1] == PauseDone
    ensures ReadAll(b)[0].opensCustom && ReadAll(b)[|b| - 1].closesCustom
  {
    assert OccursAt(TypeCustom, ";TYPE:CUSTOM", 0);
    assert PauseDone[0..7] == ";CUSTOM";
    assert OccursAt(PauseDone, ";CUSTOM", 0);
    ReadAllIndex(b, 0);
    ReadAllIndex(b, |b| - 1);
  }

  /** A clean line does not close a custom block. */
  lemma CleanRead(b: seq<string>, i: nat)
    requires i < |b| && Clean(b[i])
    ensures !ReadAll(b)[i].closesCustom
  {
    NoCustomEnd(b[i]);
    ReadAllIndex(b, i);
  }

  /**
   * A later scan that reaches the block outside a custom block leaves its
   * state exactly as it was, and no line of the block fires.
   */
  lemma BlockSkipped(cfg: Config, r: Resume, parkZ: real, park: Park, s: State)
    requires !s.inCustom
    ensures var rs := ReadAll(Block(cfg, r, parkZ, park));
      NextAll(s, rs) == s &&
      forall i :: 0 <= i < |rs| ==> !Fires(cfg, NextAll(s, rs[..i]), rs[i])
  {
    InnerClean(cfg, r, parkZ, park);
    CustomFramedSkipped(cfg, Block(cfg, r, parkZ, park), s);
  }
}
