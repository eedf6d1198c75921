/**
 * The g-code block the post-processor inserts when the trigger fires:
 * the park position it computes (lift clamped to be non-negative, park
 * height at least the minimum park height or else capped 10 mm below the
 * machine's height, park X/Y kept on the bed with a 10 mm margin) and the
 * lines it emits for each pause method and option.
 */
module PauseBlock {
  import opened Text
  import opened LineValue
  import opened Settings

  // ---------------------------------------------------------------------
  // Park position
  // ---------------------------------------------------------------------

  function Min(a: real, b: real): real { if a < b then a else b }

  /**
   * The in-place clamps of `head_move_z`, `head_park_x` and `head_park_y`:
   * the lift is never negative and each park coordinate is raised to 0,
   * then lowered to 10 mm short of the bed's extent.
   */
  function ClampPark(p: Park, lim: Limits): (q: Park)
    ensures q.liftZ >= 0.0 && (p.liftZ >= 0.0 ==> q.liftZ == p.liftZ)
    ensures q.x <= lim.width - 10.0 && q.y <= lim.depth - 10.0
    ensures lim.width >= 10.0 ==> q.x >= 0.0
    ensures lim.depth >= 10.0 ==> q.y >= 0.0
    ensures 0.0 <= p.x <= lim.width - 10.0 ==> q.x == p.x
    ensures 0.0 <= p.y <= lim.depth - 10.0 ==> q.y == p.y
    ensures p.liftZ < 0.0 ==> q.liftZ == 0.0
    ensures p.x > lim.width - 10.0 ==> q.x == lim.width - 10.0
    ensures p.x < 0.0 ==> q.x == Min(0.0, lim.width - 10.0)
    ensures p.y > lim.depth - 10.0 ==> q.y == lim.depth - 10.0
    ensures p.y < 0.0 ==> q.y == Min(0.0, lim.depth - 10.0)
  {
    var liftZ := if p.liftZ < 0.0 then 0.0 else p.liftZ;
    var x := if p.x < 0.0 then 0.0 else p.x;
    var y := if p.y < 0.0 then 0.0 else p.y;
    Park(if x > lim.width - 10.0 then lim.width - 10.0 else x,
         if y > lim.depth - 10.0 then lim.depth - 10.0 else y,
         liftZ)
  }

  /** Clamping a park position that is already clamped changes nothing, so repeated firings agree. */
  lemma ClampParkIdempotent(p: Park, lim: Limits)
    ensures ClampPark(ClampPark(p, lim), lim) == ClampPark(p, lim)
  {
  }

  /**
   * The height the head parks at: the minimum park height when the lift
   * would end below it (with no ceiling check in that case), otherwise
   * the lifted height capped 10 mm below the machine's height.
   */
  function ParkHeight(z: real, liftZ: real, minParkZ: real, lim: Limits): (h: real)
    ensures z + liftZ < minParkZ ==> h == minParkZ
    ensures z + liftZ >= minParkZ ==> h <= lim.height - 10.0
    ensures h >= minParkZ || h == lim.height - 10.0
    ensures h >= z + liftZ || h == lim.height - 10.0
    ensures h == z + liftZ || h == minParkZ || h == lim.height - 10.0
    ensures z + liftZ >= minParkZ ==> h == Min(z + liftZ, lim.height - 10.0)
  {
    if z + liftZ < minParkZ then minParkZ
    else if z + liftZ > lim.height - 10.0 then lim.height - 10.0
    else z + liftZ
  }

  // ---------------------------------------------------------------------
  // Number rendering (`"%f" % v`)
  // ---------------------------------------------------------------------

  function DigitChar(d: nat): (c: char)
    requires d < 10
    ensures IsDigit(c)
  {
    ('0' as int + d) as char
  }

  /** Decimal digits of a natural number, without leading zeros. */
  function NatText(n: nat): (t: string)
    ensures |t| >= 1
  {
    if n < 10 then [DigitChar(n)] else NatText(n / 10) + [DigitChar(n % 10)]
  }

  lemma {:induction false} NatTextDigits(n: nat)
    ensures forall i :: 0 <= i < |NatText(n)| ==> IsDigit(NatText(n)[i])
  {
    if n >= 10 {
      NatTextDigits(n / 10);
    }
  }

  function Zeros(k: nat): (t: string)
    ensures |t| == k
  {
    if k == 0 then "" else "0" + Zeros(k - 1)
  }

  lemma {:induction false} ZerosDigits(k: nat)
    ensures forall i :: 0 <= i < k ==> Zeros(k)[i] == '0'
  {
    if k > 0 {
      ZerosDigits(k - 1);
    }
  }

  /** A number rendered with six decimals, rounded half up: `%f`. */
  function Fmt(v: real): (t: string)
    ensures |t| >= 8
  {
    var a := if v < 0.0 then -v else v;
    var n: nat := (a * 1000000.0 + 0.5).Floor;
    var fraction := NatText(n % 1000000);
    var padded := if |fraction| < 6 then Zeros(6 - |fraction|) + fraction else fraction;
    (if v < 0.0 then "-" else "") + NatText(n / 1000000) + "." + padded
  }

  /** The rendering holds only digits, the point and the sign. */
  lemma FmtChars(v: real)
    ensures forall i :: 0 <= i < |Fmt(v)| ==> IsDigit(Fmt(v)[i]) || Fmt(v)[i] == '-' || Fmt(v)[i] == '.'
  {
    var a := if v < 0.0 then -v else v;
    var n: nat := (a * 1000000.0 + 0.5).Floor;
    NatTextDigits(n % 1000000);
    NatTextDigits(n / 1000000);
    var fraction := NatText(n % 1000000);
    if |fraction| < 6 {
      ZerosDigits(6 - |fraction|);
    }
  }

  // ---------------------------------------------------------------------
  // The lines of the block
  // ---------------------------------------------------------------------

  const TypeCustom := ";TYPE:CUSTOM"
  const PauseDone := ";CUSTOM Pause Done"
  const ExtruderRelative := "M83  ;Set extruder to relative mode"
  const ExtruderAbsolute := "M82  ;Set extruder back to absolute mode"
  const PositionRelative := "G91  ;Set to relative position mode"
  const PositionAbsolute := "G90  ;Set back to absolute position mode"
  const JogDown := "G1 X-0.1 Y-0.1 Z-0.1  ; Lock motors"
  const JogUp := "G1 X0.1 Y0.1 Z0.1  ; Lock motors"
  const PressContinue := "M117 Press Continue..."
  const FilamentChange := "M600 ; Filament Change"
  const CoolOff := "M104 S0  ;Turn off extruder heat"

  function Retract(mm: real): string { "G1 E-" + Fmt(mm) + " F2400  ;Retract" }
  function RetractAgain(mm: real): string { "G1 E-" + Fmt(mm) + " F2400 ;Retract" }
  function Lift(z: real): string { "G1 Z" + Fmt(z) + " F3000   ;Move head up" }
  function ParkMove(x: real, y: real): string { "G1 X" + Fmt(x) + " Y" + Fmt(y) + " F3000   ;Move head away" }
  function Reheat(temp: real): string { "M109 S" + Fmt(temp) + "  ;Heat extruder back up" }
  function ReturnXY(x: real, y: real): string { "G1 X" + Fmt(x) + " Y" + Fmt(y) + " F3000  ;Move to next layer position" }
  function ReturnZ(z: real): string { "G1 Z" + Fmt(z) + " F3000  ;Move to next layer Z position" }
  function Extrude(mm: real): string { "G1 E" + Fmt(mm) + " F2400 ;Extrude" }
  function ResetE(e: real): string {
    "G92  E" + Fmt(e) + "  ;Set the extrude value to the previous (before last retraction)"
  }

  /** What the block needs from the scan at the triggering line. */
  datatype Resume = Resume(
    x: real, y: real, z: real,
    lastE: real, temp: real,
    extruderAbsolute: bool, positionAbsolute: bool)

  function Header(z: real): seq<string> {
    [TypeCustom, ";added code by post processing", ";script: ChangeAtHeight.py", ";current z: " + Fmt(z)]
  }

  function Beeps(cfg: Config): seq<string> {
    if cfg.beep then ["M400  ;Wait for buffer to clear", "M300  ;Beep"] else []
  }

  function PauseCommand(cfg: Config): seq<string> {
    match cfg.pauseMethod
    case M25 => ["M25 ; Pause"]
    case M0 => ["M0 Press to Continue..."]
    case M600 => []
  }

  /** Tell the user, beep, pause. */
  function Wait(cfg: Config): seq<string> {
    [PressContinue] + Beeps(cfg) + PauseCommand(cfg)
  }

  /** The tiny relative jog that keeps the motors engaged, in relative positioning. */
  function LockMotors(positionAbsolute: bool): seq<string> {
    (if positionAbsolute then [PositionRelative] else []) + [JogDown, JogUp] +
    (if positionAbsolute then [PositionAbsolute] else [])
  }

  function PrimeNozzle(cfg: Config): seq<string> {
    if cfg.prime > 0.0 then
      [";Prime nozzle", "G1 E" + Fmt(cfg.prime + 1.0) + " F6000", "G1 E-" + Fmt(cfg.prime) + " F6000"]
    else []
  }

  /** Retract, lift, park, optionally cool, and wait. */
  function Leave(cfg: Config, r: Resume, parkZ: real, park: Park): seq<string> {
    (if r.extruderAbsolute then [ExtruderRelative] else []) +
    [Retract(cfg.retraction), Lift(parkZ), ParkMove(park.x, park.y)] +
    (if cfg.coolDown then [CoolOff] else []) +
    Wait(cfg)
  }

  /** The second pause of a plain pause (no filament change). */
  function Hold(cfg: Config, r: Resume): seq<string> {
    if !cfg.changeFilament then LockMotors(r.positionAbsolute) + Wait(cfg) else []
  }

  /** Heat back up to the last nozzle target and wait again. */
  function HeatUp(cfg: Config, r: Resume): seq<string> {
    if cfg.coolDown then
      LockMotors(r.positionAbsolute) +
      ["M117 Heating extruder...", Reheat(r.temp), PressContinue] + Beeps(cfg) + PauseCommand(cfg)
    else []
  }

  /** Prime the new filament, wait, and retract before travelling back. */
  function ChangeFilament(cfg: Config, r: Resume): seq<string> {
    if cfg.changeFilament then
      LockMotors(r.positionAbsolute) + PrimeNozzle(cfg) + Wait(cfg) + [RetractAgain(cfg.retraction)]
    else []
  }

  /** Travel back to the triggering line's X/Y, then its Z, undo the retraction, restore the extruder. */
  function Return(cfg: Config, r: Resume): seq<string> {
    [ReturnXY(r.x, r.y), ReturnZ(r.z), Extrude(cfg.extrusion)] +
    (if r.extruderAbsolute then [ExtruderAbsolute, ResetE(r.lastE)] else []) +
    ["M117 Printing..."]
  }

  /** The pauses between leaving and returning. */
  function Paused(cfg: Config, r: Resume): seq<string> {
    Hold(cfg, r) + HeatUp(cfg, r) + ChangeFilament(cfg, r)
  }

  /** The part between the header and the end marker. */
  function Body(cfg: Config, r: Resume, parkZ: real, park: Park): seq<string> {
    if cfg.pauseMethod == M600 then
      Beeps(cfg) + [FilamentChange]
    else
      Leave(cfg, r, parkZ, park) + Paused(cfg, r) + Return(cfg, r)
  }

  /** The inserted block (`prepend_gcode`), one entry per line. */
  function Block(cfg: Config, r: Resume, parkZ: real, park: Park): seq<string> {
    Header(r.z) + Body(cfg, r, parkZ, park) + [PauseDone]
  }

  /**
   * The block opens with the custom-block marker and a comment recording
   * the triggering height, and closes with the end marker; with M600 it
   * holds only the optional beep and the M600 command in between.
   */
  lemma BlockMarkers(cfg: Config, r: Resume, parkZ: real, park: Park)
    ensures var b := Block(cfg, r, parkZ, park);
      |b| >= 6 && b[0] == TypeCustom && b[|b| - 1] == PauseDone &&
      b[3] == ";current z: " + Fmt(r.z)
    ensures cfg.pauseMethod == M600 ==>
      Block(cfg, r, parkZ, park)[4..] == Beeps(cfg) + [FilamentChange, PauseDone]
  {
    var head, body := Header(r.z), Body(cfg, r, parkZ, park);
    if cfg.pauseMethod == M600 {
      assert body == Beeps(cfg) + [FilamentChange];
    } else {
      LeaveStarts(cfg, r, parkZ, park);
      assert |body| >= |Leave(cfg, r, parkZ, park)|;
    }
    Framed(head, body, PauseDone);
  }

  /** A part framed by a head and a final element. */
  lemma Framed<T>(h: seq<T>, m: seq<T>, d: T)
    ensures var b := h + m + [d];
      b[..|h|] == h && b[|h|..] == m + [d] && b[|b| - 1] == d
  {
  }

  /** How `Leave` starts: M83 exactly for an absolute extruder, then retract, lift, park. */
  lemma LeaveStarts(cfg: Config, r: Resume, parkZ: real, park: Park)
    ensures var l := Leave(cfg, r, parkZ, park);
      var o := if r.extruderAbsolute then 1 else 0;
      |l| > o + 2 && (r.extruderAbsolute ==> l[0] == ExtruderRelative) &&
      l[o] == Retract(cfg.retraction) && l[o + 1] == Lift(parkZ) && l[o + 2] == ParkMove(park.x, park.y)
  {
    var first := (if r.extruderAbsolute then [ExtruderRelative] else []) +
                 [Retract(cfg.retraction), Lift(parkZ), ParkMove(park.x, park.y)];
    var more := (if cfg.coolDown then [CoolOff] else []) + Wait(cfg);
    assert Leave(cfg, r, parkZ, park) == first + more;
  }

  /** Regrouping five concatenated parts. */
  lemma Regroup<T>(h: seq<T>, l: seq<T>, p: seq<T>, r: seq<T>, d: seq<T>)
    ensures h + (l + p + r) + d == h + l + (p + r + d)
    ensures h + (l + p + r) + d == (h + l + p) + (r + d)
  {
  }

  /** Indexing into the middle of three concatenated parts. */
  lemma ThreeParts<T>(a: seq<T>, b: seq<T>, c: seq<T>)
    ensures forall i :: 0 <= i < |b| ==> (a + b + c)[|a| + i] == b[i]
  {
  }

  lemma Suffix<T>(a: seq<T>, t: seq<T>)
    ensures (a + t)[|a + t| - |t|..] == t
  {
  }

  /**
   * Without M600 the retraction comes first (after M83 exactly when the
   * extruder was absolute), then the lift to the park height, then the
   * move to the park position.
   */
  lemma BlockLeaves(cfg: Config, r: Resume, parkZ: real, park: Park)
    requires cfg.pauseMethod != M600
    ensures var b := Block(cfg, r, parkZ, park);
      var o := if r.extruderAbsolute then 5 else 4;
      |b| > o + 2 &&
      (r.extruderAbsolute ==> b[4] == ExtruderRelative) &&
      b[o] == Retract(cfg.retraction) && b[o + 1] == Lift(parkZ) && b[o + 2] == ParkMove(park.x, park.y)
  {
    var b := Block(cfg, r, parkZ, park);
    var head, leave, paused, ret := Header(r.z), Leave(cfg, r, parkZ, park), Paused(cfg, r), Return(cfg, r);
    assert |head| == 4;
    Regroup(head, leave, paused, ret, [PauseDone]);
    ThreeParts(head, leave, paused + ret + [PauseDone]);
    LeaveStarts(cfg, r, parkZ, park);
  }

  /**
   * Without M600 the block ends by moving back to the triggering X/Y,
   * then to its Z, re-extruding the retraction and, for an absolute
   * extruder, restoring M82 and the extrusion reference `lastE`.
   */
  lemma BlockReturns(cfg: Config, r: Resume, parkZ: real, park: Park)
    requires cfg.pauseMethod != M600
    ensures var b := Block(cfg, r, parkZ, park);
      var tail := [ReturnXY(r.x, r.y), ReturnZ(r.z), Extrude(cfg.extrusion)] +
                  (if r.extruderAbsolute then [ExtruderAbsolute, ResetE(r.lastE)] else []) +
                  ["M117 Printing...", PauseDone];
      |b| >= |tail| && b[|b| - |tail|..] == tail
  {
    var head, leave, paused, ret := Header(r.z), Leave(cfg, r, parkZ, park), Paused(cfg, r), Return(cfg, r);
    Regroup(head, leave, paused, ret, [PauseDone]);
    Suffix(head + leave + paused, ret + [PauseDone]);
  }

  /** Under cooling, the block turns the heater off and later reheats to the last nozzle target. */
  lemma BlockReheats(cfg: Config, r: Resume, parkZ: real, park: Park)
    requires cfg.pauseMethod != M600 && cfg.coolDown
    ensures var b := Block(cfg, r, parkZ, park);
      exists i, j :: 0 <= i < j < |b| && b[i] == CoolOff && b[j] == Reheat(r.temp)
  {
    var leave, paused := Leave(cfg, r, parkZ, park), Paused(cfg, r);
    var k1 := LeaveCools(cfg, r, parkZ, park);
    var k2 := HeatUpReheats(cfg, r);
    assert paused == Hold(cfg, r) + HeatUp(cfg, r) + ChangeFilament(cfg, r);
    assert Block(cfg, r, parkZ, park) == Header(r.z) + (leave + paused + Return(cfg, r)) + [PauseDone];
    Before(Header(r.z), leave, Hold(cfg, r), HeatUp(cfg, r),
           ChangeFilament(cfg, r), Return(cfg, r), [PauseDone], k1, k2);
  }

  /** An entry of the second part comes before an entry of the fourth part of the body. */
  lemma Before<T>(h: seq<T>, l: seq<T>, o: seq<T>, e: seq<T>, c: seq<T>, r: seq<T>, d: seq<T>, k1: nat, k2: nat)
    requires k1 < |l| && k2 < |e|
    ensures var b := h + (l + (o + e + c) + r) + d;
      exists i, j :: 0 <= i < j < |b| && b[i] == l[k1] && b[j] == e[k2]
  {
    var body := l + (o + e + c) + r;
    var b := h + body + d;
    ThreeParts(h, body, d);
    ThreeParts(l, o + e + c, r);
    ThreeParts(o, e, c);
    var i, j := |h| + k1, |h| + |l| + |o| + k2;
    assert b[i] == body[k1] == l[k1];
    assert b[j] == body[|l| + |o| + k2] == (o + e + c)[|o| + k2] == e[k2];
  }

  /** Under cooling, leaving turns the heater off. */
  lemma LeaveCools(cfg: Config, r: Resume, parkZ: real, park: Park) returns (k: nat)
    requires cfg.coolDown
    ensures var l := Leave(cfg, r, parkZ, park); k < |l| && l[k] == CoolOff
  {
    var first := (if r.extruderAbsolute then [ExtruderRelative] else []) +
                 [Retract(cfg.retraction), Lift(parkZ), ParkMove(park.x, park.y)];
    assert Leave(cfg, r, parkZ, park) == first + ([CoolOff] + Wait(cfg));
    k := |first|;
  }

  /** Under cooling, heating up sets the last nozzle target again. */
  lemma HeatUpReheats(cfg: Config, r: Resume) returns (k: nat)
    requires cfg.coolDown
    ensures var h := HeatUp(cfg, r); k < |h| && h[k] == Reheat(r.temp)
  {
    var lock := LockMotors(r.positionAbsolute);
    var mid := ["M117 Heating extruder...", Reheat(r.temp), PressContinue];
    assert HeatUp(cfg, r) == lock + mid + (Beeps(cfg) + PauseCommand(cfg));
    k := |lock| + 1;
  }
}
