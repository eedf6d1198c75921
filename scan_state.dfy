/**
 * The machine state the post-processor tracks while it reads the g-code,
 * and how one line changes it (`execute`, the body of its inner loop up to
 * the trigger test).
 */
module ScanState {
  import opened Optional
  import opened Text
  import opened LineValue
  import opened Settings

  /**
   * `ready` arms the trigger, `inCustom` marks lines inside a custom block,
   * `layer` counts layer markers since the last layer-count marker, `lastE`
   * and `lastEAge` hold the extrusion position to resume from and its
   * debounce counter, `lastETemp` the last nozzle target, and `x`, `y`, `z`
   * the coordinates the last move line carried.
   */
  datatype State = State(
    ready: bool,
    inCustom: bool,
    layer: nat,
    lastE: real,
    lastEAge: nat,
    lastETemp: real,
    extruderAbsolute: bool,
    positionAbsolute: bool,
    x: Option<real>,
    y: Option<real>,
    z: Option<real>)

  /** Disarmed, no coordinates known, both axes assumed absolute. */
  const Initial: State := State(false, false, 0, 0.0, 0, 0.0, true, true, None, None, None)

  /**
   * What the scanner reads off one line: whether it opens or closes a
   * custom block, whether it carries a layer-count or a layer marker, and
   * the value of each g-code word it looks up.
   */
  datatype Reading = Reading(
    opensCustom: bool,
    closesCustom: bool,
    arms: bool,
    layerMark: bool,
    e: Option<real>,
    m: Option<real>,
    s: Option<real>,
    g: Option<real>,
    x: Option<real>,
    y: Option<real>,
    z: Option<real>)
  {
    /** A G0 or G1 move. */
    predicate IsMove() {
      g == Some(0.0) || g == Some(1.0)
    }
  }

  /** The reading of a line, every word looked up with the comment rule of `GetValue`. */
  function Read(line: string): Reading {
    Reading(
      Contains(line, ";TYPE:CUSTOM"), Contains(line, ";CUSTOM"),
      GetValue(line, ";LAYER_COUNT:").Some?, GetValue(line, ";LAYER:").Some?,
      GetValue(line, "E"), GetValue(line, "M"), GetValue(line, "S"), GetValue(line, "G"),
      GetValue(line, "X"), GetValue(line, "Y"), GetValue(line, "Z"))
  }

  /** A line the scanner passes over without reading: inside a custom block or opening one. */
  predicate Skipped(s: State, line: string) {
    s.inCustom || Contains(line, ";TYPE:CUSTOM")
  }

  /** A layer-count marker, which re-arms the trigger. */
  predicate Arms(line: string) {
    GetValue(line, ";LAYER_COUNT:").Some?
  }

  /**
   * The extrusion debounce: a higher E becomes the resume position at once;
   * a lower one only after three lower readings have been ignored.
   */
  function TrackE(lastE: real, age: nat, e: Option<real>): (r: (real, nat))
    ensures age <= 3 ==> r.1 <= 3
    ensures e.None? ==> r == (lastE, age)
    ensures r.0 > lastE ==> e == Some(r.0) && r.1 == 0
    ensures r.0 < lastE ==> age >= 3 && e == Some(r.0) && r.1 == 0
    ensures e.Some? && e.value > lastE ==> r == (e.value, 0)
    ensures e.Some? && e.value < lastE && age < 3 ==> r == (lastE, age + 1)
    ensures e.Some? && e.value < lastE && age >= 3 ==> r == (e.value, 0)
    ensures e.Some? && e.value == lastE ==> r == (lastE, age)
  {
    if e.None? then (lastE, age)
    else if e.value > lastE then (e.value, 0)
    else if e.value < lastE then
      if age < 3 then (lastE, age + 1) else (e.value, 0)
    else (lastE, age)
  }

  /**
   * The fields every line read as g-code updates: the layer count, the
   * extrusion debounce, the nozzle target (M104/M109 S) and the extruder
   * mode (M82/M83).
   */
  function ReadCommon(s: State, r: Reading): (t: State)
    ensures t.(layer := s.layer, lastE := s.lastE, lastEAge := s.lastEAge, lastETemp := s.lastETemp,
               extruderAbsolute := s.extruderAbsolute) == s
    ensures t.layer == s.layer + (if r.layerMark then 1 else 0)
    ensures (t.lastE, t.lastEAge) == TrackE(s.lastE, s.lastEAge, r.e)
    ensures t.lastETemp != s.lastETemp ==> (r.m == Some(104.0) || r.m == Some(109.0)) && r.s == Some(t.lastETemp)
    ensures t.extruderAbsolute != s.extruderAbsolute ==> r.m == Some(if t.extruderAbsolute then 82.0 else 83.0)
    ensures (r.m == Some(104.0) || r.m == Some(109.0)) && r.s.Some? ==> t.lastETemp == r.s.value
    ensures r.m == Some(82.0) ==> t.extruderAbsolute
    ensures r.m == Some(83.0) ==> !t.extruderAbsolute
  {
    var layer := if r.layerMark then s.layer + 1 else s.layer;
    var (lastE, age) := TrackE(s.lastE, s.lastEAge, r.e);
    var temp := if (r.m == Some(104.0) || r.m == Some(109.0)) && r.s.Some? then r.s.value else s.lastETemp;
    var extruderAbsolute :=
      if r.m == Some(82.0) then true
      else if r.m == Some(83.0) then false
      else s.extruderAbsolute;
    s.(layer := layer, lastE := lastE, lastEAge := age, lastETemp := temp,
       extruderAbsolute := extruderAbsolute)
  }

  /**
   * The G word: G90/G91 set the positioning mode, G92 redefines the
   * coordinates (and the resume position: to its E, or to 0 when it names
   * no axis at all), and G0/G1 moves record X, Y and Z, each possibly absent.
   */
  function ReadMotion(u: State, r: Reading): (t: State)
    ensures t.ready == u.ready && t.inCustom == u.inCustom && t.layer == u.layer
    ensures t.lastEAge == u.lastEAge && t.lastETemp == u.lastETemp && t.extruderAbsolute == u.extruderAbsolute
    ensures !r.IsMove() ==> t.z == u.z
    ensures r.IsMove() ==> t == u.(x := r.x, y := r.y, z := r.z)
    ensures t.lastE != u.lastE ==> r.g == Some(92.0) && t.lastE == (if r.e.Some? then r.e.value else 0.0)
    ensures r.g == Some(90.0) ==> t.positionAbsolute
    ensures r.g == Some(91.0) ==> !t.positionAbsolute
    ensures r.g != Some(90.0) && r.g != Some(91.0) ==> t.positionAbsolute == u.positionAbsolute
    ensures r.g == Some(92.0) ==> t.x == r.x && t.y == r.y && t.z == u.z
    ensures r.g == Some(92.0) ==>
      t.lastE == (if r.e.Some? then r.e.value
                  else if r.x.None? && r.y.None? && r.z.None? then 0.0
                  else u.lastE)
    ensures !r.IsMove() && r.g != Some(92.0) ==> t.x == u.x && t.y == u.y && t.lastE == u.lastE
  {
    if r.g == Some(90.0) then u.(positionAbsolute := true)
    else if r.g == Some(91.0) then u.(positionAbsolute := false)
    else if r.g == Some(92.0) then
      var reset := if r.e.None? && r.x.None? && r.y.None? && r.z.None? then 0.0 else u.lastE;
      u.(x := r.x, y := r.y, lastE := if r.e.Some? then r.e.value else reset)
    else if r.IsMove() then
      u.(x := r.x, y := r.y, z := r.z)
    else u
  }

  /** How one reading changes the tracked state. */
  function Next(s: State, r: Reading): (t: State)
    ensures s.inCustom || r.opensCustom ==> t.(inCustom := s.inCustom) == s
    ensures s.inCustom || r.opensCustom ==> t.inCustom == (!s.inCustom || !r.closesCustom)
    ensures !s.inCustom && !r.opensCustom && r.arms ==> t == s.(layer := 0, ready := true)
    ensures !s.inCustom && !r.opensCustom && !r.arms ==>
      !t.inCustom && t.ready == s.ready && t.layer == s.layer + (if r.layerMark then 1 else 0)
    ensures t.ready ==> s.ready || r.arms
    ensures s.lastEAge <= 3 ==> t.lastEAge <= 3
  {
    if s.inCustom then s.(inCustom := !r.closesCustom)
    else if r.opensCustom then s.(inCustom := true)
    else if r.arms then s.(layer := 0, ready := true)
    else ReadMotion(ReadCommon(s, r), r)
  }

  /** How one line changes the tracked state. */
  function Step(s: State, line: string): (t: State)
    ensures Skipped(s, line) ==> t.(inCustom := s.inCustom) == s
    ensures Skipped(s, line) ==> t.inCustom == (!s.inCustom || !Contains(line, ";CUSTOM"))
    ensures !Skipped(s, line) && Arms(line) ==> t == s.(layer := 0, ready := true)
    ensures !Skipped(s, line) && !Arms(line) ==>
      !t.inCustom && t.ready == s.ready &&
      t.layer == s.layer + (if GetValue(line, ";LAYER:").Some? then 1 else 0)
    ensures t.ready ==> s.ready || Arms(line)
  {
    Next(s, Read(line))
  }

  /** The configured threshold has been reached. */
  predicate Reached(cfg: Config, z: real, layer: int) {
    (cfg.trigger == Height && z >= cfg.pauseHeight) || (cfg.trigger == Layer && layer >= cfg.pauseLayer)
  }

  /**
   * The trigger test: a G0/G1 reading taken while armed, past the first
   * layer marker, carrying Z, X and Y, at or past the threshold.
   */
  predicate Fires(cfg: Config, s: State, r: Reading) {
    !s.inCustom && !r.opensCustom && !r.arms && r.IsMove() &&
    var t := Next(s, r);
    t.ready && t.layer > 0 && t.z.Some? && t.x.Some? && t.y.Some? && Reached(cfg, t.z.value, t.layer)
  }

  /** The trigger test on a line. */
  predicate FiresOn(cfg: Config, s: State, line: string) {
    Fires(cfg, s, Read(line))
  }

  /** A firing line is an armed G0/G1 move that itself names Z, X and Y. */
  lemma FiringLine(cfg: Config, s: State, line: string)
    requires FiresOn(cfg, s, line)
    ensures s.ready && !Skipped(s, line) && !Arms(line)
    ensures GetValue(line, "G") == Some(0.0) || GetValue(line, "G") == Some(1.0)
    ensures GetValue(line, "Z").Some? && GetValue(line, "X").Some? && GetValue(line, "Y").Some?
    ensures var t := Step(s, line);
      t.z == GetValue(line, "Z") && t.x == GetValue(line, "X") && t.y == GetValue(line, "Y")
    ensures Reached(cfg, GetValue(line, "Z").value, Step(s, line).layer)
    ensures Step(s, line).ready && Step(s, line).layer > 0
  {
  }

  /** The readings of a run of lines. */
  function ReadAll(lines: seq<string>): (rs: seq<Reading>)
    ensures |rs| == |lines|
    decreases |lines|
  {
    if lines == [] then [] else [Read(lines[0])] + ReadAll(lines[1..])
  }

  lemma {:induction false} ReadAllIndex(lines: seq<string>, i: nat)
    requires i < |lines|
    ensures ReadAll(lines)[i] == Read(lines[i])
    decreases |lines|
  {
    if i > 0 {
      ReadAllIndex(lines[1..], i - 1);
    }
  }

  /** The state after a run of readings. */
  function NextAll(s: State, rs: seq<Reading>): State
    decreases |rs|
  {
    if rs == [] then s else NextAll(Next(s, rs[0]), rs[1..])
  }

  lemma {:induction false} NextAllAppend(s: State, rs: seq<Reading>, r: Reading)
    ensures NextAll(s, rs + [r]) == Next(NextAll(s, rs), r)
    decreases |rs|
  {
    if rs != [] {
      assert (rs + [r])[1..] == rs[1..] + [r];
      NextAllAppend(Next(s, rs[0]), rs[1..], r);
    }
  }

  /**
   * A custom block (a reading that opens one, readings that do not close
   * it, and a reading that does) leaves the state exactly as it found it,
   * and no reading in it can fire.
   */
  predicate CustomFramed(rs: seq<Reading>) {
    |rs| >= 2 && rs[0].opensCustom && rs[|rs| - 1].closesCustom &&
    forall i :: 0 < i < |rs| - 1 ==> !rs[i].closesCustom
  }

  lemma {:induction false} SkipCustomBlock(cfg: Config, s: State, rs: seq<Reading>)
    requires !s.inCustom && CustomFramed(rs)
    ensures NextAll(s, rs) == s
    ensures forall i :: 0 <= i < |rs| ==> !Fires(cfg, NextAll(s, rs[..i]), rs[i])
  {
    var inside := s.(inCustom := true);
    assert NextAll(s, rs[..1]) == inside by {
      assert rs[..1] == [] + [rs[0]];
      NextAllAppend(s, [], rs[0]);
    }
    var i := 1;
    while i < |rs| - 1
      invariant 1 <= i <= |rs| - 1
      invariant NextAll(s, rs[..i]) == inside
      invariant forall j :: 0 <= j < i ==> NextAll(s, rs[..j]).inCustom || rs[j].opensCustom
    {
      assert rs[..i + 1] == rs[..i] + [rs[i]];
      NextAllAppend(s, rs[..i], rs[i]);
      i := i + 1;
    }
    var last := |rs| - 1;
    assert rs == rs[..last] + [rs[last]];
    NextAllAppend(s, rs[..last], rs[last]);
  }

  /** The debounce applied to a run of E readings. */
  function TrackAll(lastE: real, age: nat, es: seq<real>): (real, nat)
    decreases |es|
  {
    if es == [] then (lastE, age)
    else
      var (e, a) := TrackE(lastE, age, Some(es[0]));
      TrackAll(e, a, es[1..])
  }

  /** Up to three lower readings in a row leave the resume position alone and count up. */
  lemma {:induction false} LowReadingsIgnored(lastE: real, age: nat, es: seq<real>)
    requires age + |es| <= 3
    requires forall i :: 0 <= i < |es| ==> es[i] < lastE
    ensures TrackAll(lastE, age, es) == (lastE, age + |es|)
    decreases |es|
  {
    if es != [] {
      LowReadingsIgnored(lastE, age + 1, es[1..]);
    }
  }

  /** The fourth lower reading in a row becomes the new resume position. */
  lemma FourthLowReadingAccepted(lastE: real, es: seq<real>)
    requires |es| == 4
    requires forall i :: 0 <= i < 4 ==> es[i] < lastE
    ensures TrackAll(lastE, 0, es[..3]) == (lastE, 3)
    ensures TrackAll(lastE, 0, es) == (es[3], 0)
  {
    LowReadingsIgnored(lastE, 0, es[..3]);
    TrackAllAppend(lastE, 0, es[..3], es[3]);
    assert es == es[..3] + [es[3]];
  }

  lemma {:induction false} TrackAllAppend(lastE: real, age: nat, es: seq<real>, e: real)
    ensures TrackAll(lastE, age, es + [e]) ==
      var (l, a) := TrackAll(lastE, age, es); TrackE(l, a, Some(e))
    decreases |es|
  {
    if es != [] {
      var (l, a) := TrackE(lastE, age, Some(es[0]));
      assert (es + [e])[1..] == es[1..] + [e];
      TrackAllAppend(l, a, es[1..], e);
    }
  }

  /** The resume position never drops below the largest reading that has not been outlived by four lower ones. */
  lemma {:induction false} HighReadingKept(lastE: real, es: seq<real>)
    requires |es| <= 3
    requires forall i :: 0 <= i < |es| ==> es[i] <= lastE
    ensures TrackAll(lastE, 0, es).0 == lastE
    decreases |es|
  {
    if es != [] {
      var age := if es[0] < lastE then 1 else 0;
      assert TrackE(lastE, 0, Some(es[0])) == (lastE, age);
      HighReadingKeptFrom(lastE, age, es[1..]);
    }
  }

  lemma {:induction false} HighReadingKeptFrom(lastE: real, age: nat, es: seq<real>)
    requires age + |es| <= 3
    requires forall i :: 0 <= i < |es| ==> es[i] <= lastE
    ensures TrackAll(lastE, age, es).0 == lastE
    decreases |es|
  {
    if es != [] {
      var next := if es[0] < lastE then age + 1 else age;
      assert TrackE(lastE, age, Some(es[0])) == (lastE, next);
      HighReadingKeptFrom(lastE, next, es[1..]);
    }
  }
}
