/**
 * `execute`: the scan over every layer and every line of the g-code
 * document, which tracks the machine state line by line and, at the first
 * armed move at or past the configured height or layer, rebuilds that
 * layer with the pause block inserted before the triggering line.
 *
 * The functions below give the scan's meaning one line, one layer and one
 * document at a time; the method `Execute` is the in-place loop the
 * post-processor runs, proved to compute exactly that.
 */
module ChangeAtHeight {
  import opened Optional
  import opened Text
  import opened LineValue
  import opened Settings
  import opened ScanState
  import opened PauseBlock
  import opened BlockText

  /**
   * The scan's variables: the tracked machine state, the park position
   * (which a firing clamps in place, for good), the document, and the text
   * of the layer being scanned (which a firing replaces).
   */
  datatype Scan = Scan(st: State, park: Park, doc: seq<string>, cur: string)

  /**
   * A layer rebuilt with `block` inserted before line `li`: the lines
   * before it joined, a terminator, the block line by line, the lines
   * from `li` on joined, and a final terminator.
   */
  function Splice(lines: seq<string>, li: nat, block: seq<string>): string
    requires li <= |lines|
  {
    Join(lines[..li]) + "\n" + Lines(block) + Join(lines[li..]) + "\n"
  }

  /** Where the block resumes printing: the triggering move's state. */
  function ResumeAt(t: State): Resume
    requires t.x.Some? && t.y.Some? && t.z.Some?
  {
    Resume(t.x.value, t.y.value, t.z.value, t.lastE, t.lastETemp, t.extruderAbsolute, t.positionAbsolute)
  }

  /**
   * What a firing inserts, from where printing resumes, the park height and
   * the park position. The scan does not depend on the block's text, so it
   * takes the builder as a parameter; the post-processor's own builder is
   * `BlockBuilder`.
   */
  type Builder = (Resume, real, Park) -> seq<string>

  /** The pause block under a configuration. */
  function BlockBuilder(cfg: Config): Builder {
    (r, parkZ, park) => Block(cfg, r, parkZ, park)
  }

  /** The block a firing line inserts, given the state after reading it and the clamped park position. */
  function BlockFor(cfg: Config, lim: Limits, ins: Builder, t: State, q: Park): seq<string>
    requires t.x.Some? && t.y.Some? && t.z.Some?
  {
    ins(ResumeAt(t), ParkHeight(t.z.value, q.liftZ, cfg.minParkZ, lim), q)
  }

  /**
   * One line of one layer, given the readings `rs` of the layer's lines. A
   * line that does not fire only updates the machine state. A firing line
   * clamps the park position, rebuilds the layer `cur` (found by its first
   * occurrence in the document) with the block inserted before the first
   * line equal to the triggering one, and disarms the trigger.
   */
  function ProcessLine(cfg: Config, lim: Limits, ins: Builder, sc: Scan, lines: seq<string>, rs: seq<Reading>, j: nat): (r: Scan)
    requires |rs| == |lines| && j < |lines| && sc.cur in sc.doc
    ensures r.cur in r.doc && |r.doc| == |sc.doc|
    ensures !Fires(cfg, sc.st, rs[j]) ==> r == sc.(st := Next(sc.st, rs[j]))
    ensures Fires(cfg, sc.st, rs[j]) ==>
      r.st == Next(sc.st, rs[j]).(ready := false) && r.park == ClampPark(sc.park, lim) &&
      r.doc == sc.doc[IndexOf(sc.doc, sc.cur) := r.cur]
  {
    var line := lines[j];
    var t := Next(sc.st, rs[j]);
    if Fires(cfg, sc.st, rs[j]) then
      var q := ClampPark(sc.park, lim);
      var text := Splice(lines, IndexOf(lines, line), BlockFor(cfg, lim, ins, t, q));
      var di := IndexOf(sc.doc, sc.cur);
      var doc := sc.doc[di := text];
      assert doc[di] == text;
      Scan(t.(ready := false), q, doc, text)
    else
      sc.(st := t)
  }

  /** The lines of a layer from `j` on. */
  function ScanLines(cfg: Config, lim: Limits, ins: Builder, sc: Scan, lines: seq<string>, rs: seq<Reading>, j: nat): (r: Scan)
    requires |rs| == |lines| && j <= |lines| && sc.cur in sc.doc
    ensures r.cur in r.doc && |r.doc| == |sc.doc|
    decreases |lines| - j
  {
    if j == |lines| then sc
    else ScanLines(cfg, lim, ins, ProcessLine(cfg, lim, ins, sc, lines, rs, j), lines, rs, j + 1)
  }

  /**
   * The layers from `k` on. Each layer is read from the document as it
   * stands when the scan reaches it, and split into lines once.
   */
  function RunFrom(cfg: Config, lim: Limits, ins: Builder, sc: Scan, k: nat): (r: Scan)
    requires k <= |sc.doc|
    ensures |r.doc| == |sc.doc|
    decreases |sc.doc| - k
  {
    if k == |sc.doc| then sc
    else
      var layer := sc.doc[k];
      var lines := Split(layer);
      RunFrom(cfg, lim, ins, ScanLines(cfg, lim, ins, sc.(cur := layer), lines, ReadAll(lines), 0), k + 1)
  }

  /** The whole document, from the initial state and the configured park position. */
  function Run(cfg: Config, lim: Limits, doc: seq<string>): (r: seq<string>)
    ensures |r| == |doc|
  {
    RunFrom(cfg, lim, BlockBuilder(cfg), Scan(Initial, cfg.park, doc, ""), 0).doc
  }

  // ---------------------------------------------------------------------
  // What a firing does to the layer
  // ---------------------------------------------------------------------

  /**
   * The rebuilt layer splits back into the original lines, in order, with
   * the block between line `li - 1` and line `li`; an insertion before the
   * first line leaves an empty first line, and the final terminator an
   * empty last line.
   */
  lemma SpliceLines(lines: seq<string>, li: nat, block: seq<string>)
    requires li < |lines|
    requires forall i :: 0 <= i < |lines| ==> '\n' !in lines[i]
    requires forall i :: 0 <= i < |block| ==> '\n' !in block[i]
    ensures Split(Splice(lines, li, block)) ==
      (if li == 0 then [""] else lines[..li]) + block + lines[li..] + [""]
  {
    var before, after := lines[..li], lines[li..];
    var rest := Lines(block) + (Join(after) + "\n");
    assert Splice(lines, li, block) == Join(before) + "\n" + rest;
    SplitBefore(before, rest);
    SplitRest(block, after);
  }

  /** The text ahead of the block splits into the lines before it. */
  lemma SplitBefore(before: seq<string>, rest: string)
    requires forall i :: 0 <= i < |before| ==> '\n' !in before[i]
    ensures Split(Join(before) + "\n" + rest) ==
      (if |before| == 0 then [""] else before) + Split(rest)
  {
    SplitAround(Join(before), rest);
    if |before| > 0 {
      SplitJoin(before);
    }
  }

  /** The block and the text after it split into the block's lines, the later lines and a final empty line. */
  lemma SplitRest(block: seq<string>, after: seq<string>)
    requires |after| >= 1
    requires forall i :: 0 <= i < |after| ==> '\n' !in after[i]
    requires forall i :: 0 <= i < |block| ==> '\n' !in block[i]
    ensures Split(Lines(block) + (Join(after) + "\n")) == block + (after + [""])
  {
    var tail := Join(after) + "\n";
    SplitLines(block, tail);
    assert tail == Join(after) + "\n" + "";
    SplitAround(Join(after), "");
    SplitJoin(after);
  }

  /** The text a firing line gives the layer. */
  lemma FiringStep(cfg: Config, lim: Limits, ins: Builder, sc: Scan, lines: seq<string>, rs: seq<Reading>, j: nat)
    requires |rs| == |lines| && j < |lines| && sc.cur in sc.doc
    requires Fires(cfg, sc.st, rs[j])
    ensures var q := ClampPark(sc.park, lim);
      ProcessLine(cfg, lim, ins, sc, lines, rs, j).cur ==
        Splice(lines, IndexOf(lines, lines[j]), BlockFor(cfg, lim, ins, Next(sc.st, rs[j]), q))
  {
  }

  /**
   * When a reading fires, the layer being scanned is replaced, at its first
   * occurrence in the document, by text that splits into the layer's lines
   * with the block inserted before the first line equal to the triggering
   * one (the triggering line itself, unless an identical line comes
   * earlier in the layer), and the trigger is disarmed.
   */
  lemma FiringSplices(cfg: Config, lim: Limits, ins: Builder, sc: Scan, lines: seq<string>, rs: seq<Reading>, j: nat)
    requires |rs| == |lines| && j < |lines| && sc.cur in sc.doc
    requires forall i :: 0 <= i < |lines| ==> '\n' !in lines[i]
    requires Fires(cfg, sc.st, rs[j])
    requires var b := BlockFor(cfg, lim, ins, Next(sc.st, rs[j]), ClampPark(sc.park, lim));
      forall i :: 0 <= i < |b| ==> '\n' !in b[i]
    ensures var r := ProcessLine(cfg, lim, ins, sc, lines, rs, j);
      var li := IndexOf(lines, lines[j]);
      li <= j && lines[li] == lines[j] &&
      r.doc[IndexOf(sc.doc, sc.cur)] == r.cur &&
      Split(r.cur) == (if li == 0 then [""] else lines[..li]) +
        BlockFor(cfg, lim, ins, Next(sc.st, rs[j]), r.park) + lines[li..] + [""] &&
      !r.st.ready && r.park == ClampPark(sc.park, lim)
  {
    var t := Next(sc.st, rs[j]);
    var q := ClampPark(sc.park, lim);
    FiringStep(cfg, lim, ins, sc, lines, rs, j);
    IndexOfFirst(lines, lines[j]);
    SpliceLines(lines, IndexOf(lines, lines[j]), BlockFor(cfg, lim, ins, t, q));
  }

  /**
   * The same for a firing line of a layer scanned with its own readings:
   * the block opens with the custom marker and records the Z the
   * triggering move names.
   */
  lemma FiringInserts(cfg: Config, lim: Limits, sc: Scan, lines: seq<string>, j: nat)
    requires j < |lines| && sc.cur in sc.doc
    requires forall i :: 0 <= i < |lines| ==> '\n' !in lines[i]
    requires FiresOn(cfg, sc.st, lines[j])
    ensures var r := ProcessLine(cfg, lim, BlockBuilder(cfg), sc, lines, ReadAll(lines), j);
      var li := IndexOf(lines, lines[j]);
      var t := Step(sc.st, lines[j]);
      var block := Block(cfg, ResumeAt(t), ParkHeight(t.z.value, r.park.liftZ, cfg.minParkZ, lim), r.park);
      Split(r.cur) == (if li == 0 then [""] else lines[..li]) + block + lines[li..] + [""] &&
      block[0] == TypeCustom && block[3] == ";current z: " + Fmt(GetValue(lines[j], "Z").value)
  {
    var rs := ReadAll(lines);
    ReadAllIndex(lines, j);
    var t := Step(sc.st, lines[j]);
    var q := ClampPark(sc.park, lim);
    var parkZ := ParkHeight(t.z.value, q.liftZ, cfg.minParkZ, lim);
    FiringLine(cfg, sc.st, lines[j]);
    BlockSingleLines(cfg, ResumeAt(t), parkZ, q);
    FiringSplices(cfg, lim, BlockBuilder(cfg), sc, lines, rs, j);
    BlockMarkers(cfg, ResumeAt(t), parkZ, q);
  }

  // ---------------------------------------------------------------------
  // When the trigger fires
  // ---------------------------------------------------------------------

  /** The number of lines from `j` on that fire. */
  function FireCount(cfg: Config, lim: Limits, ins: Builder, sc: Scan, lines: seq<string>, rs: seq<Reading>, j: nat): nat
    requires |rs| == |lines| && j <= |lines| && sc.cur in sc.doc
    decreases |lines| - j
  {
    if j == |lines| then 0
    else
      (if Fires(cfg, sc.st, rs[j]) then 1 else 0) +
      FireCount(cfg, lim, ins, ProcessLine(cfg, lim, ins, sc, lines, rs, j), lines, rs, j + 1)
  }

  /**
   * Without a layer-count marker to re-arm it, the trigger fires at most
   * once, and not at all when it is not armed.
   */
  lemma {:induction false} OncePerArming(cfg: Config, lim: Limits, ins: Builder, sc: Scan, lines: seq<string>, rs: seq<Reading>, j: nat)
    requires |rs| == |lines| && j <= |lines| && sc.cur in sc.doc
    requires forall i :: j <= i < |lines| ==> !rs[i].arms
    ensures FireCount(cfg, lim, ins, sc, lines, rs, j) <= if sc.st.ready then 1 else 0
    decreases |lines| - j
  {
    if j < |lines| {
      var r := ProcessLine(cfg, lim, ins, sc, lines, rs, j);
      OncePerArming(cfg, lim, ins, r, lines, rs, j + 1);
    }
  }

  /**
   * While the trigger is disarmed and no layer-count marker comes, the
   * lines only update the machine state: the document, the current layer
   * and the park position stay as they are.
   */
  lemma {:induction false} UnarmedLines(cfg: Config, lim: Limits, ins: Builder, sc: Scan, lines: seq<string>, rs: seq<Reading>, j: nat)
    requires |rs| == |lines| && j <= |lines| && sc.cur in sc.doc && !sc.st.ready
    requires forall i :: j <= i < |lines| ==> !rs[i].arms
    ensures var r := ScanLines(cfg, lim, ins, sc, lines, rs, j);
      r.doc == sc.doc && r.cur == sc.cur && r.park == sc.park && !r.st.ready
    decreases |lines| - j
  {
    if j < |lines| {
      UnarmedLines(cfg, lim, ins, ProcessLine(cfg, lim, ins, sc, lines, rs, j), lines, rs, j + 1);
    }
  }

  /** No line of any layer from `k` on is a layer-count marker. */
  ghost predicate NeverArms(doc: seq<string>, k: nat) {
    forall n, i :: k <= n < |doc| && 0 <= i < |Split(doc[n])| ==> !Arms(Split(doc[n])[i])
  }

  lemma {:induction false} UnarmedLayers(cfg: Config, lim: Limits, ins: Builder, sc: Scan, k: nat)
    requires k <= |sc.doc| && !sc.st.ready && NeverArms(sc.doc, k)
    ensures RunFrom(cfg, lim, ins, sc, k).doc == sc.doc
    decreases |sc.doc| - k
  {
    if k < |sc.doc| {
      var layer := sc.doc[k];
      var lines := Split(layer);
      var rs := ReadAll(lines);
      forall i | 0 <= i < |lines| ensures !rs[i].arms {
        ReadAllIndex(lines, i);
      }
      UnarmedLines(cfg, lim, ins, sc.(cur := layer), lines, rs, 0);
      var r := ScanLines(cfg, lim, ins, sc.(cur := layer), lines, rs, 0);
      UnarmedLayers(cfg, lim, ins, r, k + 1);
    }
  }

  /**
   * A document without a layer-count marker comes back unchanged: the
   * trigger starts disarmed and only that marker arms it.
   */
  lemma NeverArmedUnchanged(cfg: Config, lim: Limits, doc: seq<string>)
    requires NeverArms(doc, 0)
    ensures Run(cfg, lim, doc) == doc
  {
    UnarmedLayers(cfg, lim, BlockBuilder(cfg), Scan(Initial, cfg.park, doc, ""), 0);
  }

  /**
   * Scanning layer `k` never changes a later layer: the layer it replaces
   * is the first copy of the one being scanned, which is layer `k` or an
   * identical earlier one.
   */
  lemma {:induction false} LaterLayersKept(cfg: Config, lim: Limits, ins: Builder, sc: Scan, lines: seq<string>, rs: seq<Reading>, j: nat, k: nat)
    requires |rs| == |lines| && j <= |lines| && sc.cur in sc.doc && k < |sc.doc|
    requires IndexOf(sc.doc, sc.cur) <= k
    ensures var r := ScanLines(cfg, lim, ins, sc, lines, rs, j);
      IndexOf(r.doc, r.cur) <= k && r.doc[k + 1..] == sc.doc[k + 1..]
    decreases |lines| - j
  {
    if j < |lines| {
      var r := ProcessLine(cfg, lim, ins, sc, lines, rs, j);
      var di := IndexOf(sc.doc, sc.cur);
      if Fires(cfg, sc.st, rs[j]) {
        assert r.doc[di] == r.cur;
        IndexOfFirst(r.doc, r.cur);
      }
      assert IndexOf(r.doc, r.cur) <= di;
      assert r.doc[k + 1..] == sc.doc[k + 1..];
      LaterLayersKept(cfg, lim, ins, r, lines, rs, j + 1, k);
    }
  }

  // ---------------------------------------------------------------------
  // Over the whole document
  // ---------------------------------------------------------------------

  /** The number of readings from `j` on that carry a layer-count marker. */
  function ArmCount(rs: seq<Reading>, j: nat): nat
    requires j <= |rs|
    decreases |rs| - j
  {
    if j == |rs| then 0 else (if rs[j].arms then 1 else 0) + ArmCount(rs, j + 1)
  }

  /**
   * Every firing spends an arming: the firings of a layer from line `j`
   * on, plus one if the trigger is still armed afterwards, are at most
   * one if it was armed before plus the layer-count markers met.
   */
  lemma {:induction false} ArmedFirings(cfg: Config, lim: Limits, ins: Builder, sc: Scan, lines: seq<string>, rs: seq<Reading>, j: nat)
    requires |rs| == |lines| && j <= |lines| && sc.cur in sc.doc
    ensures var r := ScanLines(cfg, lim, ins, sc, lines, rs, j);
      FireCount(cfg, lim, ins, sc, lines, rs, j) + (if r.st.ready then 1 else 0) <=
        (if sc.st.ready then 1 else 0) + ArmCount(rs, j)
    decreases |lines| - j
  {
    if j < |lines| {
      var r := ProcessLine(cfg, lim, ins, sc, lines, rs, j);
      ArmedFirings(cfg, lim, ins, r, lines, rs, j + 1);
    }
  }

  /** A layer in which no line fires leaves the document, the layer and the park position as they were. */
  lemma {:induction false} UnfiredLines(cfg: Config, lim: Limits, ins: Builder, sc: Scan, lines: seq<string>, rs: seq<Reading>, j: nat)
    requires |rs| == |lines| && j <= |lines| && sc.cur in sc.doc
    requires FireCount(cfg, lim, ins, sc, lines, rs, j) == 0
    ensures var r := ScanLines(cfg, lim, ins, sc, lines, rs, j);
      r.doc == sc.doc && r.cur == sc.cur && r.park == sc.park
    decreases |lines| - j
  {
    if j < |lines| {
      UnfiredLines(cfg, lim, ins, ProcessLine(cfg, lim, ins, sc, lines, rs, j), lines, rs, j + 1);
    }
  }

  /** The number of firings over the layers from `k` on. */
  function FiringsFrom(cfg: Config, lim: Limits, ins: Builder, sc: Scan, k: nat): nat
    requires k <= |sc.doc|
    decreases |sc.doc| - k
  {
    if k == |sc.doc| then 0
    else
      var layer := sc.doc[k];
      var lines := Split(layer);
      var rs := ReadAll(lines);
      FireCount(cfg, lim, ins, sc.(cur := layer), lines, rs, 0) +
      FiringsFrom(cfg, lim, ins, ScanLines(cfg, lim, ins, sc.(cur := layer), lines, rs, 0), k + 1)
  }

  /** The number of layer-count markers in the layers from `k` on. */
  function ArmsFrom(doc: seq<string>, k: nat): nat
    requires k <= |doc|
    decreases |doc| - k
  {
    if k == |doc| then 0 else ArmCount(ReadAll(Split(doc[k])), 0) + ArmsFrom(doc, k + 1)
  }

  /** The markers from `k` on depend only on the layers from `k` on. */
  lemma {:induction false} ArmsFromSuffix(d: seq<string>, e: seq<string>, k: nat)
    requires |d| == |e| && k <= |d| && d[k..] == e[k..]
    ensures ArmsFrom(d, k) == ArmsFrom(e, k)
    decreases |d| - k
  {
    if k < |d| {
      assert d[k] == d[k..][0] == e[k..][0] == e[k];
      assert d[k + 1..] == d[k..][1..] == e[k..][1..] == e[k + 1..];
      ArmsFromSuffix(d, e, k + 1);
    }
  }

  /**
   * Over the layers from `k` on, the firings plus one if the trigger is
   * still armed at the end are at most one if it was armed at the start
   * plus the layer-count markers those layers hold: each arming pays for
   * at most one pause, across layers as well as within one.
   */
  lemma {:induction false} ArmedRun(cfg: Config, lim: Limits, ins: Builder, sc: Scan, k: nat)
    requires k <= |sc.doc|
    ensures var r := RunFrom(cfg, lim, ins, sc, k);
      FiringsFrom(cfg, lim, ins, sc, k) + (if r.st.ready then 1 else 0) <=
        (if sc.st.ready then 1 else 0) + ArmsFrom(sc.doc, k)
    decreases |sc.doc| - k
  {
    if k < |sc.doc| {
      var layer := sc.doc[k];
      var lines := Split(layer);
      var rs := ReadAll(lines);
      var sc1 := sc.(cur := layer);
      var r := ScanLines(cfg, lim, ins, sc1, lines, rs, 0);
      ArmedFirings(cfg, lim, ins, sc1, lines, rs, 0);
      IndexOfFirst(sc.doc, layer);
      assert IndexOf(sc.doc, layer) <= k;
      LaterLayersKept(cfg, lim, ins, sc1, lines, rs, 0, k);
      ArmsFromSuffix(r.doc, sc.doc, k + 1);
      ArmedRun(cfg, lim, ins, r, k + 1);
    }
  }

  /** Layers from `k` on in which nothing fires come back unchanged, and so does the park position. */
  lemma {:induction false} UnfiredLayers(cfg: Config, lim: Limits, ins: Builder, sc: Scan, k: nat)
    requires k <= |sc.doc| && FiringsFrom(cfg, lim, ins, sc, k) == 0
    ensures RunFrom(cfg, lim, ins, sc, k).doc == sc.doc
    ensures RunFrom(cfg, lim, ins, sc, k).park == sc.park
    decreases |sc.doc| - k
  {
    if k < |sc.doc| {
      var layer := sc.doc[k];
      var lines := Split(layer);
      var rs := ReadAll(lines);
      UnfiredLines(cfg, lim, ins, sc.(cur := layer), lines, rs, 0);
      UnfiredLayers(cfg, lim, ins, ScanLines(cfg, lim, ins, sc.(cur := layer), lines, rs, 0), k + 1);
    }
  }

  /** The number of pauses the post-processor inserts into a document. */
  function Firings(cfg: Config, lim: Limits, doc: seq<string>): nat {
    FiringsFrom(cfg, lim, BlockBuilder(cfg), Scan(Initial, cfg.park, doc, ""), 0)
  }

  /** A document in which the trigger is never reached comes back unchanged. */
  lemma UnfiredUnchanged(cfg: Config, lim: Limits, doc: seq<string>)
    requires Firings(cfg, lim, doc) == 0
    ensures Run(cfg, lim, doc) == doc
  {
    UnfiredLayers(cfg, lim, BlockBuilder(cfg), Scan(Initial, cfg.park, doc, ""), 0);
  }

  /**
   * The post-processor inserts at most one pause per layer-count marker in
   * the document (the trigger starts disarmed).
   */
  lemma OncePerMarker(cfg: Config, lim: Limits, doc: seq<string>)
    ensures Firings(cfg, lim, doc) <= ArmsFrom(doc, 0)
  {
    ArmedRun(cfg, lim, BlockBuilder(cfg), Scan(Initial, cfg.park, doc, ""), 0);
  }

  /**
   * Once the trigger is disarmed (after a firing, say), layers from `k` on
   * with no layer-count marker are neither paused nor changed.
   */
  lemma DisarmedRest(cfg: Config, lim: Limits, ins: Builder, sc: Scan, k: nat)
    requires k <= |sc.doc| && !sc.st.ready && ArmsFrom(sc.doc, k) == 0
    ensures FiringsFrom(cfg, lim, ins, sc, k) == 0
    ensures RunFrom(cfg, lim, ins, sc, k).doc == sc.doc
  {
    ArmedRun(cfg, lim, ins, sc, k);
    UnfiredLayers(cfg, lim, ins, sc, k);
  }

  /**
   * A firing line of a layer as the document holds it: the layer's lines
   * are single lines, so the rebuilt layer splits into them around the
   * block, which opens with the custom marker and records the triggering Z.
   */
  lemma LayerFiringInserts(cfg: Config, lim: Limits, sc: Scan, j: nat)
    requires sc.cur in sc.doc && j < |Split(sc.cur)|
    requires FiresOn(cfg, sc.st, Split(sc.cur)[j])
    ensures var lines := Split(sc.cur);
      var r := ProcessLine(cfg, lim, BlockBuilder(cfg), sc, lines, ReadAll(lines), j);
      var li := IndexOf(lines, lines[j]);
      var t := Step(sc.st, lines[j]);
      var block := Block(cfg, ResumeAt(t), ParkHeight(t.z.value, r.park.liftZ, cfg.minParkZ, lim), r.park);
      Split(r.cur) == (if li == 0 then [""] else lines[..li]) + block + lines[li..] + [""] &&
      Join(lines) == sc.cur
  {
    var lines := Split(sc.cur);
    SplitPieces(sc.cur);
    JoinSplit(sc.cur);
    FiringInserts(cfg, lim, sc, lines, j);
  }

  // ---------------------------------------------------------------------
  // The in-place loop
  // ---------------------------------------------------------------------

  /** `list.index(x)`: a linear search for the first position holding `x`. */
  method Position<T(==)>(xs: seq<T>, x: T) returns (r: nat)
    requires x in xs
    ensures r == IndexOf(xs, x)
  {
    r := 0;
    while xs[r] != x
      invariant r < |xs|
      invariant forall i :: 0 <= i < r ==> xs[i] != x
      decreases |xs| - r
    {
      r := r + 1;
    }
    IndexOfFirst(xs, x);
  }

  /**
   * The clamps of the firing branch, in place: the lift is raised to 0,
   * the park height worked out from the triggering Z, and the park X and Y
   * kept on the bed.
   */
  method ClampInPlace(cfg: Config, lim: Limits, z: real, parkX: real, parkY: real, moveZ: real)
    returns (parkX': real, parkY': real, moveZ': real, newZ: real)
    ensures Park(parkX', parkY', moveZ') == ClampPark(Park(parkX, parkY, moveZ), lim)
    ensures newZ == ParkHeight(z, moveZ', cfg.minParkZ, lim)
  {
    parkX', parkY', moveZ' := parkX, parkY, moveZ;
    if moveZ' < 0.0 {
      moveZ' := 0.0;
    }
    if z + moveZ' < cfg.minParkZ {
      newZ := cfg.minParkZ;
    } else {
      newZ := z + moveZ';
      if newZ > lim.height - 10.0 {
        newZ := lim.height - 10.0;
      }
    }
    if parkX' < 0.0 {
      parkX' := 0.0;
    }
    if parkY' < 0.0 {
      parkY' := 0.0;
    }
    if parkX' > lim.width - 10.0 {
      parkX' := lim.width - 10.0;
    }
    if parkY' > lim.depth - 10.0 {
      parkY' := lim.depth - 10.0;
    }
  }

  /**
   * The splice of the firing branch: the layer's lines before the first
   * copy of the triggering line, the block, the rest, written over the
   * first copy of the layer in the document.
   */
  method Rebuild(data: array<string>, layer: string, lines: seq<string>, line: string, block: seq<string>)
    returns (layer': string)
    requires layer in data[..] && line in lines
    modifies data
    ensures layer' == Splice(lines, IndexOf(lines, line), block)
    ensures data[..] == old(data[..])[IndexOf(old(data[..]), layer) := layer']
  {
    var di := Position(data[..], layer);
    var li := Position(lines, line);
    layer' := Splice(lines, li, block);
    data[di] := layer';
  }

  /**
   * One pass of the inner loop: skip custom blocks, re-arm on a
   * layer-count marker, otherwise read the line and fire when the trigger
   * test holds.
   */
  method ExecuteLine(cfg: Config, lim: Limits, data: array<string>, s: State,
                     parkX: real, parkY: real, moveZ: real, layer: string, lines: seq<string>, j: nat)
    returns (s': State, parkX': real, parkY': real, moveZ': real, layer': string)
    requires j < |lines| && layer in data[..]
    modifies data
    ensures Scan(s', Park(parkX', parkY', moveZ'), data[..], layer') ==
      ProcessLine(cfg, lim, BlockBuilder(cfg), Scan(s, Park(parkX, parkY, moveZ), old(data[..]), layer),
                  lines, ReadAll(lines), j)
  {
    var line := lines[j];
    var rd := Read(line);
    ReadAllIndex(lines, j);
    s', parkX', parkY', moveZ', layer' := s, parkX, parkY, moveZ, layer;
    if s.inCustom {
      if rd.closesCustom {
        s' := s.(inCustom := false);
      }
    } else if rd.opensCustom {
      s' := s.(inCustom := true);
    } else if rd.arms {
      s' := s.(layer := 0, ready := true);
    } else {
      s' := ReadMotion(ReadCommon(s, rd), rd);
      if rd.IsMove() && s'.ready && s'.layer > 0 && s'.z.Some? && s'.x.Some? && s'.y.Some? &&
         Reached(cfg, s'.z.value, s'.layer)
      {
        var newZ;
        parkX', parkY', moveZ', newZ := ClampInPlace(cfg, lim, s'.z.value, parkX, parkY, moveZ);
        var block := Block(cfg, ResumeAt(s'), newZ, Park(parkX', parkY', moveZ'));
        layer' := Rebuild(data, layer, lines, line, block);
        s' := s'.(ready := false);
      }
    }
  }

  /**
   * The inner loop: every line of layer `k`, as the layer stands when the
   * scan reaches it.
   */
  method ExecuteLayer(cfg: Config, lim: Limits, data: array<string>, s: State,
                      parkX: real, parkY: real, moveZ: real, k: nat)
    returns (s': State, parkX': real, parkY': real, moveZ': real, layer': string)
    requires k < data.Length
    modifies data
    ensures var layer := old(data[k]);
      var lines := Split(layer);
      Scan(s', Park(parkX', parkY', moveZ'), data[..], layer') ==
        ScanLines(cfg, lim, BlockBuilder(cfg), Scan(s, Park(parkX, parkY, moveZ), old(data[..]), layer),
                  lines, ReadAll(lines), 0)
  {
    ghost var ins := BlockBuilder(cfg);
    s', parkX', parkY', moveZ', layer' := s, parkX, parkY, moveZ, data[k];
    var lines := Split(layer');
    ghost var rs := ReadAll(lines);
    ghost var goal := ScanLines(cfg, lim, ins, Scan(s, Park(parkX, parkY, moveZ), data[..], layer'), lines, rs, 0);
    var j := 0;
    while j < |lines|
      invariant 0 <= j <= |lines|
      invariant layer' in data[..]
      invariant ScanLines(cfg, lim, ins, Scan(s', Park(parkX', parkY', moveZ'), data[..], layer'), lines, rs, j) == goal
    {
      s', parkX', parkY', moveZ', layer' := ExecuteLine(cfg, lim, data, s', parkX', parkY', moveZ', layer', lines, j);
      j := j + 1;
    }
  }

  /**
   * `execute`: scans every layer of `data` line by line and rewrites, in
   * place, each layer in which the trigger fires. The park position lives
   * in three variables that a firing clamps for the rest of the scan.
   */
  method Execute(cfg: Config, lim: Limits, data: array<string>)
    modifies data
    ensures data[..] == Run(cfg, lim, old(data[..]))
  {
    var s := Initial;
    var parkX, parkY, moveZ := cfg.park.x, cfg.park.y, cfg.park.liftZ;
    var layer := "";
    ghost var ins := BlockBuilder(cfg);
    ghost var goal := RunFrom(cfg, lim, ins, Scan(Initial, cfg.park, data[..], ""), 0);
    var k := 0;
    while k < data.Length
      invariant 0 <= k <= data.Length
      invariant RunFrom(cfg, lim, ins, Scan(s, Park(parkX, parkY, moveZ), data[..], layer), k) == goal
    {
      s, parkX, parkY, moveZ, layer := ExecuteLayer(cfg, lim, data, s, parkX, parkY, moveZ, k);
      k := k + 1;
    }
  }
}
