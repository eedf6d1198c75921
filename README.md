# ChangeAtHeight, modelled in Dafny

ChangeAtHeight is a g-code post-processing script. It reads a sliced print
(a list of layers, each a block of g-code text). A `;LAYER_COUNT:` line arms
the trigger; one comes at the start of every part printed "one at a time".
Each time the armed trigger first reaches a configured height or layer, it
inserts a pause or filament-change block before the triggering move and
disarms itself. This project models its two working parts:

- `getValue` (module `LineValue`) returns the number that follows the first
  occurrence of a key in a g-code line. It ignores keys that only appear
  after the `;` comment delimiter. It accepts numerals of the two shapes
  `-?[0-9]+\.?[0-9]*` and `-?[0-9]*\.?[0-9]+`, tried in that order and each
  matched as long as possible. Both shapes are stated declaratively. The
  scanners are proved to return the longest matching prefix. A numeral
  denotes its exact decimal value, as a `real`.
- `execute` scans every layer and every line and tracks the machine state:
  - the arming flag, the custom-block flag and the layer count;
  - the extrusion position with its debounce counter;
  - the nozzle target;
  - the extruder and positioning modes;
  - the last X/Y/Z.

  When the trigger fires, it clamps the park position in place, builds the
  pause block and rewrites the layer in place with the block inserted.

The model is layered like the script:

- `Text`: substring search, `list.index`, and `"\n".join` / `str.split("\n")`
  with their round trips.
- `LineValue`: `getValue`.
- `Settings`: the user settings and the printer's build volume, as immutable
  records.
- `ScanState`: the tracked state, and how one line changes it
  (`Read`, `Next`, `Step`). Also the trigger test `Fires`, the custom-block
  skip and the extrusion debounce.
- `PauseBlock`: the park clamps, the `%f` rendering, and the inserted block
  line by line (`Block`) with its shape lemmas.
- `BlockText`: every block line is a single line, and the block is a
  well-formed custom block. A later scan therefore passes over it without
  firing and without changing state.
- `BlockModes`: the block hands the printer back in the extruder and
  positioning modes it found. It extrudes only in relative extruder mode,
  jogs only in relative positioning, and moves the head in the positioning
  mode it found.
- `ChangeAtHeight`: the scan as pure functions. `ProcessLine` handles one
  line, `ScanLines` one layer, and `RunFrom`/`Run` the whole document. The
  imperative `Execute` works over `array<string>` with nested loops, and is
  proved to leave the array equal to `Run` of its old contents.

The pure scan takes the block builder as a parameter (`Builder`), because
the scan does not depend on the block's text. `Run` and `Execute` use the
script's own block (`BlockBuilder`).

Quirks of the script are modelled as written:

- A G0/G1 move without Z sets the current Z to "none".
- The trigger starts disarmed. Only a `;LAYER_COUNT:` line arms it.
- The splice point is the *first* layer of the document equal to the
  current one, and the *first* line of the layer equal to the triggering
  line (`data.index`, `lines.index`).
- After a firing, the loop goes on over the layer's old lines.
- If a layer-count marker re-arms the trigger later in the same layer and
  it fires again, the layer is rebuilt once more from its old lines. That
  rebuild replaces the layer holding the first block, so the first block is
  dropped.
- The park clamps persist for the rest of the scan.
- The park height gets no ceiling when the lift ends below the minimum
  park height.
- The block's lift, park and return moves carry absolute coordinates but
  no G90 of their own. When the printer is in relative positioning at the
  triggering line, they are read as relative moves.

The setting description of `head_move_z` says that 0 lifts the head by one
layer. The code does no such thing, and the model follows the code.

## Model

| member | source | states |
|---|---|---|
| LineValue.ScanLeadingDigitSpec | _settings/scripts/ChangeAtHeight/ChangeAtHeight.py:163 | the first scan returns the longest prefix matching `-?[0-9]+\.?[0-9]*`, and returns nothing exactly when no prefix matches |
| LineValue.ScanTrailingDigitSpec | _settings/scripts/ChangeAtHeight/ChangeAtHeight.py:165 | the fallback scan returns the longest prefix matching `-?[0-9]*\.?[0-9]+`, and returns nothing exactly when no prefix matches |
| LineValue.NumeralExtracted | _settings/scripts/ChangeAtHeight/ChangeAtHeight.py:163-167 | the numeral taken is the longest of the first shape, else the longest of the second; none is taken exactly when neither shape matches |
| LineValue.GetValueAbsent | _settings/scripts/ChangeAtHeight/ChangeAtHeight.py:160-161 | a key that does not occur gives the default |
| LineValue.GetValueInComment | _settings/scripts/ChangeAtHeight/ChangeAtHeight.py:160-161 | a key whose first occurrence lies after the first `;` gives the default |
| LineValue.GetValueNumeral | _settings/scripts/ChangeAtHeight/ChangeAtHeight.py:159-171 | otherwise the result is the value of the extracted numeral right after the key, and the default when no numeral follows |
| LineValue.GetValueAfterKey | _settings/scripts/ChangeAtHeight/ChangeAtHeight.py:160-162 | with the key found first at `k` and no comment before it, the value is read from the text after the key |
| LineValue.PointThree | _settings/scripts/ChangeAtHeight/ChangeAtHeight.py:157-166 | `.3` (no leading digit) is accepted, whole, and denotes 0.3 |
| LineValue.MinusPointFive | _settings/scripts/ChangeAtHeight/ChangeAtHeight.py:163-169 | `-.5` is accepted, whole, by the fallback shape and denotes -0.5 |
| Text.FindFirst | _settings/scripts/ChangeAtHeight/ChangeAtHeight.py:160-162 | `find` returns the first occurrence of the key, and returns nothing exactly when the key does not occur |
| Text.IndexOfFirst | _settings/scripts/ChangeAtHeight/ChangeAtHeight.py:288-289 | `index` returns the first position holding the element |
| Text.JoinSplit | _settings/scripts/ChangeAtHeight/ChangeAtHeight.py:202 | joining the split lines with terminators gives back the layer text |
| Text.SplitJoin | _settings/scripts/ChangeAtHeight/ChangeAtHeight.py:451 | splitting joined single lines gives back the lines |
| Text.SplitAround | _settings/scripts/ChangeAtHeight/ChangeAtHeight.py:451 | splitting around a terminator splits each side separately |
| ScanState.TrackE | _settings/scripts/ChangeAtHeight/ChangeAtHeight.py:228-240 | no E changes nothing; a higher E becomes the resume position with age 0; a lower E adds 1 to the age below age 3 and becomes the resume position with age 0 from age 3 on; an equal E changes nothing; the age stays at most 3 |
| ScanState.LowReadingsIgnored | _settings/scripts/ChangeAtHeight/ChangeAtHeight.py:234-237 | up to three lower readings in a row leave the resume position alone and count the age up |
| ScanState.FourthLowReadingAccepted | _settings/scripts/ChangeAtHeight/ChangeAtHeight.py:234-240 | the fourth lower reading in a row becomes the resume position and resets the age |
| ScanState.HighReadingKept | _settings/scripts/ChangeAtHeight/ChangeAtHeight.py:229-240 | up to three readings that are not higher leave the resume position unchanged |
| ScanState.ReadCommon | _settings/scripts/ChangeAtHeight/ChangeAtHeight.py:223-257 | a line read as g-code changes only the layer, E tracking, nozzle target and extruder mode; a `;LAYER:` marker adds exactly 1; M104/M109 with S sets the target to S, and nothing else changes it; M82 makes the extruder absolute and M83 relative, and nothing else changes the mode |
| ScanState.ReadMotion | _settings/scripts/ChangeAtHeight/ChangeAtHeight.py:259-281 | G90 sets absolute and G91 relative positioning, and no other line changes the mode; a G0/G1 move sets X, Y and Z to the line's values, each possibly absent; G92 sets X and Y, keeps Z, and sets the resume position to its E, to 0 when it names no axis, and otherwise keeps it; no other line changes X, Y or the resume position |
| ScanState.Next | _settings/scripts/ChangeAtHeight/ChangeAtHeight.py:205-281 | inside or opening a custom block only the custom flag changes; a layer-count marker sets the layer to 0 and arms and changes nothing else; the trigger is armed afterwards only if it was before or the line arms it |
| ScanState.Step | _settings/scripts/ChangeAtHeight/ChangeAtHeight.py:205-225 | the same stated on the line text: `;TYPE:CUSTOM` / `;CUSTOM` skipping, `;LAYER_COUNT:` re-arming, and `;LAYER:` counting |
| ScanState.FiringLine | _settings/scripts/ChangeAtHeight/ChangeAtHeight.py:274-286 | a firing line is an armed G0/G1 move outside custom blocks; it names Z, X and Y itself; after it the trigger is still armed and the layer count is above 0; and its Z or layer reaches the threshold |
| ScanState.SkipCustomBlock | _settings/scripts/ChangeAtHeight/ChangeAtHeight.py:205-212 | a custom block, from its opening line to its closing line, leaves the state exactly as it was, and none of its lines fires |
| PauseBlock.ClampPark | _settings/scripts/ChangeAtHeight/ChangeAtHeight.py:301-332 | a negative lift becomes 0 and other lifts are kept; a park X beyond the bed's width less 10 mm becomes that edge, a negative one becomes 0 (or the edge, on a bed under 10 mm), and one in range is kept; the same for Y and the depth |
| PauseBlock.ClampParkIdempotent | _settings/scripts/ChangeAtHeight/ChangeAtHeight.py:301-332 | clamping an already clamped park position changes nothing, so the in-place clamp is stable across firings |
| PauseBlock.ParkHeight | _settings/scripts/ChangeAtHeight/ChangeAtHeight.py:304-314 | below the minimum park height the head parks at that minimum (no ceiling); otherwise at the lifted height or 10 mm below the machine's height, whichever is lower |
| PauseBlock.FmtChars | _settings/scripts/ChangeAtHeight/ChangeAtHeight.py:297 | a rendered number holds only digits, the sign and the point |
| PauseBlock.BlockMarkers | _settings/scripts/ChangeAtHeight/ChangeAtHeight.py:294-447 | the block opens with `;TYPE:CUSTOM`, records the current Z on its fourth line and ends with `;CUSTOM Pause Done`; with M600 it holds only the optional beep and M600 in between |
| PauseBlock.BlockLeaves | _settings/scripts/ChangeAtHeight/ChangeAtHeight.py:341-350 | without M600, M83 comes first exactly when the extruder was absolute; then the retraction, the lift to the park height and the move to the park position |
| PauseBlock.BlockReturns | _settings/scripts/ChangeAtHeight/ChangeAtHeight.py:436-447 | without M600 the block ends by moving to the trigger's X/Y, then its Z, and extruding; for an absolute extruder it then restores M82 and `G92 E<last E>` |
| PauseBlock.BlockReheats | _settings/scripts/ChangeAtHeight/ChangeAtHeight.py:352-400 | with cooling the block turns the heater off and, at a later line, sets the last nozzle target again |
| BlockText.BlockSingleLines | _settings/scripts/ChangeAtHeight/ChangeAtHeight.py:294-447 | every line of the block is a single line |
| BlockText.BlockSkipped | _settings/scripts/ChangeAtHeight/ChangeAtHeight.py:205-212 | a later scan that meets the block outside a custom block passes over it with its state unchanged, and no block line fires |
| BlockModes.LockMotorsModes | _settings/scripts/ChangeAtHeight/ChangeAtHeight.py:372-377 | the motor-lock jogs run in relative positioning, and the positioning mode is restored afterwards |
| BlockModes.LeaveModes | _settings/scripts/ChangeAtHeight/ChangeAtHeight.py:341-367 | leaving switches to relative extruder mode before retracting and ends in relative extruder mode |
| BlockModes.ReturnModes | _settings/scripts/ChangeAtHeight/ChangeAtHeight.py:436-446 | returning re-extrudes in relative mode and then restores the extruder mode found at the trigger |
| BlockModes.BlockRestoresModes | _settings/scripts/ChangeAtHeight/ChangeAtHeight.py:294-447 | the whole block leaves both modes as it found them; every extruder move in it is read in relative extruder mode, every jog in relative positioning, and every head move (lift, park, return) in the positioning mode found at the triggering line |
| ChangeAtHeight.ProcessLine | _settings/scripts/ChangeAtHeight/ChangeAtHeight.py:204-457 | a line that does not fire only updates the state; a firing line disarms, clamps the park position, and rewrites only the first copy of the current layer in the document |
| ChangeAtHeight.SpliceLines | _settings/scripts/ChangeAtHeight/ChangeAtHeight.py:449-451 | the rebuilt layer splits into the lines before the splice point, the block, the lines from the splice point on, and a final empty line |
| ChangeAtHeight.FiringSplices | _settings/scripts/ChangeAtHeight/ChangeAtHeight.py:288-456 | on firing, the splice point is the first line equal to the trigger (at or before it); the new layer text splits into the old lines around the block; the trigger is disarmed |
| ChangeAtHeight.FiringInserts | _settings/scripts/ChangeAtHeight/ChangeAtHeight.py:284-453 | the same for the script's own block, which opens with `;TYPE:CUSTOM` and records the Z the triggering line names |
| ChangeAtHeight.LayerFiringInserts | _settings/scripts/ChangeAtHeight/ChangeAtHeight.py:200-451 | for a layer as the document holds it, the firing splice splits back into the layer's own lines around the block, and those lines join back into the layer |
| ChangeAtHeight.OncePerArming | _settings/scripts/ChangeAtHeight/ChangeAtHeight.py:284-456 | without a layer-count marker, at most one line of a layer fires, and none when the trigger is disarmed |
| ChangeAtHeight.ArmedFirings | _settings/scripts/ChangeAtHeight/ChangeAtHeight.py:216-456 | within a layer, the firings plus one if still armed afterwards are at most one if armed before plus the layer-count markers met |
| ChangeAtHeight.ArmedRun | _settings/scripts/ChangeAtHeight/ChangeAtHeight.py:175-456 | over the layers from `k` on, the firings plus one if still armed at the end are at most one if armed at the start plus the layer-count markers those layers hold |
| ChangeAtHeight.OncePerMarker | _settings/scripts/ChangeAtHeight/ChangeAtHeight.py:175-456 | the post-processor inserts at most one pause per layer-count marker in the document |
| ChangeAtHeight.UnfiredLines | _settings/scripts/ChangeAtHeight/ChangeAtHeight.py:204-286 | a layer in which no line fires leaves the document, the layer text and the park position as they were |
| ChangeAtHeight.UnfiredLayers | _settings/scripts/ChangeAtHeight/ChangeAtHeight.py:200-286 | layers in which nothing fires leave the document and the park position as they were |
| ChangeAtHeight.UnfiredUnchanged | _settings/scripts/ChangeAtHeight/ChangeAtHeight.py:173-462 | a document in which the trigger is never reached comes back unchanged |
| ChangeAtHeight.DisarmedRest | _settings/scripts/ChangeAtHeight/ChangeAtHeight.py:216-456 | once the trigger is disarmed, layers without a layer-count marker are neither paused nor changed |
| ChangeAtHeight.UnarmedLines | _settings/scripts/ChangeAtHeight/ChangeAtHeight.py:216-220 | while disarmed and without a layer-count marker, a layer's lines leave the document, the current layer and the park position alone |
| ChangeAtHeight.UnarmedLayers | _settings/scripts/ChangeAtHeight/ChangeAtHeight.py:175-220 | while disarmed, layers without a layer-count marker leave the document unchanged |
| ChangeAtHeight.NeverArmedUnchanged | _settings/scripts/ChangeAtHeight/ChangeAtHeight.py:175-220 | a document without a layer-count marker comes back unchanged |
| ChangeAtHeight.LaterLayersKept | _settings/scripts/ChangeAtHeight/ChangeAtHeight.py:288-453 | scanning layer `k` never changes a later layer |
| ChangeAtHeight.Position | _settings/scripts/ChangeAtHeight/ChangeAtHeight.py:288-289 | the linear search returns the first position holding the element |
| ChangeAtHeight.ClampInPlace | _settings/scripts/ChangeAtHeight/ChangeAtHeight.py:301-332 | the in-place clamps, in the script's order, give exactly the clamped park position and the park height |
| ChangeAtHeight.Rebuild | _settings/scripts/ChangeAtHeight/ChangeAtHeight.py:288-453 | the new layer is the splice at the first copy of the line; only the first copy of the layer in the array is overwritten |
| ChangeAtHeight.ExecuteLine | _settings/scripts/ChangeAtHeight/ChangeAtHeight.py:204-459 | one pass of the inner loop leaves exactly the state, park position, array and current layer that `ProcessLine` gives |
| ChangeAtHeight.ExecuteLayer | _settings/scripts/ChangeAtHeight/ChangeAtHeight.py:201-204 | the inner loop over the layer's lines, read from the array when the scan reaches it, computes exactly `ScanLines` |
| ChangeAtHeight.Execute | _settings/scripts/ChangeAtHeight/ChangeAtHeight.py:173-462 | from the initial disarmed state and the configured park position, the array ends up exactly as `Run` rewrites the document |

## Left out

- `getSettingDataString` (the settings form schema) has no logic and is not modelled.
- `getSettingValueByKey` and the host's printer-profile lookups are inputs, not calls: the settings are the record `Config`, and the machine width, depth and height are the record `Limits`.
- Floating point: values are exact `real`s, and a numeral denotes its exact decimal value. Rounding of binary doubles, overflow to infinity and NaN are not modelled.
- The `float()` failure branch of `getValue` is not modelled: every text either shape matches is a valid float literal, so that branch cannot be taken.
- PauseBlock.Fmt: `%f` is modelled as rounding the exact value half up to six decimals. Python rounds the binary double instead, so the last digit can differ for some values. Only the characters of a rendering are proved (digits, sign, point), not its value.
- The regular-expression engine is not modelled: the two numeral shapes are stated directly, and the scanners are proved to return the longest match, which is what a greedy anchored match returns for them.
- The script's `return data` is the same list it rewrote in place: `Execute` states the final contents of the array.
- ChangeAtHeight.OncePerMarker: the bound counts every line that carries a layer-count marker, including those inside a custom block, which the scan skips and which therefore do not arm; the bound holds but is loose for such documents.
