/** The display controller (display/controller.py): the row and pixel scroll
    offsets that the four buttons move, the list of lines rebuilt from the
    `LLDP` hash on every render tick, the three-row window over it, and the
    draw commands of one frame. */
module Display {
  import opened Py
  import Redis

  /** The configuration values the display reads: the boolean `show_*` and
      `use_ups_hat` entries (absent means false), `font_size`,
      `serial_display_type` and the optional `serial_display_width`. */
  datatype Config = Config(
    flags: map<string, bool>, fontSize: int, displayType: string, displayWidth: Option<int>)

  /** `config.get(name, False)` */
  predicate Flag(c: Config, name: string) {
    name in c.flags && c.flags[name]
  }

  /** `config.get('serial_display_width', 128)` */
  function DisplayWidth(c: Config): (w: int)
    ensures c.displayWidth.None? ==> w == 128
    ensures c.displayWidth.Some? ==> w == c.displayWidth.value
  {
    match c.displayWidth
    case Some(w) => w
    case None => 128
  }

  /** Rows visible at once. */
  const MaxLines: nat := 3

  /** Pixels one left or right press moves the view. */
  const ScrollStep: nat := 20

  /** Pixels kept free after the widest value when scrolled fully right. */
  const Margin: nat := 10

  // ---------------------------------------------------------------------
  // The four button handlers, as functions of the offsets they change.

  /** `update_scroll_x_left`: 20 pixels back, never below 0. */
  function ScrollLeft(scrollX: nat): (r: nat)
    ensures r <= scrollX
    ensures scrollX >= ScrollStep ==> r == scrollX - ScrollStep
    ensures r == 0 <==> scrollX <= ScrollStep
  {
    Max(0, scrollX - ScrollStep)
  }

  /** `update_scroll_x_right`: 20 pixels on, never past the bound; an offset
      already past the bound is pulled back to it. */
  function ScrollRight(scrollX: nat, maxScrollX: nat): (r: nat)
    ensures r <= maxScrollX
    ensures scrollX + ScrollStep <= maxScrollX ==> r == scrollX + ScrollStep
    ensures scrollX + ScrollStep > maxScrollX ==> r == maxScrollX
  {
    Min(maxScrollX, scrollX + ScrollStep)
  }

  /** `update_scroll_y_up`: one row back, never below 0; nothing happens
      while every line fits. */
  function ScrollUp(scrollIndex: nat, total: nat): (r: nat)
    ensures total <= MaxLines ==> r == scrollIndex
    ensures total > MaxLines ==> r == if scrollIndex == 0 then 0 else scrollIndex - 1
  {
    if total > MaxLines then Max(0, scrollIndex - 1) else scrollIndex
  }

  /** `update_scroll_y_down`: one row on, never past the last full window;
      nothing happens while every line fits. */
  function ScrollDown(scrollIndex: nat, total: nat): (r: nat)
    ensures total <= MaxLines ==> r == scrollIndex
    ensures total > MaxLines ==> r <= total - MaxLines
    ensures total > MaxLines && scrollIndex < total - MaxLines ==> r == scrollIndex + 1
    ensures total > MaxLines && scrollIndex >= total - MaxLines ==> r == total - MaxLines
  {
    if total > MaxLines then Min(total - MaxLines, scrollIndex + 1) else scrollIndex
  }

  /** Both row moves keep an offset that is in range in range. */
  lemma ScrollKeepsRange(scrollIndex: nat, total: nat)
    requires total > MaxLines && scrollIndex <= total - MaxLines
    ensures ScrollUp(scrollIndex, total) <= total - MaxLines
    ensures ScrollDown(scrollIndex, total) <= total - MaxLines
    ensures ScrollUp(scrollIndex, total) <= scrollIndex <= ScrollDown(scrollIndex, total)
  {
  }

  /** The offset after `n` presses of the down button. */
  function Downs(n: nat, scrollIndex: nat, total: nat): nat {
    if n == 0 then scrollIndex else ScrollDown(Downs(n - 1, scrollIndex, total), total)
  }

  /** The offset after `n` presses of the up button. */
  function Ups(n: nat, scrollIndex: nat, total: nat): nat {
    if n == 0 then scrollIndex else ScrollUp(Ups(n - 1, scrollIndex, total), total)
  }

  /** Pressing down repeatedly walks to the last full window and stays there. */
  lemma {:induction false} DownsSaturate(n: nat, scrollIndex: nat, total: nat)
    requires total > MaxLines && scrollIndex <= total - MaxLines
    ensures Downs(n, scrollIndex, total) == Min(total - MaxLines, scrollIndex + n)
  {
    if n > 0 {
      DownsSaturate(n - 1, scrollIndex, total);
    }
  }

  /** Pressing up repeatedly walks back to the first row and stays there. */
  lemma {:induction false} UpsSaturate(n: nat, scrollIndex: nat, total: nat)
    requires total > MaxLines
    ensures Ups(n, scrollIndex, total) == Max(0, scrollIndex - n)
  {
    if n > 0 {
      UpsSaturate(n - 1, scrollIndex, total);
    }
  }

  /** Ten lines: twenty presses of down from the top reach row 7, and any
      number of presses of up from there ends at row 0, not below. */
  lemma TenLineExample(ups: nat)
    requires ups >= 7
    ensures Downs(20, 0, 10) == 7
    ensures Ups(ups, 7, 10) == 0
  {
    DownsSaturate(20, 0, 10);
    UpsSaturate(ups, 7, 10);
  }

  // ---------------------------------------------------------------------
  // The line list.

  /** One entry of the if-chain: the configuration flag, the label, and the
      field of the `LLDP` hash shown after it. */
  datatype LineSpec = LineSpec(flag: string, caption: string, field: string)

  /** The if-chain, in its order. */
  const LineSpecs: seq<LineSpec> := [
    LineSpec("show_chassis_id", "Chassis ID", "chassis_id"),
    LineSpec("show_port_id", "Port ID", "port_id"),
    LineSpec("show_vlan_id", "VLAN ID", "vlan_id"),
    LineSpec("show_chassis_description", "Description", "chassis_description"),
    LineSpec("show_port_descr", "Port Description", "port_descr"),
    LineSpec("show_auto_neg_current", "Current Mode", "auto_neg_current"),
    LineSpec("show_auto_supported", "Auto Support", "auto_supported"),
    LineSpec("show_auto_enabled", "Auto Enable", "auto_enabled"),
    LineSpec("show_available_modes_str", "Available Modes", "available_modes_str"),
    LineSpec("show_power_supported", "Power Support", "power_supported"),
    LineSpec("show_power_enabled", "Power Enabled", "power_enabled"),
    LineSpec("show_device_type", "Device Type", "lldp_med_device_type"),
    LineSpec("show_management_ip", "Management IP", "management_ip")
  ]

  /** `f"{label}: {lldp.get(field, '-')}"` */
  function Line(spec: LineSpec, lldp: map<string, string>): (line: string)
    ensures spec.field in lldp ==> line == spec.caption + ": " + lldp[spec.field]
    ensures spec.field !in lldp ==> line == spec.caption + ": -"
  {
    spec.caption + ": " + (if spec.field in lldp then lldp[spec.field] else "-")
  }

  /** Positions in the if-chain, below `n`, whose flag is set, in order. */
  function Enabled(c: Config, n: nat): (idx: seq<nat>)
    requires n <= |LineSpecs|
    ensures forall k :: 0 <= k < |idx| ==> idx[k] < n
    ensures forall j :: 0 <= j < n ==> (j in idx <==> Flag(c, LineSpecs[j].flag))
    ensures forall a, b :: 0 <= a < b < |idx| ==> idx[a] < idx[b]
  {
    if n == 0 then []
    else
      var prefix := Enabled(c, n - 1);
      if Flag(c, LineSpecs[n - 1].flag) then
        var idx := prefix + [n - 1];
        assert forall k :: 0 <= k < |prefix| ==> idx[k] == prefix[k];
        assert idx[|prefix|] == n - 1;
        assert forall j :: j in idx <==> j in prefix || j == n - 1;
        idx
      else
        assert n - 1 !in prefix;
        prefix
  }

  /** The lines of the given positions of the if-chain. */
  function LinesOf(idx: seq<nat>, lldp: map<string, string>): (lines: seq<string>)
    requires forall k :: 0 <= k < |idx| ==> idx[k] < |LineSpecs|
    ensures |lines| == |idx|
  {
    seq(|idx|, k requires 0 <= k < |idx| => Line(LineSpecs[idx[k]], lldp))
  }

  /** One more entry of the if-chain appends its line when its flag is set. */
  lemma LinesOfStep(c: Config, k: nat, lldp: map<string, string>)
    requires k < |LineSpecs|
    ensures LinesOf(Enabled(c, k + 1), lldp)
      == LinesOf(Enabled(c, k), lldp) + (if Flag(c, LineSpecs[k].flag) then [Line(LineSpecs[k], lldp)] else [])
  {
    var prefix := Enabled(c, k);
    if Flag(c, LineSpecs[k].flag) {
      assert Enabled(c, k + 1) == prefix + [k];
      LinesOfAppend(prefix, k, lldp);
    } else {
      assert Enabled(c, k + 1) == prefix;
    }
  }

  lemma LinesOfAppend(idx: seq<nat>, j: nat, lldp: map<string, string>)
    requires forall k :: 0 <= k < |idx| ==> idx[k] < |LineSpecs|
    requires j < |LineSpecs|
    ensures LinesOf(idx + [j], lldp) == LinesOf(idx, lldp) + [Line(LineSpecs[j], lldp)]
  {
    var before, after := LinesOf(idx, lldp), LinesOf(idx + [j], lldp);
    forall i | 0 <= i < |idx|
      ensures after[i] == before[i]
    {
      assert (idx + [j])[i] == idx[i];
    }
  }

  /** `data_lines` after one render tick: a line for every entry of the
      if-chain whose flag is set, in the chain's order. */
  function DisplayLines(c: Config, lldp: map<string, string>): (lines: seq<string>)
    ensures |lines| <= |LineSpecs|
  {
    EnabledCount(c, |LineSpecs|);
    LinesOf(Enabled(c, |LineSpecs|), lldp)
  }

  lemma {:induction false} EnabledCount(c: Config, n: nat)
    requires n <= |LineSpecs|
    ensures |Enabled(c, n)| <= n
  {
    if n > 0 {
      EnabledCount(c, n - 1);
    }
  }

  /** The k-th line shown is the line of the k-th enabled entry of the chain,
      and an entry has a line exactly when its flag is set. */
  lemma DisplayLinesFollowChain(c: Config, lldp: map<string, string>)
    ensures var idx := Enabled(c, |LineSpecs|);
      && |DisplayLines(c, lldp)| == |idx|
      && (forall k :: 0 <= k < |idx| ==> DisplayLines(c, lldp)[k] == Line(LineSpecs[idx[k]], lldp))
      && (forall j :: 0 <= j < |LineSpecs| ==> (j in idx <==> Flag(c, LineSpecs[j].flag)))
  {
  }

  /** With only the port-id flag set and `port_id` = "Gi0/1", the display
      holds exactly the one line "Port ID: Gi0/1". */
  lemma OnlyPortIdExample(c: Config, lldp: map<string, string>)
    requires forall j :: 0 <= j < |LineSpecs| ==> (Flag(c, LineSpecs[j].flag) <==> j == 1)
    requires "port_id" in lldp && lldp["port_id"] == "Gi0/1"
    ensures DisplayLines(c, lldp) == ["Port ID: Gi0/1"]
  {
    EnabledOnly(c, |LineSpecs|, 1);
    assert DisplayLines(c, lldp) == [Line(LineSpecs[1], lldp)];
    assert "Port ID" + ": " + "Gi0/1" == "Port ID: Gi0/1";
  }

  /** With exactly one flag set, the chain enables that one entry. */
  lemma {:induction false} EnabledOnly(c: Config, n: nat, j: nat)
    requires n <= |LineSpecs|
    requires forall i :: 0 <= i < n ==> (Flag(c, LineSpecs[i].flag) <==> i == j)
    ensures Enabled(c, n) == if j < n then [j] else []
  {
    if n > 0 {
      EnabledOnly(c, n - 1, j);
    }
  }

  /** `data_lines[scroll_index : scroll_index + n]`, clamped as Python slices
      are. */
  function Window(lines: seq<string>, start: nat, n: nat): (w: seq<string>)
    ensures |w| == if start >= |lines| then 0 else Min(n, |lines| - start)
    ensures start >= |lines| ==> w == []
    ensures start < |lines| && n > 0 ==> w != []
    ensures forall k :: 0 <= k < |w| ==> start + k < |lines| && w[k] == lines[start + k]
  {
    if start >= |lines| then [] else lines[start..Min(start + n, |lines|)]
  }

  /** A window that started inside the list keeps every line up to three rows
      on, as far as the list goes. */
  lemma WindowFull(lines: seq<string>, start: nat)
    requires start + MaxLines <= |lines|
    ensures Window(lines, start, MaxLines) == lines[start..start + MaxLines]
  {
  }

  // ---------------------------------------------------------------------
  // Splitting a line into label and value.

  /** `label, value = line.split(": ")`, falling back to the whole line and
      an empty value unless the separator occurs exactly once. */
  function RenderParts(line: string): (string, string)
  {
    var pieces := Split(line, ": ");
    if |pieces| == 2 then (pieces[0], pieces[1]) else (line, "")
  }

  /** Two pieces around one separator give the line back and hold no
      separator themselves. */
  lemma TwoPieces(line: string)
    requires |Split(line, ": ")| == 2
    ensures var pieces := Split(line, ": ");
      pieces[0] + ": " + pieces[1] == line && !Contains(pieces[0], ": ") && !Contains(pieces[1], ": ")
  {
    var sep := ": ";
    var pieces := Split(line, sep);
    JoinSplit(line, sep);
    SplitPiecesFree(line, sep);
    assert pieces[0] in pieces && pieces[1] in pieces;
    assert Join(pieces, sep) == pieces[0] + sep + Join(pieces[1..], sep);
    assert pieces[1..] == [pieces[1]];
  }

  /** `line.split(": ", 1)` in the width measurement: the text after the
      first separator, or the whole line. */
  function MeasuredValue(line: string): (value: string)
    ensures |value| <= |line|
    ensures !Contains(line, ": ") ==> value == line
  {
    match Find(line, ": ")
    case None => line
    case Some(i) => line[i + 2..]
  }

  /** With a separator, the measured value is the text after its first
      occurrence, and the text before it, the separator and the value give
      the line back. */
  lemma MeasuredAfterFirstSeparator(line: string)
    requires Contains(line, ": ")
    ensures var i := Find(line, ": ").value;
      MeasuredValue(line) == line[i + 2..] && line[..i] + ": " + MeasuredValue(line) == line
  {
    FindNone(line, ": ");
    var i := Find(line, ": ").value;
    assert line[i..i + 2] == ": ";
    assert line == line[..i] + line[i..i + 2] + line[i + 2..];
  }

  /** The two splits agree on a line with one separator: label, separator and
      value give the line back, and neither part holds a separator. Without a
      separator the whole line is the label and counts whole for the width;
      with two or more the render falls back to the whole line although the
      width is taken of a value that still holds a separator. */
  lemma RenderAndMeasure(line: string)
    ensures !Contains(line, ": ") ==> RenderParts(line) == (line, "") && MeasuredValue(line) == line
    ensures |Split(line, ": ")| == 2 ==>
      && RenderParts(line).0 + ": " + RenderParts(line).1 == line
      && !Contains(RenderParts(line).0, ": ") && !Contains(RenderParts(line).1, ": ")
      && MeasuredValue(line) == RenderParts(line).1
    ensures |Split(line, ": ")| > 2 ==>
      RenderParts(line) == (line, "") && Contains(MeasuredValue(line), ": ")
  {
    var sep := ": ";
    SplitSingle(line, sep);
    SplitInTwo(line, sep);
    var pieces := Split(line, sep);
    if |pieces| == 2 {
      TwoPieces(line);
    } else if |pieces| > 2 {
      var i := Find(line, sep).value;
      var rest := line[i + 2..];
      assert pieces == [line[..i]] + Split(rest, sep);
      SplitSingle(rest, sep);
    }
  }

  // ---------------------------------------------------------------------
  // Horizontal extent.

  /** The widest value part among the lines, 0 for no line. */
  function MaxValueWidth(lines: seq<string>, textWidth: string -> nat): (w: nat)
    ensures forall k :: 0 <= k < |lines| ==> textWidth(MeasuredValue(lines[k])) <= w
    ensures w == 0 || exists k :: 0 <= k < |lines| && textWidth(MeasuredValue(lines[k])) == w
    ensures lines == [] ==> w == 0
  {
    if lines == [] then 0
    else
      var rest := MaxValueWidth(lines[..|lines| - 1], textWidth);
      var last := textWidth(MeasuredValue(lines[|lines| - 1]));
      assert forall k :: 0 <= k < |lines| - 1 ==> lines[..|lines| - 1][k] == lines[k];
      if last > rest then last else rest
  }

  /** `max(0, int(max_content_width - width + 10))`. */
  function MaxScrollX(maxContentWidth: nat, displayWidth: int): (m: nat)
    ensures m == 0 <==> maxContentWidth + Margin <= displayWidth
    ensures m > 0 ==> m == maxContentWidth + Margin - displayWidth
  {
    Max(0, maxContentWidth - displayWidth + Margin)
  }

  // ---------------------------------------------------------------------
  // One frame.

  datatype Color = Yellow | Lime | Cyan

  /** `draw.text((x, y), text, fill=...)` */
  datatype DrawCommand = Text(x: int, y: int, text: string, fill: Color)

  /** Top of the first row, in pixels. */
  const YOffset: int := 25

  /** The battery line, drawn at the top left whatever the scroll; a missing
      key prints as `None`. */
  function BatteryCommand(batteryPower: Option<string>): DrawCommand {
    Text(1, 0, "Battery " + (match batteryPower case Some(p) => p case None => "None") + "%", Yellow)
  }

  /** Top of row `i`: two line spacings of `font_size + 1` per row. */
  function RowY(fontSize: int, i: nat): int {
    YOffset + (fontSize + 1) * 2 * i
  }

  /** The label and value commands of the visible lines, row by row. */
  function LineCommands(visible: seq<string>, scrollX: nat, fontSize: int): (cmds: seq<DrawCommand>)
    ensures |cmds| == 2 * |visible|
  {
    if visible == [] then []
    else
      var i := |visible| - 1;
      var (caption, value) := RenderParts(visible[i]);
      var y := RowY(fontSize, i);
      LineCommands(visible[..i], scrollX, fontSize)
        + [Text(1 - scrollX, y, caption, Lime), Text(1 - scrollX, y + fontSize + 1, value, Cyan)]
  }

  /** One more visible line appends its two commands. */
  lemma LineCommandsStep(visible: seq<string>, i: nat, scrollX: nat, fontSize: int)
    requires i < |visible|
    ensures LineCommands(visible[..i + 1], scrollX, fontSize)
      == LineCommands(visible[..i], scrollX, fontSize)
         + [Text(1 - scrollX, RowY(fontSize, i), RenderParts(visible[i]).0, Lime),
            Text(1 - scrollX, RowY(fontSize, i) + fontSize + 1, RenderParts(visible[i]).1, Cyan)]
  {
    assert visible[..i + 1][..i] == visible[..i];
  }

  /** One pass of the draw loop extends the frame by the commands of line `i`. */
  lemma DrawStep(visible: seq<string>, i: nat, scrollX: nat, fontSize: int, head: seq<DrawCommand>,
                 frame: seq<DrawCommand>, caption: string, value: string, y: int)
    requires i < |visible| && frame == head + LineCommands(visible[..i], scrollX, fontSize)
    requires (caption, value) == RenderParts(visible[i]) && y == YOffset + (fontSize + 1) * 2 * i
    ensures frame + [Text(1 - scrollX, y, caption, Lime), Text(1 - scrollX, y + (fontSize + 1), value, Cyan)]
      == head + LineCommands(visible[..i + 1], scrollX, fontSize)
  {
    LineCommandsStep(visible, i, scrollX, fontSize);
  }

  /** Row `i` puts its label in lime at `(1 - scroll_x, 25 + 2 (font_size + 1) i)`
      and its value in cyan one line spacing lower. */
  lemma {:induction false} LineCommandsLayout(visible: seq<string>, scrollX: nat, fontSize: int)
    ensures forall i :: 0 <= i < |visible| ==>
      && LineCommands(visible, scrollX, fontSize)[2 * i]
         == Text(1 - scrollX, RowY(fontSize, i), RenderParts(visible[i]).0, Lime)
      && LineCommands(visible, scrollX, fontSize)[2 * i + 1]
         == Text(1 - scrollX, RowY(fontSize, i) + fontSize + 1, RenderParts(visible[i]).1, Cyan)
    decreases |visible|
  {
    if visible != [] {
      var n := |visible| - 1;
      var prefix := LineCommands(visible[..n], scrollX, fontSize);
      var parts := RenderParts(visible[n]);
      var y := RowY(fontSize, n);
      assert LineCommands(visible, scrollX, fontSize)
        == prefix + [Text(1 - scrollX, y, parts.0, Lime), Text(1 - scrollX, y + fontSize + 1, parts.1, Cyan)];
      LineCommandsLayout(visible[..n], scrollX, fontSize);
      forall i | 0 <= i < n
        ensures visible[..n][i] == visible[i]
      {
      }
    }
  }

  /** The commands of one frame: the battery line first when the UPS HAT is
      in use, then two per visible line. */
  function Frame(c: Config, batteryPower: Option<string>, visible: seq<string>, scrollX: nat): (cmds: seq<DrawCommand>)
    ensures |cmds| == (if Flag(c, "use_ups_hat") then 1 else 0) + 2 * |visible|
    ensures Flag(c, "use_ups_hat") ==> cmds[0] == BatteryCommand(batteryPower)
  {
    (if Flag(c, "use_ups_hat") then [BatteryCommand(batteryPower)] else [])
      + LineCommands(visible, scrollX, c.fontSize)
  }

  /** The battery line is drawn at `(1, 0)` exactly when the UPS HAT is in
      use, whatever the scroll offsets, and no line command is drawn there. */
  lemma BatteryLineFixed(c: Config, batteryPower: Option<string>, visible: seq<string>, scrollX: nat)
    ensures var cmds := Frame(c, batteryPower, visible, scrollX);
      (exists k :: 0 <= k < |cmds| && cmds[k].y == 0 && cmds[k].fill == Yellow) <==> Flag(c, "use_ups_hat")
  {
    var cmds := Frame(c, batteryPower, visible, scrollX);
    var lines := LineCommands(visible, scrollX, c.fontSize);
    LineCommandsNotYellow(visible, scrollX, c.fontSize);
    var b := if Flag(c, "use_ups_hat") then 1 else 0;
    forall k | b <= k < |cmds|
      ensures cmds[k].fill != Yellow
    {
      assert cmds[k] == lines[k - b];
    }
    if Flag(c, "use_ups_hat") {
      assert cmds[0].y == 0 && cmds[0].fill == Yellow;
    }
  }

  /** No label or value is drawn in the battery line's colour. */
  lemma {:induction false} LineCommandsNotYellow(visible: seq<string>, scrollX: nat, fontSize: int)
    ensures forall k :: 0 <= k < |LineCommands(visible, scrollX, fontSize)| ==>
      LineCommands(visible, scrollX, fontSize)[k].fill != Yellow
    decreases |visible|
  {
    if visible != [] {
      var n := |visible| - 1;
      var prefix := LineCommands(visible[..n], scrollX, fontSize);
      var parts := RenderParts(visible[n]);
      var y := RowY(fontSize, n);
      assert LineCommands(visible, scrollX, fontSize)
        == prefix + [Text(1 - scrollX, y, parts.0, Lime), Text(1 - scrollX, y + fontSize + 1, parts.1, Cyan)];
      LineCommandsNotYellow(visible[..n], scrollX, fontSize);
    }
  }


  /** The only display type the loop drives. */
  const SupportedDisplay: string := "lcd_st7735"

  /** The number of turns of a loop that checks the stop event at the top of
      each turn: up to the first check that finds it set. */
  function Turns(stopChecks: seq<bool>): (n: nat)
    ensures n <= |stopChecks|
    ensures forall i :: 0 <= i < n ==> !stopChecks[i]
    ensures n < |stopChecks| ==> stopChecks[n]
  {
    if stopChecks == [] || stopChecks[0] then 0 else 1 + Turns(stopChecks[1..])
  }

  /** The loop's exit point is the first check that finds the event set. */
  lemma {:induction false} TurnsStop(stopChecks: seq<bool>, n: nat)
    requires n <= |stopChecks|
    requires forall i :: 0 <= i < n ==> !stopChecks[i]
    requires n == |stopChecks| || stopChecks[n]
    ensures Turns(stopChecks) == n
    decreases n
  {
    if n > 0 {
      TurnsStop(stopChecks[1..], n - 1);
    }
  }

  // ---------------------------------------------------------------------

  /** The controller object: its scroll offsets, the viewport height and the
      line list of the latest tick. The configuration, the font's width
      function and the store come from the application context. */
  class DisplayController {
    const config: Config
    const textWidth: string -> nat
    const store: Redis.Store
    const maxLines: nat := MaxLines
    var scrollX: nat
    var scrollIndex: nat
    var dataLines: seq<string>

    /** A controller at the top-left, with no lines yet. */
    constructor (config: Config, textWidth: string -> nat, store: Redis.Store)
      ensures this.config == config && this.textWidth == textWidth && this.store == store
      ensures scrollX == 0 && scrollIndex == 0 && dataLines == []
    {
      this.config := config;
      this.textWidth := textWidth;
      this.store := store;
      scrollX := 0;
      scrollIndex := 0;
      dataLines := [];
    }

    method UpdateScrollXLeft()
      modifies this`scrollX
      ensures scrollX == ScrollLeft(old(scrollX))
    {
      scrollX := Max(0, scrollX - ScrollStep);
    }

    method UpdateScrollXRight()
      modifies this`scrollX
      ensures scrollX == ScrollRight(old(scrollX), MaxScrollX(MaxValueWidth(dataLines, textWidth), DisplayWidth(config)))
      ensures scrollX <= MaxScrollX(MaxValueWidth(dataLines, textWidth), DisplayWidth(config))
    {
      var maxScrollX := UpdateMaxScrollX();
      scrollX := Min(maxScrollX, scrollX + ScrollStep);
    }

    method UpdateScrollYUp()
      modifies this`scrollIndex
      ensures scrollIndex == ScrollUp(old(scrollIndex), |dataLines|)
    {
      if |dataLines| > maxLines {
        scrollIndex := Max(0, scrollIndex - 1);
      }
    }

    method UpdateScrollYDown()
      modifies this`scrollIndex
      ensures scrollIndex == ScrollDown(old(scrollIndex), |dataLines|)
    {
      if |dataLines| > maxLines {
        scrollIndex := Min(|dataLines| - maxLines, scrollIndex + 1);
      }
    }

    /** `get_max_content_width`: the running maximum of the value widths. */
    method GetMaxContentWidth(lines: seq<string>) returns (maxWidth: nat)
      ensures maxWidth == MaxValueWidth(lines, textWidth)
    {
      maxWidth := 0;
      for k := 0 to |lines|
        invariant maxWidth == MaxValueWidth(lines[..k], textWidth)
      {
        var value := MeasuredValue(lines[k]);
        var width := textWidth(value);
        assert lines[..k + 1][..k] == lines[..k];
        if width > maxWidth {
          maxWidth := width;
        }
      }
      assert lines[..|lines|] == lines;
    }

    /** `update_max_scroll_x` */
    method UpdateMaxScrollX() returns (maxScrollX: nat)
      ensures maxScrollX == MaxScrollX(MaxValueWidth(dataLines, textWidth), DisplayWidth(config))
    {
      var maxContentWidth := GetMaxContentWidth(dataLines);
      maxScrollX := Max(0, maxContentWidth - DisplayWidth(config) + Margin);
    }

    /** Rebuild `data_lines` from the `LLDP` hash, entry by entry of the
        if-chain. */
    method RebuildLines()
      modifies this`dataLines
      ensures dataLines == DisplayLines(config, store.HGetAll("LLDP"))
    {
      var lldp := store.HGetAll("LLDP");
      dataLines := [];
      for k := 0 to |LineSpecs|
        invariant dataLines == LinesOf(Enabled(config, k), lldp)
      {
        LinesOfStep(config, k, lldp);
        var spec := LineSpecs[k];
        if Flag(config, spec.flag) {
          dataLines := dataLines + [Line(spec, lldp)];
        }
      }
    }

    /** The draw calls of one frame over the visible lines, at the current
        pixel offset. */
    method DrawFrame(visible: seq<string>, batteryPower: Option<string>) returns (frame: seq<DrawCommand>)
      ensures frame == Frame(config, batteryPower, visible, scrollX)
    {
      frame := [];
      if Flag(config, "use_ups_hat") {
        frame := frame + [BatteryCommand(batteryPower)];
      }
      ghost var head := frame;
      assert Frame(config, batteryPower, visible, scrollX) == head + LineCommands(visible, scrollX, config.fontSize);
      var lineSpacing := config.fontSize + 1;
      for i := 0 to |visible|
        invariant frame == head + LineCommands(visible[..i], scrollX, config.fontSize)
      {
        var (caption, value) := RenderParts(visible[i]);
        var xPosition := 1 - scrollX;
        var yPosition := YOffset + lineSpacing * 2 * i;
        DrawStep(visible, i, scrollX, config.fontSize, head, frame, caption, value, yPosition);
        frame := frame + [Text(xPosition, yPosition, caption, Lime), Text(xPosition, yPosition + lineSpacing, value, Cyan)];
      }
      assert visible[..|visible|] == visible;
    }

    /** One pass of the `serial_displays` loop: rebuild the line list from
        the `LLDP` hash, take the window at the current row, and lay out the
        frame at the current pixel offset. */
    method RenderTick() returns (frame: seq<DrawCommand>)
      modifies this`dataLines
      ensures dataLines == DisplayLines(config, store.HGetAll("LLDP"))
      ensures frame == Frame(config, store.Get("battery_power"), Window(dataLines, scrollIndex, MaxLines), scrollX)
    {
      RebuildLines();
      var visible := Window(dataLines, scrollIndex, maxLines);
      frame := DrawFrame(visible, store.Get("battery_power"));
    }

    /** `serial_displays`: nothing unless the configured display is the
        ST7735 LCD; otherwise one frame per turn of the loop, until the turn
        that finds the stop event set. `stopChecks[i]` is what the i-th check
        of the event observes. */
    method SerialDisplays(stopChecks: seq<bool>) returns (frames: seq<seq<DrawCommand>>)
      modifies this`dataLines
      ensures config.displayType != SupportedDisplay ==> frames == [] && dataLines == old(dataLines)
      ensures config.displayType == SupportedDisplay ==> |frames| == Turns(stopChecks)
      ensures frames != [] ==> dataLines == DisplayLines(config, store.HGetAll("LLDP"))
      ensures forall i :: 0 <= i < |frames| ==>
        frames[i] == Frame(config, store.Get("battery_power"), Window(dataLines, scrollIndex, MaxLines), scrollX)
    {
      frames := [];
      if config.displayType != SupportedDisplay {
        return;
      }
      ghost var lines := DisplayLines(config, store.HGetAll("LLDP"));
      ghost var expected := Frame(config, store.Get("battery_power"), Window(lines, scrollIndex, MaxLines), scrollX);
      var n := 0;
      while n < |stopChecks| && !stopChecks[n]
        invariant n <= |stopChecks| && |frames| == n
        invariant forall i :: 0 <= i < n ==> !stopChecks[i]
        invariant n > 0 ==> dataLines == lines
        invariant forall i :: 0 <= i < n ==> frames[i] == expected
        decreases |stopChecks| - n
      {
        var frame := RenderTick();
        frames := frames + [frame];
        n := n + 1;
      }
      TurnsStop(stopChecks, n);
    }
  }
}
