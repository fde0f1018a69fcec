/** `draw_bar` and `create_image`: the layout of the 800×400 chart, kept as the
    list of drawing calls made on the canvas. */
module Chart {
  import opened SystemInfo

  datatype Color = Named(name: string) | Rgb(red: int, green: int, blue: int)

  /** The text of a `draw.text` call, kept as the values it formats. */
  datatype Label =
    | CpuUsage(percent: real)
    | MemoryUsage(percent: real)
    | DiskUsage(percent: real)
    | NetworkSent(megabytes: real)
    | NetworkReceived(megabytes: real)
    | Caption(text: string)
    | ProcessRow(name: string, pid: int, cpuPercent: real, memoryPercent: real)

  /** One call on the drawing context; rectangle corners are inclusive. */
  datatype DrawOp =
    | TextOp(x: int, y: int, content: Label, fill: Color)
    | RectangleOp(x0: int, y0: int, x1: int, y1: int, outline: Color, fill: Color)

  const Width := 800
  const Height := 400
  const Background := Rgb(30, 30, 30)
  const TextColor := Rgb(255, 255, 255)
  const TopProcessesCaption := "Top Processes:"

  /** Python's `int()` on a float: truncation toward zero. */
  function TruncateToInt(r: real): (n: int)
    ensures r >= 0.0 ==> n as real <= r < n as real + 1.0
    ensures r < 0.0 ==> n as real - 1.0 < r <= n as real
  {
    if r >= 0.0 then r.Floor else -((-r).Floor)
  }

  /** The width of the filled part of a bar: `int(width * (percent / 100))`. */
  function FilledWidth(width: int, percent: real): int {
    TruncateToInt(width as real * (percent / 100.0))
  }

  /** The two rectangles `draw_bar` draws: the grey track, then the filled part. */
  function BarOps(x: int, y: int, width: int, height: int, percent: real, color: Color): seq<DrawOp> {
    [RectangleOp(x, y, x + width, y + height, Named("black"), Named("grey")),
     RectangleOp(x, y, x + FilledWidth(width, percent), y + height, Named("black"), color)]
  }

  /** Bytes as the mebibytes the network lines show, before rounding to two decimals. */
  function Megabytes(bytes: int): real {
    bytes as real / (1024.0 * 1024.0)
  }

  /** The y coordinate of the text of process row `i`. */
  function RowY(i: int): int {
    230 + i * 20
  }

  function RowLabel(p: ProcessInfo): Label {
    ProcessRow(p.name, p.pid, p.cpuPercent, p.memoryPercent)
  }

  /** The drawing calls before the process rows. */
  function FixedOps(info: Snapshot): seq<DrawOp> {
    [TextOp(10, 10, CpuUsage(info.cpuTotal), TextColor)]
    + BarOps(10, 30, 780, 20, info.cpuTotal, Named("red"))
    + [TextOp(10, 60, MemoryUsage(info.mem.percent), TextColor)]
    + BarOps(10, 80, 780, 20, info.mem.percent, Named("blue"))
    + [TextOp(10, 110, DiskUsage(info.disk.percent), TextColor)]
    + BarOps(10, 130, 780, 20, info.disk.percent, Named("green"))
    + [TextOp(10, 160, NetworkSent(Megabytes(info.network.bytesSent)), TextColor),
       TextOp(10, 180, NetworkReceived(Megabytes(info.network.bytesRecv)), TextColor),
       TextOp(10, 210, Caption(TopProcessesCaption), TextColor)]
  }

  /** One text line per process, row `i` at `(10, RowY(i))`. */
  function RowOps(procs: seq<ProcessInfo>): seq<DrawOp> {
    seq(|procs|, i requires 0 <= i < |procs| => TextOp(10, RowY(i), RowLabel(procs[i]), TextColor))
  }

  /** Every drawing call `create_image` makes, in order. */
  function Layout(info: Snapshot): seq<DrawOp> {
    FixedOps(info) + RowOps(info.topProcesses)
  }

  /** The canvas and its drawing context: `Image.new` plus `ImageDraw.Draw`. */
  class Canvas {
    const width: int
    const height: int
    const background: Color
    var ops: seq<DrawOp>

    constructor (width: int, height: int, background: Color)
      ensures this.width == width && this.height == height && this.background == background
      ensures ops == []
    {
      this.width := width;
      this.height := height;
      this.background := background;
      ops := [];
    }

    /** `draw.text(xy, text, fill=fill)` */
    method Text(x: int, y: int, content: Label, fill: Color)
      modifies this
      ensures ops == old(ops) + [TextOp(x, y, content, fill)]
    {
      ops := ops + [TextOp(x, y, content, fill)];
    }

    /** `draw.rectangle([x0, y0, x1, y1], outline=outline, fill=fill)` */
    method Rectangle(x0: int, y0: int, x1: int, y1: int, outline: Color, fill: Color)
      modifies this
      ensures ops == old(ops) + [RectangleOp(x0, y0, x1, y1, outline, fill)]
    {
      ops := ops + [RectangleOp(x0, y0, x1, y1, outline, fill)];
    }
  }

  method DrawBar(draw: Canvas, x: int, y: int, width: int, height: int, percent: real, color: Color)
    modifies draw
    ensures draw.ops == old(draw.ops) + BarOps(x, y, width, height, percent, color)
  {
    draw.Rectangle(x, y, x + width, y + height, Named("black"), Named("grey"));
    draw.Rectangle(x, y, x + TruncateToInt(width as real * (percent / 100.0)), y + height, Named("black"), color);
  }

  method CreateImage(info: Snapshot) returns (image: Canvas)
    ensures fresh(image)
    ensures image.width == Width && image.height == Height && image.background == Background
    ensures image.ops == Layout(info)
  {
    image := new Canvas(Width, Height, Background);
    image.Text(10, 10, CpuUsage(info.cpuTotal), TextColor);
    DrawBar(image, 10, 30, 780, 20, info.cpuTotal, Named("red"));
    image.Text(10, 60, MemoryUsage(info.mem.percent), TextColor);
    DrawBar(image, 10, 80, 780, 20, info.mem.percent, Named("blue"));
    image.Text(10, 110, DiskUsage(info.disk.percent), TextColor);
    DrawBar(image, 10, 130, 780, 20, info.disk.percent, Named("green"));
    image.Text(10, 160, NetworkSent(Megabytes(info.network.bytesSent)), TextColor);
    image.Text(10, 180, NetworkReceived(Megabytes(info.network.bytesRecv)), TextColor);
    image.Text(10, 210, Caption(TopProcessesCaption), TextColor);
    var procs := info.topProcesses;
    for i := 0 to |procs|
      invariant image.ops == FixedOps(info) + RowOps(procs[..i])
    {
      var proc := procs[i];
      image.Text(10, 230 + i * 20, ProcessRow(proc.name, proc.pid, proc.cpuPercent, proc.memoryPercent), TextColor);
      assert RowOps(procs[..i + 1]) == RowOps(procs[..i]) + [TextOp(10, RowY(i), RowLabel(procs[i]), TextColor)];
    }
    assert procs[..|procs|] == procs;
  }

  // ---------------------------------------------------------------------------
  // Geometry

  /** The anchor of a text, or both corners of a rectangle, lie on the canvas. */
  predicate OnCanvas(op: DrawOp) {
    match op
    case TextOp(x, y, _, _) => 0 <= x < Width && 0 <= y < Height
    case RectangleOp(x0, y0, x1, y1, _, _) => 0 <= x0 <= x1 < Width && 0 <= y0 <= y1 < Height
  }

  predicate IsPercent(p: real) {
    0.0 <= p <= 100.0
  }

  /** For a percentage, the filled part is never wider than the track, is empty
      at 0% and full at 100%. */
  lemma FilledWidthWithinTrack(width: nat, percent: real)
    requires IsPercent(percent)
    ensures 0 <= FilledWidth(width, percent) <= width
    ensures percent == 0.0 ==> FilledWidth(width, percent) == 0
    ensures percent == 100.0 ==> FilledWidth(width, percent) == width
  {
    var w, f := width as real, percent / 100.0;
    assert 0.0 <= f <= 1.0;
    assert w - w * f == w * (1.0 - f);
    assert 0.0 <= w * (1.0 - f);
    assert 0.0 <= w * f;
    var n := FilledWidth(width, percent);
    assert n as real <= w * f <= w;
  }

  /** A larger percentage never draws a narrower bar. */
  lemma FilledWidthMonotonic(width: nat, p: real, q: real)
    requires p <= q
    ensures FilledWidth(width, p) <= FilledWidth(width, q)
  {
    var a, b := width as real * (p / 100.0), width as real * (q / 100.0);
    assert a <= b;
  }

  /** `draw_bar` draws its filled part inside its track. */
  lemma FilledBarInsideTrack(x: int, y: int, width: nat, height: nat, percent: real, color: Color)
    requires IsPercent(percent)
    ensures var ops := BarOps(x, y, width, height, percent, color);
      ops[0].x0 == ops[1].x0 <= ops[1].x1 <= ops[0].x1 && ops[0].y0 == ops[1].y0 && ops[1].y1 == ops[0].y1
  {
    FilledWidthWithinTrack(width, percent);
  }

  /** Process row `i` sits at `(10, 230 + 20 * i)`, and with at most eight rows
      the last one is at y = 370. */
  lemma RowPlacement(info: Snapshot, i: nat)
    requires i < |info.topProcesses| <= TopCount
    ensures var op := Layout(info)[|FixedOps(info)| + i];
      op == TextOp(10, 230 + 20 * i, RowLabel(info.topProcesses[i]), TextColor) && op.y <= 370
  {
  }

  /** With percentages in range and at most eight processes, every drawing call
      of the chart falls on the 800×400 canvas. */
  lemma LayoutOnCanvas(info: Snapshot)
    requires IsPercent(info.cpuTotal) && IsPercent(info.mem.percent) && IsPercent(info.disk.percent)
    requires |info.topProcesses| <= TopCount
    ensures forall op :: op in Layout(info) ==> OnCanvas(op)
  {
    FilledWidthWithinTrack(780, info.cpuTotal);
    FilledWidthWithinTrack(780, info.mem.percent);
    FilledWidthWithinTrack(780, info.disk.percent);
    var fixed, rows := FixedOps(info), RowOps(info.topProcesses);
    assert forall op :: op in fixed ==> OnCanvas(op);
    assert forall i :: 0 <= i < |rows| ==> OnCanvas(rows[i]);
  }

  // ---------------------------------------------------------------------------
  // What the chart shows

  /** The value a label shows agrees with the snapshot it was drawn from. */
  predicate LabelAgrees(l: Label, info: Snapshot) {
    match l
    case CpuUsage(p) => p == info.cpuTotal
    case MemoryUsage(p) => p == info.mem.percent
    case DiskUsage(p) => p == info.disk.percent
    case NetworkSent(mb) => mb == Megabytes(info.network.bytesSent)
    case NetworkReceived(mb) => mb == Megabytes(info.network.bytesRecv)
    case Caption(t) => t == TopProcessesCaption
    case ProcessRow(n, pid, cpu, mem) => ProcessInfo(pid, n, cpu, mem) in info.topProcesses
  }

  /** Every text of the chart shows a value of the snapshot, unchanged. */
  lemma LayoutShowsSnapshot(info: Snapshot)
    ensures forall op :: op in Layout(info) && op.TextOp? ==> LabelAgrees(op.content, info)
  {
    var rows := RowOps(info.topProcesses);
    assert forall i :: 0 <= i < |rows| ==> LabelAgrees(rows[i].content, info);
  }

  /** The processes a list of drawing calls lists, read back from its row texts. */
  function ShownProcesses(ops: seq<DrawOp>): seq<ProcessInfo> {
    if ops == [] then []
    else
      (match ops[0]
       case TextOp(_, _, ProcessRow(n, pid, cpu, mem), _) => [ProcessInfo(pid, n, cpu, mem)]
       case _ => [])
      + ShownProcesses(ops[1..])
  }

  lemma {:induction false} ShownProcessesAppend(a: seq<DrawOp>, b: seq<DrawOp>)
    ensures ShownProcesses(a + b) == ShownProcesses(a) + ShownProcesses(b)
  {
    if a == [] {
      assert a + b == b;
    } else {
      assert (a + b)[1..] == a[1..] + b;
      ShownProcessesAppend(a[1..], b);
    }
  }

  lemma {:induction false} ShownRows(ops: seq<DrawOp>, procs: seq<ProcessInfo>)
    requires |ops| == |procs|
    requires forall i :: 0 <= i < |ops| ==> ops[i].TextOp? && ops[i].content == RowLabel(procs[i])
    ensures ShownProcesses(ops) == procs
  {
    if ops != [] {
      ShownRows(ops[1..], procs[1..]);
      assert procs == [procs[0]] + procs[1..];
    }
  }

  lemma {:induction false} NoRowsShown(ops: seq<DrawOp>)
    requires forall i :: 0 <= i < |ops| ==> !(ops[i].TextOp? && ops[i].content.ProcessRow?)
    ensures ShownProcesses(ops) == []
  {
    if ops != [] {
      NoRowsShown(ops[1..]);
    }
  }

  /** Reading the process rows back off the chart gives the snapshot's top
      processes, all of them and in rank order. */
  lemma LayoutListsTopProcesses(info: Snapshot)
    ensures ShownProcesses(Layout(info)) == info.topProcesses
  {
    ShownProcessesAppend(FixedOps(info), RowOps(info.topProcesses));
    NoRowsShown(FixedOps(info));
    ShownRows(RowOps(info.topProcesses), info.topProcesses);
  }
}
