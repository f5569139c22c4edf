/** The text the program writes about the game, and the logger that queues
    board callbacks and writes one line per callback. Text is a sequence
    of characters, one per byte written; the output stream is the string
    `out` the logger appends to. */
module Logging {
  import opened Common

  /** Ids and the rank printed for a coordinate are 32-bit unsigned. */
  const U32: nat := 0x1_0000_0000

  newtype u32 = x: int | 0 <= x < 0x1_0000_0000

  // ---------------------------------------------------------------------
  // Numbers and coordinates

  predicate IsDigit(ch: char) {
    '0' <= ch <= '9'
  }

  predicate AllDigits(s: string) {
    forall i :: 0 <= i < |s| ==> IsDigit(s[i])
  }

  function DigitChar(d: int): char
    requires 0 <= d < 10
  {
    ('0' as int + d) as char
  }

  /** The decimal text of `n`, as a stream writes an unsigned number. */
  function Decimal(n: nat): (s: string)
    ensures |s| >= 1 && AllDigits(s)
    ensures s[0] == '0' <==> n == 0
    decreases n
  {
    if n < 10 then [DigitChar(n)] else Decimal(n / 10) + [DigitChar(n % 10)]
  }

  /** The number a string of digits denotes. */
  function DecimalValue(s: string): nat
    requires AllDigits(s)
    decreases |s|
  {
    if s == [] then 0 else DecimalValue(s[..|s| - 1]) * 10 + (s[|s| - 1] as int - '0' as int)
  }

  /** Reading the decimal text back gives the number. */
  lemma {:induction false} DecimalRoundTrip(n: nat)
    ensures DecimalValue(Decimal(n)) == n
    decreases n
  {
    if n >= 10 {
      DecimalRoundTrip(n / 10);
      var s := Decimal(n);
      assert s[..|s| - 1] == Decimal(n / 10);
    }
  }

  lemma DecimalInjective(a: nat, b: nat)
    ensures Decimal(a) == Decimal(b) ==> a == b
  {
    DecimalRoundTrip(a);
    DecimalRoundTrip(b);
  }

  /** A `char` cast of an int: the byte it keeps. */
  function ByteChar(v: int): char {
    (v % 256) as char
  }

  /** A coordinate: the letter `'A' + x` followed by the decimal rank. */
  function CoordText(c: Coordinate): string {
    [ByteChar('A' as int + c.x)] + Decimal(c.y % U32)
  }

  /** For files 0..25 and ranks that fit in 32 bits the text is the letter
      of the file followed by the rank, and it gives the coordinate back. */
  lemma CoordTextReadsBack(c: Coordinate)
    requires 0 <= c.x < 26 && 0 <= c.y < U32
    ensures var t := CoordText(c);
      && 'A' <= t[0] <= 'Z' && t[0] as int - 'A' as int == c.x
      && AllDigits(t[1..]) && DecimalValue(t[1..]) == c.y
  {
    DecimalRoundTrip(c.y);
    assert CoordText(c)[1..] == Decimal(c.y);
  }

  /** Different squares of a board with up to 26 files print differently. */
  lemma CoordTextInjective(a: Coordinate, b: Coordinate)
    requires 0 <= a.x < 26 && 0 <= a.y < U32
    requires 0 <= b.x < 26 && 0 <= b.y < U32
    ensures CoordText(a) == CoordText(b) ==> a == b
  {
    if CoordText(a) == CoordText(b) {
      CoordTextReadsBack(a);
      CoordTextReadsBack(b);
    }
  }

  /** A piece: `rook[<id>] <coordinate>` for a rook, nothing for a kind the
      switch does not list. */
  function ChessManText(kind: ChessmanType, id: nat, c: Coordinate): string {
    match kind
    case Rook => "rook[" + Decimal(id) + "] " + CoordText(c)
    case TestKind => ""
  }

  lemma ChessManTextShape(id: nat, c: Coordinate)
    ensures var t := ChessManText(Rook, id, c); var d := Decimal(id);
      && t[..5] == "rook["
      && t[5..5 + |d|] == d
      && t[5 + |d|..7 + |d|] == "] "
      && t[7 + |d|..] == CoordText(c)
    ensures ChessManText(TestKind, id, c) == ""
  {
  }

  // ---------------------------------------------------------------------
  // Symbols

  /** The actions of the console trace. */
  datatype TraceAction = TracePlaced | Deleted | TraceMoved | Wait | CancelWait

  function TraceSymbol(a: TraceAction): string {
    match a
    case TracePlaced => "-O"
    case Deleted => "-X"
    case TraceMoved => "->"
    case Wait => "-?"
    case CancelWait => "X?"
  }

  /** The five trace symbols are two characters each and pairwise distinct. */
  lemma TraceSymbolsDistinct(a: TraceAction, b: TraceAction)
    ensures |TraceSymbol(a)| == 2
    ensures TraceSymbol(a) == TraceSymbol(b) ==> a == b
  {
  }

  /** The actions the logger records. */
  datatype Action = Placed | Moved | CancelMoved | Removed | WaitingForCell | Reject

  function Symbol(a: Action): string {
    match a
    case Placed => "-O"
    case Moved => "->"
    case CancelMoved => "X?"
    case Removed => "-X"
    case WaitingForCell => "-?"
    case Reject => "XX"
  }

  /** The six logger symbols are two characters each and pairwise distinct. */
  lemma SymbolsDistinct(a: Action, b: Action)
    ensures |Symbol(a)| == 2
    ensures Symbol(a) == Symbol(b) ==> a == b
  {
  }

  /** A rejection reason: its name, or nothing for `empty`. */
  function ReasonText(r: ReasonReject): string {
    match r
    case NoReason => ""
    case BoardStopped => "boardStopped"
    case IncorrectCoordinate => "incorrectCoordinate"
    case IdMismatch => "idMismatch"
    case IncorrectId => "incorrectId"
    case DuplicateId => "duplicateId"
    case WaiterNotFound => "waiterNotFound"
  }

  /** Only `empty` prints nothing, and no two reasons print alike. */
  lemma ReasonTextDistinct(a: ReasonReject, b: ReasonReject)
    ensures ReasonText(a) == "" <==> a == NoReason
    ensures ReasonText(a) == ReasonText(b) ==> a == b
  {
  }

  // ---------------------------------------------------------------------
  // Lines

  /** Each argument preceded by one space. */
  function Spaced(args: seq<string>): string
    decreases |args|
  {
    if args == [] then "" else " " + args[0] + Spaced(args[1..])
  }

  /** print_action: `ID:`, a space before each argument, and a newline. */
  function PrintAction(args: seq<string>): string {
    "ID:" + Spaced(args) + "\n"
  }

  /** One more argument adds a space and that argument at the end. */
  lemma {:induction false} SpacedAppend(args: seq<string>, x: string)
    ensures Spaced(args + [x]) == Spaced(args) + " " + x
    decreases |args|
  {
    if args == [] {
      assert args + [x] == [x];
    } else {
      assert (args + [x])[1..] == args[1..] + [x];
      SpacedAppend(args[1..], x);
    }
  }

  /** A line has the `ID:` prefix, one space per argument and the
      arguments' characters, and ends with the newline. */
  lemma PrintActionShape(args: seq<string>)
    ensures var line := PrintAction(args);
      && line[..3] == "ID:" && line[|line| - 1] == '\n'
      && |line| == 4 + |args| + TotalLength(args)
  {
    SpacedLength(args);
  }

  function TotalLength(args: seq<string>): nat
    decreases |args|
  {
    if args == [] then 0 else |args[0]| + TotalLength(args[1..])
  }

  lemma {:induction false} SpacedLength(args: seq<string>)
    ensures |Spaced(args)| == |args| + TotalLength(args)
    decreases |args|
  {
    if args != [] {
      SpacedLength(args[1..]);
    }
  }

  /** A queued callback. */
  datatype LogStruct = LogStruct(action: Action, id: u32, from: Coordinate, to: Coordinate, reason: ReasonReject)

  /** The arguments print passes to print_action. */
  function Fields(log: LogStruct): seq<string> {
    var id := Decimal(log.id as nat);
    match log.action
    case Placed => [id, Symbol(log.action), CoordText(log.to)]
    case Removed => [id, Symbol(log.action), CoordText(log.from)]
    case Reject => [id, Symbol(log.action), ReasonText(log.reason)]
    case _ =>
      if log.from != InvalidCoordinate then [id, CoordText(log.from), Symbol(log.action), CoordText(log.to)]
      else [id, Symbol(log.action), CoordText(log.to)]
  }

  /** The line print writes for one callback. */
  function Print(log: LogStruct): string {
    PrintAction(Fields(log))
  }

  /** A line of three arguments. */
  lemma PrintActionThree(a: string, b: string, c: string)
    ensures PrintAction([a, b, c]) == "ID: " + a + " " + b + " " + c + "\n"
  {
    assert Spaced([c]) == " " + c by { assert [c][1..] == []; }
    assert Spaced([b, c]) == " " + b + " " + c by { assert [b, c][1..] == [c]; }
    assert Spaced([a, b, c]) == " " + a + " " + b + " " + c by { assert [a, b, c][1..] == [b, c]; }
  }

  /** A line of four arguments. */
  lemma PrintActionFour(a: string, b: string, c: string, d: string)
    ensures PrintAction([a, b, c, d]) == "ID: " + a + " " + b + " " + c + " " + d + "\n"
  {
    assert Spaced([d]) == " " + d by { assert [d][1..] == []; }
    assert Spaced([c, d]) == " " + c + " " + d by { assert [c, d][1..] == [d]; }
    assert Spaced([b, c, d]) == " " + b + " " + c + " " + d by { assert [b, c, d][1..] == [c, d]; }
    assert Spaced([a, b, c, d]) == " " + a + " " + b + " " + c + " " + d by { assert [a, b, c, d][1..] == [b, c, d]; }
  }

  /** The fields print selects: the target for `placed`, the origin for
      `removed`, the reason for `reject`; the three moving actions show the
      origin too unless it is the invalid coordinate. */
  lemma PrintTable(log: LogStruct)
    ensures var id := Decimal(log.id as nat); var act := Symbol(log.action);
      && (log.action == Placed ==> Print(log) == "ID: " + id + " " + act + " " + CoordText(log.to) + "\n")
      && (log.action == Removed ==> Print(log) == "ID: " + id + " " + act + " " + CoordText(log.from) + "\n")
      && (log.action == Reject ==> Print(log) == "ID: " + id + " " + act + " " + ReasonText(log.reason) + "\n")
      && (log.action in {Moved, CancelMoved, WaitingForCell} && log.from != InvalidCoordinate ==>
            Print(log) == "ID: " + id + " " + CoordText(log.from) + " " + act + " " + CoordText(log.to) + "\n")
      && (log.action in {Moved, CancelMoved, WaitingForCell} && log.from == InvalidCoordinate ==>
            Print(log) == "ID: " + id + " " + act + " " + CoordText(log.to) + "\n")
  {
    var id := Decimal(log.id as nat);
    var act := Symbol(log.action);
    match log.action
    case Placed => PrintActionThree(id, act, CoordText(log.to));
    case Removed => PrintActionThree(id, act, CoordText(log.from));
    case Reject => PrintActionThree(id, act, ReasonText(log.reason));
    case _ =>
      if log.from != InvalidCoordinate {
        PrintActionFour(id, CoordText(log.from), act, CoordText(log.to));
      } else {
        PrintActionThree(id, act, CoordText(log.to));
      }
  }

  /** The lines for a queue, front first. */
  function Rendered(q: seq<LogStruct>): string
    decreases |q|
  {
    if q == [] then "" else Print(q[0]) + Rendered(q[1..])
  }

  /** Printing two queues one after the other prints their concatenation. */
  lemma {:induction false} RenderedAppend(a: seq<LogStruct>, b: seq<LogStruct>)
    ensures Rendered(a + b) == Rendered(a) + Rendered(b)
    decreases |a|
  {
    if a == [] {
      assert a + b == b;
    } else {
      assert (a + b)[1..] == a[1..] + b;
      RenderedAppend(a[1..], b);
    }
  }

  /** Printing the front entry and then the rest prints the whole queue. */
  lemma RenderedFront(out: string, q: seq<LogStruct>)
    requires q != []
    ensures (out + Print(q[0])) + Rendered(q[1..]) == out + Rendered(q)
  {
  }

  // ---------------------------------------------------------------------
  // The logger

  /** Why the logger's worker was woken. */
  datatype ReasonWakeUp = PrintLog | StopWake | ExitWake | Fake

  /** What a callback does to the queue and the wake reason: unless the
      logger is stopped it appends the entry and asks for printing. */
  function Enqueue(wake: ReasonWakeUp, queue: seq<LogStruct>, entry: LogStruct): (ReasonWakeUp, seq<LogStruct>) {
    if wake != StopWake then (PrintLog, queue + [entry]) else (wake, queue)
  }

  /** A callback adds exactly one entry at the back unless stopped; once
      stopped nothing changes. */
  lemma EnqueueGating(wake: ReasonWakeUp, queue: seq<LogStruct>, entry: LogStruct)
    ensures var r := Enqueue(wake, queue, entry);
      && (wake != StopWake ==> r.0 == PrintLog && |r.1| == |queue| + 1 && r.1[..|queue|] == queue && r.1[|queue|] == entry)
      && (wake == StopWake ==> r == (wake, queue))
  {
  }

  /** With its wake reason never set, a logger whose indeterminate value
      happens to read as `stop` drops every callback. */
  lemma UninitialisedWakeDropsEntries(queue: seq<LogStruct>, entry: LogStruct)
    ensures Enqueue(StopWake, queue, entry).1 == queue
  {
  }

  /** A logger that starts from `fake` records the first callback. */
  lemma InitialisedWakeRecords(entry: LogStruct)
    ensures Enqueue(Fake, [], entry) == (PrintLog, [entry])
  {
    assert [] + [entry] == [entry];
  }

  /** One line of a legend: the quoted symbol, a dash and what it means. */
  function LegendLine(indent: string, symbol: string, meaning: string): string {
    indent + "\"" + symbol + "\" - " + meaning + "\n"
  }

  /** print_help: the legend of the console trace. */
  function TraceHelp(): string {
    LegendLine("", "-O", "placed") +
    LegendLine("", "-X", "deleted") +
    LegendLine("", "->", "moved") +
    LegendLine("", "-?", "wait") +
    LegendLine("", "X?", "cancel wait")
  }

  /** What onStart writes: a first line and the indented legend. */
  function StartBanner(): string {
    "Logger started.\n" +
    LegendLine("    ", "-O", "placed") +
    LegendLine("    ", "-X", "deleted") +
    LegendLine("    ", "->", "moved") +
    LegendLine("    ", "-?", "wait") +
    LegendLine("    ", "X?", "cancel wait") +
    LegendLine("    ", "XX", "reject")
  }

  /** The trace legend explains exactly the symbols the trace prints. */
  lemma TraceHelpListsSymbols()
    ensures TraceHelp() ==
      LegendLine("", TraceSymbol(TracePlaced), "placed") +
      LegendLine("", TraceSymbol(Deleted), "deleted") +
      LegendLine("", TraceSymbol(TraceMoved), "moved") +
      LegendLine("", TraceSymbol(Wait), "wait") +
      LegendLine("", TraceSymbol(CancelWait), "cancel wait")
  {
  }

  /** The logger's legend explains the symbol of each of its six actions,
      under the trace's words (`removed` is "deleted", `waitingForCell` is
      "wait", `cancelMoved` is "cancel wait"). */
  lemma StartBannerListsSymbols()
    ensures StartBanner() ==
      "Logger started.\n" +
      LegendLine("    ", Symbol(Placed), "placed") +
      LegendLine("    ", Symbol(Removed), "deleted") +
      LegendLine("    ", Symbol(Moved), "moved") +
      LegendLine("    ", Symbol(WaitingForCell), "wait") +
      LegendLine("    ", Symbol(CancelMoved), "cancel wait") +
      LegendLine("    ", Symbol(Reject), "reject")
  {
  }

  const StoppedLine: string := "Logger stopped.\n"

  class Logger {
    var queue: seq<LogStruct>
    var wake: ReasonWakeUp
    var out: string

    /** The constructor as written: the wake reason is left as it was
        found, so it is a parameter here. */
    constructor (found: ReasonWakeUp)
      ensures queue == [] && wake == found && out == ""
    {
      queue := [];
      wake := found;
      out := "";
    }

    /** A logger whose wake reason starts from `fake`. */
    constructor Initialised()
      ensures queue == [] && wake == Fake && out == ""
    {
      queue := [];
      wake := Fake;
      out := "";
    }

    method Log(entry: LogStruct)
      modifies this
      ensures (wake, queue) == Enqueue(old(wake), old(queue), entry)
      ensures out == old(out)
    {
      if wake != StopWake {
        queue := queue + [entry];
        wake := PrintLog;
      }
    }

    /** placed: no origin is known, so it is the default coordinate. */
    method NotifyPlaced(id: u32, to: Coordinate)
      modifies this
      ensures (wake, queue) == Enqueue(old(wake), old(queue), LogStruct(Placed, id, DefaultCoordinate, to, NoReason))
      ensures out == old(out)
    {
      Log(LogStruct(Placed, id, DefaultCoordinate, to, NoReason));
    }

    method NotifyMoved(id: u32, from: Coordinate, to: Coordinate)
      modifies this
      ensures (wake, queue) == Enqueue(old(wake), old(queue), LogStruct(Moved, id, from, to, NoReason))
      ensures out == old(out)
    {
      Log(LogStruct(Moved, id, from, to, NoReason));
    }

    method NotifyCancelMoved(id: u32, from: Coordinate, to: Coordinate)
      modifies this
      ensures (wake, queue) == Enqueue(old(wake), old(queue), LogStruct(CancelMoved, id, from, to, NoReason))
      ensures out == old(out)
    {
      Log(LogStruct(CancelMoved, id, from, to, NoReason));
    }

    /** removed: no target is known, so it is the default coordinate. */
    method NotifyRemoved(id: u32, from: Coordinate)
      modifies this
      ensures (wake, queue) == Enqueue(old(wake), old(queue), LogStruct(Removed, id, from, DefaultCoordinate, NoReason))
      ensures out == old(out)
    {
      Log(LogStruct(Removed, id, from, DefaultCoordinate, NoReason));
    }

    method NotifyWaitingForCell(id: u32, from: Coordinate, to: Coordinate)
      modifies this
      ensures (wake, queue) == Enqueue(old(wake), old(queue), LogStruct(WaitingForCell, id, from, to, NoReason))
      ensures out == old(out)
    {
      Log(LogStruct(WaitingForCell, id, from, to, NoReason));
    }

    /** reject: both coordinates are the default one; the reason is kept. */
    method NotifyReject(id: u32, reason: ReasonReject)
      modifies this
      ensures (wake, queue) == Enqueue(old(wake), old(queue), LogStruct(Reject, id, DefaultCoordinate, DefaultCoordinate, reason))
      ensures out == old(out)
    {
      Log(LogStruct(Reject, id, DefaultCoordinate, DefaultCoordinate, reason));
    }

    /** stopGame: later callbacks are dropped. */
    method StopGame()
      modifies this
      ensures wake == StopWake && queue == old(queue) && out == old(out)
    {
      wake := StopWake;
    }

    /** onStart: the legend of the symbols. */
    method OnStart()
      modifies this
      ensures out == old(out) + StartBanner()
      ensures queue == old(queue) && wake == old(wake)
    {
      out := out + StartBanner();
    }

    /** Pops and prints the queued entries, front first, until none is left:
        each is printed once, in the order it was logged. */
    method Drain()
      modifies this
      ensures queue == [] && wake == old(wake)
      ensures out == old(out) + Rendered(old(queue))
    {
      while queue != []
        invariant out + Rendered(queue) == old(out) + Rendered(old(queue))
        invariant wake == old(wake)
        decreases |queue|
      {
        ghost var before, printed := queue, out;
        PrintFront();
        RenderedFront(printed, before);
      }
      assert out + Rendered(queue) == out;
    }

    /** Pops the front entry and prints it. */
    method PrintFront()
      requires queue != []
      modifies this
      ensures queue == old(queue)[1..] && wake == old(wake)
      ensures out == old(out) + Print(old(queue)[0])
    {
      var log := queue[0];
      queue := queue[1..];
      out := out + Print(log);
    }

    /** One round of the worker loop: drain, then wait for the next wake-up
        unless stopped meanwhile. */
    method LoopPass()
      requires wake != StopWake
      modifies this
      ensures queue == [] && out == old(out) + Rendered(old(queue))
      ensures wake == Fake
    {
      Drain();
      if wake != StopWake {
        wake := Fake;
      }
    }

    /** onStop: unless told to exit, what is still queued is printed; then
        the closing line. */
    method OnStop()
      modifies this
      ensures old(wake) != ExitWake ==> queue == [] && out == old(out) + Rendered(old(queue)) + StoppedLine
      ensures old(wake) == ExitWake ==> queue == old(queue) && out == old(out) + StoppedLine
      ensures wake == old(wake)
    {
      if wake != ExitWake {
        Drain();
      }
      out := out + StoppedLine;
    }
  }
}
