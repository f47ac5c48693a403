/**
 * The arithmetic tool set handed to the agent: a `MathTools` object that adds
 * and subtracts unbounded integers, appends one line per operation to its
 * `history`, and reports the five most recent lines.
 */
module Tools {
  import opened Wrappers
  import opened Text

  /** Names under which `get_tools` registers the three operations, in its order. */
  const ToolNames: seq<string> := ["diff_values", "sum_values", "get_history"]

  /** What `get_history` answers while nothing has been computed yet. */
  const NoHistory: string := "No previous operations"

  /** How many of the latest entries `get_history` reports. */
  const WindowSize: nat := 5

  /** One completed operation, as the history records it. */
  datatype Op = Sum(a: int, b: int) | Diff(a: int, b: int)

  function Value(op: Op): int {
    match op
    case Sum(a, b) => a + b
    case Diff(a, b) => a - b
  }

  function Symbol(op: Op): string {
    if op.Sum? then "+" else "-"
  }

  /** The history line `"<a> <op> <b> = <result>"` of one operation. */
  function Entry(op: Op): (e: string)
    ensures '\n' !in e
  {
    IntToString(op.a) + " " + Symbol(op) + " " + IntToString(op.b) + " = " + IntToString(Value(op))
  }

  /** The words of an entry, as the entry separates them with single spaces. */
  function Words(op: Op): seq<string> {
    [IntToString(op.a), Symbol(op), IntToString(op.b), "=", IntToString(Value(op))]
  }

  /**
   * Reads a history line back: the operands, the operator, and a result that
   * must agree with them. The inverse of Entry.
   */
  function ParseEntry(e: string): Option<Op> {
    var w := Split(e, ' ');
    if |w| != 5 || w[3] != "=" || (w[1] != "+" && w[1] != "-") then None
    else
      var op := if w[1] == "+" then Sum(ParseInt(w[0]), ParseInt(w[2])) else Diff(ParseInt(w[0]), ParseInt(w[2]));
      if ParseInt(w[4]) == Value(op) then Some(op) else None
  }

  lemma EntryIsJoinedWords(op: Op)
    ensures Entry(op) == Join(Words(op), ' ')
  {
    var w := Words(op);
    assert Join(w[3..], ' ') == w[3] + [' '] + w[4];
    assert Join(w[2..], ' ') == w[2] + [' '] + Join(w[3..], ' ');
    assert Join(w[1..], ' ') == w[1] + [' '] + Join(w[2..], ' ');
  }

  /** Every history line records its operation faithfully: it parses back to it. */
  lemma EntryRoundTrip(op: Op)
    ensures ParseEntry(Entry(op)) == Some(op)
  {
    var w := Words(op);
    EntryIsJoinedWords(op);
    SplitJoin(w, ' ');
    ParseIntToString(op.a);
    ParseIntToString(op.b);
    ParseIntToString(Value(op));
  }

  /** Different operations never leave the same history line. */
  lemma EntryInjective(op1: Op, op2: Op)
    requires Entry(op1) == Entry(op2)
    ensures op1 == op2
  {
    EntryRoundTrip(op1);
    EntryRoundTrip(op2);
  }


  /** Python's `history[-5:]`: the last WindowSize entries, or all of them if fewer. */
  function Recent(h: seq<string>): (w: seq<string>)
    ensures |w| == if |h| < WindowSize then |h| else WindowSize
    ensures w == h[|h| - |w|..]
  {
    if |h| <= WindowSize then h else h[|h| - WindowSize..]
  }

  /**
   * The text `get_history` answers for a history `h`: the empty-history
   * message, or the recent window from its oldest line to the newest entry.
   */
  function HistoryText(h: seq<string>): (t: string)
    ensures h == [] ==> t == NoHistory
    ensures h != [] ==> Recent(h)[0] <= t
  {
    if h == [] then NoHistory else Join(Recent(h), '\n')
  }

  lemma EntryStart(op: Op)
    ensures |Entry(op)| > 0
    ensures IsDigit(Entry(op)[0]) || Entry(op)[0] == '-'
  {
    var s := IntToString(op.a);
    assert Entry(op) == s + (" " + Symbol(op) + " " + IntToString(op.b) + " = " + IntToString(Value(op)));
    assert Entry(op)[0] == s[0];
  }

  /**
   * For a history of entries, the empty-history message is answered exactly
   * when there is no entry: an entry starts with a digit or '-', the message
   * with a letter.
   */
  lemma NoHistoryIffEmpty(ops: seq<Op>)
    ensures HistoryText(Log(ops)) == NoHistory <==> ops == []
  {
    var h := Log(ops);
    if ops != [] {
      var w := Recent(h);
      var op := ops[|h| - |w|];
      assert w[0] == Entry(op);
      EntryStart(op);
      JoinHead(w, '\n');
      assert NoHistory[0] == 'N';
    }
  }

  /** A non-empty history's text splits, line by line, into exactly the recent window. */
  lemma HistoryTextLines(h: seq<string>)
    requires h != []
    requires forall i :: 0 <= i < |h| ==> '\n' !in h[i]
    ensures Split(HistoryText(h), '\n') == Recent(h)
  {
    var w := Recent(h);
    assert forall i :: 0 <= i < |w| ==> w[i] == h[|h| - |w| + i];
    SplitJoin(w, '\n');
  }

  /** The lines of the history recorded for a sequence of operations. */
  function Log(ops: seq<Op>): (h: seq<string>)
    ensures |h| == |ops|
    ensures forall i :: 0 <= i < |ops| ==> h[i] == Entry(ops[i])
  {
    seq(|ops|, i requires 0 <= i < |ops| => Entry(ops[i]))
  }

  /** One more operation adds exactly its line at the end; earlier lines stay. */
  lemma LogAppend(ops: seq<Op>, op: Op)
    ensures Log(ops + [op]) == Log(ops) + [Entry(op)]
  {
    var h := Log(ops + [op]);
    assert forall i :: 0 <= i < |ops| ==> h[i] == Log(ops)[i];
  }

  lemma SumLine(a: int, b: int)
    ensures Entry(Sum(a, b)) == IntToString(a) + " + " + IntToString(b) + " = " + IntToString(a + b)
  {
  }

  lemma DiffLine(a: int, b: int)
    ensures Entry(Diff(a, b)) == IntToString(a) + " - " + IntToString(b) + " = " + IntToString(a - b)
  {
  }

  lemma RecentShowsRecentOperation(ops: seq<Op>, k: nat)
    requires |ops| - |Recent(Log(ops))| <= k < |ops|
    ensures Entry(ops[k]) in Recent(Log(ops))
  {
    var w := Recent(Log(ops));
    assert w[k - (|ops| - |w|)] == Log(ops)[k];
  }

  lemma RecentLineOperation(ops: seq<Op>, op: Op, k: nat)
    requires k < |Recent(Log(ops))| && Recent(Log(ops))[k] == Entry(op)
    ensures op in ops[|ops| - |Recent(Log(ops))|..]
  {
    var w := Recent(Log(ops));
    var j := |ops| - |w| + k;
    assert w[k] == Log(ops)[j];
    EntryInjective(op, ops[j]);
    assert ops[|ops| - |w|..][k] == ops[j];
  }

  /**
   * The window holds an operation's line exactly when that operation is
   * among the last min(5, |ops|) performed.
   */
  lemma RecentOperations(ops: seq<Op>, op: Op)
    ensures Entry(op) in Recent(Log(ops)) <==> op in ops[|ops| - |Recent(Log(ops))|..]
  {
    var w := Recent(Log(ops));
    if Entry(op) in w {
      var k :| 0 <= k < |w| && w[k] == Entry(op);
      RecentLineOperation(ops, op, k);
    }
    if op in ops[|ops| - |w|..] {
      var k :| |ops| - |w| <= k < |ops| && ops[k] == op;
      RecentShowsRecentOperation(ops, k);
    }
  }

  /**
   * A one-line text that starts with a letter, such as the empty-history
   * message, shows no operation's line.
   */
  lemma LetterLineShowsNoOperation(text: string, op: Op)
    requires |text| > 0 && text[0] == 'N'
    requires '\n' !in text
    ensures Entry(op) !in Split(text, '\n')
  {
    SplitPrefix(text, "", '\n');
    assert text + "" == text;
    assert Split(text, '\n') == [text];
    EntryStart(op);
  }

  /**
   * The reported history shows an operation's line exactly when that
   * operation is among the last min(5, |ops|) performed.
   */
  lemma ReportedOperations(ops: seq<Op>, op: Op)
    ensures Entry(op) in Split(HistoryText(Log(ops)), '\n') <==> op in ops[|ops| - |Recent(Log(ops))|..]
  {
    if ops == [] {
      var text := HistoryText(Log(ops));
      assert text == NoHistory;
      assert '\n' !in text;
      LetterLineShowsNoOperation(text, op);
    } else {
      HistoryTextLines(Log(ops));
      RecentOperations(ops, op);
    }
  }

  /**
   * The agent's arithmetic tools. `history` holds one line per operation,
   * oldest first, and is never shortened; the ghost `ops` is the sequence of
   * operations those lines describe.
   */
  class MathTools {
    var history: seq<string>
    ghost var ops: seq<Op>

    ghost predicate Valid()
      reads this
    {
      history == Log(ops)
    }

    constructor ()
      ensures Valid()
      ensures history == [] && ops == []
    {
      history := [];
      ops := [];
    }

    /** `_diff_values`: returns a - b and appends `"<a> - <b> = <a-b>"`. */
    method DiffValues(a: int, b: int) returns (r: int)
      modifies this
      ensures old(Valid()) ==> Valid()
      ensures r == a - b
      ensures ops == old(ops) + [Diff(a, b)]
      ensures history == old(history) + [IntToString(a) + " - " + IntToString(b) + " = " + IntToString(r)]
    {
      r := a - b;
      history := history + [IntToString(a) + " - " + IntToString(b) + " = " + IntToString(r)];
      DiffLine(a, b);
      LogAppend(ops, Diff(a, b));
      ops := ops + [Diff(a, b)];
    }

    /** `_sum_values`: returns a + b and appends `"<a> + <b> = <a+b>"`. */
    method SumValues(a: int, b: int) returns (r: int)
      modifies this
      ensures old(Valid()) ==> Valid()
      ensures r == a + b
      ensures ops == old(ops) + [Sum(a, b)]
      ensures history == old(history) + [IntToString(a) + " + " + IntToString(b) + " = " + IntToString(r)]
    {
      r := a + b;
      history := history + [IntToString(a) + " + " + IntToString(b) + " = " + IntToString(r)];
      SumLine(a, b);
      LogAppend(ops, Sum(a, b));
      ops := ops + [Sum(a, b)];
    }

    /**
     * `_get_history`: the empty-history message exactly when nothing has been
     * computed, otherwise the last min(5, |history|) lines, oldest first,
     * separated by newlines. It changes nothing.
     */
    method GetHistory() returns (text: string)
      ensures text == HistoryText(history)
      ensures history == [] ==> text == NoHistory
      ensures Valid() && history != [] ==> text != NoHistory
      ensures (forall i :: 0 <= i < |history| ==> '\n' !in history[i]) && history != [] ==>
        Split(text, '\n') == Recent(history)
    {
      if history == [] {
        text := NoHistory;
      } else {
        var start := if |history| < WindowSize then 0 else |history| - WindowSize;
        text := Join(history[start..], '\n');
      }
      if history != [] && forall i :: 0 <= i < |history| ==> '\n' !in history[i] {
        HistoryTextLines(history);
      }
      if Valid() {
        NoHistoryIffEmpty(ops);
      }
    }
  }

  /** Two reads in a row answer the same text: reading the history changes nothing. */
  method GetHistoryTwice(t: MathTools) returns (first: string, second: string)
    ensures first == second
    ensures first == HistoryText(t.history)
  {
    first := t.GetHistory();
    second := t.GetHistory();
  }

  /** A fresh instance reports the empty-history message. */
  method FreshHistory() returns (text: string)
    ensures text == NoHistory
  {
    var t := new MathTools();
    text := t.GetHistory();
  }

  // The concrete lines of the scenarios below, one rendering per lemma.

  lemma Line5Plus3()
    ensures Entry(Sum(5, 3)) == "5 + 3 = 8"
  {
  }

  lemma Line10Minus4()
    ensures Entry(Diff(10, 4)) == "10 - 4 = 6"
  {
  }

  lemma Line8Plus6()
    ensures Entry(Sum(8, 6)) == "8 + 6 = 14"
  {
  }

  lemma ThreeOperationsLog(ops: seq<Op>)
    requires ops == [Sum(5, 3), Diff(10, 4), Sum(8, 6)]
    ensures Log(ops) == ["5 + 3 = 8", "10 - 4 = 6", "8 + 6 = 14"]
  {
    Line5Plus3();
    Line10Minus4();
    Line8Plus6();
  }

  /** The report after sum(5, 3), diff(10, 4), sum(8, 6): all three lines, oldest first. */
  lemma ThreeOperationsReport(ops: seq<Op>)
    requires ops == [Sum(5, 3), Diff(10, 4), Sum(8, 6)]
    ensures HistoryText(Log(ops)) == Join(["5 + 3 = 8", "10 - 4 = 6", "8 + 6 = 14"], '\n')
    ensures Split(HistoryText(Log(ops)), '\n') == ["5 + 3 = 8", "10 - 4 = 6", "8 + 6 = 14"]
  {
    ThreeOperationsLog(ops);
    HistoryTextLines(Log(ops));
  }

  /** Sum, difference, then the sum of both results: three lines, oldest first. */
  method ThreeOperations() returns (r1: int, r2: int, r3: int, text: string)
    ensures r1 == 8 && r2 == 6 && r3 == 14
    ensures text == Join(["5 + 3 = 8", "10 - 4 = 6", "8 + 6 = 14"], '\n')
    ensures Split(text, '\n') == ["5 + 3 = 8", "10 - 4 = 6", "8 + 6 = 14"]
  {
    var t := new MathTools();
    r1 := t.SumValues(5, 3);
    r2 := t.DiffValues(10, 4);
    r3 := t.SumValues(r1, r2);
    assert t.ops == [Sum(5, 3), Diff(10, 4), Sum(8, 6)];
    text := t.GetHistory();
    ThreeOperationsReport(t.ops);
  }

  lemma LineMinus5MinusMinus2()
    ensures Entry(Diff(-5, -2)) == "-5 - -2 = -3"
  {
  }

  /** Negative operands are rendered as they are, with no special case for "- -". */
  method NegativeOperands() returns (r: int, line: string)
    ensures r == -3
    ensures line == "-5 - -2 = -3"
  {
    var t := new MathTools();
    r := t.DiffValues(-5, -2);
    line := t.history[0];
    LineMinus5MinusMinus2();
  }

  /** The window after the seven sums (i, 1), i = 0..6, of the SevenSums scenario. */
  lemma SevenSumsWindow(ops: seq<Op>)
    requires ops == seq(7, j => Sum(j, 1))
    ensures Recent(Log(ops)) == [Entry(Sum(2, 1)), Entry(Sum(3, 1)), Entry(Sum(4, 1)), Entry(Sum(5, 1)), Entry(Sum(6, 1))]
  {
    var h := Log(ops);
    assert Recent(h) == h[2..];
    assert h[2..] == [h[2], h[3], h[4], h[5], h[6]];
  }

  /** The report after the same seven sums: the last five lines, and not the first two. */
  lemma SevenSumsReport(ops: seq<Op>)
    requires ops == seq(7, j => Sum(j, 1))
    ensures Split(HistoryText(Log(ops)), '\n') == [Entry(Sum(2, 1)), Entry(Sum(3, 1)), Entry(Sum(4, 1)), Entry(Sum(5, 1)), Entry(Sum(6, 1))]
    ensures Entry(Sum(0, 1)) !in Split(HistoryText(Log(ops)), '\n')
    ensures Entry(Sum(1, 1)) !in Split(HistoryText(Log(ops)), '\n')
  {
    SevenSumsOlder(ops);
    HistoryTextLines(Log(ops));
    SevenSumsWindow(ops);
    ReportedOperations(ops, Sum(0, 1));
    ReportedOperations(ops, Sum(1, 1));
  }

  lemma SevenSumsOlder(ops: seq<Op>)
    requires ops == seq(7, j => Sum(j, 1))
    ensures |Recent(Log(ops))| == 5
    ensures Sum(0, 1) !in ops[2..] && Sum(1, 1) !in ops[2..]
  {
    assert ops[2..] == [Sum(2, 1), Sum(3, 1), Sum(4, 1), Sum(5, 1), Sum(6, 1)];
  }

  /**
   * Seven sums (i, 1) for i = 0..6: the history keeps all seven lines, the
   * report shows the last five, and the lines of the first two are gone
   * from it.
   */
  method SevenSums() returns (kept: nat, lines: seq<string>)
    ensures kept == 7
    ensures lines == [Entry(Sum(2, 1)), Entry(Sum(3, 1)), Entry(Sum(4, 1)), Entry(Sum(5, 1)), Entry(Sum(6, 1))]
    ensures Entry(Sum(0, 1)) !in lines && Entry(Sum(1, 1)) !in lines
    ensures "6 + 1 = 7" in lines
    ensures "0 + 1 = 1" !in lines && "1 + 1 = 2" !in lines
  {
    var t := new MathTools();
    for i := 0 to 7
      invariant t.Valid()
      invariant t.ops == seq(i, j => Sum(j, 1))
    {
      var _ := t.SumValues(i, 1);
    }
    var text := t.GetHistory();
    kept := |t.history|;
    lines := Split(text, '\n');
    SevenSumsReport(t.ops);
    Line0Plus1();
    Line1Plus1();
    Line6Plus1();
    assert lines[4] == Entry(Sum(6, 1));
  }

  lemma Line0Plus1()
    ensures Entry(Sum(0, 1)) == "0 + 1 = 1"
  {
  }

  lemma Line1Plus1()
    ensures Entry(Sum(1, 1)) == "1 + 1 = 2"
  {
  }

  lemma Line6Plus1()
    ensures Entry(Sum(6, 1)) == "6 + 1 = 7"
  {
  }

  lemma Line5Minus2()
    ensures Entry(Diff(5, 2)) == "5 - 2 = 3"
  {
  }

  /** Two instances keep separate histories. */
  method SeparateInstances() returns (h1: seq<string>, h2: seq<string>)
    ensures h1 == ["1 + 1 = 2"]
    ensures h2 == ["5 - 2 = 3"]
  {
    var t1 := new MathTools();
    var t2 := new MathTools();
    var _ := t1.SumValues(1, 1);
    var _ := t2.DiffValues(5, 2);
    h1, h2 := t1.history, t2.history;
    Line1Plus1();
    Line5Minus2();
  }
}
