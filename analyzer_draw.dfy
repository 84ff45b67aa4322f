/** The integer logic of the frequency analyzer's draw callback: the RSSI bar,
    the three history rows and the large frequency read-out. */
module AnalyzerDraw {
  import opened Ints
  import opened FrequencyAnalyzer

  /** Left edge and baseline of the RSSI bar. */
  const BarX := 20
  const BarY := 64

  /** A filled rectangle: top-left corner, width and height. */
  datatype Box = Box(x: int, y: int, width: nat, height: nat)

  /** The indices `1..n` that are not multiples of 4, ascending. */
  function TickColumns(n: int): seq<int>
    decreases n
  {
    if n <= 0 then [] else TickColumns(n - 1) + (if n % 4 != 0 then [n] else [])
  }

  /** The indices the bar loop draws for bound `s`: `i` runs from 1 while
      `i < s` and the loop stops once `i` exceeds 20. */
  function DrawnColumns(s: int): seq<int>
  {
    TickColumns(if s - 1 < 20 then s - 1 else 20)
  }

  /** The bar built from drawn indices `cols`: the `k`-th box (from 1) sits
      at column `cols[k - 1]`, has its top at `BarY - k` and height `4 + k`. */
  function BarBoxes(cols: seq<int>): (b: seq<Box>)
    ensures |b| == |cols|
  {
    seq(|cols|, k requires 0 <= k < |cols| => Box(BarX + 2 * cols[k], BarY - (k + 1), 2, 4 + (k + 1)))
  }

  lemma {:induction false} TickColumnsMembers(n: int, i: int)
    ensures i in TickColumns(n) <==> 1 <= i <= n && i % 4 != 0
    decreases n
  {
    if n > 0 {
      TickColumnsMembers(n - 1, i);
    }
  }

  lemma {:induction false} TickColumnsAscending(n: int)
    ensures forall j :: 0 <= j < |TickColumns(n)| ==> 1 <= TickColumns(n)[j] <= n
    ensures forall j, k :: 0 <= j < k < |TickColumns(n)| ==> TickColumns(n)[j] < TickColumns(n)[k]
    decreases n
  {
    if n > 0 {
      TickColumnsAscending(n - 1);
      var prev := TickColumns(n - 1);
      var c := TickColumns(n);
      if n % 4 != 0 {
        assert c == prev + [n];
        assert forall j :: 0 <= j < |prev| ==> c[j] == prev[j] <= n - 1;
        assert c[|prev|] == n;
      } else {
        assert c == prev;
      }
    }
  }

  lemma {:induction false} TickColumnsCount(n: int)
    requires n >= 0
    ensures |TickColumns(n)| == n - n / 4
    decreases n
  {
    if n > 0 {
      TickColumnsCount(n - 1);
    }
  }

  /** The drawn indices are exactly the `i` with `1 <= i < s`, `i <= 20` and
      `i` not a multiple of 4, in ascending order, so at most 15 of them. */
  lemma DrawnColumnsSpec(s: int)
    ensures forall i :: i in DrawnColumns(s) <==> 1 <= i < s && i <= 20 && i % 4 != 0
    ensures var c := DrawnColumns(s);
      forall j, k :: 0 <= j < k < |c| ==> c[j] < c[k]
    ensures |DrawnColumns(s)| <= 15
  {
    var n := if s - 1 < 20 then s - 1 else 20;
    forall i ensures i in DrawnColumns(s) <==> 1 <= i < s && i <= 20 && i % 4 != 0 {
      TickColumnsMembers(n, i);
    }
    TickColumnsAscending(n);
    if n >= 0 {
      TickColumnsCount(n);
    }
  }

  /** A bound of 10 draws the columns 1, 2, 3, 5, 6, 7 and 9: the bound itself
      is not drawn, because the loop condition is strict. */
  lemma DrawnColumnsForTen()
    ensures DrawnColumns(10) == [1, 2, 3, 5, 6, 7, 9]
  {
  }

  /** Appending one drawn index appends one box, one step taller. */
  lemma BarBoxesSnoc(cols: seq<int>, c: int)
    ensures BarBoxes(cols + [c]) == BarBoxes(cols) + [Box(BarX + 2 * c, BarY - (|cols| + 1), 2, 4 + (|cols| + 1))]
  {
    assert forall k :: 0 <= k < |cols| ==> (cols + [c])[k] == cols[k];
  }

  /** Boxes built from ascending indices go left to right, each one pixel
      taller than the last, and at most 15 of them come from a bar bound. */
  lemma BarShape(s: int)
    ensures var b := BarBoxes(DrawnColumns(s));
      |b| <= 15
      && (forall k :: 0 <= k < |b| ==> b[k].y == BarY - (k + 1) && b[k].height == 4 + (k + 1))
      && (forall k :: 0 <= k < |b| - 1 ==> b[k].x < b[k + 1].x)
  {
    DrawnColumnsSpec(s);
  }

  /** `subghz_frequency_analyzer_draw_rssi`. `s` stands for the loop bound
      `(uint8_t)((rssi + 90) / 3)`. */
  method DrawRssi(rssi: real, s: u8) returns (bar: seq<Box>)
    ensures rssi == 0.0 ==> bar == []
    ensures rssi != 0.0 ==> bar == BarBoxes(DrawnColumns(s))
    ensures |bar| <= 15
    ensures forall k :: 0 <= k < |bar| ==> bar[k].y == BarY - (k + 1) && bar[k].height == 4 + (k + 1)
    ensures forall k :: 0 <= k < |bar| - 1 ==> bar[k].x < bar[k + 1].x
  {
    bar := [];
    if rssi != 0.0 {
      var columnNumber := 0;
      var i := 1;
      while i < s
        invariant 1 <= i <= 21 && (i == 1 || i <= s)
        invariant columnNumber == |bar|
        invariant bar == BarBoxes(TickColumns(i - 1))
      {
        if i > 20 {
          break;
        }
        if i % 4 != 0 {
          BarBoxesSnoc(TickColumns(i - 1), i);
          columnNumber := columnNumber + 1;
          bar := bar + [Box(BarX + 2 * i, BarY - columnNumber, 2, 4 + columnNumber)];
        }
        i := i + 1;
      }
      assert TickColumns(i - 1) == DrawnColumns(s);
      BarShape(s);
    }
  }

  /** `"%03ld"` of a value below 1000: three decimal digits with leading zeros. */
  function Pad3(n: int): (s: string)
    requires 0 <= n < 1000
    ensures |s| == 3 && forall i :: 0 <= i < 3 ==> '0' <= s[i] <= '9'
  {
    [Digit(n / 100), Digit(n / 10 % 10), Digit(n % 10)]
  }

  function Digit(d: int): char
    requires 0 <= d < 10
  {
    ('0' as int + d) as char
  }

  /** The number three decimal digits spell. */
  function Value3(s: string): int
    requires |s| == 3
  {
    100 * (s[0] as int - '0' as int) + 10 * (s[1] as int - '0' as int) + (s[2] as int - '0' as int)
  }

  lemma Pad3RoundTrip(n: int)
    requires 0 <= n < 1000
    ensures Value3(Pad3(n)) == n
  {
  }

  /** The two digit groups shown for a frequency in Hz: the MHz and kHz parts.
      Below 1 GHz they give back the frequency up to its last three digits. */
  function DisplayGroups(f: u32): (g: (int, int))
    ensures 0 <= g.0 < 1000 && 0 <= g.1 < 1000
    ensures f < 1_000_000_000 ==> g.0 * 1_000_000 + g.1 * 1000 == f - f % 1000
  {
    (f / 1_000_000 % 1000, f / 1000 % 1000)
  }

  /** `"%03ld.%03ld"` of the two digit groups. */
  function FrequencyText(f: u32): (s: string)
    ensures |s| == 7 && s[3] == '.'
    ensures forall i :: 0 <= i < 7 && i != 3 ==> '0' <= s[i] <= '9'
    ensures Value3(s[..3]) == DisplayGroups(f).0 && Value3(s[4..]) == DisplayGroups(f).1
  {
    var g := DisplayGroups(f);
    Pad3RoundTrip(g.0);
    Pad3RoundTrip(g.1);
    var s := Pad3(g.0) + "." + Pad3(g.1);
    assert s[..3] == Pad3(g.0) && s[4..] == Pad3(g.1);
    s
  }

  /** The text shown for an empty history slot. */
  const Placeholder := "---.---"

  /** One history row: the placeholder for an empty slot, the formatted
      frequency otherwise. */
  function HistoryRowText(f: u32): (s: string)
    ensures s == Placeholder <==> f == 0
    ensures f != 0 ==> s == FrequencyText(f)
  {
    if f != 0 then
      var s := FrequencyText(f);
      assert s[0] != Placeholder[0];
      s
    else
      Placeholder
  }

  /** `subghz_frequency_analyzer_history_frequency_draw`: one row per slot. */
  method HistoryRows(h: History) returns (rows: seq<string>)
    ensures |rows| == 3
    ensures forall i :: 0 <= i < 3 ==> rows[i] == HistoryRowText(h[i])
  {
    rows := [];
    for i := 0 to 3
      invariant |rows| == i
      invariant forall j :: 0 <= j < i ==> rows[j] == HistoryRowText(h[j])
    {
      var row;
      if h[i] != 0 {
        row := FrequencyText(h[i]);
      } else {
        row := Placeholder;
      }
      rows := rows + [row];
    }
  }

  /** What the draw callback puts on screen, apart from fixed labels and icons. */
  datatype Screen = Screen(bar: seq<Box>, history: seq<string>, frequency: string, highlighted: bool)

  /** `subghz_frequency_analyzer_draw`. `s` stands for the bar's loop bound
      computed from `m.rssi`. */
  method Draw(m: ModelValue, s: u8) returns (screen: Screen)
    ensures screen.bar == (if m.rssi == 0.0 then [] else BarBoxes(DrawnColumns(s)))
    ensures |screen.history| == 3
    ensures forall i :: 0 <= i < 3 ==> screen.history[i] == HistoryRowText(m.history[i])
    ensures |screen.frequency| == 7 && screen.frequency == FrequencyText(m.frequency)
    ensures screen.highlighted == m.signal
  {
    var bar := DrawRssi(m.rssi, s);
    var rows := HistoryRows(m.history);
    screen := Screen(bar, rows, FrequencyText(m.frequency), m.signal);
  }
}
