/**
 * The text scramble animator of components/RainingLetters.tsx (class
 * `TextScramble`).  A pass turns the text the element shows into a new text:
 * every character position becomes a cell that shows its old character, then
 * a scramble symbol, then its new character, on a schedule of frames drawn at
 * random when the pass begins.
 *
 * The element is reduced to what the animator reads and writes: its text
 * (`innerText`, read when a pass begins) and the per-cell display written by
 * every update (`innerHTML`).  Animation frames are the event `Frame`, and every
 * `Math.random()` is a parameter.
 */
module Scramble {
  import opened Draws

  /** The scramble alphabet: 18 symbols, one backslash and one em dash among them. */
  const Symbols: string := "!<>-_\\/[]{}—=+*^?#"
  /** Chance that a cell already showing a symbol draws a new one in an update. */
  const RerollChance: real := 0.28
  /** Start offsets and window lengths are drawn below this many frames. */
  const OffsetRange: nat := 40

  /** One queue entry: the old and new character of a position ("" past the end
      of that text), the frames where scrambling starts and ends, and the symbol
      currently shown while scrambling (absent until first drawn). */
  datatype Cell = Cell(from: string, to: string, start: nat, end: nat, symbol: Option<char>)

  /** What one cell contributes to the element after an update. */
  datatype Shown = Settled(to: string) | Dud(symbol: char) | Waiting(from: string)

  /** The two draws `setText` makes for a cell: its start and its window length. */
  datatype CellDraws = CellDraws(start: real, length: real)
  /** The draws `update` may make for a cell: the re-roll coin and the symbol index. */
  datatype FrameDraws = FrameDraws(coin: real, pick: real)

  predicate CellDrawsOk(d: seq<CellDraws>) {
    forall i :: 0 <= i < |d| ==> Unit(d[i].start) && Unit(d[i].length)
  }

  predicate FrameDrawsOk(d: seq<FrameDraws>) {
    forall i :: 0 <= i < |d| ==> Unit(d[i].coin) && Unit(d[i].pick)
  }

  /** `text[i] || ''`. */
  function CharAt(s: string, i: nat): string {
    if i < |s| then [s[i]] else ""
  }

  /** The schedule bounds of a cell: 0 <= start <= 39 and start <= end <= start + 39. */
  predicate Bounded(c: Cell) {
    c.start < OffsetRange && c.start <= c.end < c.start + OffsetRange
  }

  /** The cell `setText` pushes for position `i`. */
  function NewCell(oldText: string, newText: string, i: nat, d: CellDraws): (c: Cell)
    requires Unit(d.start) && Unit(d.length)
    ensures c.from == CharAt(oldText, i) && c.to == CharAt(newText, i)
    ensures c.symbol == None
    ensures Bounded(c)
  {
    var start := Pick(d.start, OffsetRange);
    Cell(CharAt(oldText, i), CharAt(newText, i), start, start + Pick(d.length, OffsetRange), None)
  }

  /** The queue `setText` builds: one new cell per position of the longer text. */
  function Schedule(oldText: string, newText: string, cells: seq<CellDraws>): (q: seq<Cell>)
    requires |cells| == Max(|oldText|, |newText|) && CellDrawsOk(cells)
    ensures IsSchedule(q, oldText, newText)
    ensures forall i :: 0 <= i < |q| ==> q[i].symbol == None
  {
    seq(|cells|, i requires 0 <= i < |cells| => NewCell(oldText, newText, i, cells[i]))
  }

  /** The cell is scrambling at this frame. */
  predicate InWindow(c: Cell, frame: nat) {
    c.start <= frame < c.end
  }

  /** A cell in its window has a symbol to show. */
  predicate HasSymbol(c: Cell, frame: nat) {
    InWindow(c, frame) ==> c.symbol.Some?
  }

  /** The cell after an update at `frame` has (maybe) drawn its symbol. */
  function Reroll(c: Cell, frame: nat, d: FrameDraws): (c': Cell)
    requires Unit(d.pick)
    ensures c'.from == c.from && c'.to == c.to && c'.start == c.start && c'.end == c.end
    ensures HasSymbol(c', frame)
    ensures InWindow(c, frame) && (c.symbol.None? || d.coin < RerollChance) ==>
              c'.symbol == Some(Symbols[Pick(d.pick, |Symbols|)])
    ensures !(InWindow(c, frame) && (c.symbol.None? || d.coin < RerollChance)) ==> c' == c
  {
    if InWindow(c, frame) && (c.symbol.None? || d.coin < RerollChance) then
      c.(symbol := Some(Symbols[Pick(d.pick, |Symbols|)]))
    else
      c
  }


  /** What a cell shows at `frame`: its new character once `frame` reaches its
      end, its symbol inside its window, its old character before. */
  function Show(c: Cell, frame: nat): (s: Shown)
    requires HasSymbol(c, frame)
    ensures s.Settled? <==> c.end <= frame
    ensures s.Dud? <==> InWindow(c, frame)
    ensures s.Settled? ==> s.to == c.to
    ensures s.Dud? ==> s.symbol == c.symbol.value
    ensures s.Waiting? ==> s.from == c.from
  {
    if frame >= c.end then Settled(c.to)
    else if frame >= c.start then Dud(c.symbol.value)
    else Waiting(c.from)
  }

  /** `Show` of cell i, made total only so that `Display`'s comprehension
      needs no precondition on i; the value outside the range is never used. */
  function ShowAt(q: seq<Cell>, frame: nat, i: int): Shown
    requires forall i :: 0 <= i < |q| ==> HasSymbol(q[i], frame)
  {
    if 0 <= i < |q| then Show(q[i], frame) else Waiting("")
  }

  /** What the cells of `q` show at `frame`, in order. */
  function Display(q: seq<Cell>, frame: nat): (shown: seq<Shown>)
    requires forall i :: 0 <= i < |q| ==> HasSymbol(q[i], frame)
    ensures |shown| == |q|
  {
    seq(|q|, i => ShowAt(q, frame, i))
  }

  /** `Reroll` of cell i, made total only so that `Advance`'s comprehension
      needs no precondition on i; the value outside the range is never used. */
  function RerollAt(q: seq<Cell>, frame: nat, draws: seq<FrameDraws>, i: int): Cell
    requires |draws| == |q| && FrameDrawsOk(draws)
  {
    if 0 <= i < |q| then Reroll(q[i], frame, draws[i]) else Cell("", "", 0, 0, None)
  }

  /** The queue after an update at `frame` has re-rolled its symbols. */
  function Advance(q: seq<Cell>, frame: nat, draws: seq<FrameDraws>): (r: seq<Cell>)
    requires |draws| == |q| && FrameDrawsOk(draws)
    ensures |r| == |q|
    ensures forall i :: 0 <= i < |r| ==> HasSymbol(r[i], frame)
  {
    seq(|q|, i => RerollAt(q, frame, draws, i))
  }

  /** The text a shown cell contributes (a symbol inside its `dud` span). */
  function Text(s: Shown): string {
    match s
    case Settled(t) => t
    case Dud(c) => [c]
    case Waiting(f) => f
  }

  /** The element's text after an update: the cells' texts in order. */
  function Render(shown: seq<Shown>): string {
    if shown == [] then "" else Render(shown[..|shown| - 1]) + Text(shown[|shown| - 1])
  }

  /** Every cell has reached its end frame. */
  predicate AllSettled(q: seq<Cell>, frame: nat) {
    forall i :: 0 <= i < |q| ==> q[i].end <= frame
  }

  /** The `complete` counter of an update. */
  function CountSettled(q: seq<Cell>, frame: nat): (n: nat)
    ensures n <= |q|
  {
    if q == [] then 0
    else CountSettled(q[..|q| - 1], frame) + (if q[|q| - 1].end <= frame then 1 else 0)
  }

  /** The last end frame of the queue (0 for an empty queue). */
  function MaxEnd(q: seq<Cell>): nat
  {
    if q == [] then 0 else Max(MaxEnd(q[..|q| - 1]), q[|q| - 1].end)
  }

  /** Every symbol a cell of `q` holds was drawn from the scramble alphabet. */
  predicate FromSymbols(q: seq<Cell>) {
    forall i :: 0 <= i < |q| && q[i].symbol.Some? ==> q[i].symbol.value in Symbols
  }

  /** The queue `setText` builds from the old and the new text: one bounded cell
      per position of the longer text, carrying both texts' characters. */
  predicate IsSchedule(q: seq<Cell>, oldText: string, newText: string) {
    && |q| == Max(|oldText|, |newText|)
    && forall i :: 0 <= i < |q| ==>
         q[i].from == CharAt(oldText, i) && q[i].to == CharAt(newText, i) && Bounded(q[i])
  }

  /** A fresh queue holds no symbol, so it holds none from outside the alphabet. */
  lemma ScheduleFromSymbols(oldText: string, newText: string, cells: seq<CellDraws>)
    requires |cells| == Max(|oldText|, |newText|) && CellDrawsOk(cells)
    ensures FromSymbols(Schedule(oldText, newText, cells))
  {
    var q := Schedule(oldText, newText, cells);
    forall i | 0 <= i < |q|
      ensures q[i].symbol.None?
    {
    }
  }

  /** Every scramble symbol an update shows comes from the alphabet. */
  lemma {:induction false} DudsFromSymbols(q: seq<Cell>, frame: nat)
    requires forall i :: 0 <= i < |q| ==> HasSymbol(q[i], frame)
    requires FromSymbols(q)
    ensures forall i :: 0 <= i < |q| && Display(q, frame)[i].Dud? ==> Display(q, frame)[i].symbol in Symbols
  {
    forall i | 0 <= i < |q| && Display(q, frame)[i].Dud?
      ensures Display(q, frame)[i].symbol in Symbols
    {
      assert Display(q, frame)[i] == Show(q[i], frame);
    }
  }

  /** The update's test `complete === queue.length` holds exactly when every
      cell has settled. */
  lemma {:induction false} CompleteCountIsFull(q: seq<Cell>, frame: nat)
    ensures CountSettled(q, frame) == |q| <==> AllSettled(q, frame)
  {
    if q != [] {
      var p := q[..|q| - 1];
      CompleteCountIsFull(p, frame);
      assert forall i :: 0 <= i < |p| ==> p[i] == q[i];
      if AllSettled(q, frame) {
        assert AllSettled(p, frame);
      }
    }
  }

  /** All cells have settled exactly from frame `MaxEnd(q)` on. */
  lemma {:induction false} SettledFromMaxEnd(q: seq<Cell>, frame: nat)
    ensures AllSettled(q, frame) <==> MaxEnd(q) <= frame
  {
    if q != [] {
      var p := q[..|q| - 1];
      SettledFromMaxEnd(p, frame);
      if AllSettled(q, frame) {
        assert AllSettled(p, frame);
      }
    }
  }

  /** No cell of the queue ends after `MaxEnd`. */
  lemma {:induction false} MaxEndIsLast(q: seq<Cell>, i: nat)
    requires i < |q|
    ensures q[i].end <= MaxEnd(q)
  {
    if i < |q| - 1 {
      MaxEndIsLast(q[..|q| - 1], i);
    }
  }

  /** `MaxEnd` only looks at the end frames. */
  lemma {:induction false} MaxEndOfEnds(q: seq<Cell>, r: seq<Cell>)
    requires |q| == |r|
    requires forall i :: 0 <= i < |q| ==> q[i].end == r[i].end
    ensures MaxEnd(q) == MaxEnd(r)
  {
    if q != [] {
      MaxEndOfEnds(q[..|q| - 1], r[..|r| - 1]);
    }
  }

  /** Every pass resolves by frame 78: each end is at most 39 + 39. */
  lemma {:induction false} MaxEndBound(q: seq<Cell>)
    requires forall i :: 0 <= i < |q| ==> Bounded(q[i])
    ensures MaxEnd(q) <= 2 * (OffsetRange - 1)
  {
    if q != [] {
      MaxEndBound(q[..|q| - 1]);
      assert Bounded(q[|q| - 1]);
    }
  }

  /** A sequence of shown cells whose i-th text is the i-th character of `s`
      (or nothing past its end) renders as `s`. */
  lemma {:induction false} RenderSpells(shown: seq<Shown>, s: string)
    requires |shown| >= |s|
    requires forall i :: 0 <= i < |shown| ==> Text(shown[i]) == CharAt(s, i)
    ensures Render(shown) == s
  {
    if shown != [] {
      var p := shown[..|shown| - 1];
      assert forall i :: 0 <= i < |p| ==> p[i] == shown[i];
      if |shown| > |s| {
        RenderSpells(p, s);
        assert Text(shown[|shown| - 1]) == "";
      } else {
        var s' := s[..|s| - 1];
        assert forall i :: 0 <= i < |p| ==> CharAt(s', i) == CharAt(s, i);
        RenderSpells(p, s');
        assert s' + [s[|s| - 1]] == s;
      }
    }
  }

  /** Once every cell of a schedule has settled, the element shows the new
      text exactly. */
  lemma ResolvedShowsNewText(q: seq<Cell>, oldText: string, newText: string, frame: nat)
    requires IsSchedule(q, oldText, newText)
    requires AllSettled(q, frame)
    ensures Render(Display(q, frame)) == newText
  {
    RenderSpells(Display(q, frame), newText);
  }

  /** Before the first cell of a schedule starts, the element still shows the
      old text exactly. */
  lemma UnstartedShowsOldText(q: seq<Cell>, oldText: string, newText: string, frame: nat)
    requires IsSchedule(q, oldText, newText)
    requires forall i :: 0 <= i < |q| ==> frame < q[i].start
    ensures Render(Display(q, frame)) == oldText
  {
    RenderSpells(Display(q, frame), oldText);
  }

  /** The loop of `update()`: every cell in its window (re)draws its symbol
      when it has none or the coin falls below the re-roll chance; the output
      gets each cell's display, and `complete` counts the settled cells. */
  method RenderCells(queue: seq<Cell>, frame: nat, draws: seq<FrameDraws>)
    returns (q: seq<Cell>, output: seq<Shown>, text: string, complete: nat)
    requires |draws| == |queue| && FrameDrawsOk(draws)
    ensures q == Advance(queue, frame, draws)
    ensures output == Display(q, frame) && text == Render(output)
    ensures complete == CountSettled(queue, frame)
  {
    q := queue;
    output := [];
    complete := 0;
    var n := |q|;
    for i := 0 to n
      invariant |q| == n
      invariant forall k :: 0 <= k < i ==> q[k] == RerollAt(queue, frame, draws, k)
      invariant forall k :: i <= k < n ==> q[k] == queue[k]
      invariant |output| == i
      invariant forall k :: 0 <= k < i ==> HasSymbol(q[k], frame) && output[k] == Show(q[k], frame)
      invariant complete == CountSettled(queue[..i], frame)
    {
      var c := q[i];
      if frame >= c.end {
        complete := complete + 1;
        output := output + [Settled(c.to)];
      } else if frame >= c.start {
        var ch := c.symbol;
        if ch.None? || draws[i].coin < RerollChance {
          ch := Some(Symbols[Pick(draws[i].pick, |Symbols|)]);
          q := q[i := c.(symbol := ch)];
        }
        output := output + [Dud(ch.value)];
      } else {
        output := output + [Waiting(c.from)];
      }
      assert queue[..i + 1][..i] == queue[..i];
    }
    assert queue[..n] == queue;
    assert q == Advance(queue, frame, draws);
    text := Render(output);
  }

  /** The loop of `setText()`: one cell per position of the longer text. */
  method BuildQueue(oldText: string, newText: string, cells: seq<CellDraws>) returns (q: seq<Cell>)
    requires |cells| == Max(|oldText|, |newText|) && CellDrawsOk(cells)
    ensures q == Schedule(oldText, newText, cells)
  {
    var length := Max(|oldText|, |newText|);
    q := [];
    for i := 0 to length
      invariant |q| == i
      invariant forall k :: 0 <= k < i ==> q[k] == NewCell(oldText, newText, k, cells[k])
    {
      var from := CharAt(oldText, i);
      var to := CharAt(newText, i);
      var start := Pick(cells[i].start, OffsetRange);
      var end := start + Pick(cells[i].length, OffsetRange);
      q := q + [Cell(from, to, start, end, None)];
    }
  }

  lemma AdvanceAt(q: seq<Cell>, frame: nat, draws: seq<FrameDraws>, i: nat)
    requires |draws| == |q| && FrameDrawsOk(draws) && i < |q|
    ensures Advance(q, frame, draws)[i] == Reroll(q[i], frame, draws[i])
  {
  }

  /** Re-rolling symbols keeps a schedule a schedule of the same two texts,
      with the same last end frame. */
  lemma AdvanceKeepsSchedule(q: seq<Cell>, frame: nat, draws: seq<FrameDraws>,
                             oldText: string, newText: string)
    requires |draws| == |q| && FrameDrawsOk(draws)
    requires IsSchedule(q, oldText, newText)
    ensures IsSchedule(Advance(q, frame, draws), oldText, newText)
    ensures MaxEnd(Advance(q, frame, draws)) == MaxEnd(q)
  {
    var r := Advance(q, frame, draws);
    forall i | 0 <= i < |r|
      ensures r[i].from == CharAt(oldText, i) && r[i].to == CharAt(newText, i) && Bounded(r[i])
      ensures r[i].end == q[i].end
    {
      AdvanceAt(q, frame, draws, i);
    }
    MaxEndOfEnds(q, r);
  }

  /** Re-rolling draws every new symbol from the alphabet. */
  lemma AdvanceFromSymbols(q: seq<Cell>, frame: nat, draws: seq<FrameDraws>)
    requires |draws| == |q| && FrameDrawsOk(draws)
    requires FromSymbols(q)
    ensures FromSymbols(Advance(q, frame, draws))
  {
    var r := Advance(q, frame, draws);
    forall i | 0 <= i < |r| && r[i].symbol.Some?
      ensures r[i].symbol.value in Symbols
    {
      AdvanceAt(q, frame, draws, i);
    }
  }

  /** What `update` needs to know about one step: re-rolling keeps the
      schedule and its last end frame, the completion test holds exactly
      from that frame on, and then the new text shows. */
  lemma UpdateStep(q: seq<Cell>, frame: nat, draws: seq<FrameDraws>,
                   oldText: string, newText: string)
    requires |draws| == |q| && FrameDrawsOk(draws)
    requires IsSchedule(q, oldText, newText)
    requires FromSymbols(q)
    ensures IsSchedule(Advance(q, frame, draws), oldText, newText)
    ensures MaxEnd(Advance(q, frame, draws)) == MaxEnd(q)
    ensures FromSymbols(Advance(q, frame, draws))
    ensures CountSettled(q, frame) == |q| <==> MaxEnd(q) <= frame
    ensures MaxEnd(q) <= frame ==> Render(Display(Advance(q, frame, draws), frame)) == newText
    ensures forall i :: 0 <= i < |q| && Display(Advance(q, frame, draws), frame)[i].Dud? ==>
              Display(Advance(q, frame, draws), frame)[i].symbol in Symbols
  {
    AdvanceKeepsSchedule(q, frame, draws, oldText, newText);
    AdvanceFromSymbols(q, frame, draws);
    CompleteCountIsFull(q, frame);
    SettledFromMaxEnd(q, frame);
    var r := Advance(q, frame, draws);
    DudsFromSymbols(r, frame);
    if MaxEnd(q) <= frame {
      SettledFromMaxEnd(r, frame);
      ResolvedShowsNewText(r, oldText, newText, frame);
    }
  }

  /** The animator's invariant over its field values. */
  ghost predicate Inv(queue: seq<Cell>, frame: nat, frameRequested: bool, resolveCalls: nat,
                      text: string, source: string, target: string) {
    && IsSchedule(queue, source, target)
    && FromSymbols(queue)
    && frame <= MaxEnd(queue)
    && resolveCalls <= 1
    && (frameRequested ==> resolveCalls == 0)
    && (resolveCalls == 1 ==> frame == MaxEnd(queue) && text == target)
  }

  class TextScramble {
    /** The element's `innerText`, which the next pass scrambles from. */
    var text: string
    /** The element's `innerHTML`, cell by cell, as the last update wrote it. */
    var shown: seq<Shown>
    var queue: seq<Cell>
    var frame: nat
    /** `frameRequest` names an animation frame that has not run yet. */
    var frameRequested: bool
    /** The old and new text of the current pass. */
    ghost var source: string
    ghost var target: string
    /** How often the current pass's promise has been resolved. */
    ghost var resolveCalls: nat

    ghost predicate Valid()
      reads this
    {
      Inv(queue, frame, frameRequested, resolveCalls, text, source, target)
    }

    /** A fresh animator over an element that shows `initialText`. */
    constructor (initialText: string)
      ensures Valid()
      ensures text == initialText && queue == [] && frame == 0
      ensures !frameRequested && resolveCalls == 0
    {
      text := initialText;
      shown := [];
      queue := [];
      frame := 0;
      frameRequested := false;
      source, target := "", "";
      resolveCalls := 0;
    }

    /** `update()`: render every cell, then resolve the pass if all cells have
        settled or else request the next frame and advance the counter.  The
        source calls it only from `setText`, after cancelling the pending frame,
        and as that frame's callback, both before the pass resolves. */
    method Update(draws: seq<FrameDraws>)
      requires Valid() && !frameRequested && resolveCalls == 0
      requires |draws| == |queue| && FrameDrawsOk(draws)
      modifies this
      ensures Valid()
      ensures source == old(source) && target == old(target)
      ensures queue == Advance(old(queue), old(frame), draws)
      ensures shown == Display(queue, old(frame)) && text == Render(shown)
      ensures forall i :: 0 <= i < |shown| && shown[i].Dud? ==> shown[i].symbol in Symbols
      ensures frameRequested == (old(frame) < MaxEnd(queue))
      ensures frame == if old(frame) < MaxEnd(queue) then old(frame) + 1 else old(frame)
      ensures resolveCalls == if old(frame) < MaxEnd(queue) then 0 else 1
    {
      var q, output, t, complete := RenderCells(queue, frame, draws);
      UpdateStep(queue, frame, draws, source, target);
      queue := q;
      shown := output;
      text := t;
      if complete == |q| {
        resolveCalls := resolveCalls + 1;
      } else {
        frameRequested := true;
        frame := frame + 1;
      }
    }

    /** `setText(newText)`: a new pass from the text the element shows now to
        `newText`.  The pending frame is cancelled, so the superseded pass never
        advances again, and the new pass gets its first update at frame 0. */
    method SetText(newText: string, cells: seq<CellDraws>, draws: seq<FrameDraws>)
      requires Valid()
      requires |cells| == Max(|text|, |newText|) && CellDrawsOk(cells)
      requires |draws| == |cells| && FrameDrawsOk(draws)
      modifies this
      ensures Valid()
      ensures source == old(text) && target == newText
      ensures queue == Advance(Schedule(old(text), newText, cells), 0, draws)
      ensures shown == Display(queue, 0) && text == Render(shown)
      ensures frameRequested == (0 < MaxEnd(queue))
      ensures frame == if 0 < MaxEnd(queue) then 1 else 0
      ensures resolveCalls == if 0 < MaxEnd(queue) then 0 else 1
    {
      var oldText := text;
      var q := BuildQueue(oldText, newText, cells);
      ScheduleFromSymbols(oldText, newText, cells);
      queue := q;
      resolveCalls := 0;
      source, target := oldText, newText;
      frameRequested := false;
      frame := 0;
      Update(draws);
    }

    /** The animation frame `update` requested runs. */
    method Frame(draws: seq<FrameDraws>)
      requires Valid() && frameRequested
      requires |draws| == |queue| && FrameDrawsOk(draws)
      modifies this
      ensures Valid()
      ensures source == old(source) && target == old(target)
      ensures queue == Advance(old(queue), old(frame), draws)
      ensures shown == Display(queue, old(frame)) && text == Render(shown)
      ensures frameRequested == (old(frame) < MaxEnd(queue))
      ensures frame == if old(frame) < MaxEnd(queue) then old(frame) + 1 else old(frame)
      ensures resolveCalls == if old(frame) < MaxEnd(queue) then 0 else 1
      ensures resolveCalls == 1 ==> text == target
    {
      frameRequested := false;
      Update(draws);
    }
  }
}
