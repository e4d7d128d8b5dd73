/**
 * The falling-glyph field of components/RainingLetters.tsx (component
 * `RainingLetters`): a field of glyphs built once, moved down every animation
 * frame and respawned at the top once they have left the screen, plus the
 * handful of glyphs highlighted by a 50 ms flicker.  Positions are percentages
 * of the screen, idealised as exact reals.
 */
module Glyphs {
  import opened Draws

  /** The 244 characters a glyph is drawn from. */
  const Alphabet: string := "わさび - 適量 海苔 - 適量 醤油 - 適量 作り方 シャリの準備 米をよく洗い、水に30分ほど浸す。 炊飯器で炊き、炊き上がったら10分ほど蒸らす。 米酢、砂糖、塩を混ぜ、炊きたてのご飯に加えて切るように混ぜる。濡れた布をかぶせ、冷ましておく。 ネタの準備 刺身用のマグロとサーモンを薄く切る。 寿司を握る手を濡らし、シャリを一口大に握る。わさびを少し乗せ、その上にネタをのせる。軽く押さえて形を整える。盛り付けお皿に並べ、醤油を添える。お好みでガリやわさびを添える。いただきます！"
  /** Number of columns across the screen. */
  const Columns: nat := 100
  /** Glyphs per column: `Math.ceil(300 / columns)`. */
  const PerColumn: int := Ceil(300.0 / Columns as real)

  datatype Glyph = Glyph(symbol: char, x: real, y: real, speed: real)

  /** The four draws made for a fresh glyph: its character, its horizontal
      jitter, its vertical jitter and its speed. */
  datatype SpawnDraws = SpawnDraws(symbol: real, x: real, y: real, speed: real)
  /** The two draws made when a glyph respawns: its position and its character. */
  datatype RespawnDraws = RespawnDraws(x: real, symbol: real)

  predicate SpawnOk(d: SpawnDraws) {
    Unit(d.symbol) && Unit(d.x) && Unit(d.y) && Unit(d.speed)
  }

  predicate RespawnOk(d: RespawnDraws) {
    Unit(d.x) && Unit(d.symbol)
  }

  lemma PerColumnIsThree()
    ensures PerColumn == 3
  {
    assert 300.0 / Columns as real == 3.0;
  }

  /** Where a glyph may be at any time: jittered at most one point left of the
      screen, at most 5 points above it, and less than one step below the
      bottom line, moving at a speed in [0.1, 0.4). */
  predicate WellPlaced(g: Glyph) {
    && g.symbol in Alphabet
    && 0.1 <= g.speed < 0.4
    && -1.0 <= g.x < 100.0
    && -5.0 <= g.y < 100.0 + g.speed
  }

  /** The glyph `createCharacters` pushes as number `i` of column `col`. */
  function Spawn(col: nat, i: nat, d: SpawnDraws): (g: Glyph)
    requires SpawnOk(d)
    ensures g.symbol in Alphabet
    ensures col as real - 1.0 <= g.x < col as real + 1.0
    ensures i as real * (100.0 / 3.0) <= g.y < i as real * (100.0 / 3.0) + 5.0
    ensures 0.1 <= g.speed < 0.4
  {
    PerColumnIsThree();
    var width := 100.0 / Columns as real;
    var height := 100.0 / PerColumn as real;
    assert width == 1.0 && height == 100.0 / 3.0;
    Glyph(Alphabet[Pick(d.symbol, |Alphabet|)],
          col as real * width + (d.x * 2.0 - 1.0),
          i as real * height + d.y * 5.0,
          0.1 + d.speed * 0.3)
  }

  /** The field `createCharacters` returns for the draws `draws`, one per
      glyph in the order they are made. */
  function Field(draws: seq<SpawnDraws>): (f: seq<Glyph>)
    requires |draws| == Columns * 3
    requires forall k :: 0 <= k < |draws| ==> SpawnOk(draws[k])
    ensures |f| == |draws|
  {
    seq(|draws|, k requires 0 <= k < |draws| => Spawn(k / 3, k % 3, draws[k]))
  }

  /** Glyph `i` of column `col` is number `col * 3 + i` of the field. */
  lemma ColumnMajor(col: nat, i: nat)
    requires i < 3
    ensures (col * 3 + i) / 3 == col && (col * 3 + i) % 3 == i
  {
  }

  /** `createCharacters`: column by column, the glyphs of each column from
      the top down. */
  method CreateCharacters(draws: seq<SpawnDraws>) returns (field: seq<Glyph>)
    requires |draws| == Columns * PerColumn
    requires forall k :: 0 <= k < |draws| ==> SpawnOk(draws[k])
    ensures |draws| == Columns * 3 && field == Field(draws)
  {
    PerColumnIsThree();
    field := [];
    for col := 0 to Columns
      invariant |field| == col * PerColumn
      invariant forall k :: 0 <= k < |field| ==> field[k] == Spawn(k / 3, k % 3, draws[k])
    {
      for i := 0 to PerColumn
        invariant |field| == col * PerColumn + i
        invariant forall k :: 0 <= k < |field| ==> field[k] == Spawn(k / 3, k % 3, draws[k])
      {
        ColumnMajor(col, i);
        var g := Spawn(col, i, draws[col * PerColumn + i]);
        field := field + [g];
      }
    }
  }

  /** Every glyph `createCharacters` makes is well placed. */
  lemma SpawnWellPlaced(col: nat, i: nat, d: SpawnDraws)
    requires col < Columns && i < 3 && SpawnOk(d)
    ensures WellPlaced(Spawn(col, i, d))
  {
    assert col as real <= 99.0;
    assert i as real * (100.0 / 3.0) <= 2.0 * (100.0 / 3.0);
  }

  /** A fresh field is well placed. */
  lemma {:induction false} FieldWellPlaced(draws: seq<SpawnDraws>)
    requires |draws| == Columns * 3
    requires forall k :: 0 <= k < |draws| ==> SpawnOk(draws[k])
    ensures forall k :: 0 <= k < |draws| ==> WellPlaced(Field(draws)[k])
  {
    forall k | 0 <= k < |draws|
      ensures WellPlaced(Field(draws)[k])
    {
      SpawnWellPlaced(k / 3, k % 3, draws[k]);
    }
  }

  /** One animation frame for one glyph: it falls by its speed, or, if it
      was already at or below the bottom line, comes back above the top at a
      new position with a new character. */
  function Fall(g: Glyph, d: RespawnDraws): (g': Glyph)
    requires RespawnOk(d)
    ensures g'.speed == g.speed
    ensures g.y < 100.0 ==> g'.y == g.y + g.speed && g'.x == g.x && g'.symbol == g.symbol
    ensures g.y >= 100.0 ==> g'.y == -5.0 && 0.0 <= g'.x < 100.0 && g'.symbol in Alphabet
  {
    if g.y >= 100.0 then
      g.(y := -5.0, x := d.x * 100.0, symbol := Alphabet[Pick(d.symbol, |Alphabet|)])
    else
      g.(y := g.y + g.speed)
  }

  /** A frame keeps a glyph well placed. */
  lemma FallKeepsPlaced(g: Glyph, d: RespawnDraws)
    requires RespawnOk(d) && WellPlaced(g)
    ensures WellPlaced(Fall(g, d))
  {
  }

  /** The glyph after one frame per draw. */
  function Frames(g: Glyph, draws: seq<RespawnDraws>): Glyph
    requires forall k :: 0 <= k < |draws| ==> RespawnOk(draws[k])
  {
    if draws == [] then g else Fall(Frames(g, draws[..|draws| - 1]), draws[|draws| - 1])
  }

  /** While a glyph stays above the bottom line it keeps its speed and
      falls by at least 0.1 per frame. */
  lemma {:induction false} SteadyFall(g: Glyph, draws: seq<RespawnDraws>)
    requires forall k :: 0 <= k < |draws| ==> RespawnOk(draws[k])
    requires g.speed >= 0.1
    requires forall k :: 0 <= k < |draws| ==> Frames(g, draws[..k]).y < 100.0
    ensures Frames(g, draws).speed == g.speed
    ensures Frames(g, draws).y >= g.y + 0.1 * |draws| as real
  {
    if draws != [] {
      var p := draws[..|draws| - 1];
      forall k | 0 <= k < |p|
        ensures Frames(g, p[..k]).y < 100.0
      {
        assert p[..k] == draws[..k];
      }
      SteadyFall(g, p);
      assert draws[..|p|] == p;
    }
  }

  /** Every well-placed glyph is back at the bottom line within 1050 frames:
      it starts at most 5 points above the top and falls by at least 0.1. */
  lemma RespawnWithin(g: Glyph, draws: seq<RespawnDraws>)
    requires WellPlaced(g)
    requires |draws| == 1051
    requires forall k :: 0 <= k < |draws| ==> RespawnOk(draws[k])
    ensures exists k :: 0 <= k < |draws| && Frames(g, draws[..k]).y >= 100.0
  {
    if forall k :: 0 <= k < |draws| ==> Frames(g, draws[..k]).y < 100.0 {
      var p := draws[..1050];
      forall k | 0 <= k < |p|
        ensures Frames(g, p[..k]).y < 100.0
      {
        assert p[..k] == draws[..k];
      }
      SteadyFall(g, p);
    }
  }

  /** The `updatePositions` frame: every glyph falls, in place. */
  function UpdatePositions(field: seq<Glyph>, draws: seq<RespawnDraws>): (f: seq<Glyph>)
    requires |draws| == |field|
    requires forall k :: 0 <= k < |draws| ==> RespawnOk(draws[k])
    ensures |f| == |field|
  {
    seq(|field|, k requires 0 <= k < |field| => Fall(field[k], draws[k]))
  }

  /** A frame keeps the field's length and every glyph's speed, moves every
      glyph above the bottom line down by its speed, respawns every other one,
      and keeps a well-placed field well placed. */
  lemma PositionsStep(field: seq<Glyph>, draws: seq<RespawnDraws>)
    requires |draws| == |field|
    requires forall k :: 0 <= k < |draws| ==> RespawnOk(draws[k])
    ensures |UpdatePositions(field, draws)| == |field|
    ensures forall k :: 0 <= k < |field| ==> UpdatePositions(field, draws)[k] == Fall(field[k], draws[k])
    ensures forall k :: 0 <= k < |field| && WellPlaced(field[k]) ==> WellPlaced(UpdatePositions(field, draws)[k])
  {
    forall k | 0 <= k < |field| && WellPlaced(field[k])
      ensures WellPlaced(UpdatePositions(field, draws)[k])
    {
      FallKeepsPlaced(field[k], draws[k]);
    }
  }

  /** The indices `updateActiveIndices` adds to its set, one per draw. */
  function Highlights(n: nat, picks: seq<real>): set<nat>
    requires forall k :: 0 <= k < |picks| ==> Unit(picks[k])
  {
    if picks == [] then {} else Highlights(n, picks[..|picks| - 1]) + {Pick(picks[|picks| - 1], n)}
  }

  /** The set holds at least one and at most one index per draw. */
  lemma {:induction false} HighlightsSize(n: nat, picks: seq<real>)
    requires forall k :: 0 <= k < |picks| ==> Unit(picks[k])
    ensures |Highlights(n, picks)| <= |picks|
    ensures picks != [] ==> |Highlights(n, picks)| >= 1
  {
    if picks != [] {
      HighlightsSize(n, picks[..|picks| - 1]);
    }
  }

  /** The set holds exactly the drawn indices, each below `n` (or 0 when the
      field is empty). */
  lemma {:induction false} HighlightsMembers(n: nat, picks: seq<real>)
    requires forall k :: 0 <= k < |picks| ==> Unit(picks[k])
    ensures forall k :: 0 <= k < |picks| ==> Pick(picks[k], n) in Highlights(n, picks)
    ensures forall i :: i in Highlights(n, picks) ==> exists k :: 0 <= k < |picks| && Pick(picks[k], n) == i
    ensures forall i :: i in Highlights(n, picks) ==> if n > 0 then i < n else i == 0
  {
    if picks != [] {
      var p := picks[..|picks| - 1];
      HighlightsMembers(n, p);
      assert forall k :: 0 <= k < |p| ==> p[k] == picks[k];
    }
  }

  /** The number of draws `updateActiveIndices` makes: 3, 4 or 5. */
  function ActiveCount(r: real): (c: nat)
    requires Unit(r)
    ensures 3 <= c <= 5
  {
    Pick(r, 3) + 3
  }

  /** `updateActiveIndices`: a fresh set of highlighted indices for a field of
      `n` glyphs, one draw per loop round. */
  method UpdateActiveIndices(n: nat, count: real, picks: seq<real>) returns (active: set<nat>)
    requires Unit(count) && |picks| == ActiveCount(count)
    requires forall k :: 0 <= k < |picks| ==> Unit(picks[k])
    ensures active == Highlights(n, picks)
    ensures 1 <= |active| <= 5
    ensures forall i :: i in active ==> if n > 0 then i < n else i == 0
  {
    active := {};
    for i := 0 to |picks|
      invariant active == Highlights(n, picks[..i])
    {
      assert picks[..i + 1][..i] == picks[..i];
      active := active + {Pick(picks[i], n)};
    }
    assert picks[..|picks|] == picks;
    HighlightsSize(n, picks);
    HighlightsMembers(n, picks);
  }

  /** The state of the `RainingLetters` component: its glyphs and its
      highlighted indices.  While it is mounted, its flicker interval and its
      animation frame are pending; unmounting clears both. */
  class RainField {
    var characters: seq<Glyph>
    var active: set<nat>
    var mounted: bool

    ghost predicate Valid()
      reads this
    {
      && (|characters| == 0 || |characters| == Columns * 3)
      && (forall k :: 0 <= k < |characters| ==> WellPlaced(characters[k]))
      && |active| <= 5
      && forall i :: i in active ==> i < Max(|characters|, 1)
    }

    /** Mounting: the first render has no glyphs and nothing highlighted,
        and the effects start the flicker interval and the animation frame. */
    constructor ()
      ensures Valid() && mounted && characters == [] && active == {}
    {
      characters := [];
      active := {};
      mounted := true;
    }

    /** The mount effect: `setCharacters(createCharacters())`. */
    method Populate(draws: seq<SpawnDraws>)
      requires Valid() && mounted
      requires |draws| == Columns * PerColumn
      requires forall k :: 0 <= k < |draws| ==> SpawnOk(draws[k])
      modifies this
      ensures Valid() && mounted
      ensures characters == Field(draws) && active == old(active)
    {
      var field := CreateCharacters(draws);
      FieldWellPlaced(draws);
      characters := field;
    }

    /** The 50 ms flicker interval fires. */
    method Flicker(count: real, picks: seq<real>)
      requires Valid() && mounted
      requires Unit(count) && |picks| == ActiveCount(count)
      requires forall k :: 0 <= k < |picks| ==> Unit(picks[k])
      modifies this
      ensures Valid() && mounted
      ensures active == Highlights(|characters|, picks) && characters == old(characters)
    {
      active := UpdateActiveIndices(|characters|, count, picks);
    }

    /** An animation frame runs `updatePositions`. */
    method Tick(draws: seq<RespawnDraws>)
      requires Valid() && mounted
      requires |draws| == |characters|
      requires forall k :: 0 <= k < |draws| ==> RespawnOk(draws[k])
      modifies this
      ensures Valid() && mounted
      ensures characters == UpdatePositions(old(characters), draws) && active == old(active)
    {
      PositionsStep(characters, draws);
      characters := UpdatePositions(characters, draws);
    }

    /** Unmounting: the cleanups clear the flicker interval and cancel the
        pending animation frame, so neither `Flicker` nor `Tick` runs again. */
    method Unmount()
      requires Valid() && mounted
      modifies this
      ensures Valid() && !mounted
      ensures characters == old(characters) && active == old(active)
    {
      mounted := false;
    }
  }
}
