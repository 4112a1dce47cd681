/** LDS layout of one FP8 K tile: the head dimension is cut into bands of at most 128
    columns; in a band each wave owns one padded line that holds every `waves`-th row. */
module KBands {
  import opened Arith

  const BLOCK_N: nat := 64
  const WARP: nat := 64
  const VEC: nat := 16

  datatype Band = Band(chunk: nat, base: nat, stride: nat, globalD: nat)

  /** `waves` divides the 64 rows of a tile; a line holds `rows` of them. */
  predicate WavesOk(waves: nat, rows: nat) {
    waves > 0 && rows > 0 && waves * rows == BLOCK_N
  }

  predicate BandOk(b: Band, rows: nat) {
    (b.chunk == 64 || b.chunk == 128) && b.stride == rows * b.chunk + VEC && b.globalD % 64 == 0
  }

  /** Bands follow each other without gap or overlap, in the tile's columns and in LDS. */
  predicate Tiled(bands: seq<Band>, waves: nat, rows: nat, columns: nat, elems: nat) {
    && (forall i :: 0 <= i < |bands| ==> BandOk(bands[i], rows))
    && (forall i :: 0 <= i < |bands| - 1 ==> End(bands[i]) == bands[i + 1].globalD && LdsEnd(bands[i], waves) == bands[i + 1].base)
    && (if bands == [] then columns == 0 && elems == 0
        else bands[0].globalD == 0 && bands[0].base == 0 && End(bands[|bands| - 1]) == columns && LdsEnd(bands[|bands| - 1], waves) == elems)
  }

  function End(b: Band): nat { b.globalD + b.chunk }
  function LdsEnd(b: Band, waves: nat): nat { b.base + waves * b.stride }

  /** Entry `ws` of the two tables locates columns 64*ws .. 64*ws+63. */
  predicate Located(bands: seq<Band>, wsBand: seq<nat>, wsOff: seq<nat>) {
    && |wsBand| == |wsOff|
    && forall ws :: 0 <= ws < |wsBand| ==> LocatedAt(bands, wsBand[ws], wsOff[ws], ws)
  }

  predicate LocatedAt(bands: seq<Band>, b: nat, off: nat, ws: nat) {
    b < |bands| && bands[b].globalD + off == 64 * ws && off + 64 <= bands[b].chunk
  }

  /** All bands are 128 columns wide, except for a last one of 64 if the columns are an odd number of strips. */
  predicate Widths(bands: seq<Band>, columns: nat) {
    forall i :: 0 <= i < |bands| ==> bands[i].chunk == if i == |bands| - 1 && columns % 128 != 0 then 64 else 128
  }

  method BuildBands(headDim: nat, waves: nat) returns (bands: seq<Band>, elems: nat)
    requires headDim % 64 == 0 && waves > 0 && BLOCK_N % waves == 0
    ensures Tiled(bands, waves, BLOCK_N / waves, headDim, elems)
    ensures Widths(bands, headDim)
  {
    hide Widths, Tiled, LdsEnd, BandOk;
    var rows := (BLOCK_N + waves - 1) / waves;
    CeilOfDivisor(waves);
    var off, cursor := 0, 0;
    bands := [];
    NoBands(waves, rows);
    NoWidths();
    while off < headDim
      invariant 0 <= off <= headDim && off % 64 == 0 && 0 <= cursor
      invariant Tiled(bands, waves, rows, off, cursor)
      invariant off < headDim ==> off % 128 == 0
      invariant Widths(bands, off)
    {
      var chunk := if headDim - off >= 128 then 128 else headDim - off;
      var stride := rows * chunk + VEC;
      var band := Band(chunk, cursor, stride, off);
      NextBandOk(band, rows);
      AppendBand(bands, band, waves, rows, off, cursor);
      AppendWidth(bands, band, off);
      cursor := LdsEnd(band, waves);
      bands := bands + [band];
      off := off + chunk;
    }
    elems := cursor;
  }

  lemma NoWidths()
    ensures Widths([], 0)
  {
  }

  lemma AppendWidth(bands: seq<Band>, b: Band, columns: nat)
    requires Widths(bands, columns) && columns % 128 == 0 && (b.chunk == 64 || b.chunk == 128)
    ensures Widths(bands + [b], columns + b.chunk)
  {
  }

  lemma NextBandOk(b: Band, rows: nat)
    requires (b.chunk == 64 || b.chunk == 128) && b.stride == rows * b.chunk + VEC && b.globalD % 64 == 0
    ensures BandOk(b, rows)
  {
  }

  lemma NoBands(waves: nat, rows: nat)
    ensures Tiled([], waves, rows, 0, 0)
  {
  }

  lemma AppendBand(bands: seq<Band>, b: Band, waves: nat, rows: nat, columns: nat, elems: nat)
    requires Tiled(bands, waves, rows, columns, elems) && BandOk(b, rows) && b.base == elems && b.globalD == columns
    ensures Tiled(bands + [b], waves, rows, End(b), LdsEnd(b, waves))
  {
    hide BandOk, LdsEnd;
  }

  method LocateStrips(bands: seq<Band>, waves: nat, rows: nat, columns: nat, elems: nat)
      returns (wsBand: seq<nat>, wsOff: seq<nat>)
    requires Tiled(bands, waves, rows, columns, elems)
    ensures Located(bands, wsBand, wsOff) && 64 * |wsBand| == columns
  {
    wsBand, wsOff := [], [];
    for bi := 0 to |bands|
      invariant Located(bands, wsBand, wsOff)
      invariant 64 * |wsBand| == if bi < |bands| then bands[bi].globalD else columns
    {
      var o := 0;
      while o < bands[bi].chunk
        invariant 0 <= o <= bands[bi].chunk && o % 64 == 0
        invariant Located(bands, wsBand, wsOff) && 64 * |wsBand| == bands[bi].globalD + o
      {
        assert LocatedAt(bands, bi, o, |wsBand|);
        wsBand, wsOff := wsBand + [bi], wsOff + [o];
        o := o + 64;
      }
    }
  }

  lemma CeilOfDivisor(waves: nat)
    requires waves > 0 && BLOCK_N % waves == 0
    ensures (BLOCK_N + waves - 1) / waves == BLOCK_N / waves
  {
    DivIs(BLOCK_N + waves - 1, waves, BLOCK_N / waves, waves - 1);
  }

  // ------------------------------------------------------------------ address maps

  /** One 16-element write of the DMA: where lane `lane` of pass `pas` of wave `w` stores, and
      which row and columns of the tile it fetched. */
  datatype Write = Write(lds: nat, row: nat, col: nat)

  function LanesPerRow(b: Band): nat { b.chunk / VEC }

  /** Where the line of wave `w` starts. */
  function Line(b: Band, w: nat): nat { b.base + w * b.stride }

  predicate Active(b: Band, rows: nat, pas: nat, lane: nat) {
    b.chunk >= VEC && lane < WARP && pas * WARP + lane < rows * LanesPerRow(b)
  }

  /** Whether the wave issues this pass. */
  predicate Issued(b: Band, rows: nat, pas: nat) {
    b.chunk >= VEC && pas * WARP < rows * LanesPerRow(b)
  }

  function Dma(b: Band, waves: nat, w: nat, pas: nat, lane: nat): Write
    requires b.chunk >= VEC
  {
    var slot := lane + pas * WARP;
    Write(Line(b, w) + pas * WARP * VEC + lane * VEC,
          (slot / LanesPerRow(b)) * waves + w,
          (slot % LanesPerRow(b)) * VEC + b.globalD)
  }

  /** MAIN. All lanes of all issued passes of a band are active, so that nothing depends on what a switched-off
      lane does, exactly when the band's rows fill whole passes. */
  lemma PassesAreFull(b: Band, rows: nat)
    requires BandOk(b, rows)
    ensures (forall pas, lane: nat :: Issued(b, rows, pas) && lane < WARP ==> Active(b, rows, pas, lane)) <==> (rows * LanesPerRow(b)) % WARP == 0
  {
    var slots := rows * LanesPerRow(b);
    if slots % WARP != 0 {
      var pas, lane: nat := slots / WARP, slots % WARP;
      assert Issued(b, rows, pas) && !Active(b, rows, pas, lane);
    }
  }

  /** Four waves always have full passes; eight waves have them in the 128-column bands only. */
  lemma FullBands(b: Band, waves: nat, rows: nat)
    requires BandOk(b, rows) && WavesOk(waves, rows) && (waves == 4 || waves == 8)
    ensures (rows * LanesPerRow(b)) % WARP == 0 <==> waves == 4 || b.chunk == 128
  {
    assert waves == 4 ==> rows == 16;
    assert waves == 8 ==> rows == 8;
  }

  /** Where a switched-off lane of an issued pass would store, if it did: past the rows of its wave's line. */
  lemma InactiveLeavesRows(b: Band, waves: nat, rows: nat, w: nat, pas: nat, lane: nat)
    requires BandOk(b, rows) && Issued(b, rows, pas) && lane < WARP && !Active(b, rows, pas, lane)
    ensures Dma(b, waves, w, pas, lane).lds >= Line(b, w) + rows * b.chunk
  {
    assert rows * b.chunk == rows * LanesPerRow(b) * VEC;
  }

  /** Every DMA write of a tile has put its 16 elements where it stores. */
  ghost predicate Filled(lds: nat -> int, k: (nat, nat) -> int, bands: seq<Band>, waves: nat, rows: nat) {
    forall i, w: nat, pas: nat, lane: nat ::
      0 <= i < |bands| && w < waves && Active(bands[i], rows, pas, lane) ==> Stored(lds, k, Dma(bands[i], waves, w, pas, lane))
  }

  ghost predicate Stored(lds: nat -> int, k: (nat, nat) -> int, d: Write) {
    forall a: nat :: d.lds <= a < d.lds + VEC ==> lds(a) == k(d.row, d.col + (a - d.lds))
  }

  /** Where a strip read finds row `key` of columns 64*ws ... */
  function StripAddr(bands: seq<Band>, wsBand: seq<nat>, wsOff: seq<nat>, waves: nat, key: nat, ws: nat): nat
    requires waves > 0 && Located(bands, wsBand, wsOff) && ws < |wsBand|
  {
    var b := bands[wsBand[ws]];
    Line(b, key % waves) + (key / waves) * b.chunk + wsOff[ws]
  }

  /** The pass, lane and byte that brought element `off + e` of row `key` of a band. */
  lemma SlotOf(b: Band, waves: nat, rows: nat, key: nat, x: nat) returns (pas: nat, lane: nat)
    requires WavesOk(waves, rows) && BandOk(b, rows) && key < BLOCK_N && x < b.chunk
    ensures Active(b, rows, pas, lane)
    ensures var d := Dma(b, waves, key % waves, pas, lane);
      && d.row == key && d.col + x % VEC == b.globalD + x
      && d.lds + x % VEC == Line(b, key % waves) + (key / waves) * b.chunk + x
  {
    hide Line, Active, BandOk, LanesPerRow, Dma;
    RowBelow(key, waves, rows);
    pas, lane := SlotIn(b, rows, key / waves, x);
    DmaOf(b, waves, key % waves, key / waves, x, pas, lane);
  }

  lemma RowBelow(key: nat, waves: nat, rows: nat)
    requires WavesOk(waves, rows) && key < BLOCK_N
    ensures key / waves < rows && key / waves * waves + key % waves == key
  {
    assert rows * waves == BLOCK_N;
    DivBelow(key, waves, rows);
  }

  lemma DmaOf(b: Band, waves: nat, w: nat, r: nat, x: nat, pas: nat, lane: nat)
    requires b.chunk >= VEC
    requires var slot := lane + pas * WARP;
      && slot / LanesPerRow(b) == r && slot % LanesPerRow(b) == x / VEC && slot * VEC == r * b.chunk + x / VEC * VEC
    ensures var d := Dma(b, waves, w, pas, lane);
      && d.row == r * waves + w && d.col + x % VEC == b.globalD + x && d.lds + x % VEC == Line(b, w) + r * b.chunk + x
  {
    hide Line, LanesPerRow;
  }

  /** The same for row `r` of a line. */
  lemma SlotIn(b: Band, rows: nat, r: nat, x: nat) returns (pas: nat, lane: nat)
    requires BandOk(b, rows) && r < rows && x < b.chunk
    ensures Active(b, rows, pas, lane)
    ensures var slot := lane + pas * WARP;
      && slot / LanesPerRow(b) == r && slot % LanesPerRow(b) == x / VEC && slot * VEC == r * b.chunk + x / VEC * VEC
  {
    var slot := if b.chunk == 64 then r * 4 + x / VEC else r * 8 + x / VEC;
    pas, lane := slot / WARP, slot % WARP;
  }

  lemma BandIsOk(bands: seq<Band>, waves: nat, rows: nat, columns: nat, elems: nat, i: nat)
    requires Tiled(bands, waves, rows, columns, elems) && i < |bands|
    ensures BandOk(bands[i], rows)
  {
  }

  /** MAIN. A strip read of (key, ws) returns elements 64*ws .. 64*ws+63 of row `key`. */
  lemma StripReadsRow(lds: nat -> int, k: (nat, nat) -> int, bands: seq<Band>, wsBand: seq<nat>, wsOff: seq<nat>,
                      waves: nat, rows: nat, columns: nat, elems: nat, key: nat, ws: nat, e: nat)
    requires WavesOk(waves, rows) && Tiled(bands, waves, rows, columns, elems) && Located(bands, wsBand, wsOff)
    requires Filled(lds, k, bands, waves, rows) && key < BLOCK_N && ws < |wsBand| && e < 64
    ensures lds(StripAddr(bands, wsBand, wsOff, waves, key, ws) + e) == k(key, 64 * ws + e)
  {
    hide Line, Tiled;
    assert BandOk(bands[wsBand[ws]], rows) by {
      BandIsOk(bands, waves, rows, columns, elems, wsBand[ws]);
    }
    assert LocatedAt(bands, wsBand[ws], wsOff[ws], ws);
    var i := wsBand[ws];
    var x := wsOff[ws] + e;
    var pas, lane := SlotOf(bands[i], waves, rows, key, x);
    var d := Dma(bands[i], waves, key % waves, pas, lane);
    assert Stored(lds, k, d);
    assert lds(d.lds + x % VEC) == k(d.row, d.col + x % VEC);
  }

  // -------------------------------------------------------------- nothing overlaps

  lemma {:induction false} LaterBand(bands: seq<Band>, waves: nat, rows: nat, columns: nat, elems: nat, i: nat, j: nat)
    requires Tiled(bands, waves, rows, columns, elems) && i < j < |bands|
    ensures LdsEnd(bands[i], waves) <= bands[j].base && End(bands[i]) <= bands[j].globalD
    decreases j
  {
    if i + 1 < j {
      LaterBand(bands, waves, rows, columns, elems, i, j - 1);
      assert waves * bands[j - 1].stride >= 0;
    }
  }

  /** An element a DMA lane stores lies in its wave's line, before the padding. */
  lemma InLine(b: Band, waves: nat, rows: nat, w: nat, pas: nat, lane: nat, e: nat)
    requires WavesOk(waves, rows) && BandOk(b, rows) && w < waves && Active(b, rows, pas, lane) && e < VEC
    ensures var d := Dma(b, waves, w, pas, lane);
      && Line(b, w) <= d.lds + e < Line(b, w) + rows * b.chunk
      && b.base <= Line(b, w) && Line(b, w) + b.stride <= LdsEnd(b, waves)
      && d.row < BLOCK_N && b.globalD <= d.col + e < End(b)
  {
    hide Line;
    LineFits(b, waves, w);
    RowInLine(b, rows, pas, lane);
    var slot := lane + pas * WARP;
    MulLe(slot / LanesPerRow(b), rows - 1, waves);
    assert (rows - 1) * waves == rows * waves - waves;
  }

  lemma RowInLine(b: Band, rows: nat, pas: nat, lane: nat)
    requires BandOk(b, rows) && Active(b, rows, pas, lane)
    ensures var slot := lane + pas * WARP;
      slot / LanesPerRow(b) < rows && (slot + 1) * VEC <= rows * b.chunk
  {
    assert b.chunk == 64 || b.chunk == 128;
  }

  lemma LineFits(b: Band, waves: nat, w: nat)
    requires w < waves
    ensures b.base <= Line(b, w) && Line(b, w) + b.stride <= LdsEnd(b, waves)
  {
    MulLe(w + 1, waves, b.stride);
  }

  /** MAIN. Two stores that hit the same LDS element come from the same wave, band, pass, lane
      and byte, and all of them stay inside the tile's slot. */
  lemma WritesDisjoint(bands: seq<Band>, waves: nat, rows: nat, columns: nat, elems: nat,
                       i: nat, w: nat, pas: nat, lane: nat, e: nat, i': nat, w': nat, pas': nat, lane': nat, e': nat)
    requires WavesOk(waves, rows) && Tiled(bands, waves, rows, columns, elems)
    requires i < |bands| && w < waves && Active(bands[i], rows, pas, lane) && e < VEC
    requires i' < |bands| && w' < waves && Active(bands[i'], rows, pas', lane') && e' < VEC
    requires Dma(bands[i], waves, w, pas, lane).lds + e == Dma(bands[i'], waves, w', pas', lane').lds + e'
    ensures i == i' && w == w' && pas == pas' && lane == lane' && e == e'
    ensures Dma(bands[i], waves, w, pas, lane).lds + e < elems
  {
    hide Line, Dma, LdsEnd, LanesPerRow;
    var b, b' := bands[i], bands[i'];
    InLine(b, waves, rows, w, pas, lane, e);
    InLine(b', waves, rows, w', pas', lane', e');
    if i < i' {
      LaterBand(bands, waves, rows, columns, elems, i, i');
    } else if i' < i {
      LaterBand(bands, waves, rows, columns, elems, i', i);
    } else if w < w' {
      LinesApart(b, w, w');
    } else if w' < w {
      LinesApart(b, w', w);
    } else {
      SameStore(b, waves, w, pas, lane, e, pas', lane', e');
    }
    if i < |bands| - 1 {
      LaterBand(bands, waves, rows, columns, elems, i, |bands| - 1);
      BaseBelowEnd(bands[|bands| - 1], waves);
    }
  }

  lemma BaseBelowEnd(b: Band, waves: nat)
    ensures b.base <= LdsEnd(b, waves)
  {
  }

  lemma SameStore(b: Band, waves: nat, w: nat, pas: nat, lane: nat, e: nat, pas': nat, lane': nat, e': nat)
    requires b.chunk >= VEC && lane < WARP && lane' < WARP && e < VEC && e' < VEC
    requires Dma(b, waves, w, pas, lane).lds + e == Dma(b, waves, w, pas', lane').lds + e'
    ensures pas == pas' && lane == lane' && e == e'
  {
    hide Line;
  }

  lemma LinesApart(b: Band, w: nat, w': nat)
    requires w < w'
    ensures Line(b, w) + b.stride <= Line(b, w')
  {
    MulLe(w + 1, w', b.stride);
  }
}
