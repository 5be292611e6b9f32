/** The spatial hash of the simulator: a map from integer cell coordinates to
    the set of particles filed under that cell.  The string keys
    `"cellX,cellY"` of the original are modelled as integer pairs. */
module SpatialGrid {
  import opened Particles
  import opened Options

  type Key = (int, int)

  /** `Math.ceil` on reals. */
  function Ceil(v: real): (c: int)
    ensures (c - 1) as real < v <= c as real
  {
    -((-v).Floor)
  }

  /** The cell index of coordinate `v` along one axis: the `k` with
      `k * cellSize <= v < (k + 1) * cellSize`. */
  function CellIndex(v: real, cellSize: real): (k: int)
    requires cellSize > 0.0
    ensures k as real * cellSize <= v < (k + 1) as real * cellSize
  {
    var q := v / cellSize;
    var f := q.Floor;
    assert f as real <= q < (f + 1) as real;
    assert q * cellSize == v;
    BelowTimes(f as real, q, cellSize);
    BelowTimes(q, (f + 1) as real, cellSize);
    assert f as real * cellSize <= v < (f + 1) as real * cellSize;
    f
  }

  lemma BelowTimes(a: real, b: real, c: real)
    requires c > 0.0
    ensures a <= b ==> a * c <= b * c
    ensures a < b ==> a * c < b * c
  {
  }

  /** Two coordinates in the same `cellSize`-aligned interval have the same
      cell index, and different intervals give different indices. */
  lemma {:induction false} SameIntervalSameIndex(v: real, w: real, k: int, cellSize: real)
    requires cellSize > 0.0
    requires k as real * cellSize <= v < (k + 1) as real * cellSize
    requires k as real * cellSize <= w < (k + 1) as real * cellSize
    ensures CellIndex(v, cellSize) == k == CellIndex(w, cellSize)
  {
    IndexUnique(v, k, cellSize);
    IndexUnique(w, k, cellSize);
  }

  lemma IndexUnique(v: real, k: int, cellSize: real)
    requires cellSize > 0.0
    requires k as real * cellSize <= v < (k + 1) as real * cellSize
    ensures CellIndex(v, cellSize) == k
  {
    var c := CellIndex(v, cellSize);
    assert c as real * cellSize <= v < (c + 1) as real * cellSize;
    if c < k {
      assert (c + 1) as real <= k as real;
      BelowTimes((c + 1) as real, k as real, cellSize);
      assert false;
    } else if c > k {
      assert (k + 1) as real <= c as real;
      BelowTimes((k + 1) as real, c as real, cellSize);
      assert false;
    }
  }

  /** The cells whose coordinates are each within `r` of `(cx, cy)`. */
  predicate Near(k: Key, cx: int, cy: int, r: int)
  {
    cx - r <= k.0 <= cx + r && cy - r <= k.1 <= cy + r
  }

  /** Every particle filed under a cell of the `(2r + 1) x (2r + 1)` square
      around `(cx, cy)`. */
  function Neighbourhood(cells: map<Key, set<Particle>>, cx: int, cy: int, r: int): set<Particle>
  {
    set k, p | k in cells && p in cells[k] && Near(k, cx, cy, r) :: p
  }

  /** The cells that have `p` filed under `key` added. */
  function Inserted(cells: map<Key, set<Particle>>, key: Key, p: Particle): (r: map<Key, set<Particle>>)
    ensures key in r && p in r[key]
    ensures forall k :: k in cells ==> k in r && cells[k] <= r[k]
    ensures forall k :: k != key ==> (k in r <==> k in cells)
    ensures forall k :: k != key && k in cells ==> r[k] == cells[k]
    ensures r[key] - {p} <= (if key in cells then cells[key] else {})
  {
    cells[key := (if key in cells then cells[key] else {}) + {p}]
  }

  /** Filing a particle under a cell a second time changes nothing. */
  lemma InsertTwice(cells: map<Key, set<Particle>>, key: Key, p: Particle)
    ensures Inserted(Inserted(cells, key, p), key, p) == Inserted(cells, key, p)
  {
    var once := Inserted(cells, key, p);
    assert once[key] + {p} == once[key];
  }

  /** A particle filed under cell `key` is in the neighbourhood of radius
      `r >= 0` around that cell. */
  lemma {:induction false} InsertedIsNearby(cells: map<Key, set<Particle>>, key: Key, p: Particle, r: int)
    requires r >= 0
    ensures p in Neighbourhood(Inserted(cells, key, p), key.0, key.1, r)
  {
    var after := Inserted(cells, key, p);
    assert key in after && p in after[key] && Near(key, key.0, key.1, r);
  }

  /** A neighbourhood only grows when a particle is filed. */
  lemma NeighbourhoodGrows(cells: map<Key, set<Particle>>, key: Key, p: Particle, cx: int, cy: int, r: int)
    ensures Neighbourhood(cells, cx, cy, r) <= Neighbourhood(Inserted(cells, key, p), cx, cy, r)
  {
    var after := Inserted(cells, key, p);
    forall q | q in Neighbourhood(cells, cx, cy, r)
      ensures q in Neighbourhood(after, cx, cy, r)
    {
      var k :| k in cells && q in cells[k] && Near(k, cx, cy, r);
      assert k in after && q in after[k];
    }
  }

  /** A cleared grid finds nothing, whatever the query. */
  lemma ClearedFindsNothing(cx: int, cy: int, r: int)
    ensures Neighbourhood(map[], cx, cy, r) == {}
  {
  }

  /** The search radius in cells for a query radius. */
  function SearchRadius(radius: real, cellSize: real): (r: int)
    requires cellSize > 0.0
    ensures radius >= 0.0 ==> r >= 0
    ensures radius <= 0.0 ==> r <= 0
  {
    var q := radius / cellSize;
    assert radius >= 0.0 ==> q >= 0.0;
    assert radius <= 0.0 ==> q <= 0.0;
    Ceil(q)
  }

  /** The default query radius, one cell, searches the 3 x 3 block around the
      query cell. */
  lemma DefaultRadiusIsOneCell(cellSize: real)
    requires cellSize > 0.0
    ensures SearchRadius(cellSize, cellSize) == 1
  {
    assert cellSize / cellSize == 1.0;
  }

  class Grid {
    var size: real
    var cellSize: real
    var cells: map<Key, set<Particle>>

    predicate Valid()
      reads this
    {
      cellSize > 0.0
    }

    constructor (size: real, cellSize: real)
      requires cellSize > 0.0
      ensures Valid()
      ensures this.size == size && this.cellSize == cellSize && cells == map[]
    {
      this.size := size;
      this.cellSize := cellSize;
      cells := map[];
    }

    /** The cell of a position. */
    function GetCellKey(x: real, y: real): (key: Key)
      requires Valid()
      reads this
      ensures key.0 as real * cellSize <= x < (key.0 + 1) as real * cellSize
      ensures key.1 as real * cellSize <= y < (key.1 + 1) as real * cellSize
    {
      (CellIndex(x, cellSize), CellIndex(y, cellSize))
    }

    /** Files `p` under the cell of its current position, creating the cell
        when it is missing. */
    method AddParticle(p: Particle)
      requires Valid()
      modifies this`cells
      ensures cells == Inserted(old(cells), GetCellKey(p.x, p.y), p)
    {
      var key := GetCellKey(p.x, p.y);
      if key !in cells {
        cells := cells[key := {}];
      }
      cells := cells[key := cells[key] + {p}];
    }

    method Clear()
      modifies this`cells
      ensures cells == map[]
    {
      cells := map[];
    }

    /** Every particle in the square of cells within the search radius of
        the cell of `(x, y)`; the radius defaults to one cell. */
    method GetNearbyParticles(x: real, y: real, radius: Option<real>) returns (nearby: set<Particle>)
      requires Valid()
      ensures var key := GetCellKey(x, y);
        var r := if radius.Some? then radius.value else cellSize;
        nearby == Neighbourhood(cells, key.0, key.1, SearchRadius(r, cellSize))
    {
      var r := if radius.Some? then radius.value else cellSize;
      nearby := {};
      var cellX := CellIndex(x, cellSize);
      var cellY := CellIndex(y, cellSize);
      var searchRadius := SearchRadius(r, cellSize);
      var i := -searchRadius;
      while i <= searchRadius
        invariant searchRadius >= 0 ==> -searchRadius <= i <= searchRadius + 1
        invariant searchRadius < 0 ==> i == -searchRadius
        invariant nearby == Scanned(cells, cellX, cellY, searchRadius, i, -searchRadius)
      {
        var j := -searchRadius;
        while j <= searchRadius
          invariant -searchRadius <= j <= searchRadius + 1
          invariant nearby == Scanned(cells, cellX, cellY, searchRadius, i, j)
        {
          var key := (cellX + i, cellY + j);
          if key in cells {
            nearby := nearby + cells[key];
          }
          ScanOne(cells, cellX, cellY, searchRadius, i, j);
          j := j + 1;
        }
        ScanRow(cells, cellX, cellY, searchRadius, i);
        i := i + 1;
      }
      ScanDone(cells, cellX, cellY, searchRadius, i);
    }
  }

  /** The cells of the search square visited before cell `(cx + i, cy + j)`
      in the row-by-row order of the query. */
  predicate Before(k: Key, cx: int, cy: int, r: int, i: int, j: int)
  {
    && cx - r <= k.0 && cy - r <= k.1 <= cy + r
    && (k.0 < cx + i || (k.0 == cx + i && k.1 < cy + j))
  }

  function Scanned(cells: map<Key, set<Particle>>, cx: int, cy: int, r: int, i: int, j: int): set<Particle>
  {
    set k, p | k in cells && p in cells[k] && Before(k, cx, cy, r, i, j) :: p
  }

  lemma ScanOne(cells: map<Key, set<Particle>>, cx: int, cy: int, r: int, i: int, j: int)
    requires -r <= i && -r <= j <= r
    ensures Scanned(cells, cx, cy, r, i, j + 1)
         == Scanned(cells, cx, cy, r, i, j) + (if (cx + i, cy + j) in cells then cells[(cx + i, cy + j)] else {})
  {
    var key := (cx + i, cy + j);
    var lhs := Scanned(cells, cx, cy, r, i, j + 1);
    var rhs := Scanned(cells, cx, cy, r, i, j) + (if key in cells then cells[key] else {});
    forall p | p in lhs
      ensures p in rhs
    {
      var k :| k in cells && p in cells[k] && Before(k, cx, cy, r, i, j + 1);
      if k != key {
        assert Before(k, cx, cy, r, i, j);
      }
    }
    forall p | p in rhs
      ensures p in lhs
    {
      if p !in Scanned(cells, cx, cy, r, i, j) {
        assert key in cells && p in cells[key] && Before(key, cx, cy, r, i, j + 1);
      }
    }
  }

  /** Finishing row `i` is starting row `i + 1`. */
  lemma ScanRow(cells: map<Key, set<Particle>>, cx: int, cy: int, r: int, i: int)
    ensures Scanned(cells, cx, cy, r, i, r + 1) == Scanned(cells, cx, cy, r, i + 1, -r)
  {
    var lhs := Scanned(cells, cx, cy, r, i, r + 1);
    var rhs := Scanned(cells, cx, cy, r, i + 1, -r);
    forall p | p in lhs
      ensures p in rhs
    {
      var k :| k in cells && p in cells[k] && Before(k, cx, cy, r, i, r + 1);
      assert Before(k, cx, cy, r, i + 1, -r);
    }
    forall p | p in rhs
      ensures p in lhs
    {
      var k :| k in cells && p in cells[k] && Before(k, cx, cy, r, i + 1, -r);
      assert Before(k, cx, cy, r, i, r + 1);
    }
  }

  /** All rows scanned: the neighbourhood. */
  lemma ScanDone(cells: map<Key, set<Particle>>, cx: int, cy: int, r: int, i: int)
    requires r >= 0 ==> i == r + 1
    requires r < 0 ==> i == -r
    ensures Scanned(cells, cx, cy, r, i, -r) == Neighbourhood(cells, cx, cy, r)
  {
    var lhs := Scanned(cells, cx, cy, r, i, -r);
    var rhs := Neighbourhood(cells, cx, cy, r);
    forall p | p in lhs
      ensures p in rhs
    {
      var k :| k in cells && p in cells[k] && Before(k, cx, cy, r, i, -r);
      assert Near(k, cx, cy, r);
    }
    forall p | p in rhs
      ensures p in lhs
    {
      var k :| k in cells && p in cells[k] && Near(k, cx, cy, r);
      assert Before(k, cx, cy, r, i, -r);
    }
  }
}
