/** Pixels, frames and regions of interest. A mask is the set of its true pixels. */
module Pixels {

  /** Row first, as numpy indexes. */
  datatype Pixel = Pixel(y: int, x: int)

  datatype Roi = Roi(x0: int, y0: int, x1: int, y1: int) {
    predicate Empty() {
      x1 <= x0 || y1 <= y0
    }

    function Centre(): Pixel {
      Pixel((y0 + y1) / 2, (x0 + x1) / 2)
    }

    predicate Contains(p: Pixel) {
      y0 <= p.y < y1 && x0 <= p.x < x1
    }
  }

  predicate InFrame(p: Pixel, height: nat, width: nat) {
    0 <= p.y < height && 0 <= p.x < width
  }

  /** The pixels of `roi`, i.e. of the numpy slice `[y0:y1, x0:x1]`. */
  ghost function Region(roi: Roi): (r: set<Pixel>)
    ensures forall p :: p in r <==> roi.Contains(p)
  {
    set y, x | roi.y0 <= y < roi.y1 && roi.x0 <= x < roi.x1 :: Pixel(y, x)
  }

  ghost function Frame(height: nat, width: nat): (r: set<Pixel>)
    ensures forall p :: p in r <==> InFrame(p, height, width)
  {
    Region(Roi(0, 0, width, height))
  }

  /** Height times width of a slice. */
  function SliceSize(roi: Roi): (n: nat)
    requires roi.x0 <= roi.x1 && roi.y0 <= roi.y1
  {
    (roi.y1 - roi.y0) * (roi.x1 - roi.x0)
  }

  /** `region.size` of a slice is its height times its width. */
  lemma {:induction false} RegionSize(roi: Roi)
    requires roi.x0 <= roi.x1 && roi.y0 <= roi.y1
    ensures |Region(roi)| == SliceSize(roi)
    decreases roi.y1 - roi.y0
  {
    if roi.y0 == roi.y1 {
      assert Region(roi) == {};
    } else {
      var below := roi.(y0 := roi.y0 + 1);
      var row := Roi(roi.x0, roi.y0, roi.x1, roi.y0 + 1);
      RegionSize(below);
      RowSize(roi.y0, roi.x0, roi.x1);
      TopRowAside(roi);
      DisjointUnionSize(Region(below), Region(row), Region(roi));
      SizeOfRows(roi);
    }
  }

  lemma TopRowAside(roi: Roi)
    requires roi.x0 <= roi.x1 && roi.y0 < roi.y1
    ensures var below, row := Region(roi.(y0 := roi.y0 + 1)), Region(Roi(roi.x0, roi.y0, roi.x1, roi.y0 + 1));
      Region(roi) == below + row && below !! row
  {}

  lemma SizeOfRows(roi: Roi)
    requires roi.x0 <= roi.x1 && roi.y0 < roi.y1
    ensures SliceSize(roi) == SliceSize(roi.(y0 := roi.y0 + 1)) + (roi.x1 - roi.x0)
  {
    var h, w := roi.y1 - roi.y0, roi.x1 - roi.x0;
    assert h * w == (h - 1) * w + w;
  }

  lemma {:induction false} RowSize(y: int, x0: int, x1: int)
    requires x0 <= x1
    ensures |Region(Roi(x0, y, x1, y + 1))| == x1 - x0
    decreases x1 - x0
  {
    if x0 == x1 {
      assert Region(Roi(x0, y, x1, y + 1)) == {};
    } else {
      RowSize(y, x0 + 1, x1);
      assert Region(Roi(x0, y, x1, y + 1)) == Region(Roi(x0 + 1, y, x1, y + 1)) + {Pixel(y, x0)};
    }
  }

  lemma DisjointUnionSize<T>(a: set<T>, b: set<T>, u: set<T>)
    requires u == a + b && a !! b
    ensures |u| == |a| + |b|
  {}

  /** `r` is the bounding box of `s`: it holds every pixel and each side touches one. */
  ghost predicate IsBounds(s: set<Pixel>, r: Roi) {
    && (forall p :: p in s ==> r.Contains(p))
    && (exists p :: p in s && p.y == r.y0) && (exists p :: p in s && p.y == r.y1 - 1)
    && (exists p :: p in s && p.x == r.x0) && (exists p :: p in s && p.x == r.x1 - 1)
  }

  ghost function Bounds(s: set<Pixel>): (r: Roi)
    requires s != {}
    ensures IsBounds(s, r)
  {
    BoundsExist(s);
    var r :| IsBounds(s, r);
    r
  }

  function PixelRoi(p: Pixel): Roi {
    Roi(p.x, p.y, p.x + 1, p.y + 1)
  }

  function Extend(r: Roi, p: Pixel): Roi {
    Roi(if r.x0 < p.x then r.x0 else p.x, if r.y0 < p.y then r.y0 else p.y,
        if r.x1 > p.x + 1 then r.x1 else p.x + 1, if r.y1 > p.y + 1 then r.y1 else p.y + 1)
  }

  lemma ExtendBounds(s: set<Pixel>, r: Roi, p: Pixel)
    requires IsBounds(s, r)
    ensures IsBounds(s + {p}, Extend(r, p))
  {}

  lemma BoundsUnique(s: set<Pixel>, a: Roi, b: Roi)
    requires IsBounds(s, a) && IsBounds(s, b)
    ensures a == b
  {}

  lemma {:induction false} BoundsExist(s: set<Pixel>)
    requires s != {}
    ensures exists r :: IsBounds(s, r)
    decreases s
  {
    var p :| p in s;
    if s == {p} {
      assert IsBounds(s, PixelRoi(p));
    } else {
      var rest := s - {p};
      assert rest != {} && rest + {p} == s;
      BoundsExist(rest);
      var r :| IsBounds(rest, r);
      ExtendBounds(rest, r, p);
    }
  }
}
