/** The fixed-lane path builders of `JobPlanner` (src/plan/job_planner.py).
    Each builder lays a route out of lane segments: `range(a, b, 1)` and
    `range(a, b, -1)` over one axis with the other held fixed. The sector
    coordinates of a quay crane or a yard are parameters. */
module Paths {
  import opened YardOptions

  /** `[Coord(x, y) for x in range(a, b, 1)]`. */
  function RowUp(a: int, b: int, y: int): (r: seq<Coord>)
    ensures |r| == if a < b then b - a else 0
    ensures forall i :: 0 <= i < |r| ==> r[i] == Coord(a + i, y)
  {
    if a >= b then [] else seq(b - a, i => Coord(a + i, y))
  }

  /** `[Coord(x, y) for x in range(a, b, -1)]`. */
  function RowDown(a: int, b: int, y: int): (r: seq<Coord>)
    ensures |r| == if a > b then a - b else 0
    ensures forall i :: 0 <= i < |r| ==> r[i] == Coord(a - i, y)
  {
    if a <= b then [] else seq(a - b, i => Coord(a - i, y))
  }

  /** `[Coord(x, y) for y in range(a, b, 1)]`. */
  function ColUp(x: int, a: int, b: int): (r: seq<Coord>)
    ensures |r| == if a < b then b - a else 0
    ensures forall i :: 0 <= i < |r| ==> r[i] == Coord(x, a + i)
  {
    if a >= b then [] else seq(b - a, i => Coord(x, a + i))
  }

  /** `[Coord(x, y) for y in range(a, b, -1)]`. */
  function ColDown(x: int, a: int, b: int): (r: seq<Coord>)
    ensures |r| == if a > b then a - b else 0
    ensures forall i :: 0 <= i < |r| ==> r[i] == Coord(x, a - i)
  {
    if a <= b then [] else seq(a - b, i => Coord(x, a - i))
  }

  /** Two cells that share an edge. */
  predicate Adjacent(p: Coord, q: Coord) {
    (p.x == q.x && (p.y - q.y == 1 || q.y - p.y == 1)) ||
    (p.y == q.y && (p.x - q.x == 1 || q.x - p.x == 1))
  }

  /** Every step of the path moves to a neighbouring cell. */
  predicate Walk(p: seq<Coord>) {
    forall i :: 0 <= i < |p| - 1 ==> Adjacent(p[i], p[i + 1])
  }

  /** Two walks glued at neighbouring ends form a walk; an empty piece is
      skipped. */
  lemma WalkAppend(p: seq<Coord>, q: seq<Coord>)
    requires Walk(p) && Walk(q)
    requires |p| > 0 && |q| > 0 ==> Adjacent(p[|p| - 1], q[0])
    ensures Walk(p + q)
  {
    var r := p + q;
    forall i | 0 <= i < |r| - 1 ensures Adjacent(r[i], r[i + 1]) {
      if i < |p| - 1 {
        assert r[i] == p[i] && r[i + 1] == p[i + 1];
      } else if i == |p| - 1 {
        assert r[i] == p[i] && r[i + 1] == q[0];
      } else {
        assert r[i] == q[i - |p|] && r[i + 1] == q[i - |p| + 1];
      }
    }
  }

  /** The last cell of a non-empty path. */
  function Last(p: seq<Coord>): Coord
    requires |p| > 0
  {
    p[|p| - 1]
  }

  /** `get_path_from_buffer_to_QC` once the QC in-coordinate is known: down
      to the highway lane y = 7, west to x = 1, up the left edge to y = 4,
      east along the QC lane, then into the crane. */
  function BufferToQC(buffer: Coord, qcIn: Coord): (r: seq<Coord>)
    ensures |r| >= 5 && r[0] == Coord(buffer.x, 7) && Last(r) == qcIn
  {
    [Coord(buffer.x, 7)] + RowDown(buffer.x - 1, 0, 7) + ColDown(1, 6, 3) +
    RowUp(2, qcIn.x + 1, 4) + [qcIn]
  }

  /** `get_path_from_buffer_to_yard` once the yard in-coordinate is known:
      up to the QC lane y = 5, east to x = 42, down to y = 11, west to x = 1,
      onto the yard lane y = 12, east to the yard. */
  function BufferToYard(buffer: Coord, yardIn: Coord): (r: seq<Coord>)
    ensures |r| >= 49 && r[0] == Coord(buffer.x, buffer.y - 1) && Last(r) == yardIn
  {
    [Coord(buffer.x, buffer.y - 1)] + RowUp(buffer.x + 1, 43, 5) + ColUp(42, 6, 12) +
    RowDown(41, 0, 11) + [Coord(1, 12)] + RowUp(2, yardIn.x + 1, 12) + [yardIn]
  }

  /** `get_path_from_yard_to_buffer` once the yard out-coordinate is known:
      east along y = 12 to x = 41, up to y = 7, west to the buffer column,
      then into the buffer. */
  function YardToBuffer(yardOut: Coord, buffer: Coord): (r: seq<Coord>)
    ensures |r| >= 7 && r[0] == yardOut && Last(r) == buffer
  {
    [yardOut] + RowUp(yardOut.x, 42, 12) + ColDown(41, 11, 6) +
    RowDown(40, buffer.x - 1, 7) + [buffer]
  }

  /** `get_path_from_QC_to_buffer` once the QC out-coordinate is known: onto
      the QC lane y = 4, east to x = 42, down to y = 7, west to the buffer
      column, then into the buffer. */
  function QCToBuffer(qcOut: Coord, buffer: Coord): (r: seq<Coord>)
    ensures |r| >= 6 && r[0] == qcOut && r[1] == Coord(qcOut.x, 4) && Last(r) == buffer
  {
    [qcOut] + [Coord(qcOut.x, 4)] + RowUp(qcOut.x + 1, 43, 4) + ColUp(42, 5, 8) +
    RowDown(41, buffer.x - 1, 7) + [buffer]
  }

  lemma RowUpWalk(a: int, b: int, y: int)
    ensures Walk(RowUp(a, b, y))
  {
    var r := RowUp(a, b, y);
    forall i | 0 <= i < |r| - 1 ensures Adjacent(r[i], r[i + 1]) {
      assert r[i] == Coord(a + i, y) && r[i + 1] == Coord(a + i + 1, y);
    }
  }

  lemma RowDownWalk(a: int, b: int, y: int)
    ensures Walk(RowDown(a, b, y))
  {
    var r := RowDown(a, b, y);
    forall i | 0 <= i < |r| - 1 ensures Adjacent(r[i], r[i + 1]) {
      assert r[i] == Coord(a - i, y) && r[i + 1] == Coord(a - i - 1, y);
    }
  }

  lemma ColUpWalk(x: int, a: int, b: int)
    ensures Walk(ColUp(x, a, b))
  {
    var r := ColUp(x, a, b);
    forall i | 0 <= i < |r| - 1 ensures Adjacent(r[i], r[i + 1]) {
      assert r[i] == Coord(x, a + i) && r[i + 1] == Coord(x, a + i + 1);
    }
  }

  lemma ColDownWalk(x: int, a: int, b: int)
    ensures Walk(ColDown(x, a, b))
  {
    var r := ColDown(x, a, b);
    forall i | 0 <= i < |r| - 1 ensures Adjacent(r[i], r[i + 1]) {
      assert r[i] == Coord(x, a - i) && r[i + 1] == Coord(x, a - i - 1);
    }
  }

  /** From a buffer at a positive column every step up to the QC lane moves
      one cell; the last step enters the crane directly when it sits just
      above the lane at a positive column. */
  lemma BufferToQCWalk(buffer: Coord, qcIn: Coord)
    requires buffer.x >= 1
    ensures Walk(BufferToQC(buffer, qcIn)[..|BufferToQC(buffer, qcIn)| - 1])
    ensures qcIn.y == 3 && qcIn.x >= 1 ==> Walk(BufferToQC(buffer, qcIn))
  {
    var s0 := [Coord(buffer.x, 7)];
    var s1 := RowDown(buffer.x - 1, 0, 7);
    var s2 := ColDown(1, 6, 3);
    var s3 := RowUp(2, qcIn.x + 1, 4);
    RowDownWalk(buffer.x - 1, 0, 7);
    ColDownWalk(1, 6, 3);
    RowUpWalk(2, qcIn.x + 1, 4);
    WalkAppend(s0, s1);
    assert Last(s0 + s1) == Coord(1, 7);
    WalkAppend(s0 + s1, s2);
    assert Last(s0 + s1 + s2) == Coord(1, 4);
    WalkAppend(s0 + s1 + s2, s3);
    var body := s0 + s1 + s2 + s3;
    assert BufferToQC(buffer, qcIn) == body + [qcIn];
    assert BufferToQC(buffer, qcIn)[..|BufferToQC(buffer, qcIn)| - 1] == body;
    if qcIn.y == 3 && qcIn.x >= 1 {
      assert Last(body) == Coord(qcIn.x, 4);
      WalkAppend(body, [qcIn]);
    }
  }

  /** The cells of the route to a crane, from a buffer at column `n >= 1`:
      (n, 7), then west along y = 7 down to x = 1, then (1, 6), (1, 5) and
      (1, 4), then east along y = 4 from x = 2 to the crane's column, then
      the crane's in-coordinate. */
  lemma BufferToQCLayout(buffer: Coord, qcIn: Coord)
    requires buffer.x >= 1
    ensures var r := BufferToQC(buffer, qcIn);
      var n := buffer.x;
      var m := if qcIn.x >= 2 then qcIn.x - 1 else 0;
      && |r| == n + m + 4
      && r[0] == Coord(n, 7)
      && (forall k :: 1 <= k < n ==> r[k] == Coord(n - k, 7))
      && r[n] == Coord(1, 6) && r[n + 1] == Coord(1, 5) && r[n + 2] == Coord(1, 4)
      && (forall j :: n + 3 <= j < n + 3 + m ==> r[j] == Coord(j - n - 1, 4))
      && r[n + m + 3] == qcIn
  {
    var n := buffer.x;
    var s1 := RowDown(n - 1, 0, 7);
    var s2 := ColDown(1, 6, 3);
    var s3 := RowUp(2, qcIn.x + 1, 4);
    var r := BufferToQC(buffer, qcIn);
    assert r == [Coord(n, 7)] + s1 + s2 + s3 + [qcIn];
    forall k | 1 <= k < n ensures r[k] == Coord(n - k, 7) {
      assert r[k] == s1[k - 1];
    }
    assert r[n] == s2[0] && r[n + 1] == s2[1] && r[n + 2] == s2[2];
    forall j | n + 3 <= j < n + 3 + |s3| ensures r[j] == Coord(j - n - 1, 4) {
      assert r[j] == s3[j - n - 3];
    }
  }

  /** From a buffer on row 6 at most at column 42 every step up to the yard
      lane moves one cell; the last step enters the yard directly when it
      sits just below the lane at a positive column. */
  lemma BufferToYardWalk(buffer: Coord, yardIn: Coord)
    requires buffer.y == 6 && buffer.x <= 42
    ensures Walk(BufferToYard(buffer, yardIn)[..|BufferToYard(buffer, yardIn)| - 1])
    ensures yardIn.y == 13 && yardIn.x >= 1 ==> Walk(BufferToYard(buffer, yardIn))
  {
    var s0 := [Coord(buffer.x, buffer.y - 1)];
    var s1 := RowUp(buffer.x + 1, 43, 5);
    var s2 := ColUp(42, 6, 12);
    var s3 := RowDown(41, 0, 11);
    var s4 := [Coord(1, 12)];
    var s5 := RowUp(2, yardIn.x + 1, 12);
    RowUpWalk(buffer.x + 1, 43, 5);
    ColUpWalk(42, 6, 12);
    RowDownWalk(41, 0, 11);
    RowUpWalk(2, yardIn.x + 1, 12);
    WalkAppend(s0, s1);
    assert Last(s0 + s1) == Coord(42, 5);
    WalkAppend(s0 + s1, s2);
    assert Last(s0 + s1 + s2) == Coord(42, 11);
    WalkAppend(s0 + s1 + s2, s3);
    assert Last(s0 + s1 + s2 + s3) == Coord(1, 11);
    WalkAppend(s0 + s1 + s2 + s3, s4);
    WalkAppend(s0 + s1 + s2 + s3 + s4, s5);
    var body := s0 + s1 + s2 + s3 + s4 + s5;
    assert BufferToYard(buffer, yardIn) == body + [yardIn];
    assert BufferToYard(buffer, yardIn)[..|BufferToYard(buffer, yardIn)| - 1] == body;
    if yardIn.y == 13 && yardIn.x >= 1 {
      assert Last(body) == Coord(yardIn.x, 12);
      WalkAppend(body, [yardIn]);
    }
  }

  /** Leaving a yard at most at column 41, every step after the start moves
      one cell; the path ends by stepping down into a buffer on row 6 at
      most at column 41. The first step repeats the start when the yard's
      out-coordinate lies on the yard lane y = 12. */
  lemma YardToBufferWalk(yardOut: Coord, buffer: Coord)
    requires yardOut.x <= 41
    ensures Walk(YardToBuffer(yardOut, buffer)[1..|YardToBuffer(yardOut, buffer)| - 1])
    ensures buffer.y == 6 && buffer.x <= 41 ==> Walk(YardToBuffer(yardOut, buffer)[1..])
    ensures yardOut.y == 12 ==> YardToBuffer(yardOut, buffer)[1] == yardOut
  {
    var s1 := RowUp(yardOut.x, 42, 12);
    var s2 := ColDown(41, 11, 6);
    var s3 := RowDown(40, buffer.x - 1, 7);
    RowUpWalk(yardOut.x, 42, 12);
    ColDownWalk(41, 11, 6);
    RowDownWalk(40, buffer.x - 1, 7);
    assert Last(s1) == Coord(41, 12);
    WalkAppend(s1, s2);
    assert Last(s1 + s2) == Coord(41, 7);
    WalkAppend(s1 + s2, s3);
    var body := s1 + s2 + s3;
    assert YardToBuffer(yardOut, buffer) == [yardOut] + body + [buffer];
    assert YardToBuffer(yardOut, buffer)[1..|YardToBuffer(yardOut, buffer)| - 1] == body;
    if buffer.y == 6 && buffer.x <= 41 {
      assert Last(body) == Coord(buffer.x, 7);
      WalkAppend(body, [buffer]);
      assert YardToBuffer(yardOut, buffer)[1..] == body + [buffer];
    }
  }

  /** Leaving a crane at most at column 42, every step after the start moves
      one cell; the path ends by stepping up into a buffer on row 6 at most
      at column 42, and it begins with one step when the out-coordinate sits
      just above or below the QC lane. */
  lemma QCToBufferWalk(qcOut: Coord, buffer: Coord)
    requires qcOut.x <= 42
    ensures Walk(QCToBuffer(qcOut, buffer)[1..|QCToBuffer(qcOut, buffer)| - 1])
    ensures buffer.y == 6 && buffer.x <= 42 ==> Walk(QCToBuffer(qcOut, buffer)[1..])
    ensures (qcOut.y == 3 || qcOut.y == 5) ==> Adjacent(qcOut, QCToBuffer(qcOut, buffer)[1])
  {
    var s1 := [Coord(qcOut.x, 4)];
    var s2 := RowUp(qcOut.x + 1, 43, 4);
    var s3 := ColUp(42, 5, 8);
    var s4 := RowDown(41, buffer.x - 1, 7);
    RowUpWalk(qcOut.x + 1, 43, 4);
    ColUpWalk(42, 5, 8);
    RowDownWalk(41, buffer.x - 1, 7);
    WalkAppend(s1, s2);
    assert Last(s1 + s2) == Coord(42, 4);
    WalkAppend(s1 + s2, s3);
    assert Last(s1 + s2 + s3) == Coord(42, 7);
    WalkAppend(s1 + s2 + s3, s4);
    var body := s1 + s2 + s3 + s4;
    assert QCToBuffer(qcOut, buffer) == [qcOut] + body + [buffer];
    assert QCToBuffer(qcOut, buffer)[1..|QCToBuffer(qcOut, buffer)| - 1] == body;
    if buffer.y == 6 && buffer.x <= 42 {
      assert Last(body) == Coord(buffer.x, 7);
      WalkAppend(body, [buffer]);
      assert QCToBuffer(qcOut, buffer)[1..] == body + [buffer];
    }
  }
}
