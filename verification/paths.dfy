/**
  Paths as plain data. The drawing library's path object is reduced to the
  sequence of commands issued on it since its last `clear()`.
*/
module Paths {

  /** A position on a drawing stage, in that stage's pixels. */
  datatype Pos = Pos(x: real, y: real)

  datatype PathCmd = MoveTo(x: real, y: real) | LineTo(x: real, y: real) | Close

  /** The command the contour loops issue for the `i`-th position: a move
      to the first one, a line to every later one. */
  function Step(ps: seq<Pos>, i: nat): PathCmd
    requires i < |ps|
  {
    if i == 0 then MoveTo(ps[0].x, ps[0].y) else LineTo(ps[i].x, ps[i].y)
  }

  /** The open polyline through `ps`, built one command per position. */
  function Polyline(ps: seq<Pos>): seq<PathCmd>
  {
    seq(|ps|, i requires 0 <= i < |ps| => Step(ps, i))
  }

  /** The preview contour: the polyline through `ps`, closed back to the
      first position when there are more than two positions. */
  function Contour(ps: seq<Pos>): seq<PathCmd>
  {
    Polyline(ps) + if |ps| > 2 then [Close] else []
  }

  /** The contour moves to the first position, draws a line to every later
      one in index order, and ends with a close exactly when there are more
      than two positions. */
  lemma ContourShape(ps: seq<Pos>)
    ensures |Contour(ps)| == |ps| + if |ps| > 2 then 1 else 0
    ensures ps != [] ==> Contour(ps)[0] == MoveTo(ps[0].x, ps[0].y)
    ensures forall i :: 0 < i < |ps| ==> Contour(ps)[i] == LineTo(ps[i].x, ps[i].y)
    ensures (Contour(ps) != [] && Contour(ps)[|Contour(ps)| - 1] == Close) <==> |ps| > 2
  {
  }

  /** The positions a path visits, in order: the inverse of drawing. */
  function Vertices(path: seq<PathCmd>): seq<Pos>
  {
    if path == [] then []
    else
      Vertices(path[..|path| - 1]) +
        match path[|path| - 1]
        case MoveTo(x, y) => [Pos(x, y)]
        case LineTo(x, y) => [Pos(x, y)]
        case Close => []
  }

  /** The number of segments a path draws: one per line and one for the closing edge. */
  function Segments(path: seq<PathCmd>): nat
  {
    if path == [] then 0
    else Segments(path[..|path| - 1]) + if path[|path| - 1].MoveTo? then 0 else 1
  }

  /** Appending one command extends the visited positions and the segment
      count by those of that command alone. */
  lemma AppendOne(path: seq<PathCmd>, c: PathCmd)
    ensures Vertices(path + [c]) == Vertices(path) + Vertices([c])
    ensures Segments(path + [c]) == Segments(path) + Segments([c])
  {
    assert (path + [c])[..|path|] == path;
  }

  lemma {:induction false} PolylineVisitsInOrder(ps: seq<Pos>)
    ensures Vertices(Polyline(ps)) == ps
  {
    if ps != [] {
      var init := ps[..|ps| - 1];
      PolylineVisitsInOrder(init);
      var p := Polyline(ps);
      assert p[..|p| - 1] == Polyline(init);
      assert ps == init + [ps[|ps| - 1]];
    }
  }

  /** The contour visits exactly the given positions, in index order. */
  lemma {:induction false} ContourVisitsInOrder(ps: seq<Pos>)
    ensures Vertices(Contour(ps)) == ps
  {
    PolylineVisitsInOrder(ps);
    if |ps| > 2 {
      var c := Contour(ps);
      assert c[..|c| - 1] == Polyline(ps);
    }
  }

  lemma {:induction false} PolylineSegments(ps: seq<Pos>)
    ensures Segments(Polyline(ps)) == if ps == [] then 0 else |ps| - 1
  {
    if ps != [] {
      var init := ps[..|ps| - 1];
      PolylineSegments(init);
      var p := Polyline(ps);
      assert p[..|p| - 1] == Polyline(init);
    }
  }

  /** A contour through n positions draws n - 1 segments while it is open
      (n <= 2) and n segments once it is closed (n >= 3). */
  lemma {:induction false} ContourSegments(ps: seq<Pos>)
    ensures Segments(Contour(ps)) == if |ps| > 2 then |ps| else if ps == [] then 0 else |ps| - 1
  {
    PolylineSegments(ps);
    if |ps| > 2 {
      var c := Contour(ps);
      assert c[..|c| - 1] == Polyline(ps);
    }
  }
}
