/** The pip layout drawn on each face of the die texture. */
module DiceFaces {

  /** Side of the square canvas each face is drawn on. */
  const CanvasSize: int := 128

  /** The pip centres for a face; a number outside 1..6 has no entry and draws no pips. */
  function Pips(face: int): (r: seq<(int, int)>)
    // face n shows exactly n pips, and any other number none
    ensures 1 <= face <= 6 ==> |r| == face
    ensures !(1 <= face <= 6) ==> r == []
    // every pip sits on the 3-by-3 grid of the canvas and no two pips coincide
    ensures forall k :: 0 <= k < |r| ==> r[k].0 in {32, 64, 96} && r[k].1 in {32, 64, 96}
    ensures forall j, k :: 0 <= j < k < |r| ==> r[j] != r[k]
    // each face looks the same turned half a turn about the canvas centre: the list read
    // backwards gives the turned pips
    ensures forall j :: 0 <= j < |r| ==> r[|r| - 1 - j] == (CanvasSize - r[j].0, CanvasSize - r[j].1)
  {
    match face
    case 1 => [(64, 64)]
    case 2 => [(32, 32), (96, 96)]
    case 3 => [(32, 32), (64, 64), (96, 96)]
    case 4 => [(32, 32), (96, 32), (32, 96), (96, 96)]
    case 5 => [(32, 32), (96, 32), (64, 64), (32, 96), (96, 96)]
    case 6 => [(32, 32), (96, 32), (32, 64), (96, 64), (32, 96), (96, 96)]
    case _ => []
  }
}
