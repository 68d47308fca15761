/** Orientation correction of decoded images (internal/images/images.go): the EXIF value picks a
    rotation and a flip, done by pixel loops, the flip in place. An image is an array2 indexed
    by column and row. */
module Orientation {

  // What the EXIF data says: nothing readable, or some integer.
  datatype Exif = Missing | Value(orient: int)

  type FlipDirection = bv8
  const FLIP_VERTICAL: FlipDirection := 1
  const FLIP_HORIZONTAL: FlipDirection := 2

  /** exifOrientation: the counter-clockwise angle and the flip that undo the orientation. */
  function ExifOrientation(exif: Exif): (int, FlipDirection) {
    match exif
    case Missing => (0, 0)
    case Value(orient) =>
      if orient == 2 then (0, 2)
      else if orient == 3 then (180, 0)
      else if orient == 4 then (180, 2)
      else if orient == 5 then (-90, 2)
      else if orient == 6 then (-90, 0)
      else if orient == 7 then (90, 2)
      else if orient == 8 then (90, 0)
      else (0, 0)
  }

  /** DecodeConfig: the size as it would be after correction, without decoding pixels. */
  function ConfigSize(exif: Exif, w: nat, h: nat): (nat, nat) {
    if exif.Value? && exif.orient in {5, 6, 7, 8} then (h, w) else (w, h)
  }

  // The Orientation field of section 8 of TIFF 6.0: on which visual side the stored row 0 lies,
  // and on which the stored column 0 lies. Other values mean the default, 1.

  datatype Side = Top | Bottom | Left | Right

  function RowZero(exif: Exif): Side {
    if exif.Missing? then Top
    else match exif.orient
      case 2 => Top
      case 3 => Bottom
      case 4 => Bottom
      case 5 => Left
      case 6 => Right
      case 7 => Right
      case 8 => Left
      case _ => Top
  }

  function ColumnZero(exif: Exif): Side {
    if exif.Missing? then Left
    else match exif.orient
      case 2 => Right
      case 3 => Right
      case 4 => Left
      case 5 => Top
      case 6 => Top
      case 7 => Bottom
      case 8 => Bottom
      case _ => Left
  }

  // Rows that stack sideways make the stored height the visual width.
  predicate Sideways(exif: Exif) { RowZero(exif) in {Left, Right} }

  function VisualWidth(exif: Exif, w: nat, h: nat): nat { if Sideways(exif) then h else w }

  function VisualHeight(exif: Exif, w: nat, h: nat): nat { if Sideways(exif) then w else h }

  // Distance k from the named side of a picture `extent` across, as a coordinate.
  function From(side: Side, k: int, extent: int): int {
    if side in {Top, Left} then k else extent - 1 - k
  }

  /** Where the stored pixel of column c and row r is seen. */
  function SeenX(exif: Exif, w: nat, h: nat, c: int, r: int): int {
    if Sideways(exif) then From(RowZero(exif), r, h) else From(ColumnZero(exif), c, w)
  }

  function SeenY(exif: Exif, w: nat, h: nat, c: int, r: int): int {
    if Sideways(exif) then From(ColumnZero(exif), c, w) else From(RowZero(exif), r, h)
  }

  /** Every visual position shows exactly one stored pixel, so placing all stored pixels
      fixes the whole picture. */
  lemma SeenIsBijective(exif: Exif, w: nat, h: nat, x: int, y: int) returns (c: int, r: int)
    requires 0 <= x < VisualWidth(exif, w, h) && 0 <= y < VisualHeight(exif, w, h)
    ensures 0 <= c < w && 0 <= r < h
    ensures SeenX(exif, w, h, c, r) == x && SeenY(exif, w, h, c, r) == y
    ensures forall c', r' :: SeenX(exif, w, h, c', r') == x && SeenY(exif, w, h, c', r') == y ==> c' == c && r' == r
  {
    if Sideways(exif) {
      c, r := From(ColumnZero(exif), y, w), From(RowZero(exif), x, h);
    } else {
      c, r := From(ColumnZero(exif), x, w), From(RowZero(exif), y, h);
    }
  }

  /** The dimensions announced before decoding are those of the upright picture. */
  lemma ConfigIsVisual(exif: Exif, w: nat, h: nat)
    ensures ConfigSize(exif, w, h) == (VisualWidth(exif, w, h), VisualHeight(exif, w, h))
  {
  }

  // Which source pixel a rotation by `angle` puts at (x, y).
  function TurnX(angle: int, w: int, h: int, x: int, y: int): int {
    if angle == 90 then w - 1 - y else if angle == -90 then y
    else if angle == 180 || angle == -180 then w - 1 - x else x
  }

  function TurnY(angle: int, w: int, h: int, x: int, y: int): int {
    if angle == 90 then x else if angle == -90 then h - 1 - x
    else if angle == 180 || angle == -180 then h - 1 - y else y
  }

  predicate Quarter(angle: int) { angle == 90 || angle == -90 }

  /** rotate: a new image for the three turns, the same one for any other angle. */
  method Rotate<T(0)>(im: array2<T>, angle: int) returns (rotated: array2<T>)
    ensures rotated == im || fresh(rotated)
    ensures rotated.Length0 == if Quarter(angle) then im.Length1 else im.Length0
    ensures rotated.Length1 == if Quarter(angle) then im.Length0 else im.Length1
    ensures forall x, y :: 0 <= x < rotated.Length0 && 0 <= y < rotated.Length1 ==>
      rotated[x, y] == im[TurnX(angle, im.Length0, im.Length1, x, y), TurnY(angle, im.Length0, im.Length1, x, y)]
  {
    if angle == 90 || angle == -90 || angle == 180 || angle == -180 {
      rotated := Turn(im, angle);
    } else {
      rotated := im;
    }
  }

  method Turn<T(0)>(im: array2<T>, angle: int) returns (rotated: array2<T>)
    requires angle in {90, -90, 180, -180}
    ensures fresh(rotated)
    ensures rotated.Length0 == if Quarter(angle) then im.Length1 else im.Length0
    ensures rotated.Length1 == if Quarter(angle) then im.Length0 else im.Length1
    ensures forall x, y :: 0 <= x < rotated.Length0 && 0 <= y < rotated.Length1 ==>
      rotated[x, y] == im[TurnX(angle, im.Length0, im.Length1, x, y), TurnY(angle, im.Length0, im.Length1, x, y)]
  {
    var newW := if Quarter(angle) then im.Length1 else im.Length0;
    var newH := if Quarter(angle) then im.Length0 else im.Length1;
    rotated := new T[newW, newH];
    var y := 0;
    while y < newH
      invariant 0 <= y <= newH
      invariant forall i, j :: 0 <= i < newW && 0 <= j < y ==>
        rotated[i, j] == im[TurnX(angle, im.Length0, im.Length1, i, j), TurnY(angle, im.Length0, im.Length1, i, j)]
    {
      var x := 0;
      while x < newW
        invariant 0 <= x <= newW
        invariant forall i, j :: 0 <= i < newW && 0 <= j < newH && (j < y || (j == y && i < x)) ==>
          rotated[i, j] == im[TurnX(angle, im.Length0, im.Length1, i, j), TurnY(angle, im.Length0, im.Length1, i, j)]
      {
        if angle == 90 {
          rotated[x, y] := im[newH - 1 - y, x];
        } else if angle == -90 {
          rotated[x, y] := im[y, newW - 1 - x];
        } else {
          rotated[x, y] := im[newW - 1 - x, newH - 1 - y];
        }
        x := x + 1;
      }
      y := y + 1;
    }
  }

  // The loop of flip for FlipHorizontal.
  method FlipColumns<T>(im: array2<T>)
    modifies im
    ensures forall x, y :: 0 <= x < im.Length0 && 0 <= y < im.Length1 ==> im[x, y] == old(im[im.Length0 - 1 - x, y])
  {
    var dx, dy := im.Length0, im.Length1;
    var y := 0;
    while y < dy
      invariant 0 <= y <= dy
      invariant forall i, j :: 0 <= i < dx && 0 <= j < dy ==>
        im[i, j] == if j < y then old(im[dx - 1 - i, j]) else old(im[i, j])
    {
      var x := 0;
      while x < dx / 2
        invariant 0 <= x <= dx / 2
        invariant forall i, j :: 0 <= i < dx && 0 <= j < dy ==>
          im[i, j] == if j < y || (j == y && (i < x || dx - 1 - i < x)) then old(im[dx - 1 - i, j]) else old(im[i, j])
      {
        var was := im[x, y];
        im[x, y] := im[dx - 1 - x, y];
        im[dx - 1 - x, y] := was;
        x := x + 1;
      }
      y := y + 1;
    }
  }

  // The loop of flip for FlipVertical.
  method FlipRows<T>(im: array2<T>)
    modifies im
    ensures forall x, y :: 0 <= x < im.Length0 && 0 <= y < im.Length1 ==> im[x, y] == old(im[x, im.Length1 - 1 - y])
  {
    var dx, dy := im.Length0, im.Length1;
    var y := 0;
    while y < dy / 2
      invariant 0 <= y <= dy / 2
      invariant forall i, j :: 0 <= i < dx && 0 <= j < dy ==>
        im[i, j] == if j < y || dy - 1 - j < y then old(im[i, dy - 1 - j]) else old(im[i, j])
    {
      var x := 0;
      while x < dx
        invariant 0 <= x <= dx
        invariant forall i, j :: 0 <= i < dx && 0 <= j < dy ==>
          im[i, j] == if j < y || dy - 1 - j < y || ((j == y || dy - 1 - j == y) && i < x)
                      then old(im[i, dy - 1 - j]) else old(im[i, j])
      {
        var was := im[x, y];
        im[x, y] := im[x, dy - 1 - y];
        im[x, dy - 1 - y] := was;
        x := x + 1;
      }
      y := y + 1;
    }
  }

  function Mirror(flipped: bool, k: int, extent: int): int {
    if flipped then extent - 1 - k else k
  }

  /** flip, on an image that can be set in place. */
  method Flip<T>(im: array2<T>, dir: FlipDirection)
    modifies im
    ensures forall x, y :: 0 <= x < im.Length0 && 0 <= y < im.Length1 ==>
      im[x, y] == old(im[Mirror(dir & FLIP_HORIZONTAL != 0, x, im.Length0), Mirror(dir & FLIP_VERTICAL != 0, y, im.Length1)])
  {
    if dir == 0 {
      return;
    }
    if dir & FLIP_HORIZONTAL != 0 {
      FlipColumns(im);
    }
    if dir & FLIP_VERTICAL != 0 {
      FlipRows(im);
    }
  }

  // Rotating and then flipping, for any angle and flip a caller may force.
  method Correct<T(0)>(im: array2<T>, angle: int, flipMode: FlipDirection) returns (out: array2<T>, modified: bool)
    modifies im
    ensures out == im || fresh(out)
    ensures out != im ==> forall x, y :: 0 <= x < im.Length0 && 0 <= y < im.Length1 ==> im[x, y] == old(im[x, y])
    ensures out.Length0 == if Quarter(angle) then im.Length1 else im.Length0
    ensures out.Length1 == if Quarter(angle) then im.Length0 else im.Length1
    ensures forall x, y :: 0 <= x < out.Length0 && 0 <= y < out.Length1 ==>
      var x' := Mirror(flipMode & FLIP_HORIZONTAL != 0, x, out.Length0);
      var y' := Mirror(flipMode & FLIP_VERTICAL != 0, y, out.Length1);
      out[x, y] == old(im[TurnX(angle, im.Length0, im.Length1, x', y'), TurnY(angle, im.Length0, im.Length1, x', y')])
    ensures modified <==> angle != 0 || flipMode != 0
  {
    out, modified := im, false;
    if angle != 0 {
      out := Rotate(im, angle);
      modified := true;
    }
    if flipMode != 0 {
      Flip(out, flipMode);
      modified := true;
    }
  }

  lemma SeenInside(exif: Exif, w: nat, h: nat, c: int, r: int)
    requires 0 <= c < w && 0 <= r < h
    ensures 0 <= SeenX(exif, w, h, c, r) < VisualWidth(exif, w, h)
    ensures 0 <= SeenY(exif, w, h, c, r) < VisualHeight(exif, w, h)
  {
  }

  // The correction looks up, at the place where a stored pixel is to be seen, exactly that pixel.
  lemma TurnedBack(exif: Exif, w: nat, h: nat, c: int, r: int)
    requires 0 <= c < w && 0 <= r < h
    ensures var (angle, dir) := ExifOrientation(exif);
      var x := Mirror(dir & FLIP_HORIZONTAL != 0, SeenX(exif, w, h, c, r), VisualWidth(exif, w, h));
      var y := Mirror(dir & FLIP_VERTICAL != 0, SeenY(exif, w, h, c, r), VisualHeight(exif, w, h));
      TurnX(angle, w, h, x, y) == c && TurnY(angle, w, h, x, y) == r
  {
  }

  /** The rotate and flip steps of Decode: whatever the EXIF value and the size, every stored
      pixel ends up where TIFF 6.0 says it is seen, and the size is the announced one. */
  method Upright<T(0)>(im: array2<T>, exif: Exif) returns (out: array2<T>, modified: bool)
    modifies im
    ensures out == im || fresh(out)
    ensures out != im ==> forall x, y :: 0 <= x < im.Length0 && 0 <= y < im.Length1 ==> im[x, y] == old(im[x, y])
    ensures (out.Length0, out.Length1) == ConfigSize(exif, im.Length0, im.Length1)
    ensures forall c, r :: 0 <= c < im.Length0 && 0 <= r < im.Length1 ==>
      && 0 <= SeenX(exif, im.Length0, im.Length1, c, r) < out.Length0
      && 0 <= SeenY(exif, im.Length0, im.Length1, c, r) < out.Length1
      && out[SeenX(exif, im.Length0, im.Length1, c, r), SeenY(exif, im.Length0, im.Length1, c, r)] == old(im[c, r])
    ensures modified <==> exif.Value? && 2 <= exif.orient <= 8
  {
    var (angle, flipMode) := ExifOrientation(exif);
    out, modified := Correct(im, angle, flipMode);
    ConfigIsVisual(exif, im.Length0, im.Length1);
    assert out.Length0 == VisualWidth(exif, im.Length0, im.Length1);
    assert out.Length1 == VisualHeight(exif, im.Length0, im.Length1);
    forall c, r | 0 <= c < im.Length0 && 0 <= r < im.Length1
      ensures && 0 <= SeenX(exif, im.Length0, im.Length1, c, r) < out.Length0
        && 0 <= SeenY(exif, im.Length0, im.Length1, c, r) < out.Length1
        && out[SeenX(exif, im.Length0, im.Length1, c, r), SeenY(exif, im.Length0, im.Length1, c, r)] == old(im[c, r])
    {
      SeenInside(exif, im.Length0, im.Length1, c, r);
      TurnedBack(exif, im.Length0, im.Length1, c, r);
    }
  }
}
