/**
 * The heatmap image of one grid field (`Image` in src/utils/Image.h).
 *
 * The constructor copies the interior of a ghost-padded field into a flat
 * buffer, transposed and flipped for the plotting library: interior cell
 * (i, j) lands at flat index j * nx + i, read from the field's column
 * ny + nghost - 1 - j. Inside the constructor the parameters `nx` and `ny`
 * shadow the members, which end up swapped.
 */
module Heatmap {

  /** The flat index the constructor writes for interior cell (i, j) of an
      nx-wide image: cell (i, j) lands in the j-th block of nx indices. */
  function Flat(i: int, j: int, nx: int): (k: int)
    ensures 0 <= i < nx ==> j * nx <= k < (j + 1) * nx
  {
    j * nx + i
  }

  /** Every write index lies inside the nx * ny buffer. */
  lemma FlatInRange(i: int, j: int, nx: int, ny: int)
    requires 0 <= i < nx && 0 <= j < ny
    ensures 0 <= Flat(i, j, nx) < nx * ny
  {
    assert j * nx <= (ny - 1) * nx by {
      assert (ny - 1) * nx - j * nx == (ny - 1 - j) * nx;
    }
    assert (ny - 1) * nx + nx == nx * ny;
  }

  /** Multiplying by a non-negative factor keeps the order. */
  lemma MulMonotone(a: int, b: int, c: int)
    requires a <= b && 0 <= c
    ensures a * c <= b * c
  {
    assert b * c - a * c == (b - a) * c;
  }

  /** The write index determines the cell: column i is the remainder and
      row j the quotient by nx. */
  lemma FlatDecode(i: int, j: int, nx: int)
    requires 0 <= i < nx && 0 <= j
    ensures Flat(i, j, nx) % nx == i && Flat(i, j, nx) / nx == j
  {
    var k := Flat(i, j, nx);
    var q, r := k / nx, k % nx;
    assert q * nx + r == j * nx + i;
    if q > j {
      MulMonotone(j + 1, q, nx);
    } else if q < j {
      MulMonotone(q + 1, j, nx);
    }
  }

  /** No two cells share a write index. */
  lemma FlatInjective(i: int, j: int, i2: int, j2: int, nx: int)
    requires 0 <= i < nx && 0 <= j && 0 <= i2 < nx && 0 <= j2
    requires Flat(i, j, nx) == Flat(i2, j2, nx)
    ensures i == i2 && j == j2
  {
    FlatDecode(i, j, nx);
    FlatDecode(i2, j2, nx);
  }

  /** Every buffer index is written, by the cell (k % nx, k / nx). */
  lemma FlatOnto(k: int, nx: int, ny: int)
    requires 0 <= nx && 0 <= ny && 0 <= k < nx * ny
    ensures 0 <= k % nx < nx && 0 <= k / nx < ny
    ensures Flat(k % nx, k / nx, nx) == k
  {
    assert nx != 0;
    if k / nx >= ny {
      MulMonotone(ny, k / nx, nx);
    }
  }

  /** The field is read at row nghost + i and column ny + nghost - 1 - j for
      every interior cell: it has the rows, and those rows the columns. */
  ghost predicate Readable(nghost: int, nx: int, ny: int, value: seq<seq<real>>)
  {
    nx <= 0 || ny <= 0 ||
    (0 <= nghost && nghost + nx <= |value| &&
     forall r :: nghost <= r < nghost + nx ==> ny + nghost <= |value[r]|)
  }

  /** The image the constructor produces, as a flat sequence. */
  function Transposed(nghost: int, nx: int, ny: int, value: seq<seq<real>>): (t: seq<real>)
    requires 0 <= nx && 0 <= ny && Readable(nghost, nx, ny, value)
    ensures |t| == nx * ny
  {
    seq(nx * ny, k requires 0 <= k < nx * ny =>
      FlatOnto(k, nx, ny);
      value[nghost + k % nx][ny + nghost - 1 - k / nx])
  }

  /** Cell (i, j) of the image holds the field's interior cell at row
      nghost + i, column ny + nghost - 1 - j: the rows are the field's x index
      and the columns its y index counted down from the top. */
  lemma TransposedAt(nghost: int, nx: int, ny: int, value: seq<seq<real>>, i: int, j: int)
    requires 0 <= nx && 0 <= ny && Readable(nghost, nx, ny, value)
    requires 0 <= i < nx && 0 <= j < ny
    ensures 0 <= Flat(i, j, nx) < |Transposed(nghost, nx, ny, value)|
    ensures Transposed(nghost, nx, ny, value)[Flat(i, j, nx)] == value[nghost + i][ny + nghost - 1 - j]
  {
    FlatInRange(i, j, nx, ny);
    FlatDecode(i, j, nx);
  }

  /** `d` agrees with the target image `t` on every cell the constructor's
      loops have written before reaching cell (i, j): all of the columns
      before i, and the first j cells of column i. */
  ghost predicate BufferFilledTo(d: seq<real>, t: seq<real>, nx: int, i: int, j: int)
    requires 0 < nx
  {
    |d| == |t| &&
    forall k :: 0 <= k < |d| && (k % nx < i || (k % nx == i && k / nx < j)) ==> d[k] == t[k]
  }

  /** Writing the target value of cell (i, j) extends the filled region by
      that cell. */
  lemma BufferStep(d: seq<real>, t: seq<real>, nx: int, ny: int, i: int, j: int)
    requires 0 <= i < nx && 0 <= j < ny && |d| == nx * ny
    requires BufferFilledTo(d, t, nx, i, j)
    ensures 0 <= Flat(i, j, nx) < |d|
    ensures BufferFilledTo(d[Flat(i, j, nx) := t[Flat(i, j, nx)]], t, nx, i, j + 1)
  {
    FlatInRange(i, j, nx, ny);
    var w := Flat(i, j, nx);
    var d' := d[w := t[w]];
    forall k | 0 <= k < |d'| && (k % nx < i || (k % nx == i && k / nx < j + 1))
      ensures d'[k] == t[k]
    {
      FlatOnto(k, nx, ny);
    }
  }

  /** A column filled to its last cell starts the next column. */
  lemma BufferColumn(d: seq<real>, t: seq<real>, nx: int, ny: int, i: int)
    requires 0 < nx && 0 <= ny && |d| == nx * ny
    requires BufferFilledTo(d, t, nx, i, ny)
    ensures BufferFilledTo(d, t, nx, i + 1, 0)
  {
    forall k | 0 <= k < |d| && k % nx < i + 1
      ensures d[k] == t[k]
    {
      FlatOnto(k, nx, ny);
    }
  }

  /** Once every column is filled, the buffer is the target image. */
  lemma BufferDone(d: seq<real>, t: seq<real>, nx: int, ny: int)
    requires 0 < nx && 0 <= ny && |d| == nx * ny
    requires BufferFilledTo(d, t, nx, nx, 0)
    ensures d == t
  {
    forall k | 0 <= k < |d|
      ensures d[k] == t[k]
    {
      FlatOnto(k, nx, ny);
    }
  }

  /** The heatmap image: `nx` columns and `ny` rows after the swap, and the
      flat buffer they index. */
  class Image {
    var nx: int
    var ny: int
    var data: array<real>

    /** Builds the transposed, flipped copy of the interior of `value`. */
    constructor (nghost: int, nx: int, ny: int, value: seq<seq<real>>)
      requires 0 <= nx && 0 <= ny
      requires Readable(nghost, nx, ny, value)
      ensures this.nx == ny && this.ny == nx
      ensures fresh(data) && data.Length == nx * ny
      ensures data[..] == Transposed(nghost, nx, ny, value)
    {
      this.nx := ny;
      this.ny := nx;
      this.data := new real[ny * nx];
      new;
      if nx == 0 {
        return;
      }
      ghost var t := Transposed(nghost, nx, ny, value);
      var top := ny + nghost;
      for i := 0 to nx
        modifies data
        invariant BufferFilledTo(data[..], t, nx, i, 0)
      {
        for j := 0 to ny
          modifies data
          invariant BufferFilledTo(data[..], t, nx, i, j)
        {
          BufferStep(data[..], t, nx, ny, i, j);
          TransposedAt(nghost, nx, ny, value, i, j);
          data[Flat(i, j, nx)] := value[nghost + i][top - (j + 1)];
        }
        BufferColumn(data[..], t, nx, ny, i);
      }
      BufferDone(data[..], t, nx, ny);
    }

    /** The lines `Print` writes, one per image column index i, each the ny
        values stored from flat index i * ny on; together they are the
        whole buffer, in storage order. */
    method Print() returns (lines: seq<seq<real>>)
      requires 0 <= nx && 0 <= ny && data.Length == nx * ny
      ensures |lines| == nx
      ensures forall i :: 0 <= i < nx ==> |lines[i]| == ny
      ensures Concat(lines) == data[..]
    {
      lines := [];
      for i := 0 to nx
        invariant |lines| == i
        invariant forall k :: 0 <= k < i ==> |lines[k]| == ny
        invariant i * ny <= data.Length && Concat(lines) == data[..i * ny]
      {
        MulMonotone(i + 1, nx, ny);
        var line := [];
        for j := 0 to ny
          invariant line == data[i * ny .. i * ny + j]
        {
          line := line + [data[i * ny + j]];
        }
        ConcatSnoc(lines, line);
        assert data[..i * ny] + data[i * ny .. i * ny + ny] == data[..(i + 1) * ny];
        lines := lines + [line];
      }
      assert data[..nx * ny] == data[..];
    }
  }

  /** The lines of a text, joined. */
  function Concat(lines: seq<seq<real>>): seq<real>
  {
    if lines == [] then [] else Concat(lines[..|lines| - 1]) + lines[|lines| - 1]
  }

  /** Appending a line appends its values. */
  lemma ConcatSnoc(lines: seq<seq<real>>, line: seq<real>)
    ensures Concat(lines + [line]) == Concat(lines) + line
  {
    assert (lines + [line])[..|lines|] == lines;
  }
}
