/** The tile writer of the output stage: where the output directory is, how each tile of a
    scene is numbered on the grid and named, and which array is saved for it. The OME-TIFF
    encoding and the file system itself are outside the model: a write is the pair of the file
    name and the array handed to the writer. */
module TileWriting {
  import opened Outcomes
  import opened Images
  import opened Tensors
  import Arith

  /** The decimal digit `d` as a character. */
  function DigitChar(d: nat): (ch: char)
    requires d < 10
    ensures '0' <= ch <= '9'
  {
    "0123456789"[d]
  }

  /** The value of a decimal digit character. */
  function DigitValue(ch: char): (d: nat)
    requires '0' <= ch <= '9'
    ensures d < 10
  {
    (ch as int - '0' as int) as nat
  }

  predicate AllDigits(s: string) {
    forall i | 0 <= i < |s| :: '0' <= s[i] <= '9'
  }

  /** Python's `str(n)` for a non-negative integer (what an f-string substitutes): its
      decimal digits, most significant first, with no leading zeros. */
  function Decimal(n: nat): (s: string)
    ensures |s| > 0 && AllDigits(s)
    ensures |s| > 1 ==> s[0] != '0'
    decreases n
  {
    if n < 10 then [DigitChar(n)] else Decimal(n / 10) + [DigitChar(n % 10)]
  }

  /** Reading a string of decimal digits back as a number. */
  function DecimalValue(s: string): nat
    requires AllDigits(s)
    decreases |s|
  {
    if |s| == 0 then 0 else DecimalValue(s[..|s| - 1]) * 10 + DigitValue(s[|s| - 1])
  }

  lemma DigitRoundTrip(d: nat)
    requires d < 10
    ensures DigitValue(DigitChar(d)) == d
  {
    assert "0123456789"[0] == '0' && "0123456789"[1] == '1' && "0123456789"[2] == '2';
    assert "0123456789"[3] == '3' && "0123456789"[4] == '4' && "0123456789"[5] == '5';
    assert "0123456789"[6] == '6' && "0123456789"[7] == '7' && "0123456789"[8] == '8';
    assert "0123456789"[9] == '9';
  }

  /** The decimal form loses nothing: reading it back gives the number. */
  lemma {:induction false} DecimalRoundTrip(n: nat)
    ensures DecimalValue(Decimal(n)) == n
    decreases n
  {
    var s := Decimal(n);
    if n < 10 {
      DigitRoundTrip(n);
      assert s[..0] == [];
    } else {
      DecimalRoundTrip(n / 10);
      DigitRoundTrip(n % 10);
      assert s[..|s| - 1] == Decimal(n / 10);
    }
  }

  /** Distinct numbers have distinct decimal forms. */
  lemma DecimalInjective(a: nat, b: nat)
    requires Decimal(a) == Decimal(b)
    ensures a == b
  {
    DecimalRoundTrip(a);
    DecimalRoundTrip(b);
  }

  /** The index of the first dash in s, or |s| when there is none. */
  function DashIndex(s: string): (i: nat)
    ensures i <= |s|
  {
    if |s| == 0 || s[0] == '-' then 0 else 1 + DashIndex(s[1..])
  }

  /** In `a + "-" + b` with `a` made of digits, the first dash is the one after `a`. */
  lemma {:induction false} DashAfterDigits(a: string, b: string)
    requires AllDigits(a)
    ensures DashIndex(a + "-" + b) == |a|
  {
    if |a| > 0 {
      DashAfterDigits(a[1..], b);
      assert (a + "-" + b)[1..] == a[1..] + "-" + b;
    }
  }

  /** `a + "-" + b` splits uniquely at its dash when `a` has only digits. */
  lemma SplitAtDash(a1: string, b1: string, a2: string, b2: string)
    requires AllDigits(a1) && AllDigits(a2)
    requires a1 + "-" + b1 == a2 + "-" + b2
    ensures a1 == a2 && b1 == b2
  {
    var s1, s2 := a1 + "-" + b1, a2 + "-" + b2;
    DashAfterDigits(a1, b1);
    DashAfterDigits(a2, b2);
    assert a1 == s1[..|a1|] && a2 == s2[..|a2|];
    assert b1 == s1[|a1| + 1..] && b2 == s2[|a2| + 1..];
  }

  /** `_get_output_path`: the absolute form of the configured output directory with a slash
      appended. Resolving the absolute path depends on the working directory, so it is the
      parameter `absDirectory`. */
  function OutputPath(absDirectory: string): (r: string)
    ensures |r| > 0 && r[|r| - 1] == '/'
    ensures r[..|r| - 1] == absDirectory
  {
    absDirectory + "/"
  }

  /** The 1-based grid row of tile k, `int(k / cols) + 1` (for a non-negative k and a positive
      cols the truncated quotient is the floor). */
  function TileRow(k: nat, cols: nat): (r: nat)
    requires cols > 0
    ensures r >= 1
  {
    k / cols + 1
  }

  /** The 1-based grid column of tile k, `k % cols + 1`. */
  function TileColumn(k: nat, cols: nat): (r: nat)
    requires cols > 0
    ensures 1 <= r <= cols
  {
    k % cols + 1
  }

  /** Tiles are numbered row-major from (1, 1): the column lies in 1..cols, and tile k is
      recovered from its position as `(row - 1) * cols + (column - 1)`. On a rows x cols grid
      the row lies in 1..rows. */
  lemma TilePosition(k: nat, cols: nat, rows: nat)
    requires cols > 0
    ensures 1 <= TileColumn(k, cols) <= cols && 1 <= TileRow(k, cols)
    ensures (TileRow(k, cols) - 1) * cols + (TileColumn(k, cols) - 1) == k
    ensures k < rows * cols ==> TileRow(k, cols) <= rows
  {
    if k < rows * cols {
      Arith.RowMajorInverse(k, rows, cols);
    }
  }

  /** Distinct tiles get distinct grid positions. */
  lemma TilePositionInjective(k1: nat, k2: nat, cols: nat)
    requires cols > 0
    requires TileRow(k1, cols) == TileRow(k2, cols) && TileColumn(k1, cols) == TileColumn(k2, cols)
    ensures k1 == k2
  {
    TilePosition(k1, cols, 0);
    TilePosition(k2, cols, 0);
  }

  /** The file name `OME_tile_{row}-{column}.tiff`. */
  function TileFileName(row: nat, column: nat): (r: string)
    ensures |r| >= 17 && r[..9] == "OME_tile_" && r[|r| - 5..] == ".tiff"
  {
    "OME_tile_" + Decimal(row) + "-" + Decimal(column) + ".tiff"
  }

  /** A common prefix and suffix can be cancelled from both sides of an equation. */
  lemma CancelAffixes(p: string, m1: string, m2: string, q: string)
    requires p + m1 + q == p + m2 + q
    ensures m1 == m2
  {
    var n1, n2 := p + m1 + q, p + m2 + q;
    assert |m1| == |m2|;
    assert m1 == n1[|p|..|n1| - |q|];
    assert m2 == n2[|p|..|n2| - |q|];
  }

  /** The middle of a tile file name is `{row}-{column}`. */
  lemma TileFileNameMiddle(row: nat, column: nat)
    ensures TileFileName(row, column) == "OME_tile_" + (Decimal(row) + "-" + Decimal(column)) + ".tiff"
  {
  }

  /** A file name determines the grid position it was made from. */
  lemma TileFileNameInjective(r1: nat, c1: nat, r2: nat, c2: nat)
    requires TileFileName(r1, c1) == TileFileName(r2, c2)
    ensures r1 == r2 && c1 == c2
  {
    TileFileNameMiddle(r1, c1);
    TileFileNameMiddle(r2, c2);
    CancelAffixes("OME_tile_", Decimal(r1) + "-" + Decimal(c1), Decimal(r2) + "-" + Decimal(c2), ".tiff");
    SplitAtDash(Decimal(r1), Decimal(c1), Decimal(r2), Decimal(c2));
    DecimalInjective(r1, r2);
    DecimalInjective(c1, c2);
  }

  /** Tile k of a scene with leading axes (T, C, M), as saved: `scene[tile]` after the tile axis
      is moved to the front, with a unit axis inserted at position 1, that is (T, 1, C, Y, X). */
  function TileData(scene: Tensor5, k: nat): (r: Tensor5)
    requires k < scene.n2
    ensures r.n0 == scene.n0 && r.n1 == 1 && r.n2 == scene.n1 && r.h == scene.h && r.w == scene.w
    ensures forall t, c | 0 <= t < scene.n0 && 0 <= c < scene.n1 :: r.at[t][0][c] == scene.at[t][c][k]
  {
    Stack5(scene.n0, 1, scene.n1, scene.h, scene.w,
      seq(scene.n0, t requires 0 <= t < scene.n0 =>
        [seq(scene.n1, c requires 0 <= c < scene.n1 => scene.at[t][c][k])]))
  }

  /** One tile file: its name inside the tile directory and the array saved in it. */
  datatype TileFile = TileFile(name: string, data: Tensor5)

  /** The name of the file written for tile k. */
  function TileName(cols: nat, k: nat): string
    requires cols > 0
  {
    TileFileName(TileRow(k, cols), TileColumn(k, cols))
  }

  /** Distinct tiles are written to distinct files, so no tile overwrites another. */
  lemma TileNamesDistinct(cols: nat, k1: nat, k2: nat)
    requires cols > 0 && k1 != k2
    ensures TileName(cols, k1) != TileName(cols, k2)
  {
    if TileName(cols, k1) == TileName(cols, k2) {
      TileFileNameInjective(TileRow(k1, cols), TileColumn(k1, cols), TileRow(k2, cols), TileColumn(k2, cols));
      TilePositionInjective(k1, k2, cols);
    }
  }

  /** The file written for tile k. */
  function TileFileFor(scene: Tensor5, cols: nat, k: nat): TileFile
    requires cols > 0 && k < scene.n2
  {
    TileFile(TileName(cols, k), TileData(scene, k))
  }

  /** The writer of one run: the resolved output directory and the grid shape of the run's
      parameters. */
  class OutputWriter {
    const outputDir: string
    const gridShape: (nat, nat)

    /** `__init__`: the output directory is resolved once, by `_get_output_path`. */
    constructor (absOutputDirectory: string, gridShape: (nat, nat))
      ensures outputDir == OutputPath(absOutputDirectory) && this.gridShape == gridShape
    {
      outputDir := OutputPath(absOutputDirectory);
      this.gridShape := gridShape;
    }

    /** `write_tiles`: one file per tile of scene 0, in tile order. Indexing scene 0 of an empty
        stack raises IndexError; the row computation divides by the grid's column count, so a
        grid with no columns raises ZeroDivisionError at the first tile. */
    method WriteTiles(czi: seq<Tensor5>) returns (r: Result<seq<TileFile>>)
      ensures |czi| == 0 ==> r == Err(IndexError)
      ensures |czi| > 0 && czi[0].n2 > 0 && gridShape.1 == 0 ==> r == Err(ZeroDivisionError)
      ensures r.Ok? <==> |czi| > 0 && (czi[0].n2 == 0 || gridShape.1 > 0)
      ensures r.Ok? ==> |r.value| == czi[0].n2
      ensures r.Ok? ==> forall k | 0 <= k < |r.value| ::
        gridShape.1 > 0 && r.value[k] == TileFileFor(czi[0], gridShape.1, k)
      ensures r.Ok? ==> forall i, j | 0 <= i < j < |r.value| :: r.value[i].name != r.value[j].name
    {
      if |czi| == 0 {
        return Err(IndexError);
      }
      var scene := czi[0];
      var cols := gridShape.1;
      var files: seq<TileFile> := [];
      for k := 0 to scene.n2
        invariant k > 0 ==> cols > 0
        invariant |files| == k
        invariant forall i | 0 <= i < k :: cols > 0 && files[i] == TileFileFor(scene, cols, i)
      {
        if cols == 0 {
          return Err(ZeroDivisionError);
        }
        var file := WriteTile(scene, cols, k);
        files := files + [file];
      }
      forall i, j | 0 <= i < j < |files|
        ensures files[i].name != files[j].name
      {
        TileNamesDistinct(cols, i, j);
      }
      r := Ok(files);
    }

    /** One iteration of `write_tiles`: the tile's grid position, its file name and the array
        saved for it. */
    method WriteTile(scene: Tensor5, cols: nat, k: nat) returns (file: TileFile)
      requires cols > 0 && k < scene.n2
      ensures file == TileFileFor(scene, cols, k)
    {
      var row := k / cols + 1;
      var column := k % cols + 1;
      var name := "OME_tile_" + Decimal(row) + "-" + Decimal(column) + ".tiff";
      file := TileFile(name, TileData(scene, k));
    }
  }
}
