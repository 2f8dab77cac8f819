/** Key validity that the pure linear attention reads out of a four-dimensional attention mask. */
module AttentionMask {
  import opened Wrappers
  import opened BlockMath
  import opened Softmax

  /** The mask of a batch, one grid for each row: booleans, or additive numbers. */
  datatype AttnMask = Flags(bits: seq<seq<seq<bool>>>) | Additive(scores: seq<seq<seq<Score>>>)

  function Rows(m: AttnMask): nat {
    match m
    case Flags(bits) => |bits|
    case Additive(scores) => |scores|
  }

  predicate InGrid<T>(rows: seq<seq<T>>, len: nat, i: nat, j: nat) {
    i < len && j < len && i < |rows| && j < |rows[i]|
  }

  predicate MinusInfAt(scores: seq<seq<seq<Score>>>, len: nat, b: nat, i: nat, j: nat) {
    b < |scores| && InGrid(scores[b], len, i, j) && scores[b][i][j].Masked?
  }

  /** Some row of the batch, cut to len by len, holds a minus infinity. */
  predicate AnyMinusInf(scores: seq<seq<seq<Score>>>, len: nat) {
    exists b: nat, i: nat, j: nat :: b < |scores| && i < len && j < len && MinusInfAt(scores, len, b, i, j)
  }

  /**
   In row b, query i attends to key j: by its flag; by being finite; or, if the whole batch is finite, by not
   being zero.
   */
  predicate Attends(m: AttnMask, len: nat, b: nat, i: nat, j: nat) {
    match m
    case Flags(bits) => b < |bits| && InGrid(bits[b], len, i, j) && bits[b][i][j]
    case Additive(scores) =>
      && b < |scores| && InGrid(scores[b], len, i, j) && scores[b][i][j].Fin?
      && (AnyMinusInf(scores, len) || scores[b][i][j].value != 0.0)
  }

  predicate Attended(m: AttnMask, len: nat, b: nat, j: nat) {
    exists i: nat :: i < len && Attends(m, len, b, i, j)
  }

  /** The keys of row b that some query attends to. */
  function KeyValid(m: AttnMask, len: nat, b: nat): seq<bool> {
    seq(len, j requires 0 <= j < len => Attended(m, len, b, j))
  }

  /** A key padding mask has priority over an attention mask. */
  function KeyMask(padding: Option<seq<bool>>, attention: Option<AttnMask>, b: nat, len: nat): Option<seq<bool>> {
    if padding.Some? then padding
    else if attention.Some? then Some(KeyValid(attention.value, len, b))
    else None
  }

  function Cut<T>(rows: seq<seq<T>>, len: nat): seq<seq<T>> {
    seq(Least(len, |rows|), i requires 0 <= i < Least(len, |rows|) => rows[i][..Least(len, |rows[i]|)])
  }

  function Least(a: nat, b: nat): nat {
    if a < b then a else b
  }

  /** Whether any number in the batch is minus infinity. */
  method HasMinusInf(attn: seq<seq<seq<Score>>>) returns (found: bool)
    ensures found <==> exists b, i :: 0 <= b < |attn| && 0 <= i < |attn[b]| && Masked in attn[b][i]
  {
    found := false;
    for b := 0 to |attn|
      invariant found <==> exists c, i :: 0 <= c < b && 0 <= i < |attn[c]| && Masked in attn[c][i]
    {
      for i := 0 to |attn[b]|
        invariant found <==>
          || (exists c, k :: 0 <= c < b && 0 <= k < |attn[c]| && Masked in attn[c][k])
          || (exists k :: 0 <= k < i && Masked in attn[b][k])
      {
        found := found || Masked in attn[b][i];
      }
    }
  }

  /** What a cut number says: finite, or not zero, by whether the batch holds a minus infinity. */
  predicate Says(inf: bool, x: Score) {
    if inf then x.Fin? else x != Fin(0.0)
  }

  function FlagsOf(inf: bool, grid: seq<seq<Score>>): seq<seq<bool>> {
    seq(|grid|, i requires 0 <= i < |grid| =>
      seq(|grid[i]|, j requires 0 <= j < |grid[i]| => Says(inf, grid[i][j])))
  }

  /** The boolean grids of the batch, cut to len by len. */
  method AttnBool(m: AttnMask, len: nat) returns (attn: seq<seq<seq<bool>>>)
    ensures |attn| == Rows(m)
    ensures forall b: nat, i: nat, j: nat :: b < |attn| ==>
      ((i < |attn[b]| && j < |attn[b][i]| && attn[b][i][j]) <==> Attends(m, len, b, i, j))
  {
    match m
    case Flags(bits) =>
      attn := seq(|bits|, b requires 0 <= b < |bits| => Cut(bits[b], len));
    case Additive(scores) =>
      var cut := seq(|scores|, b requires 0 <= b < |scores| => Cut(scores[b], len));
      var inf := HasMinusInf(cut);
      assert inf <==> AnyMinusInf(scores, len) by { CutMinusInf(scores, len, cut); }
      attn := seq(|cut|, b requires 0 <= b < |cut| => FlagsOf(inf, cut[b]));
      forall b: nat, i: nat, j: nat | b < |attn|
        ensures (i < |attn[b]| && j < |attn[b][i]| && attn[b][i][j]) <==> Attends(m, len, b, i, j)
      {
        hide AnyMinusInf;
        if !inf && InGrid(scores[b], len, i, j) { NotMinusInf(scores, len, b, i, j); }
      }
  }

  lemma NotMinusInf(scores: seq<seq<seq<Score>>>, len: nat, b: nat, i: nat, j: nat)
    requires !AnyMinusInf(scores, len) && b < |scores| && InGrid(scores[b], len, i, j)
    ensures scores[b][i][j].Fin?
  {
    assert MinusInfAt(scores, len, b, i, j) <==> scores[b][i][j].Masked?;
  }

  lemma CutMinusInf(scores: seq<seq<seq<Score>>>, len: nat, cut: seq<seq<seq<Score>>>)
    requires |cut| == |scores| && forall b :: 0 <= b < |cut| ==> cut[b] == Cut(scores[b], len)
    ensures AnyMinusInf(scores, len) <==> exists b, i :: 0 <= b < |cut| && 0 <= i < |cut[b]| && Masked in cut[b][i]
  {
    if AnyMinusInf(scores, len) {
      var b: nat, i: nat, j: nat :| b < |scores| && i < len && j < len && MinusInfAt(scores, len, b, i, j);
      assert cut[b][i][j] == Masked;
    }
    if exists b, i :: 0 <= b < |cut| && 0 <= i < |cut[b]| && Masked in cut[b][i] {
      var b, i :| 0 <= b < |cut| && 0 <= i < |cut[b]| && Masked in cut[b][i];
      var j :| 0 <= j < |cut[b][i]| && cut[b][i][j] == Masked;
      assert MinusInfAt(scores, len, b, i, j);
    }
  }

  /** Each column of a grid: whether any row has it set; columns the grid lacks are unset. */
  method AnyQuery(grid: seq<seq<bool>>, len: nat) returns (row: seq<bool>)
    ensures |row| == len
    ensures forall j :: 0 <= j < len ==> (row[j] <==> exists i :: 0 <= i < |grid| && j < |grid[i]| && grid[i][j])
  {
    row := seq(len, _ => false);
    for i := 0 to |grid|
      invariant |row| == len
      invariant forall j :: 0 <= j < len ==> (row[j] <==> exists k :: 0 <= k < i && j < |grid[k]| && grid[k][j])
    {
      row := seq(len, j requires 0 <= j < len => row[j] || (j < |grid[i]| && grid[i][j]));
    }
  }

  /** _infer_key_valid_from_4d_mask, over all rows of the batch. */
  method InferKeyValid(m: AttnMask, len: nat) returns (valid: seq<seq<bool>>)
    ensures |valid| == Rows(m) && forall b :: 0 <= b < Rows(m) ==> |valid[b]| == len
    ensures forall b, j :: 0 <= b < Rows(m) && 0 <= j < len ==>
      (valid[b][j] <==> exists i: nat :: i < len && Attends(m, len, b, i, j))
  {
    hide Attends;
    var attn := AttnBool(m, len);
    valid := [];
    for b := 0 to |attn|
      invariant |valid| == b && forall c :: 0 <= c < b ==> |valid[c]| == len
      invariant forall c, j :: 0 <= c < b && 0 <= j < len ==> (valid[c][j] <==> Attended(m, len, c, j))
    {
      var row := AnyQuery(attn[b], len);
      forall j | 0 <= j < len ensures row[j] <==> Attended(m, len, b, j) {
        AttendedIff(m, len, b, j, attn[b]);
      }
      valid := valid + [row];
    }
    assert forall b, j :: 0 <= b < Rows(m) && 0 <= j < len ==> (valid[b][j] <==> Attended(m, len, b, j));
  }

  lemma AttendedIff(m: AttnMask, len: nat, b: nat, j: nat, grid: seq<seq<bool>>)
    requires forall i: nat :: (i < |grid| && j < |grid[i]| && grid[i][j]) <==> Attends(m, len, b, i, j)
    ensures Attended(m, len, b, j) <==> exists i :: 0 <= i < |grid| && j < |grid[i]| && grid[i][j]
  {
    forall i: nat | Attends(m, len, b, i, j) ensures i < len {}
    if Attended(m, len, b, j) {
      var i: nat :| i < len && Attends(m, len, b, i, j);
      assert i < |grid| && grid[i][j];
    }
  }

  /** The generator's mask over n blocks: block-lower-triangular, made additive by the model's forward pass. */
  function BlockMask(bl: pos, n: nat): seq<seq<Score>> {
    var len := Span(n, bl);
    seq(len, i requires 0 <= i < len => seq(len, j requires 0 <= j < len =>
      if j / bl <= i / bl then Fin(0.0) else Masked))
  }

  /** Every row of the batch gets the same grid. */
  function GeneratorMask(bl: pos, n: nat, batch: nat): AttnMask {
    Additive(seq(batch, _ => BlockMask(bl, n)))
  }

  lemma BlockMaskAt(bl: pos, n: nat, i: nat, j: nat)
    requires i < Span(n, bl) && j < Span(n, bl)
    ensures var scores := BlockMask(bl, n);
            && |scores| == Span(n, bl) && |scores[i]| == Span(n, bl)
            && scores[i][j] == if j / bl <= i / bl then Fin(0.0) else Masked
  {
    hide Span;
  }

  lemma QuotientBelow(i: nat, n: nat, bl: pos)
    requires i < Span(n, bl)
    ensures i / bl < n
  {
    QuotientSpan(i, bl);
    SpanBelow(i / bl, n, bl);
  }

  /** A one-block window has no minus infinity in its mask; any larger window has one. */
  lemma MinusInfIff(bl: pos, n: nat, batch: nat, len: nat)
    requires len >= Span(n + 1, bl) && batch > 0
    ensures AnyMinusInf(GeneratorMask(bl, n + 1, batch).scores, len) <==> n > 0
  {
    hide BlockMask, Span;
    var grid, scores := BlockMask(bl, n + 1), GeneratorMask(bl, n + 1, batch).scores;
    if n > 0 {
      SecondBlock(bl, n);
      assert scores[0] == grid && MinusInfAt(scores, len, 0, 0, bl);
    } else {
      forall b: nat, i: nat, j: nat | b < |scores| && i < len && j < len ensures !MinusInfAt(scores, len, b, i, j) {
        OneBlockFinite(bl, len, i, j);
      }
    }
  }

  lemma OneBlockFinite(bl: pos, len: nat, i: nat, j: nat)
    ensures InGrid(BlockMask(bl, 1), len, i, j) ==> BlockMask(bl, 1)[i][j].Fin?
  {
    hide BlockMask, Span;
    BlockMaskSize(bl, 1, i);
    if InGrid(BlockMask(bl, 1), len, i, j) {
      BlockMaskAt(bl, 1, i, j);
      QuotientBelow(i, 1, bl);
      QuotientBelow(j, 1, bl);
    }
  }

  lemma SecondBlock(bl: pos, n: nat)
    requires n > 0
    ensures bl < Span(n + 1, bl)
    ensures var scores := BlockMask(bl, n + 1);
            bl < |scores| && bl < |scores[0]| && scores[0][bl] == Masked
  {
    hide BlockMask, Span;
    SpanMonotone(2, n + 1, bl);
    TwoBlocks(bl);
    BlockMaskAt(bl, n + 1, 0, bl);
    RemainderUnique(0, 0, 0, bl);
    RemainderUnique(bl, 1, 0, bl);
  }

  lemma TwoBlocks(bl: pos)
    ensures Span(2, bl) == bl + bl && Span(1, bl) == bl
  {
    assert Span(1, bl) == Span(0, bl) + bl;
  }

  lemma BlockMaskSize(bl: pos, n: nat, i: nat)
    ensures var scores := BlockMask(bl, n);
            |scores| == Span(n, bl) && (i < |scores| ==> |scores[i]| == Span(n, bl))
  {
    hide Span;
  }

  /**
   What the inference makes of the generator's mask over a window of n + 1 blocks: every key valid if there is
   more than one block, and no key valid if there is only one.
   */
  lemma GeneratorKeys(bl: pos, n: nat, batch: nat, b: nat, len: nat, j: nat)
    requires Span(n + 1, bl) <= len && j < Span(n + 1, bl) && b < batch
    ensures KeyValid(GeneratorMask(bl, n + 1, batch), len, b)[j] <==> n > 0
  {
    hide BlockMask, Span, AnyMinusInf;
    var m, size := GeneratorMask(bl, n + 1, batch), Span(n + 1, bl);
    assert m.scores[b] == BlockMask(bl, n + 1);
    MinusInfIff(bl, n, batch, len);
    if n > 0 {
      var i: nat := size - 1;
      BlockMaskAt(bl, n + 1, i, j);
      QuotientBelow(j, n + 1, bl);
      LastQuotient(bl, n);
      assert Attends(m, len, b, i, j);
    } else {
      forall i: nat | i < len ensures !Attends(m, len, b, i, j) {
        BlockMaskSize(bl, n + 1, i);
        if i < size { BlockMaskAt(bl, n + 1, i, j); }
      }
    }
  }

  lemma LastQuotient(bl: pos, n: nat)
    ensures Span(n + 1, bl) > 0 && (Span(n + 1, bl) - 1) / bl == n
  {
    SpanIsProduct(n, bl);
    RemainderUnique(Span(n + 1, bl) - 1, n, bl - 1, bl);
  }
}
