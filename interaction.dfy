/**
 * The touchpad side of `haptic_ann_project/controllers/interaction2.py`: a
 * 50 x 50 pressure grid written one cell per touch, a buffer of raw frames,
 * and the guard that answers `None` when nothing has been buffered.
 */
module Interaction {
  import opened Wrappers

  /** Rows and columns of `data_point`. */
  const GridSize: nat := 50

  /** One buffered raw frame, a grid of pressures. */
  type Frame = seq<seq<real>>

  /** A touch event `(x, y, pressure)`: column, row and pressure. */
  datatype Touch = Touch(x: int, y: int, pressure: real)

  /** The bounds check of `collect_raw_data` for a grid of `rows` x `cols`: row `y` and column `x` both inside. */
  function InBounds(rows: int, cols: int, x: int, y: int): (b: bool)
    // only a non-empty grid accepts a touch
    ensures b ==> 0 < rows && 0 < cols
  {
    0 <= y < rows && 0 <= x < cols
  }

  /** Negative coordinates are rejected by the check, not wrapped round as Python indexing would. */
  lemma NegativeIsOutOfBounds(rows: int, cols: int, x: int, y: int)
    requires x < 0 || y < 0
    ensures !InBounds(rows, cols, x, y)
  {
  }

  /**
   * `InteractionController`: the 50 x 50 grid is one array written in place;
   * the buffer is a list that `reset_interaction` replaces.
   */
  class InteractionController {
    const dataPoint: array2<real>
    var rawDataBuffer: seq<Frame>

    /** `__init__`: an all-zero grid and an empty buffer. */
    constructor ()
      ensures fresh(dataPoint)
      ensures dataPoint.Length0 == GridSize && dataPoint.Length1 == GridSize
      ensures forall i, j :: 0 <= i < GridSize && 0 <= j < GridSize ==> dataPoint[i, j] == 0.0
      ensures rawDataBuffer == []
    {
      dataPoint := new real[GridSize, GridSize]((i, j) => 0.0);
      rawDataBuffer := [];
    }

    /**
     * `collect_raw_data((x, y, pressure))`: an in-bounds touch sets cell
     * `[y, x]` (row, then column) and no other; any other touch changes nothing.
     */
    method CollectRawData(position: Touch)
      modifies dataPoint
      ensures InBounds(dataPoint.Length0, dataPoint.Length1, position.x, position.y) ==>
        dataPoint[position.y, position.x] == position.pressure
      ensures forall i, j :: 0 <= i < dataPoint.Length0 && 0 <= j < dataPoint.Length1 && (i != position.y || j != position.x) ==>
        dataPoint[i, j] == old(dataPoint[i, j])
      ensures !InBounds(dataPoint.Length0, dataPoint.Length1, position.x, position.y) ==> unchanged(dataPoint)
      ensures rawDataBuffer == old(rawDataBuffer)
    {
      var x, y, pressure := position.x, position.y, position.pressure;
      if 0 <= y < dataPoint.Length0 && 0 <= x < dataPoint.Length1 {
        dataPoint[y, x] := pressure;
      }
    }

    /**
     * `preprocess_and_infer`: `None` exactly when the buffer is empty;
     * otherwise the answer of `infer`, which stands for summing the frames,
     * preprocessing them and running the model.
     */
    method PreprocessAndInfer(infer: seq<Frame> -> int) returns (r: Option<int>)
      ensures r.None? <==> rawDataBuffer == []
      ensures r.Some? ==> r.value == infer(rawDataBuffer)
    {
      if rawDataBuffer == [] {
        return None;
      }
      r := Some(infer(rawDataBuffer));
    }

    /** `reset_interaction`: empty the buffer; the grid is not touched. */
    method ResetInteraction()
      modifies this
      ensures rawDataBuffer == []
      ensures unchanged(dataPoint)
    {
      rawDataBuffer := [];
    }
  }
}
