/**
 * The layout arithmetic of `NeuralNetVisualizer` in
 * `haptic_ann_project/viz_test.py`: where each neuron of each layer is drawn,
 * and the blue-to-red colour of an activation.
 */
module VizTest {
  import opened Numerics

  /** A drawing position in pixels. */
  datatype Point = Point(x: int, y: int)

  /** A colour `(red, green, blue)`. */
  datatype Colour = Colour(red: int, green: int, blue: int)

  /** The default `input_size` and the `layers` the visualiser sets up. */
  const DefaultWidth: int := 400
  const DefaultHeight: int := 400
  const DefaultLayers: seq<nat> := [3, 64, 32, 10]

  /** `input_size[0] // (len(layers) + 1)`: the divisor is positive, so Dafny's `/` is Python's `//`. */
  function SpacingX(width: int, layers: seq<nat>): int {
    width / (|layers| + 1)
  }

  /** `input_size[1] // (neurons + 1)`. */
  function SpacingY(height: int, neurons: nat): int {
    height / (neurons + 1)
  }

  /** The point of neuron `j` of layer `i`. */
  function NeuronPosition(width: int, height: int, layers: seq<nat>, i: nat, j: nat): (r: Point)
    requires i < |layers|
    ensures width >= 0 && height >= 0 ==> 0 <= r.x && 0 <= r.y
  {
    Point(SpacingX(width, layers) * (i + 1), SpacingY(height, layers[i]) * (j + 1))
  }

  /** `_calculate_positions`: one list per layer, one point per neuron. */
  method CalculatePositions(width: int, height: int, layers: seq<nat>) returns (positions: seq<seq<Point>>)
    ensures |positions| == |layers|
    ensures forall i :: 0 <= i < |layers| ==> |positions[i]| == layers[i]
    ensures forall i, j :: 0 <= i < |layers| && 0 <= j < layers[i] ==>
      positions[i][j] == NeuronPosition(width, height, layers, i, j)
  {
    positions := [];
    var spacingX := width / (|layers| + 1);
    var i := 0;
    while i < |layers|
      invariant 0 <= i <= |layers|
      invariant |positions| == i
      invariant forall k :: 0 <= k < i ==> |positions[k]| == layers[k]
      invariant forall k, j :: 0 <= k < i && 0 <= j < layers[k] ==>
        positions[k][j] == NeuronPosition(width, height, layers, k, j)
    {
      var neurons := layers[i];
      var layerPositions := [];
      var spacingY := height / (neurons + 1);
      var j := 0;
      while j < neurons
        invariant 0 <= j <= neurons
        invariant |layerPositions| == j
        invariant forall m :: 0 <= m < j ==> layerPositions[m] == NeuronPosition(width, height, layers, i, m)
      {
        var x := spacingX * (i + 1);
        var y := spacingY * (j + 1);
        layerPositions := layerPositions + [Point(x, y)];
        j := j + 1;
      }
      positions := positions + [layerPositions];
      i := i + 1;
    }
  }

  /** A spacing s with s*(n+1) <= w and positions s*k for 0 < k <= n lie in [0, w) when w > 0. */
  lemma GridStepInside(w: int, n: nat, k: nat)
    requires w > 0 && 0 < k <= n
    ensures 0 <= (w / (n + 1)) * k < w
  {
    var s := w / (n + 1);
    assert s * (n + 1) <= w;
    assert s >= 0;
    assert s * k <= s * n;
    assert s * n == s * (n + 1) - s;
    if s == 0 {
      assert s * k == 0;
    }
  }

  /** In a window of positive size, every neuron is drawn inside the window. */
  lemma PositionsInsideWindow(width: int, height: int, layers: seq<nat>, i: nat, j: nat)
    requires width > 0 && height > 0 && i < |layers| && j < layers[i]
    ensures 0 <= NeuronPosition(width, height, layers, i, j).x < width
    ensures 0 <= NeuronPosition(width, height, layers, i, j).y < height
  {
    GridStepInside(width, |layers|, i + 1);
    GridStepInside(height, layers[i], j + 1);
  }

  /** All neurons of a layer share one column, and their rows do not decrease down the layer. */
  lemma LayerIsVerticalColumn(width: int, height: int, layers: seq<nat>, i: nat, j: nat, j': nat)
    requires height >= 0 && i < |layers| && j <= j'
    ensures NeuronPosition(width, height, layers, i, j).x == NeuronPosition(width, height, layers, i, j').x
    ensures NeuronPosition(width, height, layers, i, j).y <= NeuronPosition(width, height, layers, i, j').y
  {
    var s := SpacingY(height, layers[i]);
    assert s >= 0;
    assert s * (j' + 1) - s * (j + 1) == s * (j' - j);
  }

  /** The default 400 x 400 window with layers [3, 64, 32, 10]. */
  lemma DefaultLayout()
    ensures SpacingX(DefaultWidth, DefaultLayers) == 80
    ensures SpacingY(DefaultHeight, DefaultLayers[0]) == 100
    ensures SpacingY(DefaultHeight, DefaultLayers[1]) == 6
    ensures SpacingY(DefaultHeight, DefaultLayers[2]) == 12
    ensures SpacingY(DefaultHeight, DefaultLayers[3]) == 36
  {
  }

  /** Python's `int()` on a float: truncation toward zero. */
  function Truncate(x: real): (n: int)
    ensures x >= 0.0 ==> n == x.Floor
    ensures Abs(n as real) <= Abs(x) < Abs(n as real) + 1.0
  {
    if x >= 0.0 then x.Floor else -((-x).Floor)
  }

  /** `_get_activation_color`: the activation scaled to 0..255 sets red, blue takes the rest. */
  function ActivationColour(activation: real): (c: Colour)
    ensures 0 <= c.red <= 255 && c.green == 0
    ensures c.red + c.blue == 255
  {
    var value := Truncate(Max(0.0, Min(activation * 255.0, 255.0)));
    Colour(value, 0, 255 - value)
  }

  /** Activations at or below 0 are pure blue, those at or above 1 pure red. */
  lemma ActivationColourEnds(activation: real)
    ensures activation <= 0.0 ==> ActivationColour(activation) == Colour(0, 0, 255)
    ensures activation >= 1.0 ==> ActivationColour(activation) == Colour(255, 0, 0)
  {
    if activation <= 0.0 {
      assert activation * 255.0 <= 0.0;
    }
    if activation >= 1.0 {
      assert activation * 255.0 >= 255.0;
    }
  }

  /** A larger activation is never bluer. */
  lemma ActivationColourMonotone(a: real, b: real)
    requires a <= b
    ensures ActivationColour(a).red <= ActivationColour(b).red
  {
    assert a * 255.0 <= b * 255.0;
    var va := Max(0.0, Min(a * 255.0, 255.0));
    var vb := Max(0.0, Min(b * 255.0, 255.0));
    assert va <= vb;
    assert va.Floor <= vb.Floor;
  }
}
