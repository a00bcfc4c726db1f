/** Configured shape overrides: what the ring allocates and what requests are checked against. */
module ShapeOverrides {
  import opened InferTypes
  import opened TensorBytes
  import opened ModelInfer

  /** The shape the ring allocates: dimension 0 and dimensions beyond either shape stay the model's. */
  ghost predicate IsEffective(r: seq<int>, shape: seq<int>, override: Option<seq<int>>) {
    && |r| == |shape|
    && forall i | 0 <= i < |shape| ::
         r[i] == if override.Some? && 0 < i < |override.value| then override.value[i] else shape[i]
  }

  /** The loop that applies an override when the ring is built. */
  method EffectiveShape(shape: seq<int>, override: Option<seq<int>>) returns (r: seq<int>)
    ensures IsEffective(r, shape, override)
  {
    r := shape;
    if override.Some? {
      for i := 0 to |override.value|
        invariant |r| == |shape|
        invariant forall j | 0 <= j < |shape| ::
                    r[j] == if 0 < j < i then override.value[j] else shape[j]
      {
        if i > 0 && i < |r| {
          r := r[i := override.value[i]];
        }
      }
    }
  }

  /** The dimensions a request is checked against: the override, taken whole. */
  function ConfiguredDims(shape: seq<int>, override: Option<seq<int>>): (dims: seq<int>) {
    if override.Some? then override.value else shape
  }

  /**
   The ring's row dimensions are the ones requests are checked against exactly when the
   override has the model's rank.
  */
  lemma RowDimsAgreeExactly(r: seq<int>, shape: seq<int>, override: Option<seq<int>>)
    requires IsEffective(r, shape, override) && shape != [] && override != Some([])
    ensures ConfiguredDims(shape, override) != []
    ensures r[1..] == ConfiguredDims(shape, override)[1..] <==> override.None? || |override.value| == |shape|
  {
    var dims := ConfiguredDims(shape, override);
    if |dims| == |shape| {
      assert forall i | 0 < i < |shape| :: r[i] == dims[i];
    } else {
      assert |r[1..]| != |dims[1..]|;
    }
  }

  /** Dimensions that can be counted: none is negative. */
  ghost predicate Static(dims: seq<int>) {
    forall i | 0 <= i < |dims| :: dims[i] >= 0
  }

  function Elements(dims: seq<int>): (n: nat)
    requires Static(dims)
  {
    var sizes: seq<nat> := dims;
    NumElements(sizes)
  }

  /** With the model's rank, a request of these row dimensions has exactly the ring's elements per row. */
  lemma RequestRowFits(r: seq<int>, shape: seq<int>, override: Option<seq<int>>, request: seq<int>)
    requires IsEffective(r, shape, override) && shape != [] && Static(r[1..])
    requires (override.None? || |override.value| == |shape|) && ShapeFits(request, ConfiguredDims(shape, override))
    ensures Static(request[1..]) && Elements(request[1..]) == Elements(r[1..])
  {
    assert request[1..] == r[1..];
  }

  /**
   An override of another rank is accepted and misleads the check: the ring of a model of
   shape [-1, 2, 3] holds 6 elements per row, while a request of 2 elements per row fits
   the configured dimensions [-1, 2].
  */
  lemma OtherRankMisleads()
    ensures var shape, override, request := [-1, 2, 3], Some([-1, 2]), [1, 2];
            && ShapeFits(request, ConfiguredDims(shape, override))
            && (forall r | IsEffective(r, shape, override) ::
                  Static(r[1..]) && Elements(r[1..]) == 6 && Elements(request[1..]) == 2)
  {
    var shape, override := [-1, 2, 3], Some([-1, 2]);
    SmallProducts();
    forall r | IsEffective(r, shape, override) ensures r[1..] == [2, 3] {
    }
  }

  lemma SmallProducts()
    ensures NumElements([2]) == 2 && NumElements([2, 3]) == 6
  {
    assert [2, 3][1..] == [3] && [3][1..] == [] && [2][1..] == [];
    assert NumElements([3]) == 3;
  }
}
