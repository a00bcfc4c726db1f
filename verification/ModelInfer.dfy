/** The checks that a gRPC request passes, and the order in which its inputs reach the ring. */
module ModelInfer {
  import opened InferTypes

  /** An input of the model: its name and the dimensions it is checked against. */
  datatype ModelInput = ModelInput(name: string, dims: seq<int>)

  datatype RequestInput = RequestInput(name: string, shape: seq<int>)

  datatype Problem =
    | UnknownInput(name: string)
    | RankMismatch(name: string, expected: int, got: int)
    | BatchNotPositive(name: string, got: int)
    | DimensionMismatch(name: string, i: nat, expected: int, got: int)

  // ----- validation -----

  /** The first model input of that name. */
  function Find(model: seq<ModelInput>, name: string): (k: Option<nat>)
    ensures k.Some? ==> k.value < |model| && model[k.value].name == name
                        && forall j | 0 <= j < k.value :: model[j].name != name
    ensures k.None? ==> forall j | 0 <= j < |model| :: model[j].name != name
  {
    if model == [] then None
    else if model[0].name == name then Some(0)
    else
      match Find(model[1..], name)
      case None =>
        assert forall j | 0 < j < |model| :: model[j] == model[1..][j - 1];
        None
      case Some(k) =>
        assert forall j | 0 < j < |model| :: model[j] == model[1..][j - 1];
        Some(k + 1)
  }

  ghost predicate ShapeFits(shape: seq<int>, dims: seq<int>) {
    && |shape| == |dims|
    && (|shape| > 0 ==> shape[0] > 0)
    && forall i | 0 < i < |shape| :: shape[i] == dims[i]
  }

  ghost predicate InputFits(model: seq<ModelInput>, input: RequestInput) {
    var k := Find(model, input.name);
    k.Some? && ShapeFits(input.shape, model[k.value].dims)
  }

  /** The problem is the first one that the input has, in the order the checks are made. */
  ghost predicate Explains(model: seq<ModelInput>, input: RequestInput, problem: Problem) {
    var k := Find(model, input.name);
    match problem
    case UnknownInput(name) => name == input.name && k.None?
    case RankMismatch(name, expected, got) =>
      && name == input.name && k.Some?
      && expected == |model[k.value].dims| && got == |input.shape| && expected != got
    case BatchNotPositive(name, got) =>
      && name == input.name && k.Some? && |input.shape| == |model[k.value].dims| > 0
      && got == input.shape[0] <= 0
    case DimensionMismatch(name, i, expected, got) =>
      && name == input.name && k.Some? && 0 < i < |input.shape| == |model[k.value].dims|
      && input.shape[0] > 0
      && expected == model[k.value].dims[i] && got == input.shape[i] && expected != got
      && forall j | 0 < j < i :: input.shape[j] == model[k.value].dims[j]
  }

  method CheckInput(model: seq<ModelInput>, input: RequestInput) returns (problem: Option<Problem>)
    ensures problem.None? <==> InputFits(model, input)
    ensures problem.Some? ==> Explains(model, input, problem.value)
  {
    var k := Find(model, input.name);
    if k.None? {
      return Some(UnknownInput(input.name));
    }
    var dims := model[k.value].dims;
    if |input.shape| != |dims| {
      return Some(RankMismatch(input.name, |dims|, |input.shape|));
    }
    for i := 0 to |dims|
      invariant i > 0 ==> input.shape[0] > 0
      invariant forall j | 0 < j < i :: input.shape[j] == dims[j]
    {
      if i == 0 {
        if input.shape[i] <= 0 {
          return Some(BatchNotPositive(input.name, input.shape[i]));
        }
      } else if input.shape[i] != dims[i] {
        return Some(DimensionMismatch(input.name, i, dims[i], input.shape[i]));
      }
    }
    return None;
  }

  /** Every input fits, or the first one that does not is reported with its first problem. */
  method Validate(model: seq<ModelInput>, inputs: seq<RequestInput>) returns (problem: Option<Problem>)
    ensures problem.None? <==> forall i | 0 <= i < |inputs| :: InputFits(model, inputs[i])
    ensures problem.Some? ==>
              exists i | 0 <= i < |inputs| ::
                && Explains(model, inputs[i], problem.value)
                && forall j | 0 <= j < i :: InputFits(model, inputs[j])
  {
    for i := 0 to |inputs|
      invariant forall j | 0 <= j < i :: InputFits(model, inputs[j])
    {
      problem := CheckInput(model, inputs[i]);
      if problem.Some? {
        return;
      }
    }
    return None;
  }

  // ----- order -----

  /** input_set maps each model input's name to its position; a repeated name, to its last one. */
  ghost predicate IsInputSet(orders: map<string, nat>, model: seq<ModelInput>) {
    && (forall k | 0 <= k < |model| :: model[k].name in orders)
    && forall name | name in orders :: LastOf(model, name, orders[name])
  }

  ghost predicate LastOf(model: seq<ModelInput>, name: string, k: nat) {
    k < |model| && model[k].name == name && forall j | k < j < |model| :: model[j].name != name
  }

  ghost predicate DistinctNames(model: seq<ModelInput>) {
    forall i, j | 0 <= i < j < |model| :: model[i].name != model[j].name
  }

  /** input_set, filled by insertion. */
  method InputSet(model: seq<ModelInput>) returns (orders: map<string, nat>)
    ensures IsInputSet(orders, model)
  {
    orders := map[];
    for i := 0 to |model|
      invariant IsInputSet(orders, model[..i])
    {
      orders := orders[model[i].name := i];
    }
    assert model[..|model|] == model;
  }

  lemma OrderOf(orders: map<string, nat>, model: seq<ModelInput>, name: string)
    requires DistinctNames(model) && IsInputSet(orders, model) && name in orders
    ensures orders[name] < |model| && model[orders[name]].name == name
    ensures forall k | 0 <= k < |model| && model[k].name == name :: k == orders[name]
  {
    assert LastOf(model, name, orders[name]);
  }

  /** Position p comes before position q in a stable sort by key. */
  predicate Before(keys: seq<nat>, p: nat, q: nat)
    requires p < |keys| && q < |keys|
  {
    keys[p] < keys[q] || (keys[p] == keys[q] && p < q)
  }

  /** The first n positions, every one once, by key and then by position. */
  ghost predicate StablySorted(positions: seq<nat>, keys: seq<nat>, n: nat) {
    && n == |positions| <= |keys|
    && (forall k | 0 <= k < |positions| :: positions[k] < n)
    && (forall i: nat | i < n :: i in positions)
    && (forall k, l | 0 <= k < l < |positions| :: Before(keys, positions[k], positions[l]))
  }

  /** p goes after everything whose key is not larger. */
  function Placed(positions: seq<nat>, keys: seq<nat>, p: nat): (r: seq<nat>)
    requires p < |keys| && forall k | 0 <= k < |positions| :: positions[k] < |keys|
    ensures |r| == |positions| + 1 && forall k | 0 <= k < |r| :: r[k] < |keys|
  {
    if positions == [] then [p]
    else
      var last := positions[|positions| - 1];
      if keys[last] <= keys[p] then positions + [p]
      else Placed(positions[..|positions| - 1], keys, p) + [last]
  }

  ghost predicate Chain(positions: seq<nat>, keys: seq<nat>) {
    && (forall k | 0 <= k < |positions| :: positions[k] < |keys|)
    && forall k, l | 0 <= k < l < |positions| :: Before(keys, positions[k], positions[l])
  }

  lemma ChainEnds(positions: seq<nat>, keys: seq<nat>, p: nat)
    requires Chain(positions, keys) && p < |keys| && forall q | q in positions :: Before(keys, q, p)
    ensures Chain(positions + [p], keys)
  {
    var r := positions + [p];
    forall k, l | 0 <= k < l < |r| ensures Before(keys, r[k], r[l]) {
      assert r[k] in positions;
    }
  }

  lemma ChainPrefix(positions: seq<nat>, keys: seq<nat>)
    requires Chain(positions, keys) && positions != []
    ensures Chain(positions[..|positions| - 1], keys)
    ensures var init, last := positions[..|positions| - 1], positions[|positions| - 1];
            forall q | q in init :: q in positions && q < |keys| && Before(keys, q, last)
  {
  }

  lemma {:induction false} PlacedFacts(positions: seq<nat>, keys: seq<nat>, p: nat)
    requires Chain(positions, keys) && p < |keys| && forall q | q in positions :: q < p
    ensures Chain(Placed(positions, keys, p), keys)
    ensures forall q :: q in Placed(positions, keys, p) <==> q in positions || q == p
    decreases |positions|
  {
    if positions == [] {
    } else {
      var init, last := positions[..|positions| - 1], positions[|positions| - 1];
      ChainPrefix(positions, keys);
      assert positions == init + [last];
      hide Chain;
      if keys[last] <= keys[p] {
        AllBefore(positions, keys, p);
        ChainEnds(positions, keys, p);
      } else {
        PlacedFacts(init, keys, p);
        ChainEnds(Placed(init, keys, p), keys, last);
      }
    }
  }

  lemma AllBefore(positions: seq<nat>, keys: seq<nat>, p: nat)
    requires Chain(positions, keys) && p < |keys| && positions != []
    requires keys[positions[|positions| - 1]] <= keys[p] && forall q | q in positions :: q < p
    ensures forall q | q in positions :: q < |keys| && Before(keys, q, p)
  {
  }

  /** sort_by_key: a stable sort of positions 0 .. n by their keys. */
  function SortPositions(keys: seq<nat>, n: nat): (positions: seq<nat>)
    requires n <= |keys|
    ensures |positions| == n && forall k | 0 <= k < n :: positions[k] < |keys|
  {
    if n == 0 then [] else Placed(SortPositions(keys, n - 1), keys, n - 1)
  }

  lemma {:induction false} SortedChain(keys: seq<nat>, n: nat)
    requires n <= |keys|
    ensures Chain(SortPositions(keys, n), keys)
    ensures forall i: nat :: i in SortPositions(keys, n) <==> i < n
  {
    if n > 0 {
      SortedChain(keys, n - 1);
      PlacedFacts(SortPositions(keys, n - 1), keys, n - 1);
    }
  }

  lemma SortIsStable(keys: seq<nat>, n: nat)
    requires n <= |keys|
    ensures StablySorted(SortPositions(keys, n), keys, n)
  {
    SortedChain(keys, n);
    var positions := SortPositions(keys, n);
    assert forall k | 0 <= k < |positions| :: positions[k] in positions;
  }

  function KeysOf(inputs: seq<RequestInput>, orders: map<string, nat>): (keys: seq<nat>)
    requires forall i | 0 <= i < |inputs| :: inputs[i].name in orders
    ensures |keys| == |inputs| && forall i | 0 <= i < |inputs| :: keys[i] == orders[inputs[i].name]
  {
    seq(|inputs|, i requires 0 <= i < |inputs| => orders[inputs[i].name])
  }

  datatype OrderedInput = OrderedInput(name: string, shape: seq<int>, data: seq<Byte>)

  /** Each reordered input is the request's input of its position: name, shape and raw buffer. */
  ghost predicate IsReordering(ordered: seq<OrderedInput>, inputs: seq<RequestInput>, raw: seq<seq<Byte>>,
                               positions: seq<nat>)
  {
    && |ordered| == |positions| == |inputs| <= |raw|
    && forall k | 0 <= k < |inputs| ::
         && positions[k] < |inputs|
         && ordered[k].name == inputs[positions[k]].name
         && ordered[k].shape == inputs[positions[k]].shape
         && ordered[k].data == raw[positions[k]]
  }

  function Taken(inputs: seq<RequestInput>, raw: seq<seq<Byte>>, p: nat): (o: OrderedInput)
    requires p < |inputs| && p < |raw|
  {
    OrderedInput(inputs[p].name, inputs[p].shape, raw[p])
  }

  /** The reordering of a validated request; a missing raw buffer panics (None). */
  method OrderInputs(inputs: seq<RequestInput>, raw: seq<seq<Byte>>, orders: map<string, nat>)
    returns (r: Option<seq<OrderedInput>>, ghost positions: seq<nat>)
    requires forall i | 0 <= i < |inputs| :: inputs[i].name in orders
    ensures StablySorted(positions, KeysOf(inputs, orders), |inputs|)
    ensures r.None? <==> |raw| < |inputs|
    ensures r.Some? ==> IsReordering(r.value, inputs, raw, positions)
  {
    var keys := KeysOf(inputs, orders);
    var ordered := SortPositions(keys, |inputs|);
    SortIsStable(keys, |inputs|);
    positions := ordered;
    var taken: seq<OrderedInput> := [];
    for k := 0 to |ordered|
      invariant |taken| == k
      invariant forall l | 0 <= l < k :: ordered[l] < |raw| && taken[l] == Taken(inputs, raw, ordered[l])
    {
      if ordered[k] >= |raw| {
        return None, positions;
      }
      taken := taken + [Taken(inputs, raw, ordered[k])];
    }
    EveryBufferUsed(ordered, keys, |raw|);
    return Some(taken), positions;
  }

  lemma EveryBufferUsed(positions: seq<nat>, keys: seq<nat>, buffers: nat)
    requires StablySorted(positions, keys, |positions|) && forall l | 0 <= l < |positions| :: positions[l] < buffers
    ensures buffers >= |positions|
  {
    assert buffers < |positions| ==> buffers in positions;
  }

  // ----- when the order is right -----

  ghost predicate DistinctInputs(inputs: seq<RequestInput>) {
    forall i, j | 0 <= i < j < |inputs| :: inputs[i].name != inputs[j].name
  }

  /** Position k holds the model's k-th input. */
  ghost predicate InModelOrder(model: seq<ModelInput>, inputs: seq<RequestInput>, positions: seq<nat>)
    requires |positions| == |inputs| && forall k | 0 <= k < |positions| :: positions[k] < |inputs|
  {
    |inputs| == |model| && forall k | 0 <= k < |model| :: inputs[positions[k]].name == model[k].name
  }

  /** Strictly ascending numbers below their count are 0, 1, 2, ... */
  lemma {:induction false} Counting(s: seq<nat>, k: nat)
    requires k < |s| && forall i, j | 0 <= i < j < |s| :: s[i] < s[j]
    ensures k <= s[k] && s[k] + (|s| - 1 - k) <= s[|s| - 1]
    decreases |s|
  {
    if |s| > 1 {
      var init := s[..|s| - 1];
      if k < |s| - 1 {
        Counting(init, k);
      } else {
        Counting(init, k - 1);
      }
    }
  }

  lemma KeysInOrder(model: seq<ModelInput>, inputs: seq<RequestInput>, orders: map<string, nat>, positions: seq<nat>)
    requires DistinctNames(model) && IsInputSet(orders, model) && DistinctInputs(inputs) && |inputs| == |model|
    requires forall i | 0 <= i < |inputs| :: inputs[i].name in orders
    requires StablySorted(positions, KeysOf(inputs, orders), |inputs|)
    ensures InModelOrder(model, inputs, positions)
  {
    var keys := KeysOf(inputs, orders);
    var sorted := seq(|positions|, k requires 0 <= k < |positions| => keys[positions[k]]);
    forall k | 0 <= k < |sorted| ensures sorted[k] < |model| && model[sorted[k]].name == inputs[positions[k]].name {
      OrderOf(orders, model, inputs[positions[k]].name);
    }
    forall k, l | 0 <= k < l < |sorted| ensures sorted[k] < sorted[l] {
      assert Before(keys, positions[k], positions[l]);
      assert inputs[positions[k]].name != inputs[positions[l]].name;
    }
    forall k | 0 <= k < |model| ensures inputs[positions[k]].name == model[k].name {
      Counting(sorted, k);
      assert sorted[|sorted| - 1] < |model|;
      assert sorted[k] == k;
    }
  }

  /**
   For a request whose input names the model knows, the reordered inputs are the model's
   inputs in model order exactly when there are as many of them and none is repeated.
   Validation checks neither.
  */
  lemma OrderIsRightExactly(model: seq<ModelInput>, inputs: seq<RequestInput>, orders: map<string, nat>,
                            positions: seq<nat>)
    requires DistinctNames(model) && IsInputSet(orders, model)
    requires forall i | 0 <= i < |inputs| :: inputs[i].name in orders
    requires StablySorted(positions, KeysOf(inputs, orders), |inputs|)
    ensures InModelOrder(model, inputs, positions) <==> |inputs| == |model| && DistinctInputs(inputs)
  {
    if |inputs| == |model| && DistinctInputs(inputs) {
      KeysInOrder(model, inputs, orders, positions);
    }
    if InModelOrder(model, inputs, positions) {
      forall i, j | 0 <= i < j < |inputs| ensures inputs[i].name != inputs[j].name {
        assert i in positions && j in positions;
        var k :| 0 <= k < |positions| && positions[k] == i;
        var l :| 0 <= l < |positions| && positions[l] == j;
      }
    }
  }

  /**
   When the order is right, so are the buffers: position k has the model's k-th name, and the
   shape and raw buffer that the request sent beside that name.
  */
  lemma BuffersFollowNames(model: seq<ModelInput>, inputs: seq<RequestInput>, raw: seq<seq<Byte>>,
                           orders: map<string, nat>, positions: seq<nat>, ordered: seq<OrderedInput>)
    requires DistinctNames(model) && IsInputSet(orders, model)
    requires forall i | 0 <= i < |inputs| :: inputs[i].name in orders
    requires StablySorted(positions, KeysOf(inputs, orders), |inputs|) && IsReordering(ordered, inputs, raw, positions)
    requires |inputs| == |model| && DistinctInputs(inputs)
    ensures |ordered| == |model|
    ensures forall k | 0 <= k < |model| :: ordered[k].name == model[k].name
    ensures forall i, k | 0 <= i < |inputs| && 0 <= k < |model| && inputs[i].name == model[k].name ::
              ordered[k].shape == inputs[i].shape && ordered[k].data == raw[i]
  {
    KeysInOrder(model, inputs, orders, positions);
    forall i, k | 0 <= i < |inputs| && 0 <= k < |model| && inputs[i].name == model[k].name ensures positions[k] == i {
      assert inputs[positions[k]].name == inputs[i].name;
    }
  }

  // ----- what validation lets pass -----

  function TwoInputs(): (model: seq<ModelInput>) {
    [ModelInput("a", [-1, 2]), ModelInput("b", [-1, 2])]
  }

  lemma FirstInput(input: RequestInput)
    requires input == RequestInput("a", [1, 2])
    ensures InputFits(TwoInputs(), input)
  {
    assert TwoInputs()[0].name == "a";
    assert Find(TwoInputs(), "a") == Some(0);
  }

  /**
   A repeated input, and the missing one with it: for a model with inputs a and b, the
   request a, a has no problem, and in no order are its inputs those of the model.
  */
  lemma RepeatedInputPasses(positions: seq<nat>)
    requires |positions| == 2 && positions[0] < 2 && positions[1] < 2
    ensures var request := [RequestInput("a", [1, 2]), RequestInput("a", [1, 2])];
            && DistinctNames(TwoInputs())
            && (forall i | 0 <= i < |request| :: InputFits(TwoInputs(), request[i]))
            && !InModelOrder(TwoInputs(), request, positions)
  {
    var request := [RequestInput("a", [1, 2]), RequestInput("a", [1, 2])];
    FirstInput(request[0]);
    assert request[positions[1]].name == "a";
    assert TwoInputs()[1].name == "b" && TwoInputs()[1].name != "a";
  }

  /** So does a request that leaves an input out. */
  lemma MissingInputPasses()
    ensures var request := [RequestInput("a", [1, 2])];
            && InputFits(TwoInputs(), request[0])
            && !InModelOrder(TwoInputs(), request, [0])
  {
    FirstInput(RequestInput("a", [1, 2]));
  }
}
