/**
 * The last step of disease prediction: the class index the model's output
 * vector points at (numpy's argmax: the first index of a maximal entry),
 * and the label the catalog holds under the decimal string of that index.
 * The model itself is a parameter: a total function from an image path to
 * its output vector, or to nothing when the image cannot be loaded.
 */
module Prediction {
  import opened Wrappers
  import opened Text

  /** How a prediction can fail after the "image selected" guard. */
  datatype PredictError =
    | ImageUnreadable       // load_img or model.predict raised
    | EmptyOutput           // argmax of an empty vector raises
    | MissingLabel(key: string)  // the catalog has no entry under the key

  /** The loaded network, from image path to output vector. */
  type Classifier = string -> Option<seq<real>>

  /** `k` is the first index at which `v` takes its maximum. */
  predicate IsFirstMax(v: seq<real>, k: nat)
  {
    && k < |v|
    && (forall j :: 0 <= j < |v| ==> v[j] <= v[k])
    && (forall j :: 0 <= j < k ==> v[j] < v[k])
  }

  /** The first maximal index of a non-empty vector. */
  function FirstMax(v: seq<real>): (k: nat)
    requires v != []
    ensures IsFirstMax(v, k)
  {
    if |v| == 1 then 0
    else
      var k := FirstMax(v[..|v| - 1]);
      if v[|v| - 1] > v[k] then |v| - 1 else k
  }

  /** `np.argmax`: the first maximal index, or nothing for an empty vector. */
  function ArgMax(v: seq<real>): (r: Option<nat>)
    ensures r.None? <==> v == []
    ensures r.Some? ==> IsFirstMax(v, r.value)
  {
    if v == [] then None else Some(FirstMax(v))
  }

  /**
   * `plant_disease[str(np.argmax(output))]`: the label stored under the
   * decimal key of the first maximal index.
   */
  function Resolve(output: seq<real>, catalog: map<string, string>): (r: Result<string, PredictError>)
    ensures r == Failure(EmptyOutput) <==> output == []
    ensures forall k :: IsFirstMax(output, k) ==>
      && (r.Success? <==> Decimal(k) in catalog)
      && (r.Success? ==> r.value == catalog[Decimal(k)])
      && (r.Failure? ==> r.error == MissingLabel(Decimal(k)))
  {
    match ArgMax(output)
    case None => Failure(EmptyOutput)
    case Some(k) =>
      var key := Decimal(k);
      if key in catalog then Success(catalog[key]) else Failure(MissingLabel(key))
  }

  /** The catalog has a label for every class index below `n`. */
  predicate Covers(catalog: map<string, string>, n: nat)
  {
    forall i: nat :: i < n ==> Decimal(i) in catalog
  }

  /**
   * With a catalog that covers every index of the output vector, a
   * non-empty output always resolves to one of the catalog's labels.
   */
  lemma ResolveTotal(output: seq<real>, catalog: map<string, string>)
    requires output != []
    requires Covers(catalog, |output|)
    ensures Resolve(output, catalog).Success?
    ensures Resolve(output, catalog).value in catalog.Values
  {
  }

  /**
   * The whole pipeline: load, infer, argmax, look up. The outcome is fixed
   * by the network's output for the path: nothing, an empty vector, or the
   * catalog entry under the decimal key of its first maximal index.
   */
  function Classify(model: Classifier, catalog: map<string, string>, path: string): (r: Result<string, PredictError>)
    ensures r == Failure(ImageUnreadable) <==> model(path).None?
    ensures model(path) == Some([]) ==> r == Failure(EmptyOutput)
    ensures forall k :: model(path).Some? && IsFirstMax(model(path).value, k) ==>
      && (Decimal(k) in catalog ==> r == Success(catalog[Decimal(k)]))
      && (Decimal(k) !in catalog ==> r == Failure(MissingLabel(Decimal(k))))
  {
    match model(path)
    case None => Failure(ImageUnreadable)
    case Some(output) => Resolve(output, catalog)
  }

  /** A vector whose maximum sits at index 3 resolves to the label under "3". */
  lemma ResolveExample()
    ensures Resolve([0.1, 0.05, 0.2, 0.6, 0.05], map["3" := "Tomato_Early_Blight"])
            == Success("Tomato_Early_Blight")
  {
  }
}
