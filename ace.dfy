/**
 * The ACE ensemble: a pool of classifiers, a pool of autoencoders with a shift
 * set for each, the allowed stack depths and blend weights, and the forward pass
 * that chains shifted, blended autoencoders in front of one classifier.
 *
 * The networks themselves are opaque: a forward pass receives them as functions
 * (`Autoencoders`, `Classifiers`) from a model handle to the network's output.
 * The random draws of one forward pass are an explicit `Draw`, and what holds of
 * the pass holds for every draw that `ValidDraw` admits.
 */
module Ace {
  import opened Results
  import opened Images
  import opened Shift

  /** A signed shift `(x, y)`: `x` columns to the right, `y` rows down. */
  type Offset = (int, int)

  /** A loaded network, named as in the configuration; `frozen` means its parameters get no gradient. */
  datatype ModelHandle = ModelHandle(name: string, frozen: bool)

  /** What each loaded autoencoder computes on an image. */
  type Autoencoders = ModelHandle -> Image -> Image
  /** What each loaded classifier computes (its logits) on an image. */
  type Classifiers = ModelHandle -> Image -> seq<real>

  /** One stage of the chain: the autoencoder, its blend weight and its shift. */
  datatype Stage = Stage(model: ModelHandle, lambda: real, shift: Offset)

  /**
   * The random draws of one forward pass: an index into the classifiers, the depth
   * `k`, then `k` autoencoder indices, `k` blend weights and `k` shifts.
   */
  datatype Draw = Draw(classifier: nat, depth: int, autoencoders: seq<nat>, lambdas: seq<real>, shifts: seq<Offset>)

  /** The result of `forward`: the chained image when `ae_only` is set, else the classifier's logits. */
  datatype Output = Reconstruction(image: Image) | Logits(logits: seq<real>)

  /** An autoencoder returned an image of another shape than its input, so the blend cannot be formed. */
  datatype Error = ShapeMismatch

  /** `lambda * rec + (1 - lambda) * shifted`, pixel by pixel. */
  function Blend(lambda: real, rec: Image, shifted: Image): (b: Image)
    requires SameShape(rec, shifted)
    ensures SameShape(b, shifted)
  {
    seq(|shifted|, i requires 0 <= i < |shifted| =>
      seq(|shifted[i]|, j requires 0 <= j < |shifted[i]| => lambda * rec[i][j] + (1.0 - lambda) * shifted[i][j]))
  }

  /** Weight 0 bypasses the autoencoder: the blend is the shifted image itself. */
  lemma BlendWithZero(rec: Image, shifted: Image)
    requires SameShape(rec, shifted)
    ensures Blend(0.0, rec, shifted) == shifted
  {
    var b := Blend(0.0, rec, shifted);
    forall i | 0 <= i < |shifted|
      ensures b[i] == shifted[i]
    {
    }
  }

  /** Weight 1 trusts the autoencoder fully: the blend is its reconstruction. */
  lemma BlendWithOne(rec: Image, shifted: Image)
    requires SameShape(rec, shifted)
    ensures Blend(1.0, rec, shifted) == rec
  {
    var b := Blend(1.0, rec, shifted);
    forall i | 0 <= i < |shifted|
      ensures b[i] == rec[i]
    {
    }
  }

  /**
   * The loop of `forward` over its stages: shift the current image, run the
   * stage's autoencoder on the shifted view, and replace the current image by the
   * blend of reconstruction and shifted view. On success the result has the shape
   * of the input.
   */
  function Chain(x: Image, stages: seq<Stage>, net: Autoencoders): (r: Result<Image, Error>)
    requires IsRect(x)
    ensures r.Ok? ==> HasShape(r.value, |x|, Width(x)) && IsRect(r.value)
    decreases |stages|
  {
    if stages == [] then Ok(x)
    else
      var s := ShiftImage(x, stages[0].shift.0, stages[0].shift.1);
      var rec := net(stages[0].model)(s);
      if !SameShape(rec, s) then Err(ShapeMismatch)
      else Chain(Blend(stages[0].lambda, rec, s), stages[1..], net)
  }

  /** Every autoencoder returns an image of the shape it was given. */
  ghost predicate KeepsShape(net: Autoencoders) {
    forall m, img :: IsRect(img) ==> SameShape(net(m)(img), img)
  }

  /** Running the stages `a + b` is running `a`, then `b` on its result. */
  lemma {:induction false} ChainAppend(x: Image, a: seq<Stage>, b: seq<Stage>, net: Autoencoders)
    requires IsRect(x)
    ensures Chain(x, a + b, net) == match Chain(x, a, net)
      case Ok(y) => Chain(y, b, net)
      case Err(e) => Err(e)
    decreases |a|
  {
    if a != [] {
      assert (a + b)[1..] == a[1..] + b;
      var s := ShiftImage(x, a[0].shift.0, a[0].shift.1);
      var rec := net(a[0].model)(s);
      if SameShape(rec, s) {
        ChainAppend(Blend(a[0].lambda, rec, s), a[1..], b, net);
      }
    } else {
      assert a + b == b;
    }
  }

  /** With every weight 0 and every shift (0, 0), the chain gives back its input. */
  lemma {:induction false} ChainOfBypassedStages(x: Image, stages: seq<Stage>, net: Autoencoders)
    requires IsRect(x) && KeepsShape(net)
    requires forall i :: 0 <= i < |stages| ==> stages[i].lambda == 0.0 && stages[i].shift == (0, 0)
    ensures Chain(x, stages, net) == Ok(x)
    decreases |stages|
  {
    if stages != [] {
      ShiftByZero(x);
      var rec := net(stages[0].model)(x);
      BlendWithZero(rec, x);
      ChainOfBypassedStages(x, stages[1..], net);
    }
  }

  /** One stage with weight 1 and shift (0, 0) is just that autoencoder. */
  lemma ChainOfOneTrustedStage(x: Image, m: ModelHandle, net: Autoencoders)
    requires IsRect(x) && SameShape(net(m)(x), x)
    ensures Chain(x, [Stage(m, 1.0, (0, 0))], net) == Ok(net(m)(x))
  {
    ShiftByZero(x);
    BlendWithOne(net(m)(x), x);
    assert [Stage(m, 1.0, (0, 0))][1..] == [];
  }

  /**
   * One ACE module. `shifts[i]` is the shift set of `autoencoders[i]`; `stacks`
   * holds the allowed depths and `lambdas` the allowed blend weights.
   */
  class ACE {
    var classifiers: seq<ModelHandle>
    var autoencoders: seq<ModelHandle>
    var shifts: seq<seq<Offset>>
    var stacks: seq<int>
    var lambdas: seq<real>

    /** The shift sets are aligned, index by index, with the autoencoders. */
    predicate Valid()
      reads this
    {
      |shifts| == |autoencoders|
    }

    /**
     * This module is what `ACE(classifierNames, autoencoderNames, stacks, lambdas,
     * shiftTable, args)` builds: one handle per name, in order, classifiers frozen
     * unless `fineTune`, and the shift set of each autoencoder looked up by its name.
     */
    predicate BuiltFrom(classifierNames: seq<string>, autoencoderNames: seq<string>, stacks: seq<int>,
                        lambdas: seq<real>, shiftTable: map<string, seq<Offset>>, fineTune: bool)
      reads this
    {
      && |classifiers| == |classifierNames|
      && (forall i :: 0 <= i < |classifierNames| ==> classifiers[i] == ModelHandle(classifierNames[i], !fineTune))
      && |autoencoders| == |autoencoderNames| && |shifts| == |autoencoderNames|
      && (forall i :: 0 <= i < |autoencoderNames| ==>
            autoencoders[i] == ModelHandle(autoencoderNames[i], false)
            && autoencoderNames[i] in shiftTable && shifts[i] == shiftTable[autoencoderNames[i]])
      && this.stacks == stacks && this.lambdas == lambdas
    }

    /** Loads the classifiers, then the autoencoders with their shift sets. */
    constructor (classifierNames: seq<string>, autoencoderNames: seq<string>, stacks: seq<int>,
                 lambdas: seq<real>, shiftTable: map<string, seq<Offset>>, fineTune: bool)
      requires forall a :: a in autoencoderNames ==> a in shiftTable
      ensures Valid()
      ensures BuiltFrom(classifierNames, autoencoderNames, stacks, lambdas, shiftTable, fineTune)
    {
      classifiers := [];
      autoencoders := [];
      shifts := [];
      this.stacks := stacks;
      this.lambdas := lambdas;
      new;
      var i := 0;
      while i < |classifierNames|
        invariant 0 <= i <= |classifierNames|
        invariant |classifiers| == i
        invariant forall n :: 0 <= n < i ==> classifiers[n] == ModelHandle(classifierNames[n], !fineTune)
        invariant autoencoders == [] && shifts == [] && this.stacks == stacks && this.lambdas == lambdas
      {
        classifiers := classifiers + [ModelHandle(classifierNames[i], !fineTune)];
        i := i + 1;
      }
      i := 0;
      while i < |autoencoderNames|
        invariant 0 <= i <= |autoencoderNames|
        invariant |autoencoders| == i && |shifts| == i
        invariant forall n :: 0 <= n < i ==>
          autoencoders[n] == ModelHandle(autoencoderNames[n], false) && shifts[n] == shiftTable[autoencoderNames[n]]
        invariant |classifiers| == |classifierNames|
        invariant forall n :: 0 <= n < |classifierNames| ==> classifiers[n] == ModelHandle(classifierNames[n], !fineTune)
        invariant this.stacks == stacks && this.lambdas == lambdas
      {
        var a := autoencoderNames[i];
        autoencoders := autoencoders + [ModelHandle(a, false)];
        shifts := shifts + [shiftTable[a]];
        i := i + 1;
      }
    }

    /**
     * `d` is a draw that the sampling of `forward` can produce: the classifier
     * index and every autoencoder index are in range, the depth is one of
     * `stacks`, and stage `i` has a weight from `lambdas` and a shift from the
     * shift set of its own autoencoder.
     */
    predicate ValidDraw(d: Draw)
      reads this
      requires Valid()
    {
      && d.classifier < |classifiers|
      && d.depth in stacks
      && |d.autoencoders| == d.depth && |d.lambdas| == d.depth && |d.shifts| == d.depth
      && forall i :: 0 <= i < d.depth ==>
           d.autoencoders[i] < |autoencoders| && d.lambdas[i] in lambdas && d.shifts[i] in shifts[d.autoencoders[i]]
    }

    /**
     * Sampling fails on an empty pool (`np.random.choice` of an empty list): no
     * draw exists without a classifier and a depth, and none of depth `k > 0`
     * without an autoencoder and a blend weight.
     */
    lemma DrawNeedsPools(d: Draw)
      requires Valid() && ValidDraw(d)
      ensures classifiers != [] && stacks != []
      ensures d.depth > 0 ==> autoencoders != [] && lambdas != []
      ensures forall i :: 0 <= i < d.depth ==> shifts[d.autoencoders[i]] != []
    {
      if d.depth > 0 {
        assert d.lambdas[0] in lambdas && d.autoencoders[0] < |autoencoders|;
      }
      forall i | 0 <= i < d.depth
        ensures shifts[d.autoencoders[i]] != []
      {
        assert d.shifts[i] in shifts[d.autoencoders[i]];
      }
    }

    /** The stages that draw `d` selects, in order. */
    function StagesOf(d: Draw): (st: seq<Stage>)
      reads this
      requires Valid() && ValidDraw(d)
      ensures |st| == d.depth
      ensures forall i :: 0 <= i < d.depth ==>
        st[i].model == autoencoders[d.autoencoders[i]] && st[i].lambda in lambdas && st[i].shift in shifts[d.autoencoders[i]]
    {
      var pool := autoencoders;
      seq(d.depth, i requires 0 <= i < d.depth => Stage(pool[d.autoencoders[i]], d.lambdas[i], d.shifts[i]))
    }

    /**
     * `ACE.forward(x, ae_only)` for the draw `d`: the image after the chain of the
     * drawn stages when `aeOnly`, else the drawn classifier applied to it. With
     * depth 0 the chain is the input itself.
     */
    method Forward(x: Image, aeOnly: bool, d: Draw, net: Autoencoders, classify: Classifiers)
      returns (r: Result<Output, Error>)
      requires IsRect(x) && Valid() && ValidDraw(d)
      ensures var chain := Chain(x, StagesOf(d), net);
        r == match chain
          case Err(e) => Err(e)
          case Ok(y) => Ok(if aeOnly then Reconstruction(y) else Logits(classify(classifiers[d.classifier])(y)))
      ensures r.Ok? && aeOnly ==> r.value.Reconstruction? && HasShape(r.value.image, |x|, Width(x))
      ensures d.depth == 0 ==> r == Ok(if aeOnly then Reconstruction(x) else Logits(classify(classifiers[d.classifier])(x)))
    {
      var classifier := classifiers[d.classifier];
      ghost var stages := StagesOf(d);
      var cur := x;
      var idx := 0;
      while idx < d.depth
        invariant 0 <= idx <= d.depth
        invariant IsRect(cur) && HasShape(cur, |x|, Width(x))
        invariant Chain(x, stages, net) == Chain(cur, stages[idx..], net)
      {
        var autoencoder := autoencoders[d.autoencoders[idx]];
        var shift := d.shifts[idx];
        var xShift := ShiftImage(cur, shift.0, shift.1);
        var rec := net(autoencoder)(xShift);
        assert stages[idx..][1..] == stages[idx + 1..];
        if !SameShape(rec, xShift) {
          return Err(ShapeMismatch);
        }
        cur := Blend(d.lambdas[idx], rec, xShift);
        idx := idx + 1;
      }
      assert stages[idx..] == [];
      r := Ok(if aeOnly then Reconstruction(cur) else Logits(classify(classifier)(cur)));
    }
  }

  /**
   * Singleton pools (one classifier, one autoencoder, depth 1, weight 1, shift
   * (0, 0)): every draw is the same, and `forward(x, ae_only=True)` is that
   * autoencoder's output on `x`.
   */
  method SingletonPools(x: Image, net: Autoencoders, classify: Classifiers) returns (ace: ACE, r: Result<Output, Error>)
    requires IsRect(x) && SameShape(net(ModelHandle("U", false))(x), x)
    ensures ace.Valid() && forall e :: ace.ValidDraw(e) ==> e == Draw(0, 1, [0], [1.0], [(0, 0)])
    ensures r == Ok(Reconstruction(net(ModelHandle("U", false))(x)))
  {
    ace := new ACE(["A"], ["U"], [1], [1.0], map["U" := [(0, 0)]], false);
    var d := Draw(0, 1, [0], [1.0], [(0, 0)]);
    assert forall e :: ace.ValidDraw(e) ==> e == d;
    assert ace.StagesOf(d) == [Stage(ModelHandle("U", false), 1.0, (0, 0))];
    ChainOfOneTrustedStage(x, ModelHandle("U", false), net);
    r := ace.Forward(x, true, d, net, classify);
  }

  /**
   * Empty autoencoder and weight pools are accepted by the constructor, and a
   * draw of depth 0 from them still exists: the draw then runs no stage.
   */
  method EmptyPoolsDepthZero(x: Image, net: Autoencoders, classify: Classifiers) returns (ace: ACE, r: Result<Output, Error>)
    requires IsRect(x)
    ensures ace.autoencoders == [] && ace.lambdas == []
    ensures ace.Valid() && ace.ValidDraw(Draw(0, 0, [], [], []))
    ensures r == Ok(Reconstruction(x))
  {
    ace := new ACE(["A"], [], [0], [], map[], false);
    r := ace.Forward(x, true, Draw(0, 0, [], [], []), net, classify);
  }
}
