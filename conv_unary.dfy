/**
  The "convolution, optional batch norm, optional unary op" pattern
  template. The operators are parameters of type-`T` functions and are never
  interpreted: `convFn` is the convolution, `batchNorm(conv, runningMean,
  runningVar, weight, bias)` stands for the training-mode batch norm, and
  `unaryFn` is the optional activation.
*/
module ConvUnary {
  import opened Wrappers

  /** What `_get_conv_unary_pattern(conv_fn, has_bn, unary_fn)` captures in the template it returns. */
  datatype ConvUnaryPattern<!T> = ConvUnaryPattern(
    convFn: (T, T, T) -> T,
    hasBn: bool,
    unaryFn: Option<T -> T>,
    batchNorm: (T, Option<T>, Option<T>, Option<T>, Option<T>) -> T)

  /** The names the template reports for its nodes. */
  const PatternNames: set<string> := {"input", "conv", "conv_weight", "conv_bias", "bn", "unary", "output"}

  /** `_get_conv_unary_pattern`, with the same defaults for `has_bn` and `unary_fn`. */
  function GetConvUnaryPattern<T>(convFn: (T, T, T) -> T,
                                  batchNorm: (T, Option<T>, Option<T>, Option<T>, Option<T>) -> T,
                                  hasBn: bool := false, unaryFn: Option<T -> T> := None): (p: ConvUnaryPattern<T>)
    ensures p.convFn == convFn && p.batchNorm == batchNorm
    ensures p.hasBn == hasBn && p.unaryFn == unaryFn
  {
    ConvUnaryPattern(convFn, hasBn, unaryFn, batchNorm)
  }

  /** The template body `_conv_unary`: its output and its name map. */
  function Run<T>(p: ConvUnaryPattern<T>, x: T, convWeight: T, convBias: T,
                  bnWeight: Option<T> := None, bnBias: Option<T> := None,
                  bnRm: Option<T> := None, bnRv: Option<T> := None): (r: (T, map<string, T>))
    ensures r.1.Keys == PatternNames
    // the returned output is the node named "output", which is always the "unary" node
    ensures r.0 == r.1["output"] && r.1["output"] == r.1["unary"]
    // without batch norm "bn" names the convolution; without a unary op "unary" names "bn"
    ensures !p.hasBn ==> r.1["bn"] == r.1["conv"]
    ensures p.unaryFn.None? ==> r.1["unary"] == r.1["bn"]
    // the inputs are reported unchanged
    ensures r.1["input"] == x && r.1["conv_weight"] == convWeight && r.1["conv_bias"] == convBias
    // each stage is applied to the previous stage's node
    ensures r.1["conv"] == p.convFn(x, convWeight, convBias)
    ensures p.hasBn ==> r.1["bn"] == p.batchNorm(r.1["conv"], bnRm, bnRv, bnWeight, bnBias)
    ensures p.unaryFn.Some? ==> r.1["unary"] == p.unaryFn.value(r.1["bn"])
  {
    var conv := p.convFn(x, convWeight, convBias);
    var bn := if p.hasBn then p.batchNorm(conv, bnRm, bnRv, bnWeight, bnBias) else conv;
    var unary := if p.unaryFn.Some? then p.unaryFn.value(bn) else bn;
    var output := unary;
    (output, map["input" := x, "conv" := conv, "conv_weight" := convWeight, "conv_bias" := convBias,
                 "bn" := bn, "unary" := unary, "output" := output])
  }

  /** Called with only the convolution, the template has no batch norm and no unary op. */
  lemma DefaultPatternIsPlainConv<T>(convFn: (T, T, T) -> T,
                                     batchNorm: (T, Option<T>, Option<T>, Option<T>, Option<T>) -> T)
    ensures !GetConvUnaryPattern(convFn, batchNorm).hasBn
    ensures GetConvUnaryPattern(convFn, batchNorm).unaryFn == None
  {
  }

  /** With neither batch norm nor unary op, every stage name refers to the convolution. */
  lemma PlainConvAllAliases<T>(convFn: (T, T, T) -> T,
                               batchNorm: (T, Option<T>, Option<T>, Option<T>, Option<T>) -> T,
                               x: T, w: T, b: T)
    ensures var r := Run(GetConvUnaryPattern(convFn, batchNorm), x, w, b);
      r.0 == convFn(x, w, b) && r.1["bn"] == r.1["conv"] && r.1["unary"] == r.1["conv"]
      && r.1["output"] == r.1["conv"]
  {
  }

  /** Without batch norm the batch-norm arguments play no part. */
  lemma BnArgumentsUnusedWithoutBn<T>(p: ConvUnaryPattern<T>, x: T, w: T, b: T,
                                      bw1: Option<T>, bb1: Option<T>, rm1: Option<T>, rv1: Option<T>,
                                      bw2: Option<T>, bb2: Option<T>, rm2: Option<T>, rv2: Option<T>)
    requires !p.hasBn
    ensures Run(p, x, w, b, bw1, bb1, rm1, rv1) == Run(p, x, w, b, bw2, bb2, rm2, rv2)
  {
  }

  /** The output is the three stages composed, each optional one skipped when absent. */
  lemma OutputIsComposition<T>(p: ConvUnaryPattern<T>, x: T, w: T, b: T,
                               bw: Option<T>, bb: Option<T>, rm: Option<T>, rv: Option<T>)
    ensures Run(p, x, w, b, bw, bb, rm, rv).0 ==
      match (p.hasBn, p.unaryFn)
      case (false, None) => p.convFn(x, w, b)
      case (true, None) => p.batchNorm(p.convFn(x, w, b), rm, rv, bw, bb)
      case (false, Some(f)) => f(p.convFn(x, w, b))
      case (true, Some(f)) => f(p.batchNorm(p.convFn(x, w, b), rm, rv, bw, bb))
  {
  }
}
