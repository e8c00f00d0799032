# Quantizer annotation utilities, modelled in Dafny

This project models the self-contained logic of the quantizer utility module
`torch/ao/quantization/quantizer/utils.py` of PyTorch's graph-mode (PT2E)
quantization:

- **Annotation helpers.** `_annotate_input_qspec_map` and `_annotate_output_qspec`
  fetch a node's `"quantization_annotation"` metadata record, or build a blank one.
  The input helper turns a missing (`None`) input spec map into an empty one and
  sets one entry. The output helper sets the output spec. Both store the record
  back on the node. The node is a class (`Graph.Node`) whose `meta` dictionary
  the methods `Annotate.AnnotateInputQspecMap` and `Annotate.AnnotateOutputQspec`
  update in place. Each method is proved equal to a pure function of the old
  dictionary (`WithInputQspec`, `WithOutputQspec`). The lemmas about how several
  calls combine are stated on those functions.
- **Size-extraction check.** `_node_only_used_for_sym_size` is true when the node
  is itself a size-extraction node. Otherwise it is true when every user is
  outside the partition or is a size-extraction node. `SymSize.OnlyUsedForSymSize`
  models it. `NoBlockingUser` models the short-circuit walk that `all(...)` does
  over the users.
- **Conv/unary pattern template.** `_get_conv_unary_pattern` returns the template
  `_conv_unary`. The template wires convolution, optional batch norm and optional
  unary op together, and returns the output plus a map from names to nodes.
  `ConvUnary.GetConvUnaryPattern` builds the captured configuration, and
  `ConvUnary.Run` is the template body. The operators are uninterpreted function
  parameters over an opaque value type `T`.

Modelling choices:

- Quantization specs (`QSpec`) and non-annotation metadata values (`Payload`) are
  opaque types. The helpers never look inside them.
- `_is_sym_size_node` is defined in another module. Here it is a parameter
  `isSymSizeNode: Node -> bool`.
- `F.batch_norm(..., training=True)` is the parameter `batchNorm`. The convolution
  and the unary op are parameters too.
- `QuantizationAnnotation()` is defined in another module, so its defaults are
  assumed to be nothing. The annotation it builds is the parameter `blank`.
- A node's users are a sequence in insertion order. Membership in the partition
  is sequence membership by node identity, as with Python's `in` on a list of nodes.

## Model

| member | source | states |
|---|---|---|
| `Annotate.WithInputQspec` | torch/ao/quantization/quantizer/utils.py:23-30 | afterwards the annotation is present; every other metadata key is kept; the input map exists and maps the input node to the spec; every other input's spec is kept, with a missing map read as empty; the output spec is unchanged |
| `Annotate.WithOutputQspec` | torch/ao/quantization/quantizer/utils.py:33-38 | afterwards the annotation is present; every other metadata key is kept; the output spec is the given one; the input map (even a missing one) is unchanged |
| `Annotate.AnnotateInputQspecMap` | torch/ao/quantization/quantizer/utils.py:23-30 | changes only the node's `meta`, which becomes `WithInputQspec` of the old `meta` |
| `Annotate.AnnotateOutputQspec` | torch/ao/quantization/quantizer/utils.py:33-38 | changes only the node's `meta`, which becomes `WithOutputQspec` of the old `meta` |
| `Annotate.TwoInputsAccumulate` | torch/ao/quantization/quantizer/utils.py:27-29 | annotating two distinct input nodes leaves both specs recorded |
| `Annotate.RepeatInputOverwrites` | torch/ao/quantization/quantizer/utils.py:29 | annotating the same input twice gives exactly what the second call alone gives: only that entry is overwritten |
| `Annotate.InputAnnotationsCommute` | torch/ao/quantization/quantizer/utils.py:29 | annotating two distinct inputs gives the same metadata in either order |
| `Annotate.FirstInputIsSingleton` | torch/ao/quantization/quantizer/utils.py:24-29 | when the annotation used (the stored one, or the blank one when there is none) has no input entries, whether its map is missing or empty, the map afterwards holds exactly the one new entry |
| `Annotate.RepeatOutputOverwrites` | torch/ao/quantization/quantizer/utils.py:37 | a second output spec replaces the first; the result is what the second call alone gives |
| `Annotate.InputAndOutputCommute` | torch/ao/quantization/quantizer/utils.py:23-38 | the input and output helpers commute, because they touch different fields |
| `Annotate.BlankUnusedOnceAnnotated` | torch/ao/quantization/quantizer/utils.py:24-26 | once an annotation is stored, neither helper depends on the blank annotation |
| `Annotate.AnnotateOutputAndInputs` | torch/ao/quantization/quantizer/utils.py:23-38 | on a node: after one output and two distinct input annotations, all three specs are recorded and the other metadata keys are untouched |
| `SymSize.NoBlockingUser` | torch/ao/quantization/quantizer/utils.py:60-63 | the left-to-right short-circuit walk is true iff no user is both in the partition and not a size node |
| `SymSize.OnlyUsedForSymSize` | torch/ao/quantization/quantizer/utils.py:57-63 | true whenever the node is a size node; otherwise true iff every user is outside the partition or is a size node |
| `SymSize.NotOnlySymSizeWitness` | torch/ao/quantization/quantizer/utils.py:57-63 | false exactly when the node is not a size node and some user is in the partition and not a size node |
| `SymSize.NoUsersMeansOnlySymSize` | torch/ao/quantization/quantizer/utils.py:60-63 | a node with no users yields true |
| `SymSize.EmptyPartitionMeansOnlySymSize` | torch/ao/quantization/quantizer/utils.py:61 | every node yields true against an empty partition |
| `SymSize.SmallerPartitionKeepsAnswer` | torch/ao/quantization/quantizer/utils.py:61 | a true answer stays true when the partition shrinks |
| `SymSize.NoBlockingUserAppend` | torch/ao/quantization/quantizer/utils.py:60-63 | the walk over a concatenation of user lists is the conjunction of the walks over the parts |
| `SymSize.UsersOrderIrrelevant` | torch/ao/quantization/quantizer/utils.py:60-63 | two user lists with the same elements, counted with multiplicity, give the same answer in any order |
| `ConvUnary.GetConvUnaryPattern` | torch/ao/quantization/quantizer/utils.py:66-70 | the returned template captures exactly the given convolution, batch-norm flag and unary op (and the batch norm it stands for) |
| `ConvUnary.DefaultPatternIsPlainConv` | torch/ao/quantization/quantizer/utils.py:68-69 | with the defaults, the template has no batch norm and no unary op |
| `ConvUnary.Run` | torch/ao/quantization/quantizer/utils.py:73-101 | the name map has exactly the seven names; the returned output is `"output"`, which always equals `"unary"`; without batch norm `"bn"` equals `"conv"`; without a unary op `"unary"` equals `"bn"`; `"input"`, `"conv_weight"` and `"conv_bias"` are the arguments unchanged; each stage applies its operator to the previous stage |
| `ConvUnary.PlainConvAllAliases` | torch/ao/quantization/quantizer/utils.py:66-101 | with the default configuration (no batch norm, no unary op) the output and the `"bn"`, `"unary"` and `"output"` names all refer to the convolution |
| `ConvUnary.BnArgumentsUnusedWithoutBn` | torch/ao/quantization/quantizer/utils.py:83-86 | without batch norm, the four batch-norm arguments do not affect the result |
| `ConvUnary.OutputIsComposition` | torch/ao/quantization/quantizer/utils.py:82-92 | the output is the convolution, then batch norm if configured, then the unary op if given, for all four configurations |

## Left out

- `_generate_pattern_matcher_helper` (utils.py:106-113): this traces the pattern into a graph module, eliminates dead code, recompiles and builds a subgraph matcher. All of that is done by framework code that is not part of this model.
- The eight `_generate_conv2d_*_pattern_matcher` accessors (utils.py:116-192): they pass different arguments to the helper above. Their `functools.lru_cache` memoization is library behaviour, so "the same object on every call" is not modelled.
- Tensor semantics of convolution, batch norm and the activations (`relu`, `hardtanh`, `relu6` and their in-place forms): these are framework floating-point operators, so they stay uninterpreted.
- `_is_sym_size_node` and the example inputs come from `torch.ao.quantization.pt2e.utils`, which is not part of this model.
- `QuantizationAnnotation`'s defaults and its other fields are defined in another module. The record here has only the two fields the helpers use, and the blank annotation is a parameter.
- Sharing one annotation object between several nodes' metadata is out of scope. Each node's annotation is a value that the node owns, so in-place aliasing between nodes is not captured.
- AnnotateInputQspecMap: requires the `"quantization_annotation"` entry to be absent or to hold an annotation. For any other value, reading its `input_qspec_map` attribute would fail in Python, and that failure is not modelled.
- WithInputQspec: carries the same requirement as AnnotateInputQspecMap, for the same reason.
- AnnotateOutputQspec: requires the `"quantization_annotation"` entry to be absent or to hold an annotation. For an ordinary object of another type stored there, Python would just attach an `output_qspec` attribute to it and store it back, and only built-in values would raise. That case is not modelled.
- WithOutputQspec: carries the same requirement as AnnotateOutputQspec, for the same reason.
- AnnotateOutputQspec: takes a spec. Passing `None` to clear the output spec is not modelled.
