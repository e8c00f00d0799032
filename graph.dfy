/**
  The part of the graph representation that the quantizer utilities touch:
  a node's metadata dictionary, the quantization annotation kept in it, and
  the node's users. Everything else about a node (its op, target, arguments,
  the graph it lives in) is not part of this model.
*/
module Graph {
  import opened Wrappers

  /** A quantization spec object. The utilities store it without looking inside. */
  type QSpec

  /** A metadata value other than a quantization annotation (a traced value, a stack trace, ...). */
  type Payload

  /** The metadata key under which a node's quantization annotation is kept. */
  const AnnotationKey: string := "quantization_annotation"

  /**
    The two fields of a quantization annotation that the utilities read and
    write: the spec to use for each input node, which may be missing
    altogether (`None`), and the spec of the node's output.
  */
  datatype QuantizationAnnotation = QuantizationAnnotation(
    inputQspecMap: Option<map<Node, QSpec>>,
    outputQspec: Option<QSpec>)

  /** A value stored in a node's metadata dictionary. */
  datatype MetaValue = Annotation(annotation: QuantizationAnnotation) | Other(payload: Payload)

  /** A graph node: its metadata dictionary and the nodes that use its value, in insertion order. */
  class Node {
    var meta: map<string, MetaValue>
    var users: seq<Node>
  }

  /**
    The annotation slot of a metadata dictionary is either empty or holds an
    annotation; anything else there has no `input_qspec_map` or
    `output_qspec` attribute for the utilities to use.
  */
  predicate AnnotationSlotOk(meta: map<string, MetaValue>) {
    AnnotationKey in meta ==> meta[AnnotationKey].Annotation?
  }

  /** The annotation the utilities start from: the stored one, or a newly built `blank` one. */
  function GetAnnotation(meta: map<string, MetaValue>, blank: QuantizationAnnotation): QuantizationAnnotation
    requires AnnotationSlotOk(meta)
  {
    if AnnotationKey in meta then meta[AnnotationKey].annotation else blank
  }

  /** The input spec map an annotation holds, a missing one read as empty. */
  function InputMapOrEmpty(a: QuantizationAnnotation): map<Node, QSpec> {
    if a.inputQspecMap.Some? then a.inputQspecMap.value else map[]
  }

  /** `after` is `before` with the one entry `key` set to `value` and every other entry kept. */
  ghost predicate SetOneEntry<K, V>(before: map<K, V>, after: map<K, V>, key: K, value: V) {
    && after.Keys == before.Keys + {key}
    && after[key] == value
    && forall k :: k in before && k != key ==> after[k] == before[k]
  }
}
