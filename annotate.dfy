/**
  The two annotation helpers: each fetches a node's quantization annotation
  (building a blank one when there is none), changes one part of it, and
  stores it back under "quantization_annotation". `blank` stands for the
  annotation `QuantizationAnnotation()` builds; its defaults are defined
  outside this model, so nothing is assumed of it.
*/
module Annotate {
  import opened Wrappers
  import opened Graph

  /** The metadata dictionary after `_annotate_input_qspec_map(node, inputNode, qspec)`. */
  function WithInputQspec(meta: map<string, MetaValue>, inputNode: Node, qspec: QSpec,
                          blank: QuantizationAnnotation): (m: map<string, MetaValue>)
    requires AnnotationSlotOk(meta)
    // the annotation is there afterwards, and no other metadata entry changed
    ensures AnnotationKey in m && AnnotationSlotOk(m)
    ensures SetOneEntry(meta, m, AnnotationKey, m[AnnotationKey])
    // the input map exists, maps inputNode to qspec and keeps every other input's spec
    ensures m[AnnotationKey].annotation.inputQspecMap.Some?
    ensures SetOneEntry(InputMapOrEmpty(GetAnnotation(meta, blank)),
                        m[AnnotationKey].annotation.inputQspecMap.value, inputNode, qspec)
    // the output spec is left alone
    ensures m[AnnotationKey].annotation.outputQspec == GetAnnotation(meta, blank).outputQspec
  {
    var a := GetAnnotation(meta, blank);
    meta[AnnotationKey := Annotation(a.(inputQspecMap := Some(InputMapOrEmpty(a)[inputNode := qspec])))]
  }

  /** The metadata dictionary after `_annotate_output_qspec(node, qspec)`. */
  function WithOutputQspec(meta: map<string, MetaValue>, qspec: QSpec,
                           blank: QuantizationAnnotation): (m: map<string, MetaValue>)
    requires AnnotationSlotOk(meta)
    ensures AnnotationKey in m && AnnotationSlotOk(m)
    ensures SetOneEntry(meta, m, AnnotationKey, m[AnnotationKey])
    ensures m[AnnotationKey].annotation.outputQspec == Some(qspec)
    ensures m[AnnotationKey].annotation.inputQspecMap == GetAnnotation(meta, blank).inputQspecMap
  {
    meta[AnnotationKey := Annotation(GetAnnotation(meta, blank).(outputQspec := Some(qspec)))]
  }

  /** Record on `node` that its input `inputNode` is to be quantized with `qspec`. */
  method AnnotateInputQspecMap(node: Node, inputNode: Node, qspec: QSpec, blank: QuantizationAnnotation)
    requires AnnotationSlotOk(node.meta)
    modifies node`meta
    ensures node.meta == WithInputQspec(old(node.meta), inputNode, qspec, blank)
  {
    var annotation := if AnnotationKey in node.meta then node.meta[AnnotationKey].annotation else blank;
    if annotation.inputQspecMap == None {
      annotation := annotation.(inputQspecMap := Some(map[]));
    }
    annotation := annotation.(inputQspecMap := Some(annotation.inputQspecMap.value[inputNode := qspec]));
    node.meta := node.meta[AnnotationKey := Annotation(annotation)];
  }

  /** Record on `node` that its output is to be quantized with `qspec`. */
  method AnnotateOutputQspec(node: Node, qspec: QSpec, blank: QuantizationAnnotation)
    requires AnnotationSlotOk(node.meta)
    modifies node`meta
    ensures node.meta == WithOutputQspec(old(node.meta), qspec, blank)
  {
    var annotation := if AnnotationKey in node.meta then node.meta[AnnotationKey].annotation else blank;
    annotation := annotation.(outputQspec := Some(qspec));
    node.meta := node.meta[AnnotationKey := Annotation(annotation)];
  }

  /** The spec recorded for `inputNode`, if the annotation has one. */
  function InputSpec(meta: map<string, MetaValue>, inputNode: Node): Option<QSpec>
    requires AnnotationSlotOk(meta)
  {
    if AnnotationKey in meta && meta[AnnotationKey].annotation.inputQspecMap.Some?
       && inputNode in meta[AnnotationKey].annotation.inputQspecMap.value
    then Some(meta[AnnotationKey].annotation.inputQspecMap.value[inputNode])
    else None
  }

  /** Annotating two different inputs keeps both specs. */
  lemma TwoInputsAccumulate(meta: map<string, MetaValue>, n1: Node, q1: QSpec, n2: Node, q2: QSpec,
                            blank: QuantizationAnnotation)
    requires AnnotationSlotOk(meta) && n1 != n2
    ensures var m := WithInputQspec(WithInputQspec(meta, n1, q1, blank), n2, q2, blank);
      InputSpec(m, n1) == Some(q1) && InputSpec(m, n2) == Some(q2)
  {
  }

  /** A later input spec for the same node replaces the earlier one and nothing else. */
  lemma RepeatInputOverwrites(meta: map<string, MetaValue>, n: Node, q1: QSpec, q2: QSpec,
                              blank: QuantizationAnnotation)
    requires AnnotationSlotOk(meta)
    ensures WithInputQspec(WithInputQspec(meta, n, q1, blank), n, q2, blank) == WithInputQspec(meta, n, q2, blank)
  {
    var a := GetAnnotation(meta, blank);
    assert InputMapOrEmpty(a)[n := q1][n := q2] == InputMapOrEmpty(a)[n := q2];
  }

  /** The order in which two different inputs are annotated does not matter. */
  lemma InputAnnotationsCommute(meta: map<string, MetaValue>, n1: Node, q1: QSpec, n2: Node, q2: QSpec,
                                blank: QuantizationAnnotation)
    requires AnnotationSlotOk(meta) && n1 != n2
    ensures WithInputQspec(WithInputQspec(meta, n1, q1, blank), n2, q2, blank)
         == WithInputQspec(WithInputQspec(meta, n2, q2, blank), n1, q1, blank)
  {
    var a := GetAnnotation(meta, blank);
    assert InputMapOrEmpty(a)[n1 := q1][n2 := q2] == InputMapOrEmpty(a)[n2 := q2][n1 := q1];
  }

  /**
    When the annotation used (the stored one, or the blank one when there is
    none) has no input entries, whether its map is missing or empty, the
    input map afterwards holds exactly the one new entry.
  */
  lemma FirstInputIsSingleton(meta: map<string, MetaValue>, n: Node, q: QSpec, blank: QuantizationAnnotation)
    requires AnnotationSlotOk(meta)
    requires InputMapOrEmpty(GetAnnotation(meta, blank)) == map[]
    ensures WithInputQspec(meta, n, q, blank)[AnnotationKey].annotation.inputQspecMap == Some(map[n := q])
  {
  }

  /** A later output spec replaces the earlier one. */
  lemma RepeatOutputOverwrites(meta: map<string, MetaValue>, q1: QSpec, q2: QSpec, blank: QuantizationAnnotation)
    requires AnnotationSlotOk(meta)
    ensures WithOutputQspec(WithOutputQspec(meta, q1, blank), q2, blank) == WithOutputQspec(meta, q2, blank)
  {
  }

  /** The two helpers touch different fields, so either order gives the same metadata. */
  lemma InputAndOutputCommute(meta: map<string, MetaValue>, n: Node, qIn: QSpec, qOut: QSpec,
                              blank: QuantizationAnnotation)
    requires AnnotationSlotOk(meta)
    ensures WithOutputQspec(WithInputQspec(meta, n, qIn, blank), qOut, blank)
         == WithInputQspec(WithOutputQspec(meta, qOut, blank), n, qIn, blank)
  {
  }

  /** Once a node carries an annotation, the blank one is never consulted. */
  lemma BlankUnusedOnceAnnotated(meta: map<string, MetaValue>, n: Node, q: QSpec,
                                 blank1: QuantizationAnnotation, blank2: QuantizationAnnotation)
    requires AnnotationSlotOk(meta) && AnnotationKey in meta
    ensures WithInputQspec(meta, n, q, blank1) == WithInputQspec(meta, n, q, blank2)
    ensures WithOutputQspec(meta, q, blank1) == WithOutputQspec(meta, q, blank2)
  {
  }

  /** On a node: annotating the output, then two distinct inputs, leaves all three specs in place. */
  method AnnotateOutputAndInputs(node: Node, in1: Node, q1: QSpec, in2: Node, q2: QSpec, qOut: QSpec,
                                 blank: QuantizationAnnotation)
    requires AnnotationSlotOk(node.meta) && in1 != in2
    modifies node`meta
    ensures AnnotationKey in node.meta && node.meta[AnnotationKey].Annotation?
    ensures node.meta[AnnotationKey].annotation.outputQspec == Some(qOut)
    ensures InputSpec(node.meta, in1) == Some(q1) && InputSpec(node.meta, in2) == Some(q2)
    ensures forall k :: k in old(node.meta) && k != AnnotationKey ==> k in node.meta && node.meta[k] == old(node.meta)[k]
  {
    AnnotateOutputQspec(node, qOut, blank);
    AnnotateInputQspecMap(node, in1, q1, blank);
    AnnotateInputQspecMap(node, in2, q2, blank);
  }
}
