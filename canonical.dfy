/**
 * The canonicaliser of python/graph_visualizer.py: a total map from raw ONNX
 * operator identifiers to a small set of semantic categories.  It looks the
 * identifier up in a fixed table, then recognises framework-qualified
 * convolutions by their `onnx::Conv` prefix, and otherwise keeps the
 * identifier as its own category.
 */
module Canonical {
  import opened Strings

  /** The fixed category table. */
  const CanonicalMap: map<string, string> := map[
    "Conv" := "Conv",
    "MatMul" := "MatMul/Gemm",
    "Gemm" := "MatMul/Gemm",
    "FusedOp" := "FusedOp",
    "Add" := "Add",
    "Mul" := "Mul",
    "Relu" := "Activation",
    "Sigmoid" := "Activation",
    "Tanh" := "Activation",
    "Clip" := "Activation",
    "Identity" := "Other",
    "Constant" := "Other",
    "Flatten" := "Other",
    "GlobalAveragePool" := "Other"
  ]

  const ConvPrefix: string := "onnx::Conv"

  /** The category of a raw operator identifier: the table's entry, `Conv` for a
    * qualified convolution, or else the identifier itself. */
  function Canonicalize(opType: string): (category: string)
    ensures category == opType || category in CanonicalMap.Values
    ensures opType in CanonicalMap ==> category == CanonicalMap[opType]
  {
    if opType in CanonicalMap then
      CanonicalMap[opType]
    else if StartsWith(opType, ConvPrefix) then
      assert CanonicalMap["Conv"] == "Conv";
      "Conv"
    else
      opType
  }

  /** An identifier that the canonicaliser leaves as it is. */
  predicate IsCategory(s: string)
  {
    Canonicalize(s) == s
  }

  /** `MatMul` and `Gemm` share one category. */
  lemma CanonicalMatMulGemm()
    ensures Canonicalize("MatMul") == Canonicalize("Gemm") == "MatMul/Gemm"
  {
    assert "MatMul" in CanonicalMap && "Gemm" in CanonicalMap;
  }

  /** `Conv`, `FusedOp`, `Add` and `Mul` are categories of their own. */
  lemma CanonicalSelf()
    ensures Canonicalize("Conv") == "Conv" && Canonicalize("FusedOp") == "FusedOp"
    ensures Canonicalize("Add") == "Add" && Canonicalize("Mul") == "Mul"
  {
    assert "Conv" in CanonicalMap && "FusedOp" in CanonicalMap;
    assert "Add" in CanonicalMap && "Mul" in CanonicalMap;
  }

  /** The four activation functions share one category. */
  lemma CanonicalActivations()
    ensures Canonicalize("Relu") == Canonicalize("Sigmoid") == "Activation"
    ensures Canonicalize("Tanh") == Canonicalize("Clip") == "Activation"
  {
    assert "Relu" in CanonicalMap && "Sigmoid" in CanonicalMap;
    assert "Tanh" in CanonicalMap && "Clip" in CanonicalMap;
  }

  /** Identity, constants, flattening and global pooling are all `Other`. */
  lemma CanonicalOthers()
    ensures Canonicalize("Identity") == Canonicalize("Constant") == "Other"
    ensures Canonicalize("Flatten") == Canonicalize("GlobalAveragePool") == "Other"
  {
    assert "Identity" in CanonicalMap && "Constant" in CanonicalMap;
    assert "Flatten" in CanonicalMap && "GlobalAveragePool" in CanonicalMap;
  }

  /** The category the fusion pass assigns is a category. */
  lemma FusedOpIsCategory()
    ensures IsCategory("FusedOp")
  {
    assert "FusedOp" in CanonicalMap;
  }

  /** Identifiers outside the table: qualified convolutions become `Conv`, the rest stay. */
  lemma CanonicalizeFallback(s: string)
    requires s !in CanonicalMap
    ensures StartsWith(s, ConvPrefix) ==> Canonicalize(s) == "Conv"
    ensures !StartsWith(s, ConvPrefix) ==> Canonicalize(s) == s
  {
  }

  /** Every category the table produces is a fixed point of the canonicaliser. */
  lemma TableValuesAreCategories()
    ensures forall k :: k in CanonicalMap ==> IsCategory(CanonicalMap[k])
  {
    assert !StartsWith("MatMul/Gemm", ConvPrefix) by {
      assert "MatMul/Gemm"[0] != ConvPrefix[0];
    }
    assert !StartsWith("Activation", ConvPrefix) by {
      assert "Activation"[0] != ConvPrefix[0];
    }
    assert !StartsWith("Other", ConvPrefix);
  }

  /** Canonicalising twice is canonicalising once. */
  lemma CanonicalizeIdempotent(s: string)
    ensures IsCategory(Canonicalize(s))
  {
    if s in CanonicalMap {
      TableValuesAreCategories();
    } else if StartsWith(s, ConvPrefix) {
      assert Canonicalize(s) == "Conv";
    }
  }
}
