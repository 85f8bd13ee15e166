/** `_infer_types` of fleur/_utils/infer_types.py: which of two columns is
    the categorical one and which the numerical one. */
module FleurInferTypes {
  import opened Errors
  import opened DTypes

  /** `is_categorical`: the Categorical, Enum and String dtypes. */
  predicate IsCategorical(d: DType)
    ensures IsCategorical(d) ==> !IsNumeric(d)
  {
    d.Categorical? || d.Enum? || d.String?
  }

  /** `is_numerical`: numeric and not categorical. */
  predicate IsNumerical(d: DType)
    ensures IsNumerical(d) <==> IsNumeric(d)
  {
    IsNumeric(d) && !IsCategorical(d)
  }

  /** `df.schema[name]`; a missing name raises KeyError. */
  function Lookup(schema: Schema, name: string): (r: Result<DType>)
    ensures r.Ok? <==> name in schema
    ensures r.Ok? ==> r.value == schema[name]
    ensures r.Err? ==> r.error == KeyError
  {
    if name in schema then Ok(schema[name]) else Err(KeyError)
  }

  /** `_infer_types(x, y, df)`: the pair (categorical column, numerical column). */
  function InferTypes(x: string, y: string, schema: Schema): (r: Result<(string, string)>)
    ensures r.Err? ==> r.error == KeyError
    ensures r.Ok? ==> x in schema && y in schema
    ensures r.Ok? ==> r.value == (x, y) || r.value == (y, x)
    ensures r.Ok? ==> IsCategorical(schema[r.value.0]) && IsNumerical(schema[r.value.1])
  {
    match (Lookup(schema, x), Lookup(schema, y))
    case (Ok(dx), Ok(dy)) =>
      if IsCategorical(dx) && IsNumerical(dy) then Ok((x, y))
      else if IsNumerical(dx) && IsCategorical(dy) then Ok((y, x))
      else Err(KeyError)
    case _ => Err(KeyError)
  }

  /** Exactly the Categorical, Enum and String dtypes are categorical. */
  lemma CategoricalDTypes(d: DType)
    ensures IsCategorical(d) <==> d in {Categorical, Enum, String}
  {
  }

  /** No dtype is both categorical and numerical. */
  lemma CategoricalExcludesNumerical(d: DType)
    ensures !(IsCategorical(d) && IsNumerical(d))
  {
  }

  /** A categorical x with a numerical y gives (x, y). */
  lemma CategoricalFirst(x: string, y: string, schema: Schema)
    requires x in schema && y in schema
    requires IsCategorical(schema[x]) && IsNumerical(schema[y])
    ensures InferTypes(x, y, schema) == Ok((x, y))
  {
  }

  /** A numerical x with a categorical y gives (y, x): the categorical name comes first. */
  lemma NumericalFirst(x: string, y: string, schema: Schema)
    requires x in schema && y in schema
    requires IsNumerical(schema[x]) && IsCategorical(schema[y])
    ensures InferTypes(x, y, schema) == Ok((y, x))
  {
  }

  /** Success exactly when one column is categorical and the other numerical. */
  lemma InferTypesSucceedsIff(x: string, y: string, schema: Schema)
    ensures InferTypes(x, y, schema).Ok? <==>
      x in schema && y in schema &&
      ((IsCategorical(schema[x]) && IsNumerical(schema[y])) ||
       (IsNumerical(schema[x]) && IsCategorical(schema[y])))
  {
  }

  /** Two categorical columns, two numerical columns, or a column that is
      neither, all raise KeyError. */
  lemma InferTypesRejects(x: string, y: string, schema: Schema)
    requires x in schema && y in schema
    requires (IsCategorical(schema[x]) && IsCategorical(schema[y])) ||
             (IsNumerical(schema[x]) && IsNumerical(schema[y])) ||
             (!IsCategorical(schema[x]) && !IsNumeric(schema[x])) ||
             (!IsCategorical(schema[y]) && !IsNumeric(schema[y]))
    ensures InferTypes(x, y, schema) == Err(KeyError)
  {
  }

  /** The cases of tests/test_utils.py:36-49. */
  lemma InferTypesExamples()
    ensures InferTypes("x", "y", map["y" := String, "x" := Int64]) == Ok(("y", "x"))
    ensures InferTypes("x", "y", map["x" := String, "y" := Int64]) == Ok(("x", "y"))
    ensures InferTypes("x", "y", map["x" := String, "y" := String]) == Err(KeyError)
    ensures InferTypes("x", "y", map["x" := Int64, "y" := Int64]) == Err(KeyError)
  {
  }
}
