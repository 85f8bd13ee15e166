/** `_infer_types` of inferplot/_utils/infer_types.py: the fleur rule with
    the Object dtype also counted as categorical. */
module InferplotInferTypes {
  import opened Errors
  import opened DTypes
  import Fleur = FleurInferTypes

  /** `is_categorical`: Categorical, Enum, String, and also Object. */
  predicate IsCategorical(d: DType)
    ensures IsCategorical(d) ==> !IsNumeric(d)
  {
    d.Categorical? || d.Enum? || d.String? || d.Object?
  }

  /** `is_numerical`: numeric and not categorical. */
  predicate IsNumerical(d: DType)
    ensures IsNumerical(d) <==> IsNumeric(d)
  {
    IsNumeric(d) && !IsCategorical(d)
  }

  /** `_infer_types(x, y, df)`: the pair (categorical column, numerical column). */
  function InferTypes(x: string, y: string, schema: Schema): (r: Result<(string, string)>)
    ensures r.Err? ==> r.error == KeyError
    ensures r.Ok? ==> x in schema && y in schema
    ensures r.Ok? ==> r.value == (x, y) || r.value == (y, x)
    ensures r.Ok? ==> IsCategorical(schema[r.value.0]) && IsNumerical(schema[r.value.1])
  {
    match (Fleur.Lookup(schema, x), Fleur.Lookup(schema, y))
    case (Ok(dx), Ok(dy)) =>
      if IsCategorical(dx) && IsNumerical(dy) then Ok((x, y))
      else if IsNumerical(dx) && IsCategorical(dy) then Ok((y, x))
      else Err(KeyError)
    case _ => Err(KeyError)
  }

  /** The categorical dtypes are fleur's plus Object. */
  lemma CategoricalIsFleurPlusObject(d: DType)
    ensures IsCategorical(d) <==> Fleur.IsCategorical(d) || d == Object
  {
  }

  /** No dtype is both categorical and numerical. */
  lemma CategoricalExcludesNumerical(d: DType)
    ensures !(IsCategorical(d) && IsNumerical(d))
  {
  }

  /** Object is not numeric, so both versions call the same dtypes numerical. */
  lemma SameNumerical(d: DType)
    ensures IsNumerical(d) <==> Fleur.IsNumerical(d)
  {
  }

  /** Success exactly when one column is categorical and the other numerical;
      (x, y) when x is the categorical one, (y, x) otherwise. */
  lemma InferTypesCases(x: string, y: string, schema: Schema)
    ensures x in schema && y in schema && IsCategorical(schema[x]) && IsNumerical(schema[y]) ==>
      InferTypes(x, y, schema) == Ok((x, y))
    ensures x in schema && y in schema && IsNumerical(schema[x]) && IsCategorical(schema[y]) ==>
      InferTypes(x, y, schema) == Ok((y, x))
    ensures !(x in schema && y in schema &&
              ((IsCategorical(schema[x]) && IsNumerical(schema[y])) ||
               (IsNumerical(schema[x]) && IsCategorical(schema[y])))) ==>
      InferTypes(x, y, schema) == Err(KeyError)
  {
  }

  /** Every pair the fleur version accepts gets the same answer here. */
  lemma ExtendsFleur(x: string, y: string, schema: Schema)
    requires Fleur.InferTypes(x, y, schema).Ok?
    ensures InferTypes(x, y, schema) == Fleur.InferTypes(x, y, schema)
  {
  }

  /** The two versions differ only when one of the columns has the Object dtype. */
  lemma DiffersOnlyOnObject(x: string, y: string, schema: Schema)
    requires InferTypes(x, y, schema) != Fleur.InferTypes(x, y, schema)
    ensures x in schema && y in schema
    ensures schema[x] == Object || schema[y] == Object
  {
  }

  /** An Object column paired with a numeric one is accepted here and
      rejected by fleur. */
  lemma ObjectNowCategorical(x: string, y: string, schema: Schema)
    requires x in schema && y in schema
    requires schema[x] == Object && IsNumeric(schema[y])
    ensures InferTypes(x, y, schema) == Ok((x, y))
    ensures Fleur.InferTypes(x, y, schema) == Err(KeyError)
  {
  }
}
