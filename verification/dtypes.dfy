/** The narwhals column dtypes that the type-inference rules look at, and
    the numeric/non-numeric split of narwhals' `DType.is_numeric()`. */
module DTypes {

  datatype DType =
    | Int8 | Int16 | Int32 | Int64 | Int128
    | UInt8 | UInt16 | UInt32 | UInt64 | UInt128
    | Float32 | Float64 | Decimal
    | String | Categorical | Enum | Object
    | Boolean | Date | Datetime | Duration | Time
    | Binary | List | Array | Struct | Unknown

  /** narwhals' `is_numeric()`: the integer, float and decimal dtypes. */
  predicate IsNumeric(d: DType) {
    d.Int8? || d.Int16? || d.Int32? || d.Int64? || d.Int128? ||
    d.UInt8? || d.UInt16? || d.UInt32? || d.UInt64? || d.UInt128? ||
    d.Float32? || d.Float64? || d.Decimal?
  }

  /** A dataframe's schema: column name to dtype (`df.schema`). */
  type Schema = map<string, DType>
}
