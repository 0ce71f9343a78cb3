/**
 The two PPAPI value types the git command header reads: `pp::Var`, a
 dynamically typed value, and `pp::VarDictionary`, a string-keyed dictionary
 of such values. Only what `parseString` and `parseInt` observe is modelled:
 the type tests `is_string` / `is_int`, the accessors `AsString` / `AsInt`,
 and `Get`, which answers an undefined var for a key that is not present.
 */
module PpVar {

  /** A C `int` / `int32_t`, the width of `pp::Var::AsInt` and of `int*` out-parameters. */
  newtype int32 = x: int | -0x8000_0000 <= x < 0x8000_0000

  /** The dynamic type of a `pp::Var` and, for strings and integers, its payload. */
  datatype Var =
    | Undefined
    | Null
    | Bool(b: bool)
    | Int(i: int32)
    | Double                // a floating-point number; its value is not modelled
    | Str(s: string)
    | Other                 // object, array, dictionary, array buffer or resource
  {
    /** `pp::Var::is_string`. */
    predicate IsString() { Str? }

    /** `pp::Var::is_int`: true of 32-bit integers only, never of doubles. */
    predicate IsInt() { Int? }

    /** `pp::Var::AsString`, used only after `IsString`. */
    function AsString(): string
      requires IsString()
    {
      s
    }

    /** `pp::Var::AsInt`, used only after `IsInt`. */
    function AsInt(): int32
      requires IsInt()
    {
      i
    }
  }

  /** A `pp::VarDictionary`: each present key maps to its value. */
  type VarDictionary = map<string, Var>

  /** `pp::VarDictionary::Get`: the value stored under `key`, or an undefined var. */
  function Get(dict: VarDictionary, key: string): Var
  {
    if key in dict then dict[key] else Undefined
  }
}
