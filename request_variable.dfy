/** `request_variable`: a one-slot identifier that starts as a generated id and may be set explicitly. */
module RequestVariables {
  import opened Base
  import opened Ids

  class RequestVariable {
    /** The current value (`_var`). */
    var val: string
    /** Whether a caller ever set the value explicitly (`_use_var_p`). */
    var useVar: bool

    /** A generated id is drawn first; a truthy `varvalue` then overwrites it and marks it set. */
    constructor (ids: IdSupply, varvalue: Option<string>)
      requires ids.Valid()
      modifies ids
      ensures ids.Valid() && old(ids.issued) < ids.issued
      ensures Truthy(varvalue) ==> val == varvalue.value && useVar
      ensures !Truthy(varvalue) ==>
        && !useVar && val != ""
        && val !in old(ids.issued) && ids.issued == old(ids.issued) + {val}
    {
      var generated := ids.Fresh();
      if Truthy(varvalue) {
        val := varvalue.value;
        useVar := true;
      } else {
        val := generated;
        useVar := false;
      }
    }

    /** `value(v)`: a truthy `v` overwrites the value and marks it set; otherwise nothing changes. */
    method Value(v: Option<string>) returns (r: string)
      modifies this
      ensures Truthy(v) ==> val == v.value && useVar
      ensures !Truthy(v) ==> val == old(val) && useVar == old(useVar)
      ensures r == val
    {
      if Truthy(v) {
        val := v.value;
        useVar := true;
      }
      r := val;
    }

    /** `set_p()`: whether the value was set explicitly. */
    function IsSet(): (b: bool)
      reads this
      ensures b <==> useVar
    {
      useVar
    }
  }
}
