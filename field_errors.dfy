/** The validation errors of the go-playground validator (v10) as the API
    sees them: a list of field errors, or some other error. */
module FieldErrors {

  /** One failed rule: the field's path from the top-level struct, its name,
      the rule's tag and the rule's parameter (`"0"` in `gt=0`). */
  datatype FieldError = FieldError(Namespace: string, Field: string, Tag: string, Param: string)

  /** What `Struct` returns: a validation-error list, or another error. */
  datatype Error = ValidationErrorList(errs: seq<FieldError>) | OtherError(text: string)

  /** The library's own text for a field error (`FieldError.Error()`). */
  function ErrorText(e: FieldError): string {
    "Key: '" + e.Namespace + "' Error:Field validation for '" + e.Field + "' failed on the '" + e.Tag + "' tag"
  }

  /** The map the detail loops build: visiting `errs` in order, each error
      stores `message(e)` under its field name, overwriting an earlier entry
      for the same name. */
  function Details(errs: seq<FieldError>, message: FieldError -> string): map<string, string> {
    if |errs| == 0 then map[]
    else
      var last := errs[|errs| - 1];
      Details(errs[..|errs| - 1], message)[last.Field := message(last)]
  }

  /** The keys of the details are exactly the failing fields' names; an empty
      list gives the empty map. */
  lemma {:induction false} DetailsKeys(errs: seq<FieldError>, message: FieldError -> string)
    ensures forall k :: k in Details(errs, message) <==> exists i :: 0 <= i < |errs| && errs[i].Field == k
    ensures |errs| == 0 ==> Details(errs, message) == map[]
  {
    if |errs| > 0 {
      var n := |errs| - 1;
      DetailsKeys(errs[..n], message);
      forall k
        ensures k in Details(errs, message) <==> exists i :: 0 <= i < |errs| && errs[i].Field == k
      {
        if k in Details(errs[..n], message) {
          var i :| 0 <= i < n && errs[..n][i].Field == k;
          assert errs[i].Field == k;
        }
        if exists i :: 0 <= i < |errs| && errs[i].Field == k {
          var i :| 0 <= i < |errs| && errs[i].Field == k;
          if i < n {
            assert errs[..n][i].Field == k;
          }
        }
      }
    }
  }

  /** Where a field name repeats, the last error for it wins: an error that no
      later error shares a field name with supplies that field's message. */
  lemma {:induction false} DetailsLastWins(errs: seq<FieldError>, message: FieldError -> string, i: nat)
    requires i < |errs|
    requires forall j :: i < j < |errs| ==> errs[j].Field != errs[i].Field
    ensures errs[i].Field in Details(errs, message)
    ensures Details(errs, message)[errs[i].Field] == message(errs[i])
  {
    var n := |errs| - 1;
    if i < n {
      assert errs[..n][i] == errs[i];
      DetailsLastWins(errs[..n], message, i);
    }
  }
}
