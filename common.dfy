/** Return codes and the string helpers the binder uses. */
module Common {

  /** The return codes the binder can produce. `OtherFailure` stands for any
      further code the external filter binder may return; the binder only
      propagates it. */
  datatype RC =
    | Success
    | InvalidArgument
    | SchemaTableNotExist
    | SchemaFieldMissing
    | NestedAggregation
    | AggregationUnmatched
    | OtherFailure(code: int)

  /** C's `isspace` in the default locale: space, and '\t' '\n' '\v' '\f' '\r'. */
  predicate IsSpace(c: char)
  {
    c == ' ' || 9 <= c as int <= 13
  }

  /** `common::is_blank`: a string is blank when it holds only white space
      (the empty string included). */
  predicate IsBlank(s: string)
  {
    forall i :: 0 <= i < |s| ==> IsSpace(s[i])
  }
}
