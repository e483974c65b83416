/**
 * The few zod schema rules the credential and deploy forms use, as checks
 * that return the issues they find (an empty list means the value passes).
 */
module Zod {
  import opened Common
  import JsStrings

  datatype IssueKind =
    | Required        // the value is missing or not a string
    | TooSmall(min: nat)
    | TooBig(max: nat)
    | NotAnOption     // not one of an enum's values

  datatype FieldIssue = FieldIssue(field: string, kind: IssueKind)

  /** The issues of a list that concern `field`. */
  predicate Mentions(issues: seq<FieldIssue>, field: string)
  {
    exists i :: 0 <= i < |issues| && issues[i].field == field
  }

  /** A single issue of `kind` on `field`. */
  function Issue(field: string, kind: IssueKind): (issues: seq<FieldIssue>)
    ensures |issues| == 1 && issues[0].field == field && Mentions(issues, field)
  {
    var issues := [FieldIssue(field, kind)];
    assert issues[0].field == field;
    issues
  }

  /**
   * `z.string().trim().min(min).max(max)` on field `field`: at most one
   * issue, and none exactly when the value is a string whose trimmed length
   * lies within the bounds.
   */
  function TrimmedString(field: string, value: Option<string>, min: nat, max: nat): (issues: seq<FieldIssue>)
    ensures |issues| <= 1 && (forall i :: 0 <= i < |issues| ==> issues[i].field == field)
    ensures Mentions(issues, field) <==> issues != []
    ensures issues == [] <==> value.Some? && JsStrings.TrimmedLengthIn(value.value, min, max)
  {
    if value.None? then Issue(field, Required)
    else if |JsStrings.Trim(value.value)| < min then Issue(field, TooSmall(min))
    else if |JsStrings.Trim(value.value)| > max then Issue(field, TooBig(max))
    else []
  }

  /** `z.string().min(min)` (no trimming) on field `field`. */
  function MinString(field: string, value: Option<string>, min: nat): (issues: seq<FieldIssue>)
    ensures |issues| <= 1 && (forall i :: 0 <= i < |issues| ==> issues[i].field == field)
    ensures Mentions(issues, field) <==> issues != []
    ensures issues == [] <==> value.Some? && |value.value| >= min
  {
    if value.None? then Issue(field, Required)
    else if |value.value| < min then Issue(field, TooSmall(min))
    else []
  }

  /** Joining two fields' issues keeps each field's issues findable. */
  lemma {:induction false} MentionsAppend(a: seq<FieldIssue>, b: seq<FieldIssue>, field: string)
    ensures Mentions(a + b, field) <==> Mentions(a, field) || Mentions(b, field)
  {
    if Mentions(a + b, field) {
      var i :| 0 <= i < |a + b| && (a + b)[i].field == field;
      if i >= |a| {
        assert b[i - |a|].field == field;
      }
    }
    if Mentions(a, field) {
      var i :| 0 <= i < |a| && a[i].field == field;
      assert (a + b)[i] == a[i];
    }
    if Mentions(b, field) {
      var i :| 0 <= i < |b| && b[i].field == field;
      assert (a + b)[|a| + i] == b[i];
    }
  }
}
