/**
 * What the handlers' zod schemas do with a request body: `z.object` of
 * `z.string()` fields, each with one check, parsed with `safeParse`. A body
 * passes when it is an object and every field is a string that meets its
 * check; otherwise the parse fails with one issue per failing field, in the
 * schema's field order (`Issues`, `IssuesInSchemaOrder`). Unknown keys are
 * dropped from the parsed data.
 */
module Validation {
  import opened Wrappers
  import opened Http

  /** The single check on a string field: `.min(n, message)` or `.email(message)`. */
  datatype Check = MinLength(min: nat, message: string) | Email(message: string)

  /** One field of an object schema. */
  datatype Rule = Rule(key: string, check: Check)

  /** A zod issue: the path to the offending value (empty for the body itself) and a message. */
  datatype Issue = Issue(path: seq<string>, message: string)

  predicate Satisfies(check: Check, s: string, isEmail: string -> bool)
  {
    match check
    case MinLength(n, _) => |s| >= n
    case Email(_) => isEmail(s)
  }

  /** The field named by `rule` is present, is a string, and meets the rule's check. */
  predicate Accepts(rule: Rule, obj: map<string, Value>, isEmail: string -> bool)
  {
    rule.key in obj && obj[rule.key].VString? && Satisfies(rule.check, obj[rule.key].s, isEmail)
  }

  /** All fields of the schema are accepted. */
  predicate AcceptsAll(rules: seq<Rule>, obj: map<string, Value>, isEmail: string -> bool)
  {
    forall i :: 0 <= i < |rules| ==> Accepts(rules[i], obj, isEmail)
  }

  /** The issue zod reports for one field, if any. */
  function FieldIssue(rule: Rule, obj: map<string, Value>, isEmail: string -> bool): (r: Option<Issue>)
    ensures r.None? <==> Accepts(rule, obj, isEmail)
    ensures r.Some? ==> r.value.path == [rule.key]
    ensures r.Some? && rule.key in obj && obj[rule.key].VString? ==> r.value.message == rule.check.message
  {
    if rule.key !in obj then Some(Issue([rule.key], "Required"))
    else if !obj[rule.key].VString? then Some(Issue([rule.key], "Expected string"))
    else if !Satisfies(rule.check, obj[rule.key].s, isEmail) then Some(Issue([rule.key], rule.check.message))
    else None
  }

  /** How many fields of the schema are refused. */
  function Failing(rules: seq<Rule>, obj: map<string, Value>, isEmail: string -> bool): nat
  {
    if rules == [] then 0
    else (if Accepts(rules[0], obj, isEmail) then 0 else 1) + Failing(rules[1..], obj, isEmail)
  }

  /** The issues of all fields, in schema order: one per refused field. */
  function Issues(rules: seq<Rule>, obj: map<string, Value>, isEmail: string -> bool): (r: seq<Issue>)
    ensures |r| == Failing(rules, obj, isEmail) <= |rules|
    ensures r == [] <==> AcceptsAll(rules, obj, isEmail)
  {
    if rules == [] then []
    else
      var tail := Issues(rules[1..], obj, isEmail);
      assert AcceptsAll(rules, obj, isEmail) <==> Accepts(rules[0], obj, isEmail) && AcceptsAll(rules[1..], obj, isEmail) by {
        assert forall i :: 1 <= i < |rules| ==> rules[i] == rules[1..][i - 1];
      }
      match FieldIssue(rules[0], obj, isEmail)
      case Some(issue) => [issue] + tail
      case None => tail
  }

  /** Every field that fails is reported, with the issue that field produces. */
  lemma {:induction false} FailingFieldReported(rules: seq<Rule>, obj: map<string, Value>, isEmail: string -> bool, i: nat)
    requires i < |rules| && !Accepts(rules[i], obj, isEmail)
    ensures FieldIssue(rules[i], obj, isEmail).Some?
    ensures FieldIssue(rules[i], obj, isEmail).value in Issues(rules, obj, isEmail)
  {
    if i > 0 {
      assert rules[1..][i - 1] == rules[i];
      FailingFieldReported(rules[1..], obj, isEmail, i - 1);
    }
  }

  /** Every reported issue is the issue of some field that fails. */
  lemma {:induction false} IssueFromFailingField(rules: seq<Rule>, obj: map<string, Value>, isEmail: string -> bool, j: nat)
    returns (i: nat)
    requires j < |Issues(rules, obj, isEmail)|
    ensures i < |rules| && !Accepts(rules[i], obj, isEmail)
    ensures FieldIssue(rules[i], obj, isEmail) == Some(Issues(rules, obj, isEmail)[j])
  {
    var tail := Issues(rules[1..], obj, isEmail);
    if FieldIssue(rules[0], obj, isEmail).Some? && j == 0 {
      i := 0;
    } else {
      var j' := if FieldIssue(rules[0], obj, isEmail).Some? then j - 1 else j;
      assert Issues(rules, obj, isEmail)[j] == tail[j'];
      var n := IssueFromFailingField(rules[1..], obj, isEmail, j');
      assert rules[1..][n] == rules[n + 1];
      i := n + 1;
    }
  }

  /**
   * The issues come in schema order: of two reported issues, the earlier one
   * is the issue of an earlier failing field (`i` and `i'`).
   */
  lemma {:induction false} IssuesInSchemaOrder(rules: seq<Rule>, obj: map<string, Value>, isEmail: string -> bool,
                                               j: nat, k: nat)
    returns (i: nat, i': nat)
    requires j < k < |Issues(rules, obj, isEmail)|
    ensures i < i' < |rules|
    ensures FieldIssue(rules[i], obj, isEmail) == Some(Issues(rules, obj, isEmail)[j])
    ensures FieldIssue(rules[i'], obj, isEmail) == Some(Issues(rules, obj, isEmail)[k])
  {
    var r, tail := Issues(rules, obj, isEmail), Issues(rules[1..], obj, isEmail);
    if FieldIssue(rules[0], obj, isEmail).Some? {
      assert r == [FieldIssue(rules[0], obj, isEmail).value] + tail;
      assert r[k] == tail[k - 1];
      if j == 0 {
        var n := IssueFromFailingField(rules[1..], obj, isEmail, k - 1);
        assert rules[1..][n] == rules[n + 1];
        i, i' := 0, n + 1;
      } else {
        assert r[j] == tail[j - 1];
        var m, n := IssuesInSchemaOrder(rules[1..], obj, isEmail, j - 1, k - 1);
        assert rules[1..][m] == rules[m + 1] && rules[1..][n] == rules[n + 1];
        i, i' := m + 1, n + 1;
      }
    } else {
      assert r == tail;
      var m, n := IssuesInSchemaOrder(rules[1..], obj, isEmail, j, k);
      assert rules[1..][m] == rules[m + 1] && rules[1..][n] == rules[n + 1];
      i, i' := m + 1, n + 1;
    }
  }

  /** The names of the schema's fields. */
  function Keys(rules: seq<Rule>): set<string>
  {
    set i | 0 <= i < |rules| :: rules[i].key
  }

  /**
   * `schema.safeParse(body)`: the string value of every schema field, or the
   * issues. A body that is not an object fails with one issue at the root.
   */
  function SafeParse(rules: seq<Rule>, body: Value, isEmail: string -> bool): (r: Result<map<string, string>, seq<Issue>>)
    ensures r.Success? <==> body.VObject? && AcceptsAll(rules, body.fields, isEmail)
    ensures r.Failure? ==> 0 < |r.error|
    ensures r.Failure? && !body.VObject? ==> r.error == [Issue([], "Expected object")]
    ensures r.Failure? && body.VObject? ==> r.error == Issues(rules, body.fields, isEmail)
    ensures r.Success? ==> r.value.Keys == Keys(rules)
    ensures r.Success? ==> forall k :: k in r.value ==> k in body.fields && body.fields[k] == VString(r.value[k])
  {
    if !body.VObject? then Failure([Issue([], "Expected object")])
    else
      var issues := Issues(rules, body.fields, isEmail);
      if issues != [] then Failure(issues)
      else
        assert forall k :: k in Keys(rules) ==> k in body.fields && body.fields[k].VString?;
        Success(map k | k in Keys(rules) :: body.fields[k].s)
  }

  /** A zod issue as it appears in a JSON response body. */
  function IssueValue(issue: Issue): (v: Value)
    ensures v.VObject? && v.fields.Keys == {"path", "message"}
  {
    VObject(map["path" := VArray(seq(|issue.path|, i requires 0 <= i < |issue.path| => VString(issue.path[i]))),
                "message" := VString(issue.message)])
  }

  function IssuesValue(issues: seq<Issue>): (v: Value)
    ensures v.VArray? && |v.items| == |issues|
    ensures forall i :: 0 <= i < |issues| ==> v.items[i] == IssueValue(issues[i])
  {
    VArray(seq(|issues|, i requires 0 <= i < |issues| => IssueValue(issues[i])))
  }
}
