/**
 A declarative validation schema of the kind ClientForm and ProjectForm hand
 to Formik: an ordered list of field rules, each with a path into the form's
 values, the kind of value the path holds and the message shown when the
 field is missing. Formik turns every '' into undefined before the schema
 sees it, runs every rule, and keeps the first message reported for a path.
 The library's own e-mail test and number cast stay abstract.
 */
module FormSchema {
  import opened Fields

  /** What a rule checks beyond presence. */
  datatype Kind =
    | Text                    // a string that is required
    | Number                  // a number that is required; its cast may fail
    | Email(invalid: string)  // a required string that must look like an e-mail address

  datatype Rule = Rule(path: string, kind: Kind, required: string)

  /**
   The behaviour of the validation library that is not modelled: its e-mail
   test, whether a text casts to a number, and the message of a failed cast,
   which depends on the field path and on the text that failed to cast.
   */
  datatype Library = Library(
    isEmail: string -> bool,
    isNumber: string -> bool,
    numberTypeError: (string, string) -> string)

  /** A field is missing when its path is absent or holds ''. */
  predicate Missing(values: map<string, string>, path: string) {
    path !in values || values[path] == ""
  }

  /** The message one rule reports for the given values, if any. */
  function Check(lib: Library, rule: Rule, values: map<string, string>): (m: Option<string>)
    ensures Missing(values, rule.path) ==> m == Some(rule.required)
    ensures rule.kind.Text? ==> (m.None? <==> !Missing(values, rule.path))
    ensures rule.kind.Number? && !Missing(values, rule.path) ==>
      m == (if lib.isNumber(values[rule.path]) then None else Some(lib.numberTypeError(rule.path, values[rule.path])))
    ensures rule.kind.Email? && !Missing(values, rule.path) ==>
      m == (if lib.isEmail(values[rule.path]) then None else Some(rule.kind.invalid))
  {
    if Missing(values, rule.path) then Some(rule.required)
    else
      var s := values[rule.path];
      match rule.kind
      case Text => None
      case Number => if lib.isNumber(s) then None else Some(lib.numberTypeError(rule.path, s))
      case Email(invalid) => if lib.isEmail(s) then None else Some(invalid)
  }

  /** Rule `i` reports a message and no earlier rule for the same path does. */
  predicate FirstFailure(lib: Library, rules: seq<Rule>, values: map<string, string>, i: int)
    requires 0 <= i < |rules|
  {
    && Check(lib, rules[i], values).Some?
    && forall j :: 0 <= j < i && rules[j].path == rules[i].path ==> Check(lib, rules[j], values).None?
  }

  /**
   The error map of a schema: the rules are run in order and a failing rule
   adds its message unless its path already has one. Only paths named by a
   rule are ever reported.
   */
  function Validate(lib: Library, rules: seq<Rule>, values: map<string, string>): (errors: map<string, string>)
    ensures forall k :: k in errors ==> exists i :: 0 <= i < |rules| && rules[i].path == k
    decreases |rules|
  {
    if rules == [] then map[]
    else
      var n := |rules| - 1;
      var earlier := Validate(lib, rules[..n], values);
      var m := Check(lib, rules[n], values);
      assert forall i :: 0 <= i < n ==> rules[..n][i] == rules[i];
      if m.Some? && rules[n].path !in earlier then earlier[rules[n].path := m.value] else earlier
  }

  /** Every failing rule gets its path reported. */
  lemma {:induction false} FailureReported(lib: Library, rules: seq<Rule>, values: map<string, string>, i: int)
    requires 0 <= i < |rules| && Check(lib, rules[i], values).Some?
    ensures rules[i].path in Validate(lib, rules, values)
  {
    var n := |rules| - 1;
    if i < n {
      assert rules[..n][i] == rules[i];
      FailureReported(lib, rules[..n], values, i);
    }
  }

  /** A reported path carries the message of the first failing rule for that path. */
  lemma {:induction false} ReportedIsFirstFailure(lib: Library, rules: seq<Rule>, values: map<string, string>, k: string)
    returns (i: int)
    requires k in Validate(lib, rules, values)
    ensures 0 <= i < |rules| && rules[i].path == k && FirstFailure(lib, rules, values, i)
    ensures Validate(lib, rules, values)[k] == Check(lib, rules[i], values).value
  {
    var n := |rules| - 1;
    var prefix := rules[..n];
    var earlier := Validate(lib, prefix, values);
    assert forall j :: 0 <= j < n ==> prefix[j] == rules[j];
    if k in earlier {
      i := ReportedIsFirstFailure(lib, prefix, values, k);
      assert FirstFailure(lib, prefix, values, i);
    } else {
      i := n;
      forall j | 0 <= j < n && rules[j].path == k
        ensures Check(lib, rules[j], values).None?
      {
        if Check(lib, rules[j], values).Some? {
          FailureReported(lib, prefix, values, j);
        }
      }
    }
  }

  /** No two rules of the schema share a path. */
  predicate DistinctPaths(rules: seq<Rule>) {
    forall i, j :: 0 <= i < j < |rules| ==> rules[i].path != rules[j].path
  }

  /** With distinct paths, a rule's path is reported exactly when that rule fails, with that rule's message. */
  lemma RuleReported(lib: Library, rules: seq<Rule>, values: map<string, string>, i: int)
    requires DistinctPaths(rules) && 0 <= i < |rules|
    ensures rules[i].path in Validate(lib, rules, values) <==> Check(lib, rules[i], values).Some?
    ensures rules[i].path in Validate(lib, rules, values) ==>
      Validate(lib, rules, values)[rules[i].path] == Check(lib, rules[i], values).value
  {
    if Check(lib, rules[i], values).Some? {
      FailureReported(lib, rules, values, i);
    }
    if rules[i].path in Validate(lib, rules, values) {
      var j := ReportedIsFirstFailure(lib, rules, values, rules[i].path);
      assert j == i;
    }
  }

  /** The error map is empty exactly when every rule passes. */
  lemma NoErrorsIff(lib: Library, rules: seq<Rule>, values: map<string, string>)
    ensures Validate(lib, rules, values) == map[] <==> forall i :: 0 <= i < |rules| ==> Check(lib, rules[i], values).None?
  {
    var errors := Validate(lib, rules, values);
    if errors != map[] {
      var k :| k in errors;
      var i := ReportedIsFirstFailure(lib, rules, values, k);
    } else {
      forall i | 0 <= i < |rules| ensures Check(lib, rules[i], values).None? {
        if Check(lib, rules[i], values).Some? {
          FailureReported(lib, rules, values, i);
        }
      }
    }
  }
}
