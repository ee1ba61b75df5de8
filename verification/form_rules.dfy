/** The validation the form library runs before it calls a form's submit
    handler: each named item carries a list of rules, and the handler is called
    only when no rule reports an error. */
module FormRules {
  import opened Common
  import opened Json

  /** The library's "required" test: a value is empty when it is absent (or
      `undefined`), `null`, the empty string or the empty list. */
  predicate Empty(values: Document, name: string) {
    name !in values || values[name] == Null || values[name] == Str("") || values[name] == Arr([])
  }

  /** The emptiness a string type rule such as `type: 'email'` skips: a value
      that is absent, `null` or the empty string.  Unlike `Empty`, an empty
      list is a value, and it is not an email. */
  predicate EmptyString(values: Document, name: string) {
    name !in values || values[name] == Null || values[name] == Str("")
  }

  /** `{ required, message }` and `{ type: 'email', message }`. */
  datatype Rule = Required(required: bool, message: string) | EmailType(message: string)

  /** The error one rule reports for the item `name`.  The email rule skips an
      empty string or a missing value; any other value that is not a string the
      email test accepts (a number, a list, the empty list) is reported. */
  function RuleError(r: Rule, values: Document, name: string, isEmail: string -> bool): (e: Option<string>)
    ensures e.Some? ==> e.value == r.message
    ensures r.Required? ==> (e.Some? <==> r.required && Empty(values, name))
    ensures r.EmailType? ==> (e.Some? <==> !EmptyString(values, name) && !(values[name].Str? && isEmail(values[name].s)))
  {
    match r
    case Required(req, msg) => if req && Empty(values, name) then Some(msg) else None
    case EmailType(msg) =>
      if EmptyString(values, name) then None
      else if values[name].Str? && isEmail(values[name].s) then None
      else Some(msg)
  }

  /** The two notions of emptiness part on the empty list: a required rule
      reports it as missing, and the email rule reports it as not an email. */
  lemma EmptyListFailsBoth(values: Document, name: string, isEmail: string -> bool, m1: string, m2: string)
    requires name in values && values[name] == Arr([])
    ensures RuleError(Required(true, m1), values, name, isEmail) == Some(m1)
    ensures RuleError(EmailType(m2), values, name, isEmail) == Some(m2)
  {
  }

  /** A `Form.Item` as far as validation goes: its name and its rules. */
  datatype Check = Check(name: string, rules: seq<Rule>)

  predicate RulesPass(rules: seq<Rule>, values: Document, name: string, isEmail: string -> bool) {
    forall j :: 0 <= j < |rules| ==> RuleError(rules[j], values, name, isEmail).None?
  }

  predicate Passes(checks: seq<Check>, values: Document, isEmail: string -> bool) {
    forall i :: 0 <= i < |checks| ==> RulesPass(checks[i].rules, values, checks[i].name, isEmail)
  }

  /** The messages of one item's failing rules, in rule order. */
  function RuleErrors(rules: seq<Rule>, values: Document, name: string, isEmail: string -> bool): (errs: seq<string>)
    ensures |errs| <= |rules|
    ensures forall m :: m in errs ==> exists j :: 0 <= j < |rules| && rules[j].message == m
  {
    if rules == [] then []
    else
      var rest := RuleErrors(rules[1..], values, name, isEmail);
      match RuleError(rules[0], values, name, isEmail)
      case Some(m) => [m] + rest
      case None => rest
  }

  /** The messages of every failing rule, item by item. */
  function Errors(checks: seq<Check>, values: Document, isEmail: string -> bool): (errs: seq<string>)
    ensures forall m :: m in errs ==>
      exists i, j :: 0 <= i < |checks| && 0 <= j < |checks[i].rules| && checks[i].rules[j].message == m
  {
    if checks == [] then []
    else RuleErrors(checks[0].rules, values, checks[0].name, isEmail) + Errors(checks[1..], values, isEmail)
  }

  lemma {:induction false} RuleErrorsEmpty(rules: seq<Rule>, values: Document, name: string, isEmail: string -> bool)
    ensures RuleErrors(rules, values, name, isEmail) == [] <==> RulesPass(rules, values, name, isEmail)
    decreases |rules|
  {
    if rules != [] {
      RuleErrorsEmpty(rules[1..], values, name, isEmail);
      assert forall j :: 1 <= j < |rules| ==> rules[j] == rules[1..][j - 1];
    }
  }

  /** The submit handler is called exactly when no rule of any item fails. */
  lemma {:induction false} ErrorsEmpty(checks: seq<Check>, values: Document, isEmail: string -> bool)
    ensures Errors(checks, values, isEmail) == [] <==> Passes(checks, values, isEmail)
    decreases |checks|
  {
    if checks != [] {
      RuleErrorsEmpty(checks[0].rules, values, checks[0].name, isEmail);
      ErrorsEmpty(checks[1..], values, isEmail);
      assert forall i :: 1 <= i < |checks| ==> checks[i] == checks[1..][i - 1];
    }
  }

  /** The values handed to the submit handler: those of the form's named items. */
  function Submitted(values: Document, names: set<string>): (r: Document)
    ensures r.Keys == values.Keys * names
    ensures forall k :: k in r ==> r[k] == values[k]
  {
    map k | k in values && k in names :: values[k]
  }
}
