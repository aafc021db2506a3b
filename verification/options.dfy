/**
 * The option vocabulary of a precondition container: the `onFail`/`onError`
 * policies, the `onSqlOutput` option, their string keys, and the lenient,
 * case-insensitive parsing of those keys.
 */
module PreconditionOptions {
  import opened Wrappers

  /**
   * What a container does with a failed (`onFail`) or errored (`onError`)
   * precondition. The source declares two enums, FailOption and ErrorOption,
   * with the same four keys in the same order; one datatype serves both.
   */
  datatype Policy = Halt | Continue | MarkRan | Warn

  type FailOption = Policy
  type ErrorOption = Policy

  /** What a container does with its preconditions when only SQL is emitted. */
  datatype SqlOutputOption = Ignore | Test | Fail

  /** The value a null `onFail`/`onError` string resets to. */
  const DefaultPolicy: Policy := Halt

  /** The value a null `onSqlOutput` (string or option) resets to. */
  const DefaultSqlOutput: SqlOutputOption := Ignore

  /** Declaration order of the policy enums, as `values()` returns it. */
  const AllPolicies: seq<Policy> := [Halt, Continue, MarkRan, Warn]

  /** Declaration order of the sql-output enum. */
  const AllSqlOutputs: seq<SqlOutputOption> := [Ignore, Test, Fail]

  /** The key of a policy, which is also its `toString()`. */
  function PolicyKey(p: Policy): string {
    match p
    case Halt => "HALT"
    case Continue => "CONTINUE"
    case MarkRan => "MARK_RAN"
    case Warn => "WARN"
  }

  /** The key of a sql-output option, which is also its `toString()`. */
  function SqlOutputKey(o: SqlOutputOption): string {
    match o
    case Ignore => "IGNORE"
    case Test => "TEST"
    case Fail => "FAIL"
  }

  /** The policy keys in declaration order. */
  function PolicyKeys(): (keys: seq<string>)
    ensures keys == ["HALT", "CONTINUE", "MARK_RAN", "WARN"]
  {
    seq(|AllPolicies|, i requires 0 <= i < |AllPolicies| => PolicyKey(AllPolicies[i]))
  }

  /** The sql-output keys in declaration order. */
  function SqlOutputKeys(): (keys: seq<string>)
    ensures keys == ["IGNORE", "TEST", "FAIL"]
  {
    seq(|AllSqlOutputs|, i requires 0 <= i < |AllSqlOutputs| => SqlOutputKey(AllSqlOutputs[i]))
  }

  /**
   * The character both sides of Java's `equalsIgnoreCase` agree on when one
   * of them is an ASCII upper-case letter or `_`: ASCII lower case maps to
   * upper case, and so do the four non-ASCII letters whose simple case
   * mapping lands on an ASCII letter (dotted and dotless I, long s, Kelvin
   * sign). Every other character stands for itself.
   */
  function FoldChar(ch: char): char {
    if 'a' <= ch <= 'z' then (ch as int - 32) as char
    else if ch == '\U{0130}' || ch == '\U{0131}' then 'I'
    else if ch == '\U{017F}' then 'S'
    else if ch == '\U{212A}' then 'K'
    else ch
  }

  /**
   * `a.equalsIgnoreCase(b)`: equal lengths and case-equal characters,
   * position by position. Exact whenever one side is made only of ASCII
   * upper-case letters and `_`, as every key is.
   */
  predicate EqualsIgnoreCase(a: string, b: string) {
    |a| == |b| && forall i :: 0 <= i < |a| ==> FoldChar(a[i]) == FoldChar(b[i])
  }

  /** A string that case folding leaves as it is (all keys are such). */
  predicate Canonical(s: string) {
    forall i :: 0 <= i < |s| ==> FoldChar(s[i]) == s[i]
  }

  /**
   * The index of the first key that equals `value` ignoring case, scanning
   * in declaration order as the setters' loops do.
   */
  function FirstMatch(keys: seq<string>, value: string): (r: Option<nat>)
    ensures r.Some? ==> r.value < |keys| && EqualsIgnoreCase(keys[r.value], value)
    ensures r.Some? ==> forall j :: 0 <= j < r.value ==> !EqualsIgnoreCase(keys[j], value)
    ensures r.None? <==> forall j :: 0 <= j < |keys| ==> !EqualsIgnoreCase(keys[j], value)
  {
    if |keys| == 0 then None
    else if EqualsIgnoreCase(keys[0], value) then Some(0)
    else match FirstMatch(keys[1..], value)
      case None => None
      case Some(i) => Some(i + 1)
  }

  /** The strings of `xs` separated by `sep`, as `StringUtil.join` builds them. */
  function Join(xs: seq<string>, sep: string): string {
    if |xs| == 0 then ""
    else if |xs| == 1 then xs[0]
    else xs[0] + sep + Join(xs[1..], sep)
  }

  /** The load-time configuration error an unknown option string raises. */
  datatype ConfigError = UnknownValue(attribute: string, value: string, possibleValues: seq<string>) {

    /** The text of the RuntimeException the setter throws. */
    function Message(): string {
      "Unknown " + attribute + " attribute value '" + value + "'.  Possible values: "
        + Join(possibleValues, ", ")
    }
  }

  /**
   * `setOnFail(String)` / `setOnError(String)` without the assignment: null
   * selects the default, a key matched ignoring case selects its policy, and
   * anything else is an error naming `attribute` and listing every key.
   */
  function ParsePolicy(attribute: string, value: Option<string>): (r: Result<Policy, ConfigError>)
    ensures value.None? ==> r == Success(DefaultPolicy)
    ensures r.Success? && value.Some? ==> EqualsIgnoreCase(PolicyKey(r.value), value.value)
    ensures r.Failure? <==>
      value.Some? && forall p :: p in AllPolicies ==> !EqualsIgnoreCase(PolicyKey(p), value.value)
    ensures r.Failure? ==> r.error == UnknownValue(attribute, value.value, PolicyKeys())
  {
    match value
    case None => Success(DefaultPolicy)
    case Some(v) =>
      match FirstMatch(PolicyKeys(), v)
      case Some(i) => Success(AllPolicies[i])
      case None =>
        assert forall i :: 0 <= i < |AllPolicies| ==> PolicyKeys()[i] == PolicyKey(AllPolicies[i]);
        Failure(UnknownValue(attribute, v, PolicyKeys()))
  }

  /** `setOnSqlOutput(String)` without the assignment, as `ParsePolicy`. */
  function ParseSqlOutput(value: Option<string>): (r: Result<SqlOutputOption, ConfigError>)
    ensures value.None? ==> r == Success(DefaultSqlOutput)
    ensures r.Success? && value.Some? ==> EqualsIgnoreCase(SqlOutputKey(r.value), value.value)
    ensures r.Failure? <==>
      value.Some? && forall o :: o in AllSqlOutputs ==> !EqualsIgnoreCase(SqlOutputKey(o), value.value)
    ensures r.Failure? ==> r.error == UnknownValue("onSqlOutput", value.value, SqlOutputKeys())
  {
    match value
    case None => Success(DefaultSqlOutput)
    case Some(v) =>
      match FirstMatch(SqlOutputKeys(), v)
      case Some(i) => Success(AllSqlOutputs[i])
      case None =>
        assert forall i :: 0 <= i < |AllSqlOutputs| ==> SqlOutputKeys()[i] == SqlOutputKey(AllSqlOutputs[i]);
        Failure(UnknownValue("onSqlOutput", v, SqlOutputKeys()))
  }
}

module PreconditionOptionLemmas {
  import opened Wrappers
  import opened PreconditionOptions

  /** Every policy key is left alone by case folding. */
  lemma PolicyKeysCanonical(p: Policy)
    ensures Canonical(PolicyKey(p))
  {
  }

  /** Every sql-output key is left alone by case folding. */
  lemma SqlOutputKeysCanonical(o: SqlOutputOption)
    ensures Canonical(SqlOutputKey(o))
  {
  }

  /** Two canonical keys that both equal `s` ignoring case are the same key. */
  lemma CanonicalMatchUnique(a: string, b: string, s: string)
    requires Canonical(a) && Canonical(b)
    requires EqualsIgnoreCase(a, s) && EqualsIgnoreCase(b, s)
    ensures a == b
  {
  }

  /** A key equals itself ignoring case. */
  lemma EqualsIgnoreCaseReflexive(s: string)
    ensures EqualsIgnoreCase(s, s)
  {
  }

  /**
   * Parsing any casing of a policy's key yields that policy, and a string
   * parses to a policy only if it is a casing of that policy's key.
   */
  lemma ParsePolicyRoundTrip(attribute: string, p: Policy, s: string)
    ensures ParsePolicy(attribute, Some(s)) == Success(p) <==> EqualsIgnoreCase(PolicyKey(p), s)
  {
    var r := ParsePolicy(attribute, Some(s));
    if EqualsIgnoreCase(PolicyKey(p), s) {
      assert r.Success? by {
        assert p in AllPolicies;
      }
      var q := r.value;
      assert EqualsIgnoreCase(PolicyKey(q), s);
      PolicyKeysCanonical(p);
      PolicyKeysCanonical(q);
      CanonicalMatchUnique(PolicyKey(p), PolicyKey(q), s);
      assert p == q;
    }
  }

  /** As `ParsePolicyRoundTrip`, for the sql-output option. */
  lemma ParseSqlOutputRoundTrip(o: SqlOutputOption, s: string)
    ensures ParseSqlOutput(Some(s)) == Success(o) <==> EqualsIgnoreCase(SqlOutputKey(o), s)
  {
    var r := ParseSqlOutput(Some(s));
    if EqualsIgnoreCase(SqlOutputKey(o), s) {
      assert o in AllSqlOutputs;
      assert r.Success?;
      SqlOutputKeysCanonical(o);
      SqlOutputKeysCanonical(r.value);
      CanonicalMatchUnique(SqlOutputKey(o), SqlOutputKey(r.value), s);
      assert SqlOutputKey(o) == SqlOutputKey(r.value);
    }
  }

  /** The `toString()` of a policy parses back to that policy. */
  lemma PolicyToStringParses(attribute: string, p: Policy)
    ensures ParsePolicy(attribute, Some(PolicyKey(p))) == Success(p)
  {
    EqualsIgnoreCaseReflexive(PolicyKey(p));
    ParsePolicyRoundTrip(attribute, p, PolicyKey(p));
  }

  /** The `toString()` of a sql-output option parses back to that option. */
  lemma SqlOutputToStringParses(o: SqlOutputOption)
    ensures ParseSqlOutput(Some(SqlOutputKey(o))) == Success(o)
  {
    EqualsIgnoreCaseReflexive(SqlOutputKey(o));
    ParseSqlOutputRoundTrip(o, SqlOutputKey(o));
  }

  /** The keys an unknown policy string is told about, as printed. */
  lemma PolicyPossibleValuesText()
    ensures Join(PolicyKeys(), ", ") == "HALT" + ", " + "CONTINUE" + ", " + "MARK_RAN" + ", " + "WARN"
  {
  }

  /** The keys an unknown sql-output string is told about, as printed. */
  lemma SqlOutputPossibleValuesText()
    ensures Join(SqlOutputKeys(), ", ") == "IGNORE" + ", " + "TEST" + ", " + "FAIL"
  {
  }
}
