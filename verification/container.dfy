/**
 * The configuration state of a precondition container: its three policy
 * fields, its two message overrides, the setters that write them, and
 * `load`, which fills them from a parsed changelog node.
 */
module PreconditionContainerState {
  import opened Wrappers
  import opened PreconditionOptions

  /**
   * The container's policy fields. Each is a Java reference: `None` is null.
   * Only the enum setters of `onFail` and `onError` can store null there;
   * nothing can store null in `onSqlOutput` (see `SetterSequenceKeepsSqlOutput`).
   */
  datatype Container = Container(
    onFail: Option<FailOption>,
    onError: Option<ErrorOption>,
    onSqlOutput: Option<SqlOutputOption>,
    onFailMessage: Option<string>,
    onErrorMessage: Option<string>)

  /** A container whose three policy fields are all non-null. */
  predicate Settled(c: Container) {
    c.onFail.Some? && c.onError.Some? && c.onSqlOutput.Some?
  }

  /** The state of a freshly constructed container (the field initialisers). */
  function Fresh(): (c: Container)
    ensures Settled(c)
    ensures c.onFail == Some(Halt) && c.onError == Some(Halt) && c.onSqlOutput == Some(Ignore)
    ensures c.onFailMessage.None? && c.onErrorMessage.None?
  {
    Container(Some(DefaultPolicy), Some(DefaultPolicy), Some(DefaultSqlOutput), None, None)
  }

  /** The state after a setter, and the configuration error it threw, if any. */
  datatype Updated = Updated(state: Container, thrown: Option<ConfigError>)

  /** `setOnFail(String)`: on an unknown value the error is thrown and nothing is stored. */
  function SetOnFailText(c: Container, value: Option<string>): (u: Updated)
    ensures u.thrown.Some? ==> u.state == c
    ensures u.thrown.Some? ==> u.thrown.value.attribute == "onFail"
    ensures u.thrown.None? ==> u.state.onFail.Some? && u.state == c.(onFail := u.state.onFail)
    ensures value.None? ==> u == Updated(c.(onFail := Some(Halt)), None)
    ensures u.thrown.None? && value.Some? ==> EqualsIgnoreCase(PolicyKey(u.state.onFail.value), value.value)
    // A non-null string is accepted exactly when it matches some key.
    ensures value.Some? ==> (u.thrown.None? <==> exists p :: EqualsIgnoreCase(PolicyKey(p), value.value))
    ensures u.thrown.Some? ==> u.thrown.value == UnknownValue("onFail", value.value, PolicyKeys())
  {
    match ParsePolicy("onFail", value)
    case Success(p) => Updated(c.(onFail := Some(p)), None)
    case Failure(e) => Updated(c, Some(e))
  }

  /** `setOnError(String)`, as `SetOnFailText` for the `onError` field. */
  function SetOnErrorText(c: Container, value: Option<string>): (u: Updated)
    ensures u.thrown.Some? ==> u.state == c
    ensures u.thrown.Some? ==> u.thrown.value.attribute == "onError"
    ensures u.thrown.None? ==> u.state.onError.Some? && u.state == c.(onError := u.state.onError)
    ensures value.None? ==> u == Updated(c.(onError := Some(Halt)), None)
    ensures u.thrown.None? && value.Some? ==> EqualsIgnoreCase(PolicyKey(u.state.onError.value), value.value)
    // A non-null string is accepted exactly when it matches some key.
    ensures value.Some? ==> (u.thrown.None? <==> exists p :: EqualsIgnoreCase(PolicyKey(p), value.value))
    ensures u.thrown.Some? ==> u.thrown.value == UnknownValue("onError", value.value, PolicyKeys())
  {
    match ParsePolicy("onError", value)
    case Success(p) => Updated(c.(onError := Some(p)), None)
    case Failure(e) => Updated(c, Some(e))
  }

  /** `setOnSqlOutput(OnSqlOutputOption)`: null is replaced by IGNORE. */
  function SetOnSqlOutputValue(c: Container, option: Option<SqlOutputOption>): (c': Container)
    ensures c'.onSqlOutput.Some?
    ensures option.Some? ==> c'.onSqlOutput == option
    ensures option.None? ==> c'.onSqlOutput == Some(Ignore)
    ensures c' == c.(onSqlOutput := c'.onSqlOutput)
  {
    c.(onSqlOutput := Some(option.GetOr(DefaultSqlOutput)))
  }

  /** `setOnSqlOutput(String)`: null and known keys go through the option setter. */
  function SetOnSqlOutputText(c: Container, value: Option<string>): (u: Updated)
    ensures u.thrown.Some? ==> u.state == c
    ensures u.thrown.Some? ==> u.thrown.value.attribute == "onSqlOutput"
    ensures u.thrown.None? ==> u.state.onSqlOutput.Some? && u.state == c.(onSqlOutput := u.state.onSqlOutput)
    ensures value.None? ==> u == Updated(c.(onSqlOutput := Some(Ignore)), None)
    ensures u.thrown.None? && value.Some? ==>
      EqualsIgnoreCase(SqlOutputKey(u.state.onSqlOutput.value), value.value)
    // A non-null string is accepted exactly when it matches some key.
    ensures value.Some? ==> (u.thrown.None? <==> exists o :: EqualsIgnoreCase(SqlOutputKey(o), value.value))
    ensures u.thrown.Some? ==> u.thrown.value == UnknownValue("onSqlOutput", value.value, SqlOutputKeys())
  {
    if value.None? then Updated(SetOnSqlOutputValue(c, None), None)
    else match ParseSqlOutput(value)
      case Success(o) => Updated(SetOnSqlOutputValue(c, Some(o)), None)
      case Failure(e) => Updated(c, Some(e))
  }

  /** One call of one of the container's public setters. */
  datatype Setter =
    | OnFailText(text: Option<string>)
    | OnFailValue(option: Option<FailOption>)
    | OnErrorText(text: Option<string>)
    | OnErrorValue(option: Option<ErrorOption>)
    | OnSqlOutputText(text: Option<string>)
    | OnSqlOutputValue(sqlOption: Option<SqlOutputOption>)
    | OnFailMessage(message: Option<string>)
    | OnErrorMessage(message: Option<string>)

  /** The effect of one setter call. The enum and message setters store their argument as given. */
  function Apply(c: Container, s: Setter): (u: Updated)
    // Only the string setters can throw.
    ensures u.thrown.Some? ==> s.OnFailText? || s.OnErrorText? || s.OnSqlOutputText?
    ensures s.OnFailValue? ==> u == Updated(c.(onFail := s.option), None)
    ensures s.OnErrorValue? ==> u == Updated(c.(onError := s.option), None)
    ensures s.OnSqlOutputValue? ==> u.thrown.None? && u.state.onSqlOutput == Some(s.sqlOption.GetOr(Ignore))
    ensures s.OnFailMessage? ==> u == Updated(c.(onFailMessage := s.message), None)
    ensures s.OnErrorMessage? ==> u == Updated(c.(onErrorMessage := s.message), None)
    // Each setter writes at most its own field.
    ensures s.OnFailText? ==> u.state == c.(onFail := u.state.onFail)
    ensures s.OnErrorText? ==> u.state == c.(onError := u.state.onError)
    ensures s.OnSqlOutputText? || s.OnSqlOutputValue? ==> u.state == c.(onSqlOutput := u.state.onSqlOutput)
  {
    match s
    case OnFailText(t) => SetOnFailText(c, t)
    case OnFailValue(o) => Updated(c.(onFail := o), None)
    case OnErrorText(t) => SetOnErrorText(c, t)
    case OnErrorValue(o) => Updated(c.(onError := o), None)
    case OnSqlOutputText(t) => SetOnSqlOutputText(c, t)
    case OnSqlOutputValue(o) => Updated(SetOnSqlOutputValue(c, o), None)
    case OnFailMessage(m) => Updated(c.(onFailMessage := m), None)
    case OnErrorMessage(m) => Updated(c.(onErrorMessage := m), None)
  }

  /** Setter calls in order; the first one that throws ends the sequence. */
  function ApplyAll(c: Container, ss: seq<Setter>): Updated
    decreases |ss|
  {
    if |ss| == 0 then Updated(c, None)
    else
      var u := Apply(c, ss[0]);
      if u.thrown.Some? then u else ApplyAll(u.state, ss[1..])
  }

  /** The node's value for `name`; a missing child reads as null. */
  function Child(node: map<string, string>, name: string): Option<string> {
    Get(node, name)
  }

  /**
   * `load`: `onError`, `onErrorMessage`, `onFail`, `onFailMessage` and
   * `onSqlOutput`, in that order. A setter that throws aborts the load and
   * leaves the fields written before it in place.
   */
  function Load(c: Container, node: map<string, string>): (u: Updated)
    ensures u.thrown.None? <==>
      && ParsePolicy("onError", Child(node, "onError")).Success?
      && ParsePolicy("onFail", Child(node, "onFail")).Success?
      && ParseSqlOutput(Child(node, "onSqlOutput")).Success?
    ensures u.thrown.None? ==> Settled(u.state)
    ensures u.thrown.None? ==>
      u.state == Container(
        Some(ParsePolicy("onFail", Child(node, "onFail")).value),
        Some(ParsePolicy("onError", Child(node, "onError")).value),
        Some(ParseSqlOutput(Child(node, "onSqlOutput")).value),
        Child(node, "onFailMessage"),
        Child(node, "onErrorMessage"))
    // A bad onError aborts before any field is written.
    ensures ParsePolicy("onError", Child(node, "onError")).Failure? ==>
      u == Updated(c, Some(ParsePolicy("onError", Child(node, "onError")).error))
    // A bad onFail aborts after onError and onErrorMessage are written.
    ensures ParsePolicy("onError", Child(node, "onError")).Success? &&
            ParsePolicy("onFail", Child(node, "onFail")).Failure? ==>
      u.thrown == Some(ParsePolicy("onFail", Child(node, "onFail")).error) &&
      u.state == c.(onError := Some(ParsePolicy("onError", Child(node, "onError")).value),
                    onErrorMessage := Child(node, "onErrorMessage"))
    // A bad onSqlOutput aborts after the four other fields are written.
    ensures ParsePolicy("onError", Child(node, "onError")).Success? &&
            ParsePolicy("onFail", Child(node, "onFail")).Success? &&
            ParseSqlOutput(Child(node, "onSqlOutput")).Failure? ==>
      u.thrown == Some(ParseSqlOutput(Child(node, "onSqlOutput")).error) &&
      u.state == c.(onError := Some(ParsePolicy("onError", Child(node, "onError")).value),
                    onErrorMessage := Child(node, "onErrorMessage"),
                    onFail := Some(ParsePolicy("onFail", Child(node, "onFail")).value),
                    onFailMessage := Child(node, "onFailMessage"))
  {
    var u1 := SetOnErrorText(c, Child(node, "onError"));
    if u1.thrown.Some? then u1 else
    var c2 := u1.state.(onErrorMessage := Child(node, "onErrorMessage"));
    var u3 := SetOnFailText(c2, Child(node, "onFail"));
    if u3.thrown.Some? then u3 else
    var c4 := u3.state.(onFailMessage := Child(node, "onFailMessage"));
    SetOnSqlOutputText(c4, Child(node, "onSqlOutput"))
  }

  /** The setter calls `load` makes, in order. */
  function LoadSetters(node: map<string, string>): seq<Setter> {
    [ OnErrorText(Child(node, "onError")),
      OnErrorMessage(Child(node, "onErrorMessage")),
      OnFailText(Child(node, "onFail")),
      OnFailMessage(Child(node, "onFailMessage")),
      OnSqlOutputText(Child(node, "onSqlOutput")) ]
  }
}

module PreconditionContainerLemmas {
  import opened Wrappers
  import opened PreconditionOptions
  import opened PreconditionContainerState
  import PreconditionOptionLemmas

  /** `load` is exactly its five setter calls made one after another. */
  lemma LoadIsSetterSequence(c: Container, node: map<string, string>)
    ensures Load(c, node) == ApplyAll(c, LoadSetters(node))
  {
    var ss := LoadSetters(node);
    var u1 := Apply(c, ss[0]);
    if u1.thrown.None? {
      var u2 := Apply(u1.state, ss[1]);
      var u3 := Apply(u2.state, ss[2]);
      assert ApplyAll(c, ss) == ApplyAll(u1.state, ss[1..]);
      assert ApplyAll(u1.state, ss[1..]) == ApplyAll(u2.state, ss[2..]);
      if u3.thrown.None? {
        var u4 := Apply(u3.state, ss[3]);
        var u5 := Apply(u4.state, ss[4]);
        assert ApplyAll(u2.state, ss[2..]) == ApplyAll(u3.state, ss[3..]);
        assert ApplyAll(u3.state, ss[3..]) == ApplyAll(u4.state, ss[4..]);
        assert ApplyAll(u4.state, ss[4..]) == u5 by {
          assert ss[4..][1..] == [];
        }
      }
    }
  }

  /**
   * No sequence of setter calls leaves `onSqlOutput` null, starting from any
   * container whose `onSqlOutput` is set (a fresh one is).
   */
  lemma {:induction false} SetterSequenceKeepsSqlOutput(c: Container, ss: seq<Setter>)
    requires c.onSqlOutput.Some?
    ensures ApplyAll(c, ss).state.onSqlOutput.Some?
    decreases |ss|
  {
    if |ss| > 0 {
      var u := Apply(c, ss[0]);
      assert u.state.onSqlOutput.Some?;
      if u.thrown.None? {
        SetterSequenceKeepsSqlOutput(u.state, ss[1..]);
      }
    }
  }

  /**
   * `onFail` and `onError`, by contrast, stay non-null only as long as their
   * enum setters are never handed null.
   */
  lemma {:induction false} SetterSequenceKeepsPolicies(c: Container, ss: seq<Setter>)
    requires Settled(c)
    requires forall i :: 0 <= i < |ss| ==> ss[i] != OnFailValue(None) && ss[i] != OnErrorValue(None)
    ensures Settled(ApplyAll(c, ss).state)
    decreases |ss|
  {
    if |ss| > 0 {
      var u := Apply(c, ss[0]);
      assert Settled(u.state);
      if u.thrown.None? {
        SetterSequenceKeepsPolicies(u.state, ss[1..]);
      }
    }
  }

  /** One null enum argument is enough to leave `onFail` null. */
  lemma NullFailOptionIsStored(c: Container)
    ensures ApplyAll(c, [OnFailValue(None)]).state.onFail.None?
  {
  }

  /** Loading a node with none of the five attributes resets any container to a fresh one. */
  lemma LoadEmptyNodeIsFresh(c: Container)
    ensures Load(c, map[]) == Updated(Fresh(), None)
  {
  }

  /** The attribute values are matched ignoring case. */
  lemma LoadMixedCaseExample()
    ensures Load(Fresh(), map["onFail" := "warn", "onError" := "Halt", "onSqlOutput" := "test"])
         == Updated(Container(Some(Warn), Some(Halt), Some(Test), None, None), None)
  {
    var node := map["onFail" := "warn", "onError" := "Halt", "onSqlOutput" := "test"];
    assert Child(node, "onFail") == Some("warn");
    assert Child(node, "onError") == Some("Halt");
    assert Child(node, "onSqlOutput") == Some("test");
    assert Child(node, "onFailMessage") == None;
    assert Child(node, "onErrorMessage") == None;
    assert EqualsIgnoreCase(PolicyKey(Warn), "warn");
    assert EqualsIgnoreCase(PolicyKey(Halt), "Halt");
    assert EqualsIgnoreCase(SqlOutputKey(Test), "test");
    PreconditionOptionLemmas.ParsePolicyRoundTrip("onFail", Warn, "warn");
    PreconditionOptionLemmas.ParsePolicyRoundTrip("onError", Halt, "Halt");
    PreconditionOptionLemmas.ParseSqlOutputRoundTrip(Test, "test");
  }

  /** An unknown `onFail` value fails the load with the four policy keys listed. */
  lemma LoadBogusFailExample()
    ensures var u := Load(Fresh(), map["onFail" := "bogus"]);
      && u.thrown == Some(UnknownValue("onFail", "bogus", PolicyKeys()))
      && Join(u.thrown.value.possibleValues, ", ") == "HALT" + ", " + "CONTINUE" + ", " + "MARK_RAN" + ", " + "WARN"
      && u.state == Fresh()
      && u.thrown.value.Message() ==
           "Unknown " + "onFail" + " attribute value '" + "bogus" + "'.  Possible values: "
             + ("HALT" + ", " + "CONTINUE" + ", " + "MARK_RAN" + ", " + "WARN")
  {
    PreconditionOptionLemmas.PolicyPossibleValuesText();
  }
}
