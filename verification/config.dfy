/** `_validate_config_format` of src/waifu/config.py: the top-level options of
    the loaded configuration against `CONFIG_FILE_SCHEMA`. */
module Config {
  import opened Outcomes
  import opened Seqs
  import opened PyValues
  import opened Exceptions
  import opened Text

  /** `CONFIG_FILE_SCHEMA`, in its declaration order. */
  const Schema: seq<(string, PyType)> :=
    [("verbose", Bool), ("revert-window", Bool), ("keep-failsafe", Bool), ("defaults", Dict)]

  /** The option `entry` names is present and its exact type is the expected one
      (`type(v) is t`, so a subclass does not pass). */
  predicate Conforms(config: map<string, PyValue>, entry: (string, PyType)) {
    entry.0 in config && TypeOf(config[entry.0]) == entry.1
  }

  /** What is wrong with a non-conforming option. */
  function ProblemWith(config: map<string, PyValue>, entry: (string, PyType)): (p: FormatProblem)
    requires !Conforms(config, entry)
    ensures entry.0 !in config ==> p == MissingOption(entry.0)
    ensures entry.0 in config ==> p == WrongType(entry.0, entry.1, TypeOf(config[entry.0]))
  {
    if entry.0 !in config then MissingOption(entry.0)
    else WrongType(entry.0, entry.1, TypeOf(config[entry.0]))
  }

  /** The verdict on a loaded document, stated declaratively: a document that is
      not a mapping cannot be subscripted; otherwise the first schema entry, in
      order, that does not conform is reported. */
  function FormatCheck(config: PyValue): (r: Outcome<Error>)
    ensures !config.VDict? ==> r == Fail(TypeError(TypeOf(config)))
    ensures config.VDict? ==> (r.Pass? <==> forall i :: 0 <= i < |Schema| ==> Conforms(config.entries, Schema[i]))
    ensures config.VDict? && r.Fail? ==>
      exists i :: (0 <= i < |Schema| && !Conforms(config.entries, Schema[i])
        && (forall j :: 0 <= j < i ==> Conforms(config.entries, Schema[j]))
        && r.error == ConfigFormatError(ProblemWith(config.entries, Schema[i])))
  {
    if !config.VDict? then Fail(TypeError(TypeOf(config)))
    else
      match FirstIndex(Schema, (e: (string, PyType)) => !Conforms(config.entries, e))
      case None => Pass
      case Some(i) => Fail(ConfigFormatError(ProblemWith(config.entries, Schema[i])))
  }

  /** `_validate_config_format(config)`: the loop over the schema, checking
      presence before type for each option. */
  method ValidateFormat(config: PyValue) returns (r: Outcome<Error>)
    ensures r == FormatCheck(config)
  {
    if !config.VDict? {
      return Fail(TypeError(TypeOf(config)));
    }
    var entries := config.entries;
    var i := 0;
    while i < |Schema|
      invariant 0 <= i <= |Schema|
      invariant forall j :: 0 <= j < i ==> Conforms(entries, Schema[j])
    {
      var (key, expected) := Schema[i];
      if key !in entries {
        assert FirstIndex(Schema, (e: (string, PyType)) => !Conforms(entries, e)) == Some(i);
        return Fail(ConfigFormatError(MissingOption(key)));
      }
      var loaded := TypeOf(entries[key]);
      if loaded != expected {
        assert FirstIndex(Schema, (e: (string, PyType)) => !Conforms(entries, e)) == Some(i);
        return Fail(ConfigFormatError(WrongType(key, expected, loaded)));
      }
      i := i + 1;
    }
    return Pass;
  }

  /** Options outside the schema, such as `skip-confirmation`, change nothing. */
  lemma ExtraKeysIgnored(config: map<string, PyValue>, key: string, v: PyValue)
    requires forall i :: 0 <= i < |Schema| ==> Schema[i].0 != key
    ensures FormatCheck(VDict(config[key := v])) == FormatCheck(VDict(config))
  {
    var extended := config[key := v];
    assert forall i :: 0 <= i < |Schema| ==> (Conforms(extended, Schema[i]) <==> Conforms(config, Schema[i]));
    FirstIndexSame(Schema, (e: (string, PyType)) => !Conforms(extended, e), (e: (string, PyType)) => !Conforms(config, e));
    forall i | 0 <= i < |Schema| && !Conforms(config, Schema[i])
      ensures ProblemWith(extended, Schema[i]) == ProblemWith(config, Schema[i])
    {
    }
  }

  /** What the `defaults` mapping holds is not looked at here. */
  lemma DefaultsContentsIgnored(config: map<string, PyValue>, d: map<string, PyValue>)
    requires "defaults" in config && config["defaults"].VDict?
    ensures FormatCheck(VDict(config["defaults" := VDict(d)])) == FormatCheck(VDict(config))
  {
    var replaced := config["defaults" := VDict(d)];
    assert forall i :: 0 <= i < |Schema| ==> (Conforms(replaced, Schema[i]) <==> Conforms(config, Schema[i]));
    FirstIndexSame(Schema, (e: (string, PyType)) => !Conforms(replaced, e), (e: (string, PyType)) => !Conforms(config, e));
    forall i | 0 <= i < |Schema| && !Conforms(config, Schema[i])
      ensures ProblemWith(replaced, Schema[i]) == ProblemWith(config, Schema[i])
    {
    }
  }

  /** Type identity, not `isinstance`: an integer where a boolean is expected is
      reported, naming both types. */
  lemma WrongTypeExample()
    ensures var config := map["verbose" := VInt(1), "revert-window" := VBool(false),
                              "keep-failsafe" := VBool(true), "defaults" := VDict(map[])];
      FormatCheck(VDict(config)) == Fail(ConfigFormatError(WrongType("verbose", Bool, Int)))
  {
    var config := map["verbose" := VInt(1), "revert-window" := VBool(false),
                      "keep-failsafe" := VBool(true), "defaults" := VDict(map[])];
    assert !Conforms(config, Schema[0]);
  }

  /** The text of that error. */
  lemma WrongTypeMessage()
    ensures ProblemMessage(WrongType("verbose", Bool, Int)) == "Option 'verbose' should be type bool, got int instead"
  {
    assert Quote("verbose") == "'verbose'";
    assert TypeName(Bool) == "bool" && TypeName(Int) == "int";
    assert "Option " + "'verbose'" == "Option 'verbose'";
    assert "Option 'verbose'" + " should be type " == "Option 'verbose' should be type ";
    assert "Option 'verbose' should be type " + "bool" == "Option 'verbose' should be type bool";
    assert "Option 'verbose' should be type bool" + ", got " == "Option 'verbose' should be type bool, got ";
    assert "Option 'verbose' should be type bool, got " + "int" == "Option 'verbose' should be type bool, got int";
    assert "Option 'verbose' should be type bool, got int" + " instead" == "Option 'verbose' should be type bool, got int instead";
  }
}
