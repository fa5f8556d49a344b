/** `_validate_config` and `Parser.__init__` of src/parser.py, the earlier
    parser: every default must be present and valid, and each becomes the
    default of an optional argument. */
module LegacyParser {
  import opened Outcomes
  import opened PyValues
  import opened Exceptions
  import opened Defaults
  import WaifuParser

  /** `_validate_config(config)` */
  function Validate(config: map<string, PyValue>): (r: Outcome<Error>)
    ensures !HasKeys(config) ==> r == Fail(ConfigFormatError(MissingOption(MissingKey(config))))
    ensures r.Pass? <==>
      HasKeys(config)
      && CommandOk(config[CommandKey]) && ChannelOk(config[ChannelKey]) && NumRollsOk(config[NumRollsKey])
    ensures r.Fail? && HasKeys(config) ==>
      exists i :: (0 <= i < |Keys| && !ValueOk(Keys[i], config[Keys[i]])
        && (forall j :: 0 <= j < i ==> ValueOk(Keys[j], config[Keys[j]]))
        && r.error == ConfigFormatError(BadOptionValue(Keys[i], config[Keys[i]])))
  {
    FirstMissingKeys(config);
    assert Keys[0] == CommandKey && Keys[1] == ChannelKey && Keys[2] == NumRollsKey;
    match FirstMissing(config, Keys)
    case Some(k) => Fail(ConfigFormatError(MissingOption(k)))
    case None =>
      var command := config[CommandKey];
      var channel := config[ChannelKey];
      var numRolls := config[NumRollsKey];
      if !CommandOk(command) then Fail(ConfigFormatError(BadOptionValue(CommandKey, command)))
      else if !ChannelOk(channel) then Fail(ConfigFormatError(BadOptionValue(ChannelKey, channel)))
      else if !NumRollsOk(numRolls) then Fail(ConfigFormatError(BadOptionValue(NumRollsKey, numRolls)))
      else Pass
  }

  /** `Parser(defaults)`: validate, then install the three values verbatim. */
  function Build(defaults: map<string, PyValue>): (r: Result<ParserSpec, Error>)
    ensures r.Err? <==> Validate(defaults).Fail?
    ensures r.Err? ==> r.error == Validate(defaults).error
    ensures r.Ok? ==> (HasKeys(defaults)
      && r.value.command == Positional("command", true, Some(defaults[CommandKey]))
      && r.value.channel == Flagged("-c", "--channel", false, Some(defaults[ChannelKey]), false)
      && r.value.num == Flagged("-n", "--num", false, Some(defaults[NumRollsKey]), true)
      && r.value.daily == DailySwitch)
  {
    match Validate(defaults)
    case Fail(e) => Err(e)
    case Pass =>
      Ok(ParserSpec(
        Positional("command", true, Some(defaults[CommandKey])),
        Flagged("-c", "--channel", false, Some(defaults[ChannelKey]), false),
        Flagged("-n", "--num", false, Some(defaults[NumRollsKey]), true),
        DailySwitch))
  }

  /** An empty (`None`) value is always refused, whichever key holds it. */
  lemma NoneRejected(config: map<string, PyValue>, key: string)
    requires key in Keys && key in config && config[key] == VNone
    ensures Validate(config).Fail?
  {
  }

  /** Where the two parsers see the same fully set defaults they agree: both
      accept, with the same arguments, or both refuse the same key and value. */
  lemma AgreesWithWaifuParser(defaults: map<string, PyValue>)
    requires HasKeys(defaults)
    requires defaults[CommandKey] != VNone && defaults[ChannelKey] != VNone && defaults[NumRollsKey] != VNone
    ensures Build(defaults).Ok? <==> WaifuParser.Build(defaults).Ok?
    ensures Build(defaults).Ok? ==> Build(defaults).value == WaifuParser.Build(defaults).value
    ensures Build(defaults).Err? ==>
      Build(defaults).error.problem.BadOptionValue?
      && WaifuParser.Build(defaults).error.problem.BadDefaultsValue?
      && Build(defaults).error.problem.key == WaifuParser.Build(defaults).error.problem.key
      && Build(defaults).error.problem.value == WaifuParser.Build(defaults).error.problem.value
  {
    FirstMissingKeys(defaults);
  }

  /** A missing key is reported by both parsers under the same name. */
  lemma MissingAgrees(defaults: map<string, PyValue>)
    requires !HasKeys(defaults)
    ensures Build(defaults).Err? && WaifuParser.Build(defaults).Err?
    ensures Build(defaults).error == ConfigFormatError(MissingOption(MissingKey(defaults)))
    ensures WaifuParser.Build(defaults).error == ConfigFormatError(MissingDefaultsOption(MissingKey(defaults)))
  {
    FirstMissingKeys(defaults);
  }
}
