/** `Parser.__init__` of src/waifu/parser.py: read the three defaults, check
    the ones that are set, and turn each into an optional argument with that
    default, or into a required one when it is left empty (`None`). */
module WaifuParser {
  import opened Outcomes
  import opened PyValues
  import opened Exceptions
  import opened Defaults

  /** A default left empty gives no argparse default. */
  function DefaultOf(v: PyValue): (r: Option<PyValue>)
    ensures r.None? <==> v == VNone
    ensures r.Some? ==> r.value == v
  {
    if v == VNone then None else Some(v)
  }

  /** A set default passes its check; an empty one is not checked. */
  predicate Acceptable(key: string, v: PyValue)
    requires key in Keys
  {
    v == VNone || ValueOk(key, v)
  }

  /** `Parser(defaults)` */
  function Build(defaults: map<string, PyValue>): (r: Result<ParserSpec, Error>)
    ensures !HasKeys(defaults) ==> r == Err(ConfigFormatError(MissingDefaultsOption(MissingKey(defaults))))
    ensures r.Ok? <==>
      HasKeys(defaults)
      && Acceptable(CommandKey, defaults[CommandKey])
      && Acceptable(ChannelKey, defaults[ChannelKey])
      && Acceptable(NumRollsKey, defaults[NumRollsKey])
    ensures r.Err? && HasKeys(defaults) ==>
      exists i :: (0 <= i < |Keys| && !Acceptable(Keys[i], defaults[Keys[i]])
        && (forall j :: 0 <= j < i ==> Acceptable(Keys[j], defaults[Keys[j]]))
        && r.error == ConfigFormatError(BadDefaultsValue(Keys[i], defaults[Keys[i]])))
  {
    FirstMissingKeys(defaults);
    assert Keys[0] == CommandKey && Keys[1] == ChannelKey && Keys[2] == NumRollsKey;
    match FirstMissing(defaults, Keys)
    case Some(k) => Err(ConfigFormatError(MissingDefaultsOption(k)))
    case None =>
      var command := defaults[CommandKey];
      var channel := defaults[ChannelKey];
      var numRolls := defaults[NumRollsKey];
      if command != VNone && !CommandOk(command) then
        Err(ConfigFormatError(BadDefaultsValue(CommandKey, command)))
      else if channel != VNone && !ChannelOk(channel) then
        Err(ConfigFormatError(BadDefaultsValue(ChannelKey, channel)))
      else if numRolls != VNone && !NumRollsOk(numRolls) then
        Err(ConfigFormatError(BadDefaultsValue(NumRollsKey, numRolls)))
      else
        Ok(ParserSpec(
          Positional("command", command != VNone, DefaultOf(command)),
          Flagged("-c", "--channel", channel == VNone, DefaultOf(channel), false),
          Flagged("-n", "--num", numRolls == VNone, DefaultOf(numRolls), true),
          DailySwitch))
  }

  /** An empty default makes its argument required with no default; a set one
      becomes the default of an optional argument. `--num` is always an integer
      option and `--daily` always the same switch. */
  lemma BuildArguments(defaults: map<string, PyValue>)
    requires Build(defaults).Ok?
    ensures HasKeys(defaults)
    ensures var spec := Build(defaults).value;
      && spec.command.Positional? && spec.channel.Flagged? && spec.num.Flagged?
      && (spec.command.optional <==> defaults[CommandKey] != VNone)
      && (spec.channel.required <==> defaults[ChannelKey] == VNone)
      && (spec.num.required <==> defaults[NumRollsKey] == VNone)
      && (defaults[CommandKey] != VNone ==> spec.command.default == Some(defaults[CommandKey]))
      && (defaults[ChannelKey] != VNone ==> spec.channel.default == Some(defaults[ChannelKey]))
      && (defaults[NumRollsKey] != VNone ==> spec.num.default == Some(defaults[NumRollsKey]))
      && (defaults[CommandKey] == VNone ==> spec.command.default.None?)
      && (defaults[ChannelKey] == VNone ==> spec.channel.default.None?)
      && (defaults[NumRollsKey] == VNone ==> spec.num.default.None?)
      && spec.num.intType && !spec.channel.intType
      && spec.daily == Switch("-d", "--daily")
  {
  }

  /** Leaving every default empty gives a parser in which all three arguments are required. */
  lemma AllEmptyAllRequired()
    ensures var d := map[CommandKey := VNone, ChannelKey := VNone, NumRollsKey := VNone];
      Build(d).Ok? && !Build(d).value.command.optional
      && Build(d).value.channel.required && Build(d).value.num.required
  {
    var d := map[CommandKey := VNone, ChannelKey := VNone, NumRollsKey := VNone];
    assert FirstMissing(d, Keys).None?;
  }
}
