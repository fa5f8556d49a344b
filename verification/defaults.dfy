/** The three configurable command-line defaults, the checks both parser
    versions apply to them, and the argument specification a parser is built
    from (argparse's `add_argument` calls, as data). */
module Defaults {
  import opened Outcomes
  import opened Seqs
  import opened Text
  import opened PyValues

  const CommandKey := "mudae-command"
  const ChannelKey := "target-channel"
  const NumRollsKey := "num-rolls"

  /** The order in which the defaults are read, and so the order of their errors. */
  const Keys := [CommandKey, ChannelKey, NumRollsKey]

  /** The prefixes a Mudae command must be given without. */
  const CommandPrefixes := ["$", "/"]

  /** `isinstance(command, str) and not command.startswith(("$", "/"))` */
  function CommandOk(v: PyValue): (ok: bool)
    ensures ok <==> v.VStr? && (|v.s| == 0 || (v.s[0] != '$' && v.s[0] != '/'))
  {
    if IsInstance(v, Str) then
      PrefixedCommand(v.s);
      !StartsWithAny(v.s, CommandPrefixes)
    else false
  }

  lemma PrefixedCommand(s: string)
    ensures StartsWithAny(s, CommandPrefixes) <==> |s| > 0 && (s[0] == '$' || s[0] == '/')
  {
    assert StartsWithAny(s, CommandPrefixes) == (StartsWith(s, "$") || StartsWithAny(s, ["/"]));
    assert StartsWithAny(s, ["/"]) == StartsWith(s, "/");
    if |s| > 0 {
      assert s[..1] == [s[0]];
    }
  }

  /** `isinstance(channel, str) and not any(c.isspace() for c in channel)` */
  function ChannelOk(v: PyValue): (ok: bool)
    ensures ok <==> v.VStr? && forall i :: 0 <= i < |v.s| ==> !IsSpace(v.s[i])
  {
    IsInstance(v, Str) && !AnySpace(v.s)
  }

  /** `isinstance(num_rolls, int) and num_rolls >= 0`. A `bool` is an `int` to
      `isinstance`, so `true` and `false` pass as 1 and 0. */
  function NumRollsOk(v: PyValue): (ok: bool)
    ensures ok <==> (v.VInt? && v.i >= 0) || v.VBool?
  {
    IsInstance(v, Int) && IntValue(v) >= 0
  }

  /** The check that applies to the default stored under `key`. */
  function ValueOk(key: string, v: PyValue): bool
    requires key in Keys
  {
    if key == CommandKey then CommandOk(v)
    else if key == ChannelKey then ChannelOk(v)
    else NumRollsOk(v)
  }

  /** The empty command is accepted; a `$` or `/` prefix is not. */
  lemma CommandExamples()
    ensures CommandOk(VStr("")) && CommandOk(VStr("wa"))
    ensures !CommandOk(VStr("$wa")) && !CommandOk(VStr("/wa")) && !CommandOk(VNone)
  {
  }

  /** The empty channel is accepted; any whitespace, ASCII or not, is refused. */
  lemma ChannelExamples()
    ensures ChannelOk(VStr("")) && ChannelOk(VStr("spam"))
    ensures !ChannelOk(VStr("waifu spam")) && !ChannelOk(VStr("spam\U{3000}")) && !ChannelOk(VNone)
  {
    assert !IsSpace('s') && !IsSpace('p') && !IsSpace('a') && !IsSpace('m');
    assert forall i :: 0 <= i < 4 ==> !IsSpace("spam"[i]);
    assert "waifu spam"[5] == ' ';
    assert "spam\U{3000}"[4] == '\U{3000}';
  }

  /** Zero is accepted, a negative count or a non-integer is not, and a boolean
      passes as an integer. */
  lemma NumRollsExamples()
    ensures NumRollsOk(VInt(0)) && !NumRollsOk(VInt(-1)) && NumRollsOk(VBool(true))
    ensures !NumRollsOk(VStr("16")) && !NumRollsOk(VFloat(16.0)) && !NumRollsOk(VNone)
  {
  }

  /** The first of `keys` that `d` lacks: the key the `KeyError` names when the
      keys are looked up one after the other. */
  function FirstMissing(d: map<string, PyValue>, keys: seq<string>): (r: Option<string>)
    ensures r.None? <==> forall i :: 0 <= i < |keys| ==> keys[i] in d
    ensures r.Some? ==> exists i :: (0 <= i < |keys| && keys[i] == r.value && r.value !in d
      && forall j :: 0 <= j < i ==> keys[j] in d)
  {
    match FirstIndex(keys, (k: string) => k !in d)
    case None => None
    case Some(i) => Some(keys[i])
  }

  /** The three defaults are all present. */
  predicate HasKeys(d: map<string, PyValue>) {
    CommandKey in d && ChannelKey in d && NumRollsKey in d
  }

  /** The key a lookup in `Keys` order fails on. */
  function MissingKey(d: map<string, PyValue>): string
    requires !HasKeys(d)
  {
    if CommandKey !in d then CommandKey else if ChannelKey !in d then ChannelKey else NumRollsKey
  }

  lemma FirstMissingKeys(d: map<string, PyValue>)
    ensures FirstMissing(d, Keys).None? <==> HasKeys(d)
    ensures !HasKeys(d) ==> FirstMissing(d, Keys) == Some(MissingKey(d))
  {
    assert Keys[0] == CommandKey && Keys[1] == ChannelKey && Keys[2] == NumRollsKey;
    if !HasKeys(d) {
      var i :| 0 <= i < |Keys| && Keys[i] == FirstMissing(d, Keys).value && Keys[i] !in d
        && forall j :: 0 <= j < i ==> Keys[j] in d;
      assert i == 0 || Keys[0] in d;
      assert i <= 1 || Keys[1] in d;
    }
  }

  /** One `add_argument` call. */
  datatype ArgSpec =
    /** A positional argument; `optional` is `nargs="?"`. */
    | Positional(name: string, optional: bool, default: Option<PyValue>)
    /** An option with a value; `intType` is `type=int`. */
    | Flagged(short: string, long: string, required: bool, default: Option<PyValue>, intType: bool)
    /** `action="store_true"` */
    | Switch(short: string, long: string)

  /** The arguments of a parser, in the order they are added. */
  datatype ParserSpec = ParserSpec(command: ArgSpec, channel: ArgSpec, num: ArgSpec, daily: ArgSpec)

  /** `-d/--daily` is the same store-true flag in every version. */
  const DailySwitch := Switch("-d", "--daily")
}
