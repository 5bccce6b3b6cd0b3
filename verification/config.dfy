/** The configuration of the volume bridge: argv command templates, the
    decoders that build them from configuration values, the split of a
    template into program and arguments, and the per-field defaults. */
module Config {
  import opened Wrappers

  /** An unsigned 64-bit integer, the width of the poll interval field. */
  type u64 = x: int | 0 <= x < 0x1_0000_0000_0000_0000

  /** An argv: the program followed by its arguments. */
  datatype CommandTemplate = CommandTemplate(argv: seq<string>)

  /** A process ready to spawn: the program and its argument list. */
  datatype Command = Command(program: string, args: seq<string>)

  /** The one error the template decoder raises itself ("app missing"). */
  datatype ConfigError = AppMissing

  /** The panic `new_command` raises on an empty template ("Missing program"). */
  datatype Panic = MissingProgram

  /** The `values.iter().cloned().map(String::from).collect()` step: every
      borrowed string becomes an owned copy, in order. */
  function CollectOwned(values: seq<string>): (owned: seq<string>)
    ensures |owned| == |values|
    ensures forall i :: 0 <= i < |values| ==> owned[i] == values[i]
  {
    if values == [] then []
    else [values[0]] + CollectOwned(values[1..])
  }

  /** `From<Vec<&str>>`: a template holding the given words, same length, same order. */
  function FromStrs(values: seq<string>): (t: CommandTemplate)
    ensures t.argv == values
  {
    CommandTemplate(CollectOwned(values))
  }

  /** `new_command`: the first word is the program and the remaining words,
      in order, are its arguments; an empty template panics. */
  function NewCommand(t: CommandTemplate): (r: Result<Command, Panic>)
    ensures r.Failure? <==> t.argv == []
    ensures r.Success? ==> [r.value.program] + r.value.args == t.argv
  {
    if t.argv == [] then Failure(MissingProgram)
    else Success(Command(t.argv[0], t.argv[1..]))
  }

  /** The argv a command spawns, program first: the inverse of `NewCommand`. */
  function ArgvOf(c: Command): CommandTemplate {
    CommandTemplate([c.program] + c.args)
  }

  /** A template `new_command` accepts without panicking. */
  predicate Runnable(t: CommandTemplate) {
    NewCommand(t).Success?
  }

  /** Splitting a template and joining it back gives the template again, and
      every command is what `new_command` makes of its own argv. */
  lemma NewCommandRoundTrip(t: CommandTemplate, c: Command)
    ensures Runnable(t) ==> ArgvOf(NewCommand(t).value) == t
    ensures NewCommand(ArgvOf(c)) == Success(c)
  {
  }

  /** `command_template_from_args`: an empty list is rejected with
      "app missing"; any other list becomes a template holding exactly it. */
  function TemplateFromArgs(args: seq<string>): (r: Result<CommandTemplate, ConfigError>)
    ensures r.Failure? <==> args == []
    ensures r.Failure? ==> r.error == AppMissing
    ensures r.Success? ==> r.value.argv == args
  {
    if args == [] then Failure(AppMissing)
    else Success(CommandTemplate(args))
  }

  /** `command_template_option_from_args`: an absent (or null) value and an
      empty list both mean "not configured"; a non-empty list is kept as is.
      The decoder itself never fails. */
  function TemplateOptionFromArgs(args: Option<seq<string>>): (r: Result<Option<CommandTemplate>, ConfigError>)
    ensures r.Success?
    ensures r.value.None? <==> (args.None? || args.value == [])
    ensures r.value.Some? ==> r.value.value.argv == args.value
  {
    match args
    case None => Success(None)
    case Some(xs) =>
      if xs == [] then Success(None)
      else Success(Some(CommandTemplate(xs)))
  }

  /** Every template either decoder accepts can be turned into a command:
      the "Missing program" panic is unreachable on decoded configuration. */
  lemma DecodedTemplatesRunnable(args: seq<string>, opt: Option<seq<string>>)
    ensures TemplateFromArgs(args).Success? ==> Runnable(TemplateFromArgs(args).value)
    ensures TemplateOptionFromArgs(opt).value.Some? ==> Runnable(TemplateOptionFromArgs(opt).value.value)
  {
  }

  /** `default_volume_up`. */
  function DefaultVolumeUp(): (t: CommandTemplate)
    ensures t.argv == ["amixer", "set", "DSPVolume", "1%+"]
    ensures Runnable(t)
  {
    FromStrs(["amixer", "set", "DSPVolume", "1%+"])
  }

  /** `default_volume_down`. */
  function DefaultVolumeDown(): (t: CommandTemplate)
    ensures t.argv == ["amixer", "set", "DSPVolume", "1%-"]
    ensures Runnable(t)
  {
    FromStrs(["amixer", "set", "DSPVolume", "1%-"])
  }

  /** `default_device_name`. */
  function DefaultDeviceName(): (name: string)
    ensures name == "Hifiberry"
  {
    "Hifiberry"
  }

  /** `default_hdmi_port`: empty, which lets the adapter library pick the port. */
  function DefaultHdmiPort(): (port: string)
    ensures port == []
  {
    ""
  }

  /** `default_power_poll_interval_ms`. */
  function DefaultPowerPollIntervalMs(): (ms: u64)
    ensures ms == 5000
  {
    5000
  }

  /** The configuration record, one field per configurable value. */
  datatype AppConfig = AppConfig(
    hdmiPort: string,
    deviceName: string,
    volUpCommand: CommandTemplate,
    volDownCommand: CommandTemplate,
    muteCommand: Option<CommandTemplate>,
    tvTurnedOnCommand: Option<CommandTemplate>,
    tvTurnedOffCommand: Option<CommandTemplate>,
    powerPollIntervalMs: u64)

  /** The configuration document after the format parser has read each field:
      `None` is a key the document leaves out (for the optional command
      fields it also stands for an explicit null, which decodes the same way). */
  datatype RawConfig = RawConfig(
    hdmiPort: Option<string>,
    deviceName: Option<string>,
    volUpCommand: Option<seq<string>>,
    volDownCommand: Option<seq<string>>,
    muteCommand: Option<seq<string>>,
    tvTurnedOnCommand: Option<seq<string>>,
    tvTurnedOffCommand: Option<seq<string>>,
    powerPollIntervalMs: Option<u64>)

  /** A required command field: its default when absent, else the strict decoder. */
  function RequiredCommand(raw: Option<seq<string>>, default: CommandTemplate): (r: Result<CommandTemplate, ConfigError>)
    ensures raw.None? ==> r == Success(default)
    ensures raw.Some? ==> (r.Failure? <==> raw.value == [])
    ensures raw.Some? && r.Success? ==> r.value.argv == raw.value
  {
    match raw
    case None => Success(default)
    case Some(args) => TemplateFromArgs(args)
  }

  /** An optional command field: `None` when absent, else the lenient decoder. */
  function OptionalCommand(raw: Option<seq<string>>): (r: Result<Option<CommandTemplate>, ConfigError>)
    ensures r.Success?
    ensures r.value.None? <==> (raw.None? || raw.value == [])
    ensures r.value.Some? ==> r.value.value.argv == raw.value
  {
    match raw
    case None => Success(None)
    case Some(args) => TemplateOptionFromArgs(Some(args))
  }

  /** A plain field: the given value, or the default when absent. */
  function OrDefault<T>(raw: Option<T>, default: T): T {
    match raw
    case None => default
    case Some(v) => v
  }

  /** Deserialising `AppConfig`: every field takes its value or its default,
      and an empty list for either volume command fails the whole decode.
      The optional command fields cannot fail, so their values are read directly. */
  function DecodeConfig(raw: RawConfig): (r: Result<AppConfig, ConfigError>)
    ensures r.Failure? <==> (raw.volUpCommand == Some([]) || raw.volDownCommand == Some([]))
    ensures r.Success? ==> r.value.hdmiPort == OrDefault(raw.hdmiPort, "")
    ensures r.Success? ==> r.value.deviceName == OrDefault(raw.deviceName, "Hifiberry")
    ensures r.Success? ==> r.value.powerPollIntervalMs == OrDefault(raw.powerPollIntervalMs, 5000)
    ensures r.Success? ==> r.value.volUpCommand.argv == OrDefault(raw.volUpCommand, ["amixer", "set", "DSPVolume", "1%+"])
    ensures r.Success? ==> r.value.volDownCommand.argv == OrDefault(raw.volDownCommand, ["amixer", "set", "DSPVolume", "1%-"])
    ensures r.Success? ==> r.value.muteCommand == TemplateOptionFromArgs(raw.muteCommand).value
    ensures r.Success? ==> r.value.tvTurnedOnCommand == TemplateOptionFromArgs(raw.tvTurnedOnCommand).value
    ensures r.Success? ==> r.value.tvTurnedOffCommand == TemplateOptionFromArgs(raw.tvTurnedOffCommand).value
  {
    var volUp :- RequiredCommand(raw.volUpCommand, DefaultVolumeUp());
    var volDown :- RequiredCommand(raw.volDownCommand, DefaultVolumeDown());
    var mute := OptionalCommand(raw.muteCommand).value;
    var tvOn := OptionalCommand(raw.tvTurnedOnCommand).value;
    var tvOff := OptionalCommand(raw.tvTurnedOffCommand).value;
    Success(AppConfig(
      OrDefault(raw.hdmiPort, DefaultHdmiPort()),
      OrDefault(raw.deviceName, DefaultDeviceName()),
      volUp, volDown, mute, tvOn, tvOff,
      OrDefault(raw.powerPollIntervalMs, DefaultPowerPollIntervalMs())))
  }

  /** Every command a configuration holds can be spawned without panicking. */
  predicate AllRunnable(c: AppConfig) {
    && Runnable(c.volUpCommand)
    && Runnable(c.volDownCommand)
    && (c.muteCommand.Some? ==> Runnable(c.muteCommand.value))
    && (c.tvTurnedOnCommand.Some? ==> Runnable(c.tvTurnedOnCommand.value))
    && (c.tvTurnedOffCommand.Some? ==> Runnable(c.tvTurnedOffCommand.value))
  }

  /** Each optional command field is configured exactly when the document
      gives it a non-empty list, and then holds that list unchanged. */
  lemma OptionalCommandConfigured(raw: RawConfig)
    ensures DecodeConfig(raw).Success? ==>
      (DecodeConfig(raw).value.muteCommand.Some? <==> (raw.muteCommand.Some? && raw.muteCommand.value != []))
    ensures DecodeConfig(raw).Success? && DecodeConfig(raw).value.muteCommand.Some? ==>
      DecodeConfig(raw).value.muteCommand.value.argv == raw.muteCommand.value
    ensures DecodeConfig(raw).Success? ==>
      (DecodeConfig(raw).value.tvTurnedOnCommand.Some? <==> (raw.tvTurnedOnCommand.Some? && raw.tvTurnedOnCommand.value != []))
    ensures DecodeConfig(raw).Success? && DecodeConfig(raw).value.tvTurnedOnCommand.Some? ==>
      DecodeConfig(raw).value.tvTurnedOnCommand.value.argv == raw.tvTurnedOnCommand.value
    ensures DecodeConfig(raw).Success? ==>
      (DecodeConfig(raw).value.tvTurnedOffCommand.Some? <==> (raw.tvTurnedOffCommand.Some? && raw.tvTurnedOffCommand.value != []))
    ensures DecodeConfig(raw).Success? && DecodeConfig(raw).value.tvTurnedOffCommand.Some? ==>
      DecodeConfig(raw).value.tvTurnedOffCommand.value.argv == raw.tvTurnedOffCommand.value
  {
  }

  /** Whatever document decodes successfully yields a configuration in which
      `new_command` never panics. */
  lemma DecodedConfigRunnable(raw: RawConfig)
    ensures DecodeConfig(raw).Success? ==> AllRunnable(DecodeConfig(raw).value)
  {
  }

  /** A document that sets nothing yields exactly the defaults. */
  lemma EmptyDocumentGivesDefaults()
    ensures DecodeConfig(RawConfig(None, None, None, None, None, None, None, None)) ==
      Success(AppConfig("", "Hifiberry",
        CommandTemplate(["amixer", "set", "DSPVolume", "1%+"]),
        CommandTemplate(["amixer", "set", "DSPVolume", "1%-"]),
        None, None, None, 5000))
  {
  }
}
