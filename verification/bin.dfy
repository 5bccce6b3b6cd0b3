/** The CEC event handlers of the volume bridge: a remote-control key press
    becomes at most one `amixer` invocation, and a received bus command
    produces no reply. */
module Bin {
  import opened Wrappers
  import Config

  /** A CEC user control code other than volume up (0x41), volume down
      (0x42) and mute (0x43). */
  type OtherCode = x: int | 0 <= x < 256 && x != 0x41 && x != 0x42 && x != 0x43

  /** The remote-control keys. `Mute` is named separately because handling
      it is still a TODO in the handler, which treats it like any other key;
      `OtherKey` is every remaining control code, by its code value. */
  datatype UserControlCode = VolumeUp | VolumeDown | Mute | OtherKey(code: OtherCode)

  /** A key event as the adapter delivers it: the key and how long it was held, in ms. */
  datatype Keypress = Keypress(keycode: UserControlCode, duration: nat)

  /** A CEC logical address (0 = TV … 15 = unregistered/broadcast). */
  type LogicalAddress = x: int | 0 <= x < 16

  type byte = x: int | 0 <= x < 256

  /** A command received from the bus. */
  datatype CecCommand = CecCommand(
    initiator: LogicalAddress,
    destination: LogicalAddress,
    opcode: byte,
    parameters: seq<byte>)

  /** What handling one key press does to the outside world. */
  datatype KeyEffect =
    | NoCommand                  // no process is started
    | Ran(command: Config.Command)  // the command was spawned and waited for
    | Panicked(message: string)  // spawning failed and `expect` aborted the thread

  /** The mixer step for a key: one percent up, one percent down, or nothing. */
  function VolumeDelta(keycode: UserControlCode): (delta: Option<string>)
    ensures delta == Some("1%+") <==> keycode == VolumeUp
    ensures delta == Some("1%-") <==> keycode == VolumeDown
    ensures delta.None? <==> keycode !in {VolumeUp, VolumeDown}
  {
    match keycode
    case VolumeUp => Some("1%+")
    case VolumeDown => Some("1%-")
    case _ => None
  }

  /** The process the handler builds for a mixer step: what `new_command`
      makes of the argv `amixer set DSPVolume <step>`. */
  function AmixerCommand(delta: string): (c: Config.Command)
    ensures Config.NewCommand(Config.CommandTemplate(["amixer", "set", "DSPVolume", delta])) == Success(c)
  {
    Config.Command("amixer", ["set", "DSPVolume", delta])
  }

  /** `on_key_press`. `spawned` is the outcome of starting the process
      (the operating system's answer, which the model takes as given). */
  function OnKeyPress(keypress: Keypress, spawned: bool): (e: KeyEffect)
    ensures e.NoCommand? <==> keypress.keycode !in {VolumeUp, VolumeDown}
    ensures e.Ran? <==> (keypress.keycode in {VolumeUp, VolumeDown} && spawned)
    ensures e.Ran? ==> Config.ArgvOf(e.command).argv == ["amixer", "set", "DSPVolume", VolumeDelta(keypress.keycode).value]
    ensures e.Panicked? ==> e.message == "Failed to call amixer"
  {
    match VolumeDelta(keypress.keycode)
    case None => NoCommand
    case Some(delta) =>
      if spawned then Ran(AmixerCommand(delta))
      else Panicked("Failed to call amixer")
  }

  /** The key press handler looks only at the key: how long it was held never
      changes the outcome, so a zero-duration repeat acts like any other. */
  lemma DurationIgnored(keycode: UserControlCode, d1: nat, d2: nat, spawned: bool)
    ensures OnKeyPress(Keypress(keycode, d1), spawned) == OnKeyPress(Keypress(keycode, d2), spawned)
  {
  }

  /** The handler never reads the configuration: it hard-codes its argv.
      That argv coincides with the default volume templates, so only a
      configuration that keeps the defaults agrees with what the keys run. */
  lemma VolumeKeysMatchDefaults()
    ensures Config.NewCommand(Config.DefaultVolumeUp()) == Success(AmixerCommand(VolumeDelta(VolumeUp).value))
    ensures Config.NewCommand(Config.DefaultVolumeDown()) == Success(AmixerCommand(VolumeDelta(VolumeDown).value))
  {
  }

  /** `on_command_received`: the command is only logged; nothing is sent back. */
  function OnCommandReceived(command: CecCommand): (reply: Option<CecCommand>)
    ensures reply.None?
  {
    None
  }
}
