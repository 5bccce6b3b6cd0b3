# cec-alsa-sync: configuration templates and key-press handling

This project models the pure logic of a small HDMI-CEC "audio system" bridge
that turns TV remote volume keys into ALSA mixer commands. It has two parts.

- **Configuration** (`Config`, modelling `src/config.rs`). A command template
  is an argv: the program followed by its arguments. The required-field
  decoder rejects an empty list with "app missing". The optional-field
  decoder reads both an absent value and an empty list as "not configured".
  `new_command` splits a template into program and arguments and panics with
  "Missing program" on an empty template. The configuration record takes
  each field from the document or from its fixed default: the `amixer`
  volume-up/down argv, device name `Hifiberry`, an empty HDMI port and a
  5000 ms poll interval. The central result is `Config.DecodedConfigRunnable`:
  in every configuration that decodes, every template is non-empty, so
  `new_command` can never panic on decoded configuration.
- **Event handlers** (`Bin`, modelling `src/bin.rs`). A key press maps
  `VolumeUp` to the mixer step `1%+` and `VolumeDown` to `1%-`. Every other
  key maps to nothing. For a step, the handler runs
  `amixer set DSPVolume <step>`. A received bus command is logged and gets
  no reply.

`wrappers.dfy` holds the `Option`/`Result` datatypes the two modules share.

The handlers do what the code does today. Handling of mute and reporting
of audio status are TODO comments (src/bin.rs:28-29, 37), so the model maps
`Mute` to nothing and `on_command_received` sends no reply. The press
duration is never read, so every repeat of a volume key, zero-duration
ones included, runs `amixer` again (`Bin.DurationIgnored`). The key handler
never reads the configuration: it hard-codes `amixer set DSPVolume <step>`
(src/bin.rs:21-24), so a configured `vol_up_command` or `vol_down_command`
does not change what a key press runs. `Bin.VolumeKeysMatchDefaults` only
shows that the hard-coded argv coincides with the default templates.

## Model

| member | source | states |
|---|---|---|
| Config.CollectOwned | src/config.rs:15 | Collecting owned copies of the borrowed strings keeps the length and every element at its position. |
| Config.FromStrs | src/config.rs:13-16 | A template built from a list of strings holds exactly that list, in order. |
| Config.NewCommand | src/config.rs:20-25 | Fails ("Missing program") exactly on an empty template; otherwise the program followed by the arguments is the template's argv. |
| Config.NewCommandRoundTrip | src/config.rs:20-25 | Splitting a runnable template and re-joining program and arguments gives the template back; every command is what `new_command` makes of its own argv. |
| Config.TemplateFromArgs | src/config.rs:55-64 | Fails with "app missing" exactly when the list is empty; otherwise returns a template holding exactly that list. |
| Config.TemplateOptionFromArgs | src/config.rs:66-80 | Never fails; the result is "not configured" exactly when the value is absent or the list is empty; otherwise it holds the list unchanged. |
| Config.DecodedTemplatesRunnable | src/config.rs:22 | Every template either decoder accepts passes `new_command` without the "Missing program" panic. |
| Config.DefaultVolumeUp | src/config.rs:82-84 | The default volume-up template is `amixer set DSPVolume 1%+` and is runnable. |
| Config.DefaultVolumeDown | src/config.rs:86-88 | The default volume-down template is `amixer set DSPVolume 1%-` and is runnable. |
| Config.DefaultDeviceName | src/config.rs:90-92 | The default device name is "Hifiberry". |
| Config.DefaultHdmiPort | src/config.rs:93-95 | The default HDMI port is the empty string. |
| Config.DefaultPowerPollIntervalMs | src/config.rs:97-99 | The default poll interval is 5000 ms. |
| Config.RequiredCommand | src/config.rs:34-43 | An absent volume command field takes the given default; a present one fails exactly when its list is empty and otherwise holds that list. |
| Config.OptionalCommand | src/config.rs:44-49 | An optional command field never fails; it is "not configured" exactly when the field is absent or its list is empty, and otherwise holds the list unchanged. |
| Config.DecodeConfig | src/config.rs:28-53 | Decoding fails exactly when a volume command field is an empty list; otherwise port, device name, interval and the two volume commands hold the document's value or their default, and each optional command is the lenient decoder's result for its field. |
| Config.OptionalCommandConfigured | src/config.rs:44-49 | Each of the mute, TV-on and TV-off commands is configured exactly when the document gives it a non-empty list, and then holds that list unchanged. |
| Config.DecodedConfigRunnable | src/config.rs:28-53 | In every configuration that decodes, every required and every configured optional command passes `new_command` without panicking. |
| Config.EmptyDocumentGivesDefaults | src/config.rs:82-99 | A document that sets no field decodes to the two `amixer` volume templates, device "Hifiberry", an empty port, no optional commands and a 5000 ms interval. |
| Bin.VolumeDelta | src/bin.rs:15-19 | The step is `1%+` exactly for VolumeUp, `1%-` exactly for VolumeDown, and absent exactly for every other key. |
| Bin.AmixerCommand | src/bin.rs:21-24 | The command built for a step is what `new_command` makes of the argv `amixer set DSPVolume <step>`. |
| Bin.OnKeyPress | src/bin.rs:10-30 | No process is started exactly for keys other than VolumeUp/VolumeDown; for those the argv is `amixer set DSPVolume <step>`, and a failed spawn aborts with "Failed to call amixer". |
| Bin.DurationIgnored | src/bin.rs:15-19 | The outcome depends only on the key code, never on the press duration. |
| Bin.VolumeKeysMatchDefaults | src/bin.rs:16-24 | The hard-coded command built for VolumeUp/VolumeDown equals what `new_command` makes of the default volume-up/down template. |
| Bin.OnCommandReceived | src/bin.rs:32-38 | No received command produces a reply. |

## Left out

- Process spawning and waiting (`Command::new`, `.args`, `.output`): operating-system I/O. Only the argv is modelled; whether spawning succeeded is a parameter of `Bin.OnKeyPress`.
- The format parser behind serde: `Config.DecodeConfig` starts from field values already read from the document. Parse errors and type errors of the document are not modelled.
- `Config.TemplateOptionFromArgs`: the source's `Result` error case comes only from serde reading the value, which is not modelled, so the model's decoder never fails.
- The `hdmi_port` field is a `CString` in the source. It is modelled as a plain string, so the rejection of interior NUL bytes is not modelled.
- The process-wide `CONFIG` cell: one-time initialisation, not logic.
- `main` in `src/bin.rs`: adapter setup, callback registration and the long sleep are foreign I/O. It also hard-codes its device name and port instead of reading the configuration.
- `println!` logging in both handlers.
- `Bin.UserControlCode` names only volume up, volume down and mute; every other key of the adapter library's enumeration is `OtherKey` with its control code.
