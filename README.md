# Generic analog sensor node, modelled in Dafny

This project models the generic analog sensor node of the Soletta flow
framework (`src/modules/flow/genericanalog/genericanalog.c`). The node keeps a
small record of private data, `struct _upm_generic_analog`. The flow engine
drives it through four hooks:

- **open** reads the `pin` option as `"<device> <pin>"` with `sscanf("%d %d")`.
  It opens the analog channel with resolution 12 and records `pin` and `mask`.
- **tick** asks the analog layer whether the channel is busy. If it is not,
  it issues one asynchronous read. If the read cannot be issued, it sends an
  `EINVAL` error packet.
- **read_cb** is the completion callback of that read. It stores the raw
  sample and sends one integer-range packet with bounds 0..4094.
- **close** closes the channel and deletes the timer, each only if present.

Files:

- `pin_parse.dfy`, module `PinParse`: the `sscanf("%d %d")` conversion as pure
  functions over strings (`ScanInt`, `ScanPin`). Lemmas prove that the
  decimal text of two numbers reads back as those numbers. They also prove
  that text whose digits form at most one unbroken run is refused.
- `genericanalog.dfy`, module `GenericAnalog`:
  - class `Instance`: the private data, one field per struct member.
  - class `Runtime`: the world outside the node, kept as an ordered log of
    every call the node makes into the analog layer, the main loop and the
    flow engine.
  - the four hooks as methods: `Open`, `Tick`, `ReadCallback`, `Close`.

  The analog layer is not modelled. What it answers reaches each hook as a
  parameter: the handle `sol_aio_open` returns, the `sol_aio_busy` flag, and
  the pending token `sol_aio_get_value` returns. The token may be null.
- `scenarios.dfy`, module `GenericAnalogScenarios`: whole lifecycles run on
  fresh objects, with the exact call log each one produces.

The model follows the code in these places, where an idealised driver would
behave differently:

- `read_cb` puts the sample in the range's `step`. The range's `val` stays 0.
- The sample is not clamped to [0, 4094].
- `pending` is written by `tick` and never cleared.
- The busy test is the analog layer's own flag, not `pending`.
- `tick` returns 0 both when the read is issued and when issuing fails. It
  returns 1 (`true`) only when the private data is null or the channel is
  busy.
- With null private data, `tick` returns 1 without asking the analog layer.
  A null `aio` handle is passed to `sol_aio_busy` unchanged.
- Nothing in this file assigns `mdata->node`. The engine zero-fills the private
  data, so every packet is sent with a null node. The model keeps that field
  at `None`.
- `close` leaves `aio` and `timer` in place after releasing them. A second
  `close` on the same data would release them again (`CloseTwice`).

## Model

| member | source | states |
|---|---|---|
| `PinParse.ScanPin` | src/modules/flow/genericanalog/genericanalog.c:69 | The model of `sscanf(pin, "%d %d", &device, &pin) == 2` and its two outputs. Its contract says it yields a pair exactly when a first `%d` succeeds and a second `%d` succeeds on what the first left unread. `ScanPinText` and `ScanPinSpacedText` pin down the pairs it reads; `OneRunNoPin` and `NoDigitNoPin` pin down the texts it refuses. |
| `PinParse.ScanInt` | src/modules/flow/genericanalog/genericanalog.c:69 | The model of one `%d`: C `isspace` white space is skipped, then one optional sign, then the longest run of digits, which must not be empty. Its contract says a successful conversion consumes at least one character, and the text it leaves never starts with a digit. `ScanIntText` gives what it reads, `ScanIntShape` where it stops, and `NoDigitNoInt` when it fails. |
| `GenericAnalog.ParsedPin` | src/modules/flow/genericanalog/genericanalog.c:64-69 | The (device, pin) pair open works from. A null `pin` option never yields a pair, which is the check at line 64; a present option is read by `ScanPin`. `Open` states its whole contract in terms of this pair. |
| `PinParse.ScanPinText` | src/modules/flow/genericanalog/genericanalog.c:69 | The text `"<device> <pin>"` makes `sscanf("%d %d")` return exactly (device, pin). This holds for every pair of integers and whatever follows, unless what follows extends the second number. |
| `PinParse.ScanIntText` | src/modules/flow/genericanalog/genericanalog.c:69 | One `%d` reads back the decimal text of any integer, sign included, and leaves exactly the text after it unread. This holds when that following text is empty or does not start with a digit; otherwise the digits run on (`IntText(12)` followed by `"3"` reads as 123). |
| `PinParse.NoDigitNoPin` | src/modules/flow/genericanalog/genericanalog.c:69 | Text without a decimal digit never yields a (device, pin) pair. This covers the empty string. |
| `PinParse.NoDigitNoInt` | src/modules/flow/genericanalog/genericanalog.c:69 | A single `%d` fails on text without a decimal digit. |
| `PinParse.ScanPinSpacedText` | src/modules/flow/genericanalog/genericanalog.c:69 | The round trip with any white space `sscanf` accepts. Blanks of any length may come before the device number and between the two numbers, and the text still reads back as exactly (device, pin). The blanks between the numbers may be left out only when the pin has a minus sign. |
| `PinParse.ScanIntSkipsSpaces` | src/modules/flow/genericanalog/genericanalog.c:69 | Any run of C `isspace` white space in front of a `%d` leaves what it reads and what it leaves unread unchanged. |
| `PinParse.ScanIntShape` | src/modules/flow/genericanalog/genericanalog.c:69 | A successful `%d` ends right after a digit. What it leaves unread is a proper suffix of its input, and it is empty or does not start with a digit. |
| `PinParse.OneRunNoPin` | src/modules/flow/genericanalog/genericanalog.c:69 | Text whose decimal digits all stand in one unbroken run never yields a (device, pin) pair, whatever the blanks, signs and other characters around them. |
| `PinParse.OneSignedNumberNoPin` | src/modules/flow/genericanalog/genericanalog.c:69 | `" +07 x"`, one number with a leading blank, a plus sign and a leading zero, yields no pair. |
| `PinParse.OneNumberNoPin` | src/modules/flow/genericanalog/genericanalog.c:69 | One integer followed by text without digits does not yield a pair: `sscanf` converts only one value, and open refuses the option. |
| `PinParse.ScanPinSignedWithoutBlank` | src/modules/flow/genericanalog/genericanalog.c:69 | The blank in the format is optional. A sign right after the device number starts the pin, so `"0-2"` yields device 0, pin -2. |
| `PinParse.SkipSpaceSuffix` | src/modules/flow/genericanalog/genericanalog.c:69 | Skipping white space before a `%d` only drops characters from the front of the input. |
| `PinParse.SkipSpaceOnlySpace` | src/modules/flow/genericanalog/genericanalog.c:69 | Every character skipped before a `%d` is C `isspace` white space. |
| `PinParse.NatTextDigits` | src/modules/flow/genericanalog/genericanalog.c:69 | The decimal text of a natural number is a nonempty run of digits whose value is that number. The round-trip lemmas above are built on this fact. |
| `GenericAnalog.Instance.constructor` | src/modules/flow/genericanalog/genericanalog.c:41-49 | The private data starts zero-filled: every handle null, and `pin`, `mask` and `ret_data` 0. |
| `GenericAnalog.Open` | src/modules/flow/genericanalog/genericanalog.c:51-80 | A null `pin` returns -EINVAL with no call made. A `pin` that does not give two integers returns -EINVAL, never calls the hardware open, and leaves `aio` null. Two integers (device, pin) cause exactly one `sol_aio_open(device, pin, 12)`, and its result is stored in `aio`. The status is 0 exactly when `aio` is then non-null, and in that case `pin` = the second integer and `mask` = 12. On -EINVAL, `pin` and `mask` are unchanged. Nothing else changes. |
| `GenericAnalog.Tick` | src/modules/flow/genericanalog/genericanalog.c:121-136 | The result is 1 exactly when the data is null or the channel is busy, and 0 otherwise. Null data: no call is made. Busy: one busy query, then no read and no error, and `pending` is unchanged. Idle: one busy query and exactly one read, with the returned token stored in `pending`. If the token is null, exactly one `EINVAL` error packet carrying `pin` follows. No other field changes. |
| `GenericAnalog.ReadCallback` | src/modules/flow/genericanalog/genericanalog.c:104-114 | `ret_data` becomes the sample. Exactly one packet is sent on the output port: an integer range with val 0, min 0, max 4094 and step equal to the unclamped sample. No other field changes; `pending`, `aio`, `pin` and `mask` in particular. |
| `GenericAnalog.Close` | src/modules/flow/genericanalog/genericanalog.c:85-101 | Null data: nothing happens. Otherwise `aio` is closed exactly once if it is present, then `timer` is deleted exactly once if it is present. Nothing else is released or changed. |
| `GenericAnalogScenarios.PinZeroTwo` | src/modules/flow/genericanalog/genericanalog.c:69 | The option `"0 2"` names device 0, pin 2. |
| `GenericAnalogScenarios.OpenZeroTwo` | src/modules/flow/genericanalog/genericanalog.c:69-79 | Opening with `"0 2"` on fresh data calls `sol_aio_open(0, 2, 12)` once. It succeeds with pin 2 and mask 12 exactly when the hardware grants a handle. |
| `GenericAnalogScenarios.PollOnce` | src/modules/flow/genericanalog/genericanalog.c:51-136 | Runs open on `"0 2"`, an idle tick, a busy tick, completion with 2048, then close. Open returns 0 and the ticks return 0 and 1. The call log is exactly: one open, one read, one busy-absorbed tick, one reading {val 0, min 0, max 4094, step 2048}, one close. |
| `GenericAnalogScenarios.IssueFails` | src/modules/flow/genericanalog/genericanalog.c:129-135 | A read that cannot be issued still makes tick return 0. Exactly one `EINVAL` error packet carrying pin 2 is sent. |
| `GenericAnalogScenarios.NullPin` | src/modules/flow/genericanalog/genericanalog.c:64-67 | A null `pin` makes open return -22 with no call made. The close that follows releases nothing. |
| `GenericAnalogScenarios.HardwareRefuses` | src/modules/flow/genericanalog/genericanalog.c:71-77 | When the hardware refuses the channel, open returns -22 after one open attempt. `pin` and `mask` keep their zero values, and close releases nothing. |
| `GenericAnalogScenarios.OpenClose` | src/modules/flow/genericanalog/genericanalog.c:51-101 | Open then close on fresh data, for every `pin` option and every hardware answer. If the option does not give two integers, open returns -EINVAL and no call is made. Otherwise the log is one `sol_aio_open(device, pin, 12)`, followed by one close of the handle exactly when the hardware granted one. Open returns 0 exactly in that case. |
| `GenericAnalogScenarios.CloseTwice` | src/modules/flow/genericanalog/genericanalog.c:96-97 | `close` keeps the handle it released, so a second close closes the channel again. |

## Left out

- The analog conversion itself (`sol_aio_open`, `sol_aio_busy`, `sol_aio_get_value`, `sol_aio_close`) is foreign code. It is replaced by parameters carrying its answers and by entries in the call log. The model therefore cannot show that at most one read is outstanding. That depends on the analog layer's busy flag.
- The main loop and timers: the timer creation at line 78 is commented out, so `timer` is never set. It is kept only as an optional field that `Close` checks.
- The options API-version check at line 60: options are taken to carry the right version.
- Logging and the text of the warning and error messages (lines 65, 75, 132): the model keeps the error code and the pin, not the formatted string.
- `sscanf` beyond a whitespace-separated two-integer grammar: `%d` overflow (undefined in C) and locale-dependent white space.
- The 32-bit width of `device`, `pin` and `mask`: the code only copies these values, so they are modelled as unbounded integers. Samples and range fields are `int32_t` in the source and are modelled as 32-bit.
- Tick's `port`, `conn_id` and `packet` parameters and the callback's `aio` parameter: the code never reads them. The callback data passed to `sol_aio_get_value` is not logged.
- The generated node-type code included at line 137. The output port `OUT` is taken to be port 0, the type's only output port.
- Asynchrony: `ReadCallback` can be called at any point. The model does not tie it to an earlier successful tick.
- `GenericAnalog.Open` requires `aio` to be null on entry, because the engine hands the hook zero-filled private data and calls it once. The model does not describe a second open on the same data. There, a `pin` that fails to parse would store an uninitialised local into `pin`.
