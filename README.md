# FRITZ!Box smart-home client, modelled in Dafny

This project models the core of `fritzhome`, a Python 2 client for the AVM
FRITZ!Box smart-home interface (the AHA-HTTP interface, with session login as
described in AVM's Session-ID technical note), and proves properties of it.
The model covers:

- the thermostat (HKR) temperature codec;
- the client object: challenge-response login, `homeautoswitch` command
  calls, the first-match actor lookup, and the decoding of the
  `home_auto_query.lua` JSON tables into device lists and energy reports;
- the `Actor` record, which forwards its commands to its box and interprets
  the replies;
- the handlers of the `home_auto_overview` table parser;
- the carbon (graphite) client of the command line tool: metric keys,
  the session renewal rule, and the payload line.

Nothing talks to a network or reads a clock. Each method takes what the
gateway answers as a parameter:

- the reply text;
- the `SID`, `Challenge` and `BlockTime` values of a login reply;
- a JSON object as `map<string, int>`;
- clock readings as `real`.

Each method returns the requests it would have sent as out-parameters.
Python exceptions become `Failure` values of a `Result` type:

- `NotLoggedIn` for `assert self.sid`;
- `LoginBlocked` for a second zero SID;
- `MissingKey` for a `KeyError`;
- `NotAnInteger` for a `ValueError` from `int()`;
- `UnknownTimerange` for the `ValueError` of `get_consumption`.

The Python 2 behaviour the code relies on is written out:

- `round` rounds halves away from zero;
- `int(str)` strips whitespace and accepts an optional sign, whitespace after the sign, and decimal digits;
- `str.strip` removes ASCII whitespace;
- `s[k:]` is empty when `s` is shorter than `k`;
- `dict(attrs)` keeps the last value of a repeated name;
- `requests` drops a parameter whose value is `None`;
- `int(time.time())` truncates toward zero.

Modules:

- `wrappers.dfy`: `Option`, `Result`, `Error`.
- `text.dfy`: the string operations of Python 2.
- `utils.dfy`: the HKR codec.
- `fritz.dfy`: `fritz.py` and `actor.py` in one module. An `Actor` holds its
  `FritzBox` and the box hands out actors, so the two cannot import each
  other.
- `parser.dfy`: `parser.py`.
- `graphite.dfy`: the `graphite` command of `__main__.py`.

Three behaviours of the code are worth noting:

- A first login reply whose SID is not the zero SID does not authenticate.
  `login` returns `None` and leaves `sid` unchanged (fritz.py:64-81).
- The HKR decoder accepts only 16..56, 253 and 254 (utils.py:10).
- The HKR encoder rounds `2 * val` and refuses a code outside 16..56. It
  does not clamp to the sentinels (utils.py:20-21).

## Model

| member | source | states |
|---|---|---|
| `Utils.FromHkrTemperature` | fritzhome/utils.py:3-17 | Fails exactly outside 16..56, 253 and 254. 253 is off and 254 is on, and only those codes. Any other accepted code gives `val / 2`, a multiple of one half between 8 and 28 °C. |
| `Utils.RoundHalfAwayFromZero` | fritzhome/utils.py:20 | Python 2 `round`: the result is within one half of `x`, and halves go away from zero. |
| `Utils.ToHkrTemperature` | fritzhome/utils.py:19-22 | Succeeds exactly for 7.75 <= val < 28.25. The code lies in 16..56, so it is never 253 or 254, and it is `2 * val` rounded. There is no clamping. |
| `Utils.HkrRoundTrip` | fritzhome/utils.py:9-22 | For every code 16..56, encoding the decoded temperature gives the code back. |
| `Utils.HkrEncodeDecode` | fritzhome/utils.py:3-22 | Decoding an encoded temperature is off by at most a quarter degree. |
| `Text.Strip` | fritzhome/fritz.py:133 | `strip()` never lengthens a string, and what it returns neither starts nor ends with whitespace. |
| `Text.StripInfix` | fritzhome/fritz.py:133 | The stripped text is the contiguous part of the reply that starts after the leading whitespace. |
| `Text.StripLeading` | fritzhome/fritz.py:133 | Everything before the stripped text is whitespace. |
| `Text.StripTrailing` | fritzhome/fritz.py:133 | Everything after the stripped text is whitespace. |
| `Text.IsDigits` | fritzhome/actor.py:57 | `str.isdigit`: a non-empty string of decimal digits. `Reading`'s contract and `DigitsValueZero` state what it admits. |
| `Text.DigitString` | fritzhome/fritz.py:201-203 | `str` of a natural number. `DigitStringValue` proves it is a non-empty digit string that denotes the number. |
| `Text.IntString` | fritzhome/__main__.py:94 | `str` of an integer. `IntStringShape` proves it is digits, after a minus sign exactly for a negative number, and `PyIntOfIntString` proves `int()` reads it back. |
| `Text.PyInt` | fritzhome/fritz.py:74 | `int()` of a string. `PyIntOfDigits`, `PyIntOfNegated`, `PyIntOfSpacedNegated`, `PyIntOfSpacedPlus` and `PyIntOfIntString` state what it reads, and `StartTagShortId` states that `int('')` fails. |
| `Text.StripEmptyIff` | fritzhome/actor.py:40-42 | The stripped reply is empty exactly when the reply is all whitespace. |
| `Text.DigitStringValue` | fritzhome/fritz.py:199-203 | `str(n)` of a natural number is a string of digits that denotes `n`, with no leading zero. |
| `Text.IntStringShape` | fritzhome/__main__.py:94 | `str(i)` is non-empty and holds no blank or line break. It is all digits exactly when `i` is not negative. |
| `Text.PyIntOfDigits` | fritzhome/actor.py:57 | `int()` of a string of digits is the number they denote. |
| `Text.PyIntOfNegated` | fritzhome/parser.py:38 | `int()` of a minus sign followed by digits is the negated number. |
| `Text.PyIntOfSpacedNegated` | fritzhome/fritz.py:74 | `int()` skips whitespace between a minus sign and the digits: `int('- 5') == -5`. |
| `Text.PyIntOfSpacedPlus` | fritzhome/fritz.py:74 | The same for a plus sign: `int('+ 7') == 7`. |
| `Text.PyIntOfIntString` | fritzhome/parser.py:38 | `int(str(i)) == i` for every integer. |
| `Text.StripOfUnpadded` | fritzhome/fritz.py:133 | A string without leading or trailing whitespace is its own `strip()`. |
| `Text.RemoveSpaces` | fritzhome/parser.py:52 | `replace(' ', '')` leaves no blank, never lengthens the text, and leaves a text without blanks as it is. |
| `Text.RemoveSpacesKeeps` | fritzhome/parser.py:52 | A character survives `replace(' ', '')` exactly when it is in the text and is not a blank. |
| `Text.RemoveSpacesConcat` | fritzhome/parser.py:52 | Removing the blanks of a concatenation removes them from each part, so the kept characters stay in order with their multiplicity. |
| `Text.RemoveSpacesChar` | fritzhome/parser.py:52 | A single blank disappears, and any other single character stays. |
| `FritzHome.CalculateResponse` | fritzhome/fritz.py:83-87 | The response starts with the challenge and a hyphen, followed by the 32-character digest. |
| `FritzHome.Truthy` | fritzhome/fritz.py:123-128 | Python truthiness of an optional string. `SwitchParams` and `SwitchRequest` state how `assert self.sid` and `if ain` use it. |
| `FritzHome.FritzBox.LoggedIn` | fritzhome/fritz.py:123 | `assert self.sid` passes. `SwitchRequest` and `SwitchReply` state that a call fails exactly when it does not hold. |
| `FritzHome.ResponseRoundTrip` | fritzhome/fritz.py:83-87 | Splitting the response at its last hyphen gives back the challenge and the MD5 of challenge, hyphen and password. |
| `FritzHome.FritzBox.constructor` | fritzhome/fritz.py:42-49 | The base URL is `http://` or, with TLS, `https://` followed by the host. Credentials are kept and there is no session. |
| `FritzHome.FritzBox.Login` | fritzhome/fritz.py:53-81 | The first request has no parameters. A second request with user name and response is made exactly when round one answers the zero SID. A zero SID again fails with `int(BlockTime)` and leaves `sid` unchanged. Any other SID becomes `sid` and is returned. A non-zero first SID returns `None` and leaves `sid` unchanged. |
| `FritzHome.FritzBox.SwitchParams` | fritzhome/fritz.py:123-129 | The parameters always hold `switchcmd` and `sid`, and hold `ain` exactly when the AIN is truthy, with that AIN as value. |
| `FritzHome.FritzBox.SwitchRequest` | fritzhome/fritz.py:118-131 | There is no request exactly when `sid` is not truthy. Otherwise the request goes to `homeautoswitch.lua` with those parameters. |
| `FritzHome.FritzBox.SwitchReply` | fritzhome/fritz.py:123-133 | The call fails with "Not logged in" exactly when `sid` is not truthy. Otherwise the result is the stripped reply. |
| `FritzHome.FritzBox.HomeAutoSwitch` | fritzhome/fritz.py:118-133 | The method, which builds the parameters in place, sends that request and returns that result. |
| `FritzHome.FritzBox.SetSwitchOn` | fritzhome/fritz.py:165-167 | `setswitchon` for the given AIN; the reply comes back unchanged. |
| `FritzHome.FritzBox.SetSwitchOff` | fritzhome/fritz.py:169-171 | `setswitchoff` for the given AIN; the reply comes back unchanged. |
| `FritzHome.FritzBox.SetSwitchToggle` | fritzhome/fritz.py:173-175 | `setswitchtoggle` for the given AIN; the reply comes back unchanged. |
| `FritzHome.FritzBox.GetActorByAin` | fritzhome/fritz.py:107-113 | The result is `None` exactly when no actor has the AIN. Otherwise it is the first actor in list order with that AIN. |
| `FritzHome.FritzBox.QueryParams` | fritzhome/fritz.py:190-194 | The query holds the given parameters, plus `sid` only when there is a session. |
| `FritzHome.FritzBox.GetDevices` | fritzhome/fritz.py:184-206 | The loop appending one device per outlet 1..count computes `DecodeDevices` of the reply. |
| `FritzHome.MissingOutletKey` | fritzhome/fritz.py:200-204 | The key reported for an incomplete outlet is missing from the reply. |
| `FritzHome.DecodeOutlets` | fritzhome/fritz.py:199-205 | The outlet loop. `DecodeOutletsSuccessIff`, `DecodeOutletsFailure`, `DecodeOutletsValue` and `DecodeOutletsOfListed` state when it succeeds, the key it reports, and the devices it lists. |
| `FritzHome.DecodeDevices` | fritzhome/fritz.py:197-206 | `get_devices` on a reply. `GetDevices` computes it, and `DecodeDevicesJson` proves it gives back the devices the gateway listed. |
| `FritzHome.DecodeOutletsSuccessIff` | fritzhome/fritz.py:199-205 | Decoding n outlets succeeds exactly when every outlet 1..n has its three keys. |
| `FritzHome.DecodeOutletsFailure` | fritzhome/fritz.py:199-205 | A failed decoding reports a `KeyError` for a key the reply lacks. |
| `FritzHome.DecodeOutletsValue` | fritzhome/fritz.py:199-205 | A successful decoding lists n devices, with outlet i at position i - 1 read from the keys with suffix i. |
| `FritzHome.DecodeOutletsFailureStays` | fritzhome/fritz.py:199-205 | Once the loop stops at a missing key, later rounds do not change the error. |
| `FritzHome.AddOutletNew` | fritzhome/fritz.py:197-203 | An outlet added to a reply under its keys is read back, and the count is set. |
| `FritzHome.AddOutletOld` | fritzhome/fritz.py:197-203 | Adding outlet n does not change how any other outlet is read. |
| `FritzHome.OutletKeysDistinct` | fritzhome/fritz.py:197-203 | The three key families and `Outlet_count` never collide. |
| `FritzHome.OutletsKeysDistinct` | fritzhome/fritz.py:201-203 | Different outlets are read from different keys. |
| `FritzHome.IntSuffixInjective` | fritzhome/fritz.py:201-203 | A key prefix followed by `str(i)` determines `i`. |
| `FritzHome.DevicesJsonLookup` | fritzhome/fritz.py:197-205 | In the reply the gateway builds from a device list, outlet i is device i - 1. |
| `FritzHome.DevicesJsonCount` | fritzhome/fritz.py:197 | That reply's `Outlet_count` is the number of devices. |
| `FritzHome.DecodeOutletsOfListed` | fritzhome/fritz.py:199-205 | A reply holding each listed device under its outlet keys decodes to exactly that list. |
| `FritzHome.DecodeDevicesJson` | fritzhome/fritz.py:197-206 | `get_devices` gives back, in index order, exactly the devices the gateway listed. |
| `FritzHome.FritzBox.ConsumptionRequest` | fritzhome/fritz.py:216-228 | There is no request exactly when the timerange is not one of `10`, `24h`, `month`, `year`. Otherwise the command is `EnergyStats_` plus the timerange, sent with the device id. |
| `FritzHome.FritzBox.GetConsumption` | fritzhome/fritz.py:208-263 | An unknown timerange fails before anything is read. Otherwise the result is `DecodeConsumption` of the reply. |
| `FritzHome.FritzBox.ReadSingleValues` | fritzhome/fritz.py:235-250 | The renaming loop computes `DecodeSingles` over the table of ten values. |
| `FritzHome.DecodeSingles` | fritzhome/fritz.py:235-250 | The renaming of single values. `DecodeSinglesSuccessIff`, `DecodeSinglesFailure` and `DecodeSinglesValue` state when it succeeds, the key it reports, and the values it holds. |
| `FritzHome.DecodeSinglesSuccessIff` | fritzhome/fritz.py:249-250 | The renaming succeeds exactly when every gateway key of the table is in the reply. |
| `FritzHome.DecodeSinglesFailure` | fritzhome/fritz.py:249-250 | A failed renaming reports a key the reply lacks. |
| `FritzHome.DecodeSinglesValue` | fritzhome/fritz.py:249-250 | The result has exactly the renamed keys. Each holds the value of the last gateway key renamed to it. |
| `FritzHome.DecodeSinglesFailureStays` | fritzhome/fritz.py:249-250 | Once the renaming stops at a missing key, the rest of the table does not change the error. |
| `FritzHome.SingleValueKeysDistinct` | fritzhome/fritz.py:235-248 | No two gateway keys are renamed to the same result key. |
| `FritzHome.StatsCount` | fritzhome/fritz.py:253-256 | The loop runs `EnStats_count` times, or not at all for a negative count. |
| `FritzHome.FritzBox.ReadStats` | fritzhome/fritz.py:253-258 | Filling two preallocated arrays by index computes `DecodeStats` with `EnStats_count` entries. |
| `FritzHome.DecodeStats` | fritzhome/fritz.py:253-258 | The statistics loop. `DecodeStatsSuccessIff`, `DecodeStatsFailure`, `DecodeStatsValue` and `DecodeStatsStep` state when it succeeds, the key it reports, and the two lists. |
| `FritzHome.DecodeConsumption` | fritzhome/fritz.py:231-263 | The energy report of a reply. `DecodeConsumptionSpec` states when it succeeds and what it holds, and `GetConsumption` computes it. |
| `FritzHome.DecodeStatsSuccessIff` | fritzhome/fritz.py:256-258 | The statistics loop succeeds exactly when every entry 1..n has its watt and volt keys. |
| `FritzHome.DecodeStatsFailure` | fritzhome/fritz.py:256-258 | A failed statistics loop reports a key the reply lacks. |
| `FritzHome.DecodeStatsValue` | fritzhome/fritz.py:256-258 | Both lists have n entries. Entry i - 1 comes from the watt or volt key with suffix i. |
| `FritzHome.DecodeStatsStep` | fritzhome/fritz.py:257-258 | One more round appends the watt and volt values of the next suffix. |
| `FritzHome.DecodeStatsFailureStays` | fritzhome/fritz.py:256-258 | Once the statistics loop stops at a missing key, later rounds do not change the error. |
| `FritzHome.DecodeConsumptionSpec` | fritzhome/fritz.py:231-263 | The report succeeds exactly when all ten single keys, `EnStats_count`, and both keys of every entry are present. A failure names a missing key. On success every single value is under its result key, and the watt and volt lists have `EnStats_count` entries, entry i - 1 from suffix i. |
| `FritzHome.Actor.SwitchOn` | fritzhome/actor.py:24-28 | `setswitchon` keyed by the actor's AIN; the reply comes back unchanged. |
| `FritzHome.Actor.SwitchOff` | fritzhome/actor.py:30-34 | `setswitchoff` keyed by the actor's AIN; the reply comes back unchanged. |
| `FritzHome.Actor.GetState` | fritzhome/actor.py:36-42 | The result is true exactly when the reply has non-whitespace text, so `"0"` is true. Without a session the call fails. |
| `FritzHome.Actor.GetPresent` | fritzhome/actor.py:44-50 | The same truthiness rule applied to `getswitchpresent`. |
| `FritzHome.Actor.GetPower` | fritzhome/actor.py:52-57 | `getswitchpower` for the actor. The result is the stripped reply read as a number when it is all digits, otherwise `None`. |
| `FritzHome.Actor.GetEnergy` | fritzhome/actor.py:59-64 | The same digit-gated rule applied to `getswitchenergy`. |
| `FritzHome.Actor.GetConsumption` | fritzhome/actor.py:66-70 | The report is requested with the actor's device id, not its AIN, and the timerange is passed through. |
| `FritzHome.ReplyTruth` | fritzhome/actor.py:40-42 | `bool()` of a reply. `Actor.GetState` states that it is true exactly for a reply with non-whitespace text. |
| `FritzHome.ReplyReading` | fritzhome/actor.py:57 | The digit-gated `int()` of a reply. `Actor.GetPower`, `Reading`, `ReadingOfDecimal` and `ReadingZero` state what it reads. |
| `FritzHome.Reading` | fritzhome/actor.py:57 | A reading exists exactly when the reply is non-empty and all decimal digits. |
| `FritzHome.ReadingOfDecimal` | fritzhome/actor.py:57 | A number rendered in decimal is read back exactly. |
| `FritzHome.ReadingZero` | fritzhome/actor.py:57 | Zero is read only from a reply made of zeros, so it is never confused with "no reading". |
| `FritzHome.DigitsValueZero` | fritzhome/actor.py:57 | A string of digits denotes zero exactly when every digit is `0`. |
| `FritzHome.ReadingExamples` | fritzhome/actor.py:57 | `"0"` reads as 0, while `"inval"` and `""` give no reading. |
| `FritzHome.LoginWithoutChallenge` | fritzhome/fritz.py:53-133 | On a fresh client, a first reply that is not the zero SID leaves the client without a session, so the next command fails "Not logged in". |
| `FritzHome.LoginWithChallenge` | fritzhome/fritz.py:53-133 | After a successful challenge login, the next command carries the new SID and no `ain`, and returns the stripped reply. |
| `Parser.DropPrefix` | fritzhome/parser.py:38 | `s[k:]` has length `max(0, len(s) - k)` and holds the characters of `s` after position `k`. |
| `Parser.AttrMapLastWins` | fritzhome/parser.py:36 | `dict(attrs)` holds exactly the names that occur, each with the value of its last occurrence. |
| `Parser.StartTag` | fritzhome/parser.py:34-45 | `handle_starttag` on the parser's state. `StartTagFrame`, `StartTagRowId`, `StartTagShortId` and `StartTagCell` state what each tag changes. |
| `Parser.Data` | fritzhome/parser.py:47-57 | `handle_data` on the parser's state. `DataNoCapture`, `DataName` and `DataAin` state what each capture does. |
| `Parser.Run` | fritzhome/parser.py:34-57 | The handlers over an event stream. `RunAppend`, `RunGrows` and `RowAppendsRecord` state how it composes and what it appends. |
| `Parser.StartTagFrame` | fritzhome/parser.py:34-45 | A start tag never touches the name or the result list. Only a `tr` can touch the device id, and tags other than `tr` and `td` change nothing. |
| `Parser.StartTagRowId` | fritzhome/parser.py:37-38 | A `tr` whose id is the prefix followed by `str(n)` sets the device id to `n`. |
| `Parser.StartTagShortId` | fritzhome/parser.py:38 | A `tr` whose id is no longer than the prefix fails, because `int('')` raises. |
| `Parser.StartTagCell` | fritzhome/parser.py:41-45 | A `td` of class `c2` starts capturing the name, and one of class `c3` the AIN. Nothing else changes. |
| `Parser.DataNoCapture` | fritzhome/parser.py:47-57 | Text outside a captured cell changes nothing. |
| `Parser.DataName` | fritzhome/parser.py:48-50 | Captured name text is stored stripped and capture ends. Nothing is appended by the same event. |
| `Parser.DataAin` | fritzhome/parser.py:51-57 | Captured AIN text appends `DeviceInfo(stripped text without blanks, device id, name)`. Capture, device id and name are reset. |
| `Parser.RunAppend` | fritzhome/parser.py:34-57 | Feeding two event streams one after the other is feeding their concatenation. |
| `Parser.RunGrows` | fritzhome/parser.py:47-57 | Over any event stream, the records already found stay in place. At most one is added per text event, and no actor id holds a blank. |
| `Parser.RunRowStart` | fritzhome/parser.py:37-38 | A row's start tag sets the device id and nothing else. |
| `Parser.RunNameCell` | fritzhome/parser.py:41-50 | A name cell stores the stripped name. |
| `Parser.RunAinCell` | fritzhome/parser.py:44-57 | An AIN cell appends the record and clears the row's state. |
| `Parser.RowAppendsRecord` | fritzhome/parser.py:34-57 | A table row read from a clear state appends exactly one record, with its AIN, id and name, and leaves the state clear. |
| `Parser.HomeAutoOverviewParser.constructor` | fritzhome/parser.py:18-27 | The fields start with no capture, no device id, no name, and no records. |
| `Parser.HomeAutoOverviewParser.HandleStartTag` | fritzhome/parser.py:34-45 | The fields change as `StartTag` says. A `ValueError` from `int()` is returned, and the fields stay as they were. |
| `Parser.HomeAutoOverviewParser.HandleData` | fritzhome/parser.py:47-57 | The fields change as `Data` says. |
| `Graphite.Sanitize` | fritzhome/__main__.py:66-72 | The sanitised name is never longer than the name, and is empty only for an empty name. |
| `Graphite.SanitizeIsClean` | fritzhome/__main__.py:66-72 | The sanitised name holds only letters, digits and `_`, never two `_` in a row. It ends in `_` exactly when the name ends in a replaced character. |
| `Graphite.SanitizeKeepsAlnums` | fritzhome/__main__.py:66-72 | Sanitising keeps every letter and digit of the name, in order, and adds none. |
| `Graphite.SanitizeClean` | fritzhome/__main__.py:66-72 | A clean string is left as it is. |
| `Graphite.SanitizeIdempotent` | fritzhome/__main__.py:66-72 | Sanitising twice is sanitising once. |
| `Graphite.SanitizeConcat` | fritzhome/__main__.py:66-72 | Cut before or after a letter or digit, a name sanitises part by part. |
| `Graphite.SanitizeRun` | fritzhome/__main__.py:66-72 | A non-empty run of replaced characters becomes exactly one `_`. |
| `Graphite.CarbonKey` | fritzhome/__main__.py:70-73 | The key is the prefix, a dot, and the sanitised name. |
| `Graphite.CarbonKeyPlain` | fritzhome/__main__.py:70-73 | A key built from a prefix without blanks or line breaks has none either. |
| `Graphite.CarbonKeys` | fritzhome/__main__.py:68-73 | The loop builds a table with exactly one entry per actor name, holding that name's key. Actors that share a name share the entry. |
| `Graphite.Logins` | fritzhome/__main__.py:97-101 | The trace has one entry per round that runs, at least one when there is a round. `LoginsPastDeadline`, `LoginsNoEarlyFailure` and `LoginsStopAtFailure` state the rule. |
| `Graphite.Renews` | fritzhome/__main__.py:98 | The check `time.time() > sid_ttl`. `LoginsPastDeadline` and `RenewSession` state where it applies. |
| `Graphite.NextTtl` | fritzhome/__main__.py:98-101 | With the clock running forward, the deadline never moves back. A renewal puts it at least 600 seconds past the check. |
| `Graphite.Ttls` | fritzhome/__main__.py:97-101 | There is one deadline per round that runs. |
| `Graphite.LoginsPastDeadline` | fritzhome/__main__.py:62-101 | The first round runs under the starting deadline. A round logs in again exactly when its check is past the deadline in force. |
| `Graphite.TtlsStep` | fritzhome/__main__.py:98-101 | Each round after the first runs under the deadline `NextTtl` leaves after the round before it. |
| `Graphite.LoginsNoEarlyFailure` | fritzhome/__main__.py:97-101 | No round before the last one that runs has a failing renewal. |
| `Graphite.LoginsStopAtFailure` | fritzhome/__main__.py:97-101 | The loop stops short of the rounds given only at a round whose renewal fails. |
| `Graphite.LoginsAfterDeadline` | fritzhome/__main__.py:62-101 | Every renewal comes after the deadline the loop started with. |
| `Graphite.LoginsSpaced` | fritzhome/__main__.py:62-101 | Two renewals are more than the 600-second session lifetime apart. |
| `Graphite.RenewSession` | fritzhome/__main__.py:98-101 | Before the deadline, box and deadline are left alone. Past it, the round logs in, and the login fails exactly when both replies carry the zero SID. A failure is returned and keeps the deadline and `sid`. A success renews the deadline to the reading after the login plus 600. |
| `Graphite.TruncateToInt` | fritzhome/__main__.py:93 | `int(time.time())` truncates toward zero. |
| `Graphite.Payload` | fritzhome/__main__.py:93-94 | The line starts with the key and a blank and ends with a line break. `PayloadRoundTrip` proves it reads back as key, value and whole seconds. |
| `Graphite.SplitAtFirst` | fritzhome/__main__.py:94 | Splitting at the first occurrence of a character not in the prefix gives back the prefix and the rest. |
| `Graphite.PayloadRoundTrip` | fritzhome/__main__.py:91-95 | For a key without blanks or line breaks, the line `key value seconds\n` reads back as key, value and the truncated time. |
| `Graphite.ReadingLines` | fritzhome/__main__.py:111-112 | Each actor yields two lines per round. |
| `Graphite.ReadingLinesRoundTrip` | fritzhome/__main__.py:104-112 | The two lines read back as power under `key.current` and energy under `key.total`, each with its own time. |

## Left out

- The HTTP transport (`requests.Session`, timeouts, `raise_for_status`) and the XML and JSON parsing: the extracted values are parameters.
- The MD5 digest of UTF-16LE text is a foreign library call, so it is a function parameter of type `string -> HexDigest`.
- `get_actors` (fritz.py:92-105): the `Actor(fritzbox=..., device=...)` call it makes does not match `Actor.__init__`. `GetActorByAin` therefore takes the actor list as a parameter.
- `get_switch_actors` (fritz.py:135-163): a deprecated sequence of `homeautoswitch` calls whose parts are modelled by `HomeAutoSwitch`.
- `get_logs` (fritz.py:265-290): HTML scraping and MD5 over bytes.
- `Actor.__repr__`, the `cli`, `energy`, `switch-on` and `switch-off` commands, and all click output with its float formatting.
- The socket connect, `sendall` and `time.sleep`. A sent line is the string `Payload` returns, and clock readings are parameters.
- The `while True` polling loop never ends. `RenewSession` models one round's renewal, and `Logins` models the renewals over any finite sequence of rounds.
- `Graphite.RenewSession`: it states the number of login requests but not the new `sid`, which `FritzBox.Login` states.
- `Graphite.Round`: whether a round's login fails is a field of the round, the same `LoginFails` outcome `RenewSession` reports for the two replies that round's login gets.
- `Graphite.Logins`: its own contract gives only the trace length. The renewal rule is stated by `LoginsPastDeadline`, `LoginsNoEarlyFailure`, `LoginsStopAtFailure`, `LoginsAfterDeadline` and `LoginsSpaced`.
- `Graphite.Monotone`: the spacing of renewals assumes the wall clock never steps back. `time.time()` can step back when the system clock is set; the model does not cover that case.
- The graphite command formats `power / 1000` before sending, so a `None` reading fails there. `Payload` therefore takes an integer.
- The HTMLParser tokeniser: the handlers are driven by start-tag and text events directly.
- `Parser.StartTag`: an attribute is a name and a string value, so a valueless attribute (`('id', None)`, which makes the `len()`-based slice at parser.py:38 raise `TypeError`) is not modelled.
- The parser's constructor raises right after setting its fields (parser.py:32). The modelled constructor sets the fields and does not raise, so the handlers can be studied from that state.
- `str.strip`, `str.isdigit` and `int()` are modelled on ASCII only. The whitespace modelled is blank, tab, line feed, carriage return, vertical tab and form feed. `response.text` is unicode, and unicode `strip()` also removes the ASCII separators U+001C to U+001F and non-ASCII whitespace; neither is modelled. Python 2 unicode digits are not modelled either.
- JSON values are modelled as integers, so an `int()` of a non-numeric JSON value is not modelled. The same holds for `int(val)` in `c_from_hkr_temperature`, whose argument is an integer.
- `FritzHome.FritzBox.ReadSingleValues`: Python 2 dict order decides which of several missing keys is reported first. The model reports the first missing key in table order.
- A missing `SID`, `Challenge` or `BlockTime` element in a login reply is not modelled. Neither is an empty `<SID/>`, whose `.text` is `None`, so that `self.sid` becomes `None` and `requests` drops the `sid` parameter. `LoginReply` holds every element's text as a string, and an empty element is the empty string. A `BlockTime` that is no integer is the `NotAnInteger` error.
