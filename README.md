# GPS L5 signal parameters

A Dafny model of the GPS L5 system-parameter header of GNSS-SDR
(`src/core/system_parameters/GPS_L5.h`) and proofs that its tables and
constants agree with one another and with the L5 signal structure of
IS-GPS-705. The header holds no code. It holds `constexpr` integers, two
210-entry per-PRN tables for the XB shift register of the I5 and Q5 ranging
codes, and the 10-chip (I5) and 20-chip (Q5) Neuman-Hofman overlay codes,
each kept twice: once as an `int32_t` array and once as a `char` string.
It also holds the framing numbers of the 300-bit, 6-second CNAV page.

The project has four modules:

- `Wrappers` (`wrappers.dfy`): the `Option` type.
- `CDeclarations` (`c_declarations.dfy`): what the header's C++ declarations create. `int32_t` and
  `uint32_t` become the subset types `Int32` and `UInt32`, so every constant is
  checked against its declared width. `ArrayInit` models `T a[N] = {...}`:
  the declaration is ill-formed when the initializer is too long, and
  otherwise the missing elements are filled with zeros. `StringInit` models
  `char a[N] = "..."`, where the literal and its NUL must fit. `StrLen`
  is C's string length. In C, `strlen` of an array with no NUL is undefined;
  the model makes it total and returns the whole length there. The model only
  applies it to NUL-terminated arrays.
- `BinaryDigits` (`binary_digits.dfy`): rendering a 0/1 sequence as a string of digits
  (`Render`) and reading it back (`Parse`), with the round trips.
- `GpsL5` (`gps_l5.dfy`): every integer constant, table and string of the header,
  copied literal by literal. It also has the PRN lookups and the
  consistency lemmas.

The two tables are declared `int32_t[210]`. The model gives their elements
the type `XbEntry`, which is an `Int32` in 1..8190. The verifier therefore
checks each of the 420 literals against that range where the table is
written. That range is nonzero and below the XB period 2^13 - 1 = 8191.
So each entry is a nonzero 13-bit register content, which is what a 13-stage
XB register needs. Each entry is also a valid code offset within one XB
period. IS-GPS-705 tabulates both an XB code advance and an initial XB
state per PRN, and the values here meet the constraints of either reading.

A table is indexed by the PRN signal number 1..210 (entry `prn - 1`). The
code that reads the tables is not part of this model.

## Model

| member | source | states |
|---|---|---|
| CDeclarations.ArrayInit | src/core/system_parameters/GPS_L5.h:48 | a bounded array declaration is well-formed exactly when the initializer fits; the array then has the declared length, starts with the initializer, and is zero after it |
| CDeclarations.StringInit | src/core/system_parameters/GPS_L5.h:171 | a `char[N]` initialised from a literal is well-formed exactly when the literal plus its NUL fits; the array has length N, starts with the literal, and is NUL after it |
| CDeclarations.StrLen | src/core/system_parameters/GPS_L5.h:171-172 | the C length of a character array is where its first NUL is: no NUL before it, and a NUL at it unless it is the whole array |
| CDeclarations.StringInitLength | src/core/system_parameters/GPS_L5.h:171-172 | a NUL-free literal that fits its bound gives a well-formed array whose C length is the literal's length |
| BinaryDigits.Render | src/core/system_parameters/GPS_L5.h:167-172 | the string of a 0/1 code has one digit per chip, the digit at each position writes that chip, and every character is '0' or '1' |
| BinaryDigits.Parse | src/core/system_parameters/GPS_L5.h:171-172 | a string is read as a code exactly when every character is a binary digit; the code has one 0/1 chip per character, each written by that character |
| BinaryDigits.RenderAppend | src/core/system_parameters/GPS_L5.h:170-172 | rendering distributes over concatenation of codes |
| BinaryDigits.ParseRender | src/core/system_parameters/GPS_L5.h:168-172 | reading back the string of a code gives the code |
| BinaryDigits.RenderParse | src/core/system_parameters/GPS_L5.h:171-172 | every digit string is read as a code whose string is the original string |
| BinaryDigits.RenderInjective | src/core/system_parameters/GPS_L5.h:168-172 | two codes with the same string are equal, so a string determines its array |
| GpsL5.EntryForPrn | src/core/system_parameters/GPS_L5.h:48-160 | a PRN has an entry exactly when it is in 1..table length; the entry is the table's (prn - 1)-th element and is a valid XB value |
| GpsL5.L5IInitRegister | src/core/system_parameters/GPS_L5.h:48-102 | exactly the PRNs 1..210 have an I5 XB entry; the entry of PRN `prn` is the table's element `prn - 1`, and it is nonzero and below the XB period |
| GpsL5.L5QInitRegister | src/core/system_parameters/GPS_L5.h:105-160 | exactly the PRNs 1..210 have a Q5 XB entry; the entry of PRN `prn` is the table's element `prn - 1`, and it is nonzero and below the XB period |
| GpsL5.XbEntryIsRegisterState | src/core/system_parameters/GPS_L5.h:48-160 | the XB period is 2^13 - 1, and a valid XB value is a nonzero 13-bit register content |
| GpsL5.InitRegTables | src/core/system_parameters/GPS_L5.h:48-160 | both tables have exactly their declared 210 entries, so the declarations add no zero padding, and every entry of both tables is a valid XB value |
| GpsL5.L5INhCodeArray | src/core/system_parameters/GPS_L5.h:167-168 | the declared bound `[10]` of the I5 overlay array equals `GPS_L5I_NH_CODE_LENGTH`, and the array has exactly that many entries, each 0 or 1, so it is filled with no padding |
| GpsL5.L5QNhCodeArray | src/core/system_parameters/GPS_L5.h:169-170 | the declared bound `[20]` of the Q5 overlay array equals `GPS_L5Q_NH_CODE_LENGTH`, and the array has exactly that many entries, each 0 or 1, so it is filled with no padding |
| GpsL5.RenderedCodeString | src/core/system_parameters/GPS_L5.h:167-172 | a `char` array of size code length + 1 initialised with the string of a code holds exactly the digits and one NUL; its C length is the code length, and it reads back as the code |
| GpsL5.L5INhCodeString | src/core/system_parameters/GPS_L5.h:167-171 | `GPS_L5I_NH_CODE_STR` is the digit-by-digit string of `GPS_L5I_NH_CODE` and reads back to it; its bound 11 is the code length plus the terminator, and its C length is 10 |
| GpsL5.L5QNhCodeFirstHalf | src/core/system_parameters/GPS_L5.h:170-172 | the first ten chips of the Q5 overlay array are 0/1 and render the first ten digits of the Q5 string |
| GpsL5.L5QNhCodeSecondHalf | src/core/system_parameters/GPS_L5.h:170-172 | the last ten chips of the Q5 overlay array are 0/1 and render the last ten digits of the Q5 string |
| GpsL5.L5QNhCodeRendering | src/core/system_parameters/GPS_L5.h:170-172 | `GPS_L5Q_NH_CODE_STR` is the digit-by-digit string of `GPS_L5Q_NH_CODE` |
| GpsL5.L5QNhCodeString | src/core/system_parameters/GPS_L5.h:169-172 | `GPS_L5Q_NH_CODE_STR` is the string of `GPS_L5Q_NH_CODE` and reads back to it; its bound 21 is the code length plus the terminator, and its C length is 20 |
| GpsL5.CnavPageSymbols | src/core/system_parameters/GPS_L5.h:162-165 | the page length in symbols is page bits times symbols per bit: 600 = 300 x 2 |
| GpsL5.CnavPageDuration | src/core/system_parameters/GPS_L5.h:162-166 | the page's symbols at the 10 ms symbol period of line 41 last the page duration: 600 x 10 ms = 6 s |
| GpsL5.SamplesPerSymbol | src/core/system_parameters/GPS_L5.h:164-167 | the 10 ms symbol of line 41 is a whole number of the 1 ms code periods of line 40; that number equals the samples per symbol and the I5 overlay length, so one overlay period spans one symbol |
| GpsL5.CodeLengths | src/core/system_parameters/GPS_L5.h:33-39 | the I5 and Q5 codes have the same length, 10230 chips, which is the chipping rate (10 230 000 chips/s) times the 1 ms code period |
| GpsL5.OptAcqFsNotChipMultiple | src/core/system_parameters/GPS_L5.h:46 | the acquisition sampling frequency of 10 MS/s is not a multiple of the chipping rate, as its comment says |

## Left out

- The `double` constants (lines 32-37) are not modelled, because they are floating point. `GPS_L5_FREQ_HZ` comes from `gnss_frequencies.h`, which is not part of this model. The chipping rate appears only once, as the integer `L5ChipRateCps`, for the code-length relation.
- The contents of `GPS_CNAV.h` (included at line 21) are not part of this model.
- `GPS_L5_HISTORY_DEEP` (line 43) is declared with its value and width only. The header states no relation for it.
- The code that generates the ranging codes from the XB tables, and the code that reads the Neuman-Hofman strings, are not part of this model. `L5IInitRegister` and `L5QInitRegister` number PRNs from 1.
- `src/core/receiver/control_thread.h` is not modelled. It declares a class with no function bodies. What it does is run threads, read a GNU Radio message queue, and talk to SUPL network clients, which is concurrency, I/O and foreign calls.
- `src/algorithms/tracking/libs/cubature_filter.h` is not modelled. It is a floating-point Cubature Kalman filter over Armadillo matrices, declared without bodies.
- `src/algorithms/telemetry_decoder/libs/tlm_conf.h` is not modelled. It is configuration loading whose body is not shown, plus three plain fields.
