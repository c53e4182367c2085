# Errdes: numeric error codes to messages

`rutil/Errdes.cxx` in reSIProcate turns a numeric error code into a readable message. The
code comes from the operating system (errno, or the Winsock codes on Windows), from an
OpenSSL call or from X509 certificate verification.

The file keeps four global `std::map<int, string>` tables. Each table is filled by a
`CreateMappingErrorMsg` method:

- `ErrnoError` fills the errno table from two parallel 134-slot arrays. When compiled for
  Windows, it also fills the Windows table from two 95-slot arrays.
- `OpenSSLError` fills the OpenSSL table from 9 slots.
- `X509Error` fills the X509 table from 54 slots.

Each fill loop writes `table[code[i]] = string[i]` in slot order.

`NumericError::SearchErrorMsg(error, classCode)` picks a table by class code (1 = OS, 2 = SSL,
3 = X509) and reads it with `operator[]`. That read inserts an empty string under a missing
code. An empty result becomes `"Unknown error"`.

The Dafny model:

- `Errdes.Registry` is a class whose four map fields are the four global tables. Its
  methods are the three `CreateMappingErrorMsg` methods, with the `_WIN32` block split
  out as `CreateWindowsMapping`, and `SearchErrorMsg`.
- Each method is proved against a function of the old state:
  - `ErrorMaps.Written` gives the table a fill loop leaves.
  - `ErrorMaps.Subscripted` gives the table after an `operator[]` read.
  - `Registry.Search` gives the answer of a lookup.
- `ErrorMaps` gives `Written` an independent description: each written key holds the string
  of its last write. From it follow last-write-wins, untouched keys and idempotence.
- `ErrorCodes` holds every array of the source slot by slot. It also holds one array the
  source does not have: `WindowsCodeAt` / `WindowsCodes`, the Windows codes reordered to
  match their messages. It is the corrected half of the finding below. The registry fills
  the Windows table in the source's own order, `WindowsCodeAsWrittenAt` /
  `WindowsCodesAsWritten`. The arrays hold:
  - the codes, taking the values of the named constants that Linux, OpenSSL and Winsock
    define;
  - the message of each slot, as a name, a number and a description, rendered to the
    source's two text formats: `NAME (description) number` for errno, `NAME number
    description` for the others.
- `TableFacts` proves what each fill loop leaves in its table.
- `SearchFacts` proves what `SearchErrorMsg` then answers.

Three properties of the source's constants are proved:

- **Errno aliases.** On Linux, EWOULDBLOCK equals EAGAIN (11) and EDEADLOCK equals EDEADLK
  (35). Their later writes replace the EAGAIN and EDEADLK messages. The replacing messages
  print 41 and 58, numbers no Linux errno has.
- **Blank errno slot.** The array has 134 slots but only 133 initialisers, so the last
  slot is value-initialised to code 0 and the empty string. Code 0 therefore finds
  "Unknown error".
- **Missing X509 code.** The X509 arrays skip code 1, so code 1 finds "Unknown error".

## Model

| member | source | states |
|---|---|---|
| `Errdes.Registry.SearchErrorMsg` | rutil/Errdes.cxx:30-54 | The result is what `Search` gave in the old state, and what it gives in the new state. The selected table gains the searched code with "" when it lacked it. Every other table is unchanged. |
| `Errdes.Registry.Search` | rutil/Errdes.cxx:30-54 | Never empty. "Unknown error" for a class code that selects no table, and for a code that is missing or holds "". Otherwise the stored message. |
| `Errdes.SelectTable` | rutil/Errdes.cxx:33-50 | A table exists exactly for class codes 2 and 3, and for 1 on Windows or Linux. Class code 1 reads the errno table exactly on Linux and the Windows table exactly on Windows. Class code 2 reads the OpenSSL table and 3 the X509 table, and no other class code reads them. |
| `Errdes.WithFallback` | rutil/Errdes.cxx:51-52 | The result is never empty. An empty string becomes "Unknown error"; any other string is kept. |
| `Errdes.Registry.constructor` | rutil/Errdes.cxx:22-27 | The four tables start empty. |
| `Errdes.NewArray` | rutil/Errdes.cxx:58-72 | A fresh array of the declared size whose slot i holds `init(i)`: the i-th initialiser, or the value-initialised default of a slot past the last one. |
| `Errdes.Registry.Subscript` | rutil/Errdes.cxx:39-48 | An `operator[]` read yields the stored string or "". The table becomes `Subscripted` of the old one. The other tables are unchanged. |
| `Errdes.Registry.Assign` | rutil/Errdes.cxx:214 | One write `table[k] = v` updates that key only, in that table only. |
| `Errdes.Registry.Populate` | rutil/Errdes.cxx:211-215 | The fill loop leaves `Written(old table, codes[..n], strings[..n])`. The other tables are unchanged. |
| `Errdes.Registry.CreateErrnoMapping` | rutil/Errdes.cxx:56-215 | The errno table becomes `Written(old, ErrnoCodes, ErrnoStrings)`. On Windows, the Windows table becomes `Written(old, WindowsCodesAsWritten, WindowsStrings)`, in the source's code order; elsewhere it is unchanged. The OpenSSL and X509 tables are unchanged. |
| `Errdes.Registry.CreateWindowsMapping` | rutil/Errdes.cxx:217-345 | The Windows table becomes `Written(old, WindowsCodesAsWritten, WindowsStrings)`, with the codes in the source's order. The other tables are unchanged. |
| `Errdes.Registry.CreateOpenSslMapping` | rutil/Errdes.cxx:350-383 | The OpenSSL table becomes `Written(old, OpenSslCodes, OpenSslStrings)`. The other tables are unchanged. |
| `Errdes.Registry.CreateX509Mapping` | rutil/Errdes.cxx:385-507 | The X509 table becomes `Written(old, X509Codes, X509Strings)`. The other tables are unchanged. |
| `ErrorMaps.Written` | rutil/Errdes.cxx:211-215 | After a fill loop, the keys are exactly the old keys plus the written codes. |
| `ErrorMaps.WrittenAt` | rutil/Errdes.cxx:211-215 | A written key holds the string of its last write. Any other key keeps its old value. |
| `ErrorMaps.LastWriteWins` | rutil/Errdes.cxx:211-215 | A slot whose code no later slot repeats ends up in the table under that code. |
| `ErrorMaps.WrittenElsewhere` | rutil/Errdes.cxx:211-215 | A code outside the array is in the table after the loop iff it was before, and keeps its value. |
| `ErrorMaps.WrittenKeysIgnoreBefore` | rutil/Errdes.cxx:378-381 | What a loop leaves under its own codes does not depend on the table before it. |
| `ErrorMaps.WrittenTwice` | rutil/Errdes.cxx:503-506 | Running a fill loop twice leaves the table that one run leaves. |
| `ErrorMaps.Lookup` | rutil/Errdes.cxx:39-48 | An `operator[]` read yields the stored string for a present key and "" for a missing one. |
| `ErrorMaps.Subscripted` | rutil/Errdes.cxx:39-48 | After an `operator[]` read, the table gains exactly the read key. That key holds the value read. Every other key keeps its value. |
| `ErrorMaps.SubscriptedTwice` | rutil/Errdes.cxx:30-54 | A second search for the same code changes no table and reads the same string. |
| `MessageText.PrintedNumberOf` | rutil/Errdes.cxx:243-337 | A `NAME number ...` message, where NAME has no spaces, prints exactly `number` after its name. |
| `MessageText.DecimalRoundTrip` | rutil/Errdes.cxx:445-501 | Reading back the decimal numeral of a number yields the number. |
| `TableFacts.DistinctCodesAllKept` | rutil/Errdes.cxx:340-343 | When no code repeats, every slot's message ends up under its code. |
| `TableFacts.IncreasingCodesAllKept` | rutil/Errdes.cxx:340-343 | When the codes strictly increase, every slot's message ends up under its code. |
| `TableFacts.NumberedTextPrints` | rutil/Errdes.cxx:365-376 | A message in the `NAME number [description]` format prints its slot's number. |
| `TableFacts.ErrnoCodeValues` | rutil/Errdes.cxx:58-72 | Errno slot i holds code i + 1, except slot 40 (EAGAIN = 11), slot 57 (EDEADLK = 35) and slot 133 (0). |
| `TableFacts.ErrnoCodeSet` | rutil/Errdes.cxx:58-72 | The errno array writes exactly the codes 0 .. 133 other than 41 and 58. |
| `TableFacts.ErrnoBlankSlot` | rutil/Errdes.cxx:58-209 | The last errno slot writes code 0 with "". It is the only slot with an empty message. |
| `TableFacts.ErrnoNumbersMatchCodes` | rutil/Errdes.cxx:74-209 | Every errno message other than the two alias messages prints its slot's code. |
| `TableFacts.ErrnoAliasNumbers` | rutil/Errdes.cxx:63-64 | The EWOULDBLOCK and EDEADLOCK messages print 41 and 58, which are not errno codes. Their codes equal EAGAIN and EDEADLK. |
| `TableFacts.ErrnoMessagesKept` | rutil/Errdes.cxx:211-215 | After the errno loop, every slot except 10 (EAGAIN) and 34 (EDEADLK) has its message under its code. |
| `TableFacts.ErrnoAliasTextsDiffer` | rutil/Errdes.cxx:86-133 | The EAGAIN and EWOULDBLOCK messages differ, and so do the EDEADLK and EDEADLOCK messages. |
| `TableFacts.ErrnoAliasesWin` | rutil/Errdes.cxx:211-215 | After the errno loop, EAGAIN and EDEADLK hold the EWOULDBLOCK and EDEADLOCK messages, not their own. |
| `TableFacts.ErrnoZeroIsBlank` | rutil/Errdes.cxx:211-215 | After the errno loop, code 0 holds "". |
| `TableFacts.OpenSslCodeValues` | rutil/Errdes.cxx:352-376 | The OpenSSL codes are 0 .. 8 in slot order, and each message prints its code. |
| `TableFacts.OpenSslMessagesNonEmpty` | rutil/Errdes.cxx:365-376 | No OpenSSL message is empty. |
| `TableFacts.OpenSslTablePopulated` | rutil/Errdes.cxx:378-381 | After the OpenSSL loop, each code 0 .. 8 holds its own message. |
| `TableFacts.X509CodeValues` | rutil/Errdes.cxx:387-443 | The X509 codes are 0, 2, 3, .., 54 in slot order; code 1 is absent. |
| `TableFacts.X509NumbersMatchCodes` | rutil/Errdes.cxx:445-501 | Each X509 message prints its slot's code. |
| `TableFacts.X509MessagesNonEmpty` | rutil/Errdes.cxx:445-501 | No X509 message is empty. |
| `TableFacts.X509TablePopulated` | rutil/Errdes.cxx:503-506 | After the X509 loop, every X509 code holds its own message. |
| `TableFacts.WindowsCodeValues` | rutil/Errdes.cxx:241-338 | The corrected Windows array, which is not the source's, strictly increases. |
| `TableFacts.WindowsNumbersMatchCodes` | rutil/Errdes.cxx:241-338 | Each slot of the corrected Windows array holds the code its message prints. |
| `TableFacts.WindowsMessagesNonEmpty` | rutil/Errdes.cxx:241-338 | No Windows message is empty. |
| `TableFacts.WindowsTablePopulated` | rutil/Errdes.cxx:340-343 | With the corrected array, after the Windows loop, every Windows code holds its own slot's message. |
| `TableFacts.WindowsAsWrittenMispaired` | rutil/Errdes.cxx:220-239 | In the source's code order, slots 29 .. 34 pair a code with a message that prints another code. Every other slot matches. |
| `TableFacts.WindowsSlot29Text` | rutil/Errdes.cxx:272 | The message of slot 29 prints 10052 (WSAENETRESET). |
| `TableFacts.WindowsSlot34Text` | rutil/Errdes.cxx:277 | The message of slot 34 prints 10057 (WSAENOTCONN). |
| `TableFacts.WindowsAsWrittenSlots` | rutil/Errdes.cxx:227 | In the source's order, slot 29 is WSAECONNABORTED and slot 34 is WSAENETRESET. Neither code recurs later. |
| `TableFacts.WindowsAsWrittenLookups` | rutil/Errdes.cxx:220-343 | In the source's order, after the loop, WSAECONNABORTED holds a message printing WSAENETRESET's number, and WSAENETRESET holds one printing WSAENOTCONN's. |
| `TableFacts.WindowsAsWrittenIsRotation` | rutil/Errdes.cxx:220-239 | The source's Windows code array is the corrected one with slots 29 .. 34 rotated: WSAENETRESET moved from 29 to 34 and the five codes between moved up one. |
| `TableFacts.WindowsAsWrittenDistinct` | rutil/Errdes.cxx:220-239 | No code repeats in the source's Windows code array. |
| `TableFacts.WindowsAsWrittenPopulated` | rutil/Errdes.cxx:340-343 | After the source's Windows loop, every code holds the message of its own slot in the source's arrays. |
| `SearchFacts.KeptMessagesFound` | rutil/Errdes.cxx:30-54 | A table that holds a non-empty message under each of its codes answers every search for those codes with that message. |
| `SearchFacts.LinuxErrnoSearch` | rutil/Errdes.cxx:30-215 | On Linux after the errno loop: every errno code finds its own message, except EAGAIN and EDEADLK, which find the EWOULDBLOCK and EDEADLOCK messages. Code 0 finds "Unknown error". |
| `SearchFacts.LinuxMissingCodes` | rutil/Errdes.cxx:30-215 | On Linux after the errno loop, a code the arrays do not write (41, 58, negatives, above 133) finds "Unknown error" unless the table held it before. |
| `SearchFacts.OpenSslSearch` | rutil/Errdes.cxx:30-54 | After the OpenSSL loop, class 2 with code 0 .. 8 finds that code's message on every platform. |
| `SearchFacts.X509Search` | rutil/Errdes.cxx:385-507 | After the X509 loop, class 3 with every X509 code finds that code's message. Code 1 finds "Unknown error" unless the table held it before. |
| `SearchFacts.WindowsAsWrittenSearch` | rutil/Errdes.cxx:30-54 | On Windows, after the source's Windows loop, every code finds the message of its slot in the source's arrays. |
| `SearchFacts.WindowsAsWrittenMisreads` | rutil/Errdes.cxx:217-345 | On Windows, after the source's Windows loop, a search for WSAECONNABORTED returns the message printing 10052, and a search for WSAENETRESET the one printing 10057. |
| `SearchFacts.WindowsSearch` | rutil/Errdes.cxx:217-345 | With the corrected Windows array instead of the source's, every Windows code would find the message that prints it. |
| `SearchFacts.EmptyRegistrySearch` | rutil/Errdes.cxx:22-54 | Before any table is filled, every search finds "Unknown error". |
| `ErrorCodes.ErrnoText` | rutil/Errdes.cxx:74-209 | The errno message format `NAME (description) number`. A message is empty exactly when its slot has no initialiser. |
| `ErrorCodes.NumberedText` | rutil/Errdes.cxx:241-338 | The `NAME number [description]` format of the other three arrays. A message is empty exactly when its slot has no initialiser. |
| `ErrorCodes.ErrnoCodeAt` | rutil/Errdes.cxx:58-72 | The initialisers of `ErrorCode[134]`. Every code lies in 0 .. 133, and a slot past the 133 initialisers is 0. |
| `ErrorCodes.ErrnoSlotAt` | rutil/Errdes.cxx:74-209 | The initialisers of `ErrorString[134]`, as data. Its facts are `TableFacts.ErrnoBlankSlot`, `ErrnoNumbersMatchCodes` and `ErrnoAliasNumbers`. |
| `ErrorCodes.OpenSslCodeAt` | rutil/Errdes.cxx:352-363 | The initialisers of `OpenSSLCode[9]`. Every code lies in 0 .. 8. |
| `ErrorCodes.OpenSslSlotAt` | rutil/Errdes.cxx:365-376 | The initialisers of `OpenSSLString[9]`. Slots 0 .. 8 are initialised and print a number below 9. |
| `ErrorCodes.X509CodeAt` | rutil/Errdes.cxx:387-443 | The initialisers of `X509ErrorCode[54]`. Every code lies in 0 .. 54 and none is 1. |
| `ErrorCodes.X509SlotAt` | rutil/Errdes.cxx:445-501 | The initialisers of `X509ErrorString[54]`. Exactly slots 0 .. 53 are initialised. The numbers they print are stated in `TableFacts.X509NumbersMatchCodes`. |
| `ErrorCodes.WindowsCodeAsWrittenAt` | rutil/Errdes.cxx:220-239 | The initialisers of `WindowsErrorCode[95]` in the source's order. Every code lies in 6 .. 11031, and any slot outside the array is 0. |
| `ErrorCodes.WindowsCodeAt` | rutil/Errdes.cxx:220-239 | Not an array of the source: its codes reordered to the order of the messages. Every code lies in 6 .. 11031. |
| `ErrorCodes.WindowsSlotAt` | rutil/Errdes.cxx:241-338 | The initialisers of `WindowsErrorString[95]`, as data. Its facts are `TableFacts.WindowsNumbersMatchCodes`, `WindowsAsWrittenMispaired` and `WindowsMessagesNonEmpty`. |

## Left out

- Console output and the iostream header: the file includes them but does not use them.
- The platform the file is compiled for (`_WIN32`, `__linux__` or neither) is the
  `Platform` parameter. The Windows table exists in the source only on Windows; in the
  model it is always present. It is filled through `CreateErrnoMapping(Windows)`, which
  stands for the `_WIN32` block. `CreateWindowsMapping` itself takes no platform, so
  nothing stops a caller from running it elsewhere.
- The header values of the codes are taken as Linux (glibc), OpenSSL 1.0 and Winsock
  define them. On other systems the errno collisions differ.
- `SA_IO_PENDING` in the Windows code array is not a Winsock name; its message gives 997,
  which is `WSA_IO_PENDING`. The model uses 997.
- The class hierarchy (`AbstractError`, `NumericError` and its three subclasses) is
  flattened onto `Registry`. The source's methods use no instance state, only the four
  global tables. The global objects are not modelled.
- ErrorCodes.ErrnoSlotAt and ErrorCodes.WindowsSlotAt carry no contract of their own. The
  verifier cannot check one over 133 or 95 string-valued cases within its resource limit.
  Their properties are the `TableFacts` lemmas named in their rows.
- 32-bit `int` overflow cannot arise: every code and loop bound fits far inside it.
- No caller of `CreateMappingErrorMsg` is part of this model. The order in which the
  tables are filled is left to callers. The lemmas take the table before a fill loop as a
  parameter.

## Findings

| source | as written | input that shows it | evidently intended | confidence | as-written member | corrected member |
|---|---|---|---|---|---|---|
| rutil/Errdes.cxx:227 | The Windows code array lists WSAECONNABORTED, WSAECONNRESET, WSAENOBUFS, WSAEISCONN, WSAENOTCONN, WSAENETRESET at slots 29 .. 34. The message array has WSAENETRESET at slot 29, just after WSAENETUNREACH (lines 272-277). | On Windows, `SearchErrorMsg(10053, 1)` (WSAECONNABORTED) returns the WSAENETRESET 10052 message, and `SearchErrorMsg(10052, 1)` returns the WSAENOTCONN 10057 message. | The codes in the order of the messages, which is increasing, so each code finds the message that names it. | not executed | `SearchFacts.WindowsAsWrittenMisreads` | `SearchFacts.WindowsSearch` |
