/** The numeric-error-to-message registry of rutil/Errdes.cxx.

    The source keeps four global `std::map<int, string>` tables, shared by every object
    of its classes: `ErrornoErrorMsg`, `OpenSSLErrorMsg`, `X509ErrorMsg` and, on Windows
    only, `WinErrorMsg`.  `Registry` holds them as four fields.  The `CreateMappingErrorMsg`
    methods of `ErrnoError`, `OpenSSLError` and `X509Error` fill them; the
    `SearchErrorMsg` method of their base class `NumericError` reads them.  All of these
    act on the shared tables alone, so here they are methods of `Registry`.  The platform
    the source is compiled for is a parameter. */
module Errdes {
  import opened Wrappers
  import opened ErrorMaps
  import opened ErrorCodes

  /** The class codes `SearchErrorMsg` understands. */
  const OSERROR := 1
  const SSLERROR := 2
  const X509ERROR := 3

  /** What `SearchErrorMsg` returns for an empty lookup result. */
  const UnknownError := "Unknown error"

  /** The platform the source is compiled for: `_WIN32`, `__linux__`, or neither. */
  datatype Platform = Windows | Linux | OtherPlatform

  /** The four global tables. */
  datatype Table = ErrnoTable | OpenSslTable | X509Table | WindowsTable

  /** The table the `switch` of `SearchErrorMsg` reads for a class code, if any. */
  function SelectTable(classCode: int, platform: Platform): (t: Option<Table>)
    ensures t.Some? <==>
      classCode == SSLERROR || classCode == X509ERROR || (classCode == OSERROR && platform != OtherPlatform)
    ensures t == Some(ErrnoTable) <==> classCode == OSERROR && platform == Linux
    ensures t == Some(WindowsTable) <==> classCode == OSERROR && platform == Windows
    ensures t == Some(OpenSslTable) <==> classCode == SSLERROR
    ensures t == Some(X509Table) <==> classCode == X509ERROR
  {
    if classCode == OSERROR then
      match platform
      case Windows => Some(WindowsTable)
      case Linux => Some(ErrnoTable)
      case OtherPlatform => None
    else if classCode == SSLERROR then Some(OpenSslTable)
    else if classCode == X509ERROR then Some(X509Table)
    else None
  }

  /** The last step of `SearchErrorMsg`: an empty result becomes "Unknown error". */
  function WithFallback(s: string): (r: string)
    ensures r != ""
    ensures s != "" ==> r == s
    ensures s == "" ==> r == UnknownError
  {
    if |s| == 0 then UnknownError else s
  }

  /** An array of `n` slots whose slot i holds `init(i)`: the source's `T a[n] = { ... }`. */
  method NewArray<T>(n: nat, init: int -> T) returns (a: array<T>)
    ensures fresh(a) && a[..] == seq(n, init)
  {
    a := new T[n](i => init(i));
  }

  class Registry {
    var errnoMsgs: map<int, string>
    var openSslMsgs: map<int, string>
    var x509Msgs: map<int, string>
    var windowsMsgs: map<int, string>

    /** The tables as the program starts: empty.  The global objects `search`, `ErrornoObj`,
        `X509Obj`, `OpenSSLObj` (and `WinObj`) have no constructors that fill them. */
    constructor ()
      ensures errnoMsgs == map[] && openSslMsgs == map[] && x509Msgs == map[] && windowsMsgs == map[]
    {
      errnoMsgs, openSslMsgs, x509Msgs, windowsMsgs := map[], map[], map[], map[];
    }

    function TableOf(t: Table): map<int, string>
      reads this
    {
      match t
      case ErrnoTable => errnoMsgs
      case OpenSslTable => openSslMsgs
      case X509Table => x509Msgs
      case WindowsTable => windowsMsgs
    }

    /** The string `SearchErrorMsg(error, classCode)` returns in the current state. */
    function Search(error: int, classCode: int, platform: Platform): (r: string)
      reads this
      ensures r != ""
      ensures SelectTable(classCode, platform).None? ==> r == UnknownError
      ensures SelectTable(classCode, platform).Some? ==>
        var m := TableOf(SelectTable(classCode, platform).value);
        (error in m && m[error] != "" ==> r == m[error]) &&
        (error !in m || m[error] == "" ==> r == UnknownError)
    {
      WithFallback(match SelectTable(classCode, platform)
        case Some(t) => Lookup(TableOf(t), error)
        case None => "")
    }

    /** Replaces one table. */
    method Store(t: Table, m: map<int, string>)
      modifies this
      ensures TableOf(t) == m
      ensures forall u :: u != t ==> TableOf(u) == old(TableOf(u))
    {
      match t
      case ErrnoTable => errnoMsgs := m;
      case OpenSslTable => openSslMsgs := m;
      case X509Table => x509Msgs := m;
      case WindowsTable => windowsMsgs := m;
    }

    /** `table[k] = v`. */
    method Assign(t: Table, k: int, v: string)
      modifies this
      ensures TableOf(t) == old(TableOf(t))[k := v]
      ensures forall u :: u != t ==> TableOf(u) == old(TableOf(u))
    {
      Store(t, TableOf(t)[k := v]);
    }

    /** A read `table[k]` through `operator[]`: a missing key is inserted with "". */
    method Subscript(t: Table, k: int) returns (v: string)
      modifies this
      ensures TableOf(t) == Subscripted(old(TableOf(t)), k)
      ensures v == Lookup(old(TableOf(t)), k) && v == TableOf(t)[k]
      ensures forall u :: u != t ==> TableOf(u) == old(TableOf(u))
    {
      if k !in TableOf(t) {
        Store(t, TableOf(t)[k := ""]);
      }
      v := TableOf(t)[k];
    }

    /** The loop of every `CreateMappingErrorMsg`: `table[codes[i]] = strings[i]` for
        i = 0 .. n - 1.  The requires is the source's obligation that the loop bound fits
        both arrays. */
    method Populate(t: Table, codes: array<int>, strings: array<string>, n: int)
      requires 0 <= n <= codes.Length && n <= strings.Length
      modifies this
      ensures TableOf(t) == Written(old(TableOf(t)), codes[..n], strings[..n])
      ensures forall u :: u != t ==> TableOf(u) == old(TableOf(u))
    {
      var i := 0;
      while i < n
        invariant 0 <= i <= n
        invariant TableOf(t) == Written(old(TableOf(t)), codes[..i], strings[..i])
        invariant forall u :: u != t ==> TableOf(u) == old(TableOf(u))
      {
        assert codes[..i + 1][..i] == codes[..i] && strings[..i + 1][..i] == strings[..i];
        Assign(t, codes[i], strings[i]);
        i := i + 1;
      }
    }

    /** `ErrnoError::CreateMappingErrorMsg`: fills the errno table from its 134-slot arrays
        and, on Windows, runs the Windows block as well. */
    method CreateErrnoMapping(platform: Platform)
      modifies this
      ensures errnoMsgs == Written(old(errnoMsgs), ErrnoCodes, ErrnoStrings)
      ensures windowsMsgs == if platform == Windows then Written(old(windowsMsgs), WindowsCodesAsWritten, WindowsStrings)
                             else old(windowsMsgs)
      ensures openSslMsgs == old(openSslMsgs) && x509Msgs == old(x509Msgs)
    {
      var errorCode := NewArray(ErrnoSlots, ErrnoCodeAt);
      var errorString := NewArray(ErrnoSlots, ErrnoStringAt);
      assert errorCode[..ErrnoSlots] == ErrnoCodes && errorString[..ErrnoSlots] == ErrnoStrings;
      Populate(ErrnoTable, errorCode, errorString, ErrnoSlots);
      assert TableOf(OpenSslTable) == old(openSslMsgs) && TableOf(X509Table) == old(x509Msgs);
      assert TableOf(WindowsTable) == old(windowsMsgs);
      if platform == Windows {
        CreateWindowsMapping();
      }
    }

    /** The `_WIN32` block of `ErrnoError::CreateMappingErrorMsg`: fills the Windows table
        from its 95-slot arrays, in the order the source lists the codes. */
    method CreateWindowsMapping()
      modifies this
      ensures windowsMsgs == Written(old(windowsMsgs), WindowsCodesAsWritten, WindowsStrings)
      ensures errnoMsgs == old(errnoMsgs) && openSslMsgs == old(openSslMsgs) && x509Msgs == old(x509Msgs)
    {
      var windowsErrorCode := NewArray(WindowsSlots, WindowsCodeAsWrittenAt);
      var windowsErrorString := NewArray(WindowsSlots, WindowsStringAt);
      assert windowsErrorCode[..WindowsSlots] == WindowsCodesAsWritten && windowsErrorString[..WindowsSlots] == WindowsStrings;
      Populate(WindowsTable, windowsErrorCode, windowsErrorString, WindowsSlots);
      assert TableOf(ErrnoTable) == old(errnoMsgs) && TableOf(OpenSslTable) == old(openSslMsgs);
      assert TableOf(X509Table) == old(x509Msgs);
    }

    /** `OpenSSLError::CreateMappingErrorMsg`: fills the OpenSSL table from its 9-slot arrays. */
    method CreateOpenSslMapping()
      modifies this
      ensures openSslMsgs == Written(old(openSslMsgs), OpenSslCodes, OpenSslStrings)
      ensures errnoMsgs == old(errnoMsgs) && x509Msgs == old(x509Msgs) && windowsMsgs == old(windowsMsgs)
    {
      var openSslCode := NewArray(OpenSslSlots, OpenSslCodeAt);
      var openSslString := NewArray(OpenSslSlots, OpenSslStringAt);
      assert openSslCode[..OpenSslSlots] == OpenSslCodes && openSslString[..OpenSslSlots] == OpenSslStrings;
      Populate(OpenSslTable, openSslCode, openSslString, OpenSslSlots);
      assert TableOf(ErrnoTable) == old(errnoMsgs) && TableOf(X509Table) == old(x509Msgs);
      assert TableOf(WindowsTable) == old(windowsMsgs);
    }

    /** `X509Error::CreateMappingErrorMsg`: fills the X509 table from its 54-slot arrays. */
    method CreateX509Mapping()
      modifies this
      ensures x509Msgs == Written(old(x509Msgs), X509Codes, X509Strings)
      ensures errnoMsgs == old(errnoMsgs) && openSslMsgs == old(openSslMsgs) && windowsMsgs == old(windowsMsgs)
    {
      var x509ErrorCode := NewArray(X509Slots, X509CodeAt);
      var x509ErrorString := NewArray(X509Slots, X509StringAt);
      assert x509ErrorCode[..X509Slots] == X509Codes && x509ErrorString[..X509Slots] == X509Strings;
      Populate(X509Table, x509ErrorCode, x509ErrorString, X509Slots);
      assert TableOf(ErrnoTable) == old(errnoMsgs) && TableOf(OpenSslTable) == old(openSslMsgs);
      assert TableOf(WindowsTable) == old(windowsMsgs);
    }

    /** `NumericError::SearchErrorMsg`.  The selected table is read through `operator[]`,
        so a missing code is inserted into it with ""; a class code other than 1, 2 and 3
        (or 1 on a platform that is neither Windows nor Linux) reads nothing. */
    method SearchErrorMsg(error: int, classCode: int, platform: Platform) returns (result: string)
      modifies this
      ensures result == old(Search(error, classCode, platform))
      ensures forall u :: TableOf(u) == if SelectTable(classCode, platform) == Some(u)
                                         then Subscripted(old(TableOf(u)), error)
                                         else old(TableOf(u))
      ensures Search(error, classCode, platform) == result
    {
      result := "";
      if classCode == OSERROR {
        if platform == Windows {
          result := Subscript(WindowsTable, error);
        } else if platform == Linux {
          result := Subscript(ErrnoTable, error);
        }
      } else if classCode == SSLERROR {
        result := Subscript(OpenSslTable, error);
      } else if classCode == X509ERROR {
        result := Subscript(X509Table, error);
      }
      if |result| == 0 {
        result := UnknownError;
      }
    }
  }
}
