/** What `SearchErrorMsg` answers once a `CreateMappingErrorMsg` has filled its table:
    every code of the arrays finds the message of its last slot, the codes the arrays do
    not write find "Unknown error", and so does the code of the errno arrays' blank slot. */
module SearchFacts {
  import opened Wrappers
  import opened ErrorMaps
  import opened ErrorCodes
  import opened TableFacts
  import opened MessageText
  import opened Errdes

  /** A table that holds a non-empty message under each of its codes answers every search
      for those codes with that message. */
  lemma KeptMessagesFound(r: Registry, t: Table, classCode: int, platform: Platform,
                          codes: seq<int>, strings: seq<string>)
    requires SelectTable(classCode, platform) == Some(t) && |codes| == |strings|
    requires forall i :: 0 <= i < |codes| ==> codes[i] in r.TableOf(t) && r.TableOf(t)[codes[i]] == strings[i]
    requires forall i :: 0 <= i < |strings| ==> strings[i] != ""
    ensures forall i :: 0 <= i < |codes| ==> r.Search(codes[i], classCode, platform) == strings[i]
  {
    forall i | 0 <= i < |codes|
      ensures r.Search(codes[i], classCode, platform) == strings[i]
    {
      assert codes[i] in r.TableOf(t) && r.TableOf(t)[codes[i]] == strings[i] != "";
    }
  }

  /** Linux, after the errno populate loop ran on a table `m`: every errno code finds the
      message of its own slot, except EAGAIN and EDEADLK, which find the messages of
      EWOULDBLOCK and EDEADLOCK; code 0 finds "Unknown error". */
  lemma LinuxErrnoSearch(r: Registry, m: map<int, string>)
    requires r.errnoMsgs == Written(m, ErrnoCodes, ErrnoStrings)
    ensures forall i :: 0 <= i < 133 && i != 10 && i != 34 ==>
      r.Search(ErrnoCodes[i], OSERROR, Linux) == ErrnoStrings[i]
    ensures r.Search(EAGAIN, OSERROR, Linux) == ErrnoStrings[40] != ErrnoStrings[10]
    ensures r.Search(EDEADLK, OSERROR, Linux) == ErrnoStrings[57] != ErrnoStrings[34]
    ensures r.Search(0, OSERROR, Linux) == UnknownError
  {
    ErrnoCodeValues();
    ErrnoBlankSlot();
    ErrnoMessagesKept(m);
    ErrnoAliasesWin(m);
    ErrnoZeroIsBlank(m);
  }

  /** Linux, after the errno populate loop: a code the errno array does not write, and that
      the table did not hold before, finds "Unknown error" (41 and 58 among them). */
  lemma LinuxMissingCodes(r: Registry, m: map<int, string>)
    requires r.errnoMsgs == Written(m, ErrnoCodes, ErrnoStrings)
    ensures forall k :: k !in m && (k < 0 || 133 < k || k == 41 || k == 58) ==>
      r.Search(k, OSERROR, Linux) == UnknownError
  {
    ErrnoCodeSet();
    forall k | k !in m && (k < 0 || 133 < k || k == 41 || k == 58)
      ensures r.Search(k, OSERROR, Linux) == UnknownError
    {
      WrittenElsewhere(m, ErrnoCodes, ErrnoStrings, k);
    }
  }

  /** After the OpenSSL populate loop, codes 0 .. 8 find their messages on every platform. */
  lemma OpenSslSearch(r: Registry, m: map<int, string>, platform: Platform)
    requires r.openSslMsgs == Written(m, OpenSslCodes, OpenSslStrings)
    ensures forall c :: 0 <= c < OpenSslSlots ==> r.Search(c, SSLERROR, platform) == OpenSslStrings[c]
  {
    OpenSslTablePopulated(m);
    OpenSslMessagesNonEmpty();
  }

  /** After the X509 populate loop, every X509 code finds its message on every platform,
      and code 1, which the arrays skip, finds "Unknown error" unless the table held it. */
  lemma X509Search(r: Registry, m: map<int, string>, platform: Platform)
    requires r.x509Msgs == Written(m, X509Codes, X509Strings)
    ensures forall i :: 0 <= i < X509Slots ==> r.Search(X509Codes[i], X509ERROR, platform) == X509Strings[i]
    ensures 1 !in m ==> r.Search(1, X509ERROR, platform) == UnknownError
  {
    X509CodeValues();
    X509TablePopulated(m);
    WrittenElsewhere(m, X509Codes, X509Strings, 1);
    X509MessagesNonEmpty();
  }

  /** Windows, after the source's Windows populate loop: every code finds the message of its
      own slot of the source's arrays.  Outside slots 29 .. 34 that message prints the code
      (`TableFacts.WindowsAsWrittenMispaired`). */
  lemma WindowsAsWrittenSearch(r: Registry, m: map<int, string>)
    requires r.windowsMsgs == Written(m, WindowsCodesAsWritten, WindowsStrings)
    ensures forall i :: 0 <= i < WindowsSlots ==>
      r.Search(WindowsCodesAsWritten[i], OSERROR, Windows) == WindowsStrings[i]
  {
    WindowsAsWrittenPopulated(m);
    WindowsMessagesNonEmpty();
    KeptMessagesFound(r, WindowsTable, OSERROR, Windows, WindowsCodesAsWritten, WindowsStrings);
  }

  /** Windows, after the source's Windows populate loop: WSAECONNABORTED finds the message
      that prints WSAENETRESET's number, and WSAENETRESET the one that prints WSAENOTCONN's. */
  lemma WindowsAsWrittenMisreads(r: Registry, m: map<int, string>)
    requires r.windowsMsgs == Written(m, WindowsCodesAsWritten, WindowsStrings)
    ensures r.Search(WSAECONNABORTED, OSERROR, Windows) == WindowsStrings[29]
      && PrintedNumber(WindowsStrings[29]) == WSAENETRESET != WSAECONNABORTED
    ensures r.Search(WSAENETRESET, OSERROR, Windows) == WindowsStrings[34]
      && PrintedNumber(WindowsStrings[34]) == WSAENOTCONN != WSAENETRESET
  {
    WindowsAsWrittenSlots();
    WindowsAsWrittenSearch(r, m);
    WindowsSlot29Text();
    WindowsSlot34Text();
  }

  /** Windows, after the corrected Windows populate loop: every Windows code finds its own
      slot's message, which prints that code (`TableFacts.WindowsCodeValues`). */
  lemma WindowsSearch(r: Registry, m: map<int, string>)
    requires r.windowsMsgs == Written(m, WindowsCodes, WindowsStrings)
    ensures forall i :: 0 <= i < WindowsSlots ==>
      r.Search(WindowsCodes[i], OSERROR, Windows) == WindowsStrings[i]
  {
    WindowsTablePopulated(m);
    WindowsMessagesNonEmpty();
    KeptMessagesFound(r, WindowsTable, OSERROR, Windows, WindowsCodes, WindowsStrings);
  }

  /** Before any `CreateMappingErrorMsg` the tables are empty and every search finds
      "Unknown error". */
  lemma EmptyRegistrySearch(r: Registry, error: int, classCode: int, platform: Platform)
    requires r.errnoMsgs == map[] && r.openSslMsgs == map[] && r.x509Msgs == map[] && r.windowsMsgs == map[]
    ensures r.Search(error, classCode, platform) == UnknownError
  {
  }
}
