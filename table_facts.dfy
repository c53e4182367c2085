/** What each populate loop of rutil/Errdes.cxx leaves in its table, for the constants of
    `ErrorCodes`: which codes end up with which message, where two codes collide, and
    what the value-initialised last slot of the errno arrays writes. */
module TableFacts {
  import opened MessageText
  import opened ErrorMaps
  import opened ErrorCodes

  /** Codes that grow from each slot to the next never repeat later on. */
  lemma {:induction false} IncreasingApart(codes: seq<int>, i: int, j: int)
    requires forall k :: 0 <= k < |codes| - 1 ==> codes[k] < codes[k + 1]
    requires 0 <= i < j < |codes|
    ensures codes[i] < codes[j]
  {
    if j > i + 1 {
      IncreasingApart(codes, i, j - 1);
    }
  }

  /** In a table whose codes are pairwise distinct, every slot's message is what the table holds. */
  lemma DistinctCodesAllKept(m: map<int, string>, codes: seq<int>, strings: seq<string>)
    requires |codes| == |strings|
    requires forall i, j :: 0 <= i < j < |codes| ==> codes[i] != codes[j]
    ensures forall i :: 0 <= i < |codes| ==>
      codes[i] in Written(m, codes, strings) && Written(m, codes, strings)[codes[i]] == strings[i]
  {
    forall i | 0 <= i < |codes|
      ensures codes[i] in Written(m, codes, strings) && Written(m, codes, strings)[codes[i]] == strings[i]
    {
      LastWriteWins(m, codes, strings, i);
    }
  }

  /** In a table whose codes increase, every slot's message is what the table holds. */
  lemma IncreasingCodesAllKept(m: map<int, string>, codes: seq<int>, strings: seq<string>)
    requires |codes| == |strings|
    requires forall k :: 0 <= k < |codes| - 1 ==> codes[k] < codes[k + 1]
    ensures forall i :: 0 <= i < |codes| ==>
      codes[i] in Written(m, codes, strings) && Written(m, codes, strings)[codes[i]] == strings[i]
  {
    forall i | 0 <= i < |codes|
      ensures codes[i] in Written(m, codes, strings) && Written(m, codes, strings)[codes[i]] == strings[i]
    {
      forall j | i < j < |codes| ensures codes[j] != codes[i] {
        IncreasingApart(codes, i, j);
      }
      LastWriteWins(m, codes, strings, i);
    }
  }

  /** A message in the `NAME number [description]` format prints its slot's number. */
  lemma NumberedTextPrints(s: Slot)
    requires s.Init? && ' ' !in s.name
    ensures PrintedNumber(NumberedText(s)) == s.number
  {
    var rest := if s.description == "" then "" else " " + s.description;
    assert NumberedText(s) == s.name + " " + Decimal(s.number) + rest;
    PrintedNumberOf(s.name, s.number, rest);
  }

  // ---------------------------------------------------------------- errno (Linux)

  /** The errno codes on Linux: slot i holds i + 1, except that EWOULDBLOCK (slot 40) is
      EAGAIN, EDEADLOCK (slot 57) is EDEADLK, and the uninitialised slot 133 is 0. */
  lemma ErrnoCodeValues()
    ensures |ErrnoCodes| == |ErrnoStrings| == ErrnoSlots == 134
    ensures forall i :: 0 <= i < ErrnoSlots ==>
      ErrnoCodes[i] == if i == 40 then EAGAIN else if i == 57 then EDEADLK else if i == 133 then 0 else i + 1
    ensures EAGAIN == 11 && EDEADLK == 35
  {
  }

  /** The codes the errno array writes: 0 .. 133 without 41 and 58. */
  lemma ErrnoCodeSet()
    ensures forall k :: k in ErrnoCodes <==> 0 <= k <= 133 && k != 41 && k != 58
  {
    ErrnoCodeValues();
    forall k ensures k in ErrnoCodes <==> 0 <= k <= 133 && k != 41 && k != 58 {
      if 0 <= k <= 133 && k != 41 && k != 58 {
        var j := if k == 0 then 133 else k - 1;
        assert ErrnoCodes[j] == k;
      }
    }
  }

  /** 133 initialisers for 134 slots: the last slot writes code 0 with the empty string,
      and it is the only slot whose message is empty. */
  lemma ErrnoBlankSlot()
    ensures ErrnoCodes[133] == 0 && ErrnoStrings[133] == ""
    ensures forall i :: 0 <= i < 133 ==> ErrnoStrings[i] != ""
  {
    assert forall i :: 0 <= i < 133 ==> ErrnoSlotAt(i).Init?;
  }

  /** The number each errno message prints is its code, except in the two messages of
      the aliases. */
  lemma ErrnoNumbersMatchCodes()
    ensures forall i :: 0 <= i < 133 && i != 40 && i != 57 ==> ErrnoSlotAt(i).number == ErrnoCodes[i]
  {
  }

  /** The aliases' messages print 41 and 58, numbers that no Linux errno code has. */
  lemma ErrnoAliasNumbers()
    ensures ErrnoSlotAt(40).name == "EWOULDBLOCK" && ErrnoSlotAt(40).number == 41 && EWOULDBLOCK == EAGAIN
    ensures ErrnoSlotAt(57).name == "EDEADLOCK" && ErrnoSlotAt(57).number == 58 && EDEADLOCK == EDEADLK
    ensures 41 !in ErrnoCodes && 58 !in ErrnoCodes
  {
    ErrnoCodeSet();
  }

  /** After the populate loop every errno slot's message is in the table under its code,
      except the messages of EAGAIN (slot 10) and EDEADLK (slot 34). */
  lemma ErrnoMessagesKept(m: map<int, string>)
    ensures var t := Written(m, ErrnoCodes, ErrnoStrings);
      forall i :: 0 <= i < ErrnoSlots && i != 10 && i != 34 ==> ErrnoCodes[i] in t && t[ErrnoCodes[i]] == ErrnoStrings[i]
  {
    ErrnoCodeValues();
    forall i | 0 <= i < ErrnoSlots && i != 10 && i != 34
      ensures ErrnoCodes[i] in Written(m, ErrnoCodes, ErrnoStrings)
      ensures Written(m, ErrnoCodes, ErrnoStrings)[ErrnoCodes[i]] == ErrnoStrings[i]
    {
      LastWriteWins(m, ErrnoCodes, ErrnoStrings, i);
    }
  }

  /** The messages of EAGAIN and EWOULDBLOCK differ, and so do those of EDEADLK and
      EDEADLOCK. */
  lemma ErrnoAliasTextsDiffer()
    ensures ErrnoStrings[40] != ErrnoStrings[10] && ErrnoStrings[57] != ErrnoStrings[34]
  {
    assert ErrnoStrings[40][1] == 'W' && ErrnoStrings[10][1] == 'A';
    assert ErrnoStrings[57][6] == 'O' && ErrnoStrings[34][6] == 'K';
  }

  /** With Linux's values the EWOULDBLOCK and EDEADLOCK writes come later and win: the
      table keeps their messages under EAGAIN and EDEADLK, not the EAGAIN and EDEADLK
      messages. */
  lemma ErrnoAliasesWin(m: map<int, string>)
    ensures var t := Written(m, ErrnoCodes, ErrnoStrings);
      && EAGAIN in t && t[EAGAIN] == ErrnoStrings[40] && t[EAGAIN] != ErrnoStrings[10]
      && EDEADLK in t && t[EDEADLK] == ErrnoStrings[57] && t[EDEADLK] != ErrnoStrings[34]
  {
    ErrnoCodeValues();
    assert ErrnoCodes[40] == EAGAIN && ErrnoCodes[57] == EDEADLK;
    LastWriteWins(m, ErrnoCodes, ErrnoStrings, 40);
    LastWriteWins(m, ErrnoCodes, ErrnoStrings, 57);
    ErrnoAliasTextsDiffer();
  }

  /** The blank slot is the last write to code 0, so the table holds "" under 0. */
  lemma ErrnoZeroIsBlank(m: map<int, string>)
    ensures var t := Written(m, ErrnoCodes, ErrnoStrings); 0 in t && t[0] == ""
  {
    ErrnoCodeValues();
    ErrnoBlankSlot();
    LastWriteWins(m, ErrnoCodes, ErrnoStrings, 133);
  }

  // ---------------------------------------------------------------- OpenSSL

  /** The OpenSSL codes are 0 .. 8 in order; each message prints its code. */
  lemma OpenSslCodeValues()
    ensures |OpenSslCodes| == |OpenSslStrings| == OpenSslSlots == 9
    ensures forall i :: 0 <= i < OpenSslSlots ==> OpenSslCodes[i] == i && OpenSslSlotAt(i).number == i
  {
  }

  /** After the populate loop every OpenSSL code holds its own message. */
  lemma OpenSslTablePopulated(m: map<int, string>)
    ensures var t := Written(m, OpenSslCodes, OpenSslStrings);
      forall c :: 0 <= c < OpenSslSlots ==> c in t && t[c] == OpenSslStrings[c]
  {
    OpenSslCodeValues();
    IncreasingCodesAllKept(m, OpenSslCodes, OpenSslStrings);
    forall c | 0 <= c < OpenSslSlots
      ensures c in Written(m, OpenSslCodes, OpenSslStrings)
      ensures Written(m, OpenSslCodes, OpenSslStrings)[c] == OpenSslStrings[c]
    {
      assert OpenSslCodes[c] == c;
    }
  }

  /** No OpenSSL message is empty. */
  lemma OpenSslMessagesNonEmpty()
    ensures forall i :: 0 <= i < OpenSslSlots ==> OpenSslStrings[i] != ""
  {
    assert forall i :: 0 <= i < OpenSslSlots ==> OpenSslSlotAt(i).Init?;
  }

  // ---------------------------------------------------------------- X509

  /** The X509 codes are 0, 2, 3, .., 54: code 1 is skipped. */
  lemma X509CodeValues()
    ensures |X509Codes| == |X509Strings| == X509Slots == 54
    ensures forall i :: 0 <= i < X509Slots ==> X509Codes[i] == if i == 0 then 0 else i + 1
    ensures 1 !in X509Codes
  {
    assert forall i :: 0 <= i < X509Slots ==> X509Codes[i] == if i == 0 then 0 else i + 1;
  }

  /** Each X509 message prints its slot's code. */
  lemma X509NumbersMatchCodes()
    ensures forall i :: 0 <= i < X509Slots ==> X509SlotAt(i).number == X509CodeAt(i)
  {
  }

  /** After the populate loop every X509 code holds its own message. */
  lemma X509TablePopulated(m: map<int, string>)
    ensures var t := Written(m, X509Codes, X509Strings);
      forall i :: 0 <= i < X509Slots ==> X509Codes[i] in t && t[X509Codes[i]] == X509Strings[i]
  {
    X509CodeValues();
    IncreasingCodesAllKept(m, X509Codes, X509Strings);
  }

  /** No X509 message is empty. */
  lemma X509MessagesNonEmpty()
    ensures forall i :: 0 <= i < X509Slots ==> X509Strings[i] != ""
  {
    assert forall i :: 0 <= i < X509Slots ==> X509SlotAt(i).Init?;
  }

  // ---------------------------------------------------------------- Windows

  /** The corrected Windows code array increases. */
  lemma WindowsCodeValues()
    ensures |WindowsCodes| == |WindowsStrings| == WindowsSlots == 95
    ensures forall i :: 0 <= i < WindowsSlots - 1 ==> WindowsCodes[i] < WindowsCodes[i + 1]
  {
    assert forall i :: 0 <= i < WindowsSlots - 1 ==> WindowsCodeAt(i) < WindowsCodeAt(i + 1);
  }

  /** The corrected Windows code array pairs every code with the message that prints it. */
  lemma WindowsNumbersMatchCodes()
    ensures forall i :: 0 <= i < WindowsSlots ==> WindowsSlotAt(i).number == WindowsCodeAt(i)
  {
  }

  /** With the corrected array, every Windows code looks up its own slot's message. */
  lemma WindowsTablePopulated(m: map<int, string>)
    ensures var t := Written(m, WindowsCodes, WindowsStrings);
      forall i :: 0 <= i < WindowsSlots ==> WindowsCodes[i] in t && t[WindowsCodes[i]] == WindowsStrings[i]
  {
    WindowsCodeValues();
    IncreasingCodesAllKept(m, WindowsCodes, WindowsStrings);
  }

  /** No Windows message is empty. */
  lemma WindowsMessagesNonEmpty()
    ensures forall i :: 0 <= i < WindowsSlots ==> WindowsStrings[i] != ""
  {
    assert forall i :: 0 <= i < WindowsSlots ==> WindowsSlotAt(i).Init?;
  }

  /** The slot of the corrected array that holds the code the source puts in slot `i`:
      the source moves WSAENETRESET from slot 29 to slot 34 and the five codes between it
      up by one. */
  function SourceSlotOrigin(i: int): int
  {
    if i == 34 then 29 else if 29 <= i < 34 then i + 1 else i
  }

  /** The source's Windows code array is the corrected one with slots 29 .. 34 rotated. */
  lemma WindowsAsWrittenIsRotation()
    ensures |WindowsCodesAsWritten| == WindowsSlots
    ensures forall i :: 0 <= i < WindowsSlots ==> WindowsCodesAsWritten[i] == WindowsCodes[SourceSlotOrigin(i)]
  {
    assert forall i :: 0 <= i < WindowsSlots ==> WindowsCodeAsWrittenAt(i) == WindowsCodeAt(SourceSlotOrigin(i));
  }

  /** No code repeats in the source's Windows code array. */
  lemma WindowsAsWrittenDistinct()
    ensures forall i, j :: 0 <= i < j < WindowsSlots ==> WindowsCodesAsWritten[i] != WindowsCodesAsWritten[j]
  {
    WindowsCodeValues();
    WindowsAsWrittenIsRotation();
    forall i, j | 0 <= i < j < WindowsSlots
      ensures WindowsCodesAsWritten[i] != WindowsCodesAsWritten[j]
    {
      var p, q := SourceSlotOrigin(i), SourceSlotOrigin(j);
      if p < q {
        IncreasingApart(WindowsCodes, p, q);
      } else {
        IncreasingApart(WindowsCodes, q, p);
      }
    }
  }

  /** After the source's Windows populate loop, every code holds the message of its own slot
      in the source's arrays, whatever that message prints. */
  lemma WindowsAsWrittenPopulated(m: map<int, string>)
    ensures var t := Written(m, WindowsCodesAsWritten, WindowsStrings);
      forall i :: 0 <= i < WindowsSlots ==> WindowsCodesAsWritten[i] in t && t[WindowsCodesAsWritten[i]] == WindowsStrings[i]
  {
    WindowsCodeValues();
    WindowsAsWrittenDistinct();
    DistinctCodesAllKept(m, WindowsCodesAsWritten, WindowsStrings);
  }

  /** As the source writes the Windows code array, slots 29 .. 34 pair a code with a
      message that prints another code. */
  lemma WindowsAsWrittenMispaired()
    ensures |WindowsCodesAsWritten| == WindowsSlots
    ensures forall i :: 29 <= i < 35 ==> WindowsSlotAt(i).number != WindowsCodesAsWritten[i]
    ensures forall i :: 0 <= i < WindowsSlots && !(29 <= i < 35) ==> WindowsSlotAt(i).number == WindowsCodesAsWritten[i]
  {
  }

  /** The message of slot 29 prints the number of WSAENETRESET. */
  lemma WindowsSlot29Text()
    ensures PrintedNumber(WindowsStrings[29]) == WSAENETRESET
  {
    var s := WindowsSlotAt(29);
    assert s == Init("WSAENETRESET", 10052, "Network dropped connection on reset.");
    NumberedTextPrints(s);
  }

  /** The message of slot 34 prints the number of WSAENOTCONN. */
  lemma WindowsSlot34Text()
    ensures PrintedNumber(WindowsStrings[34]) == WSAENOTCONN
  {
    var s := WindowsSlotAt(34);
    assert s == Init("WSAENOTCONN", 10057, "Socket is not connected.");
    NumberedTextPrints(s);
  }

  /** After the as-written populate loop, WSAECONNABORTED looks up the WSAENETRESET message
      and WSAENETRESET the WSAENOTCONN message. */
  lemma WindowsAsWrittenLookups(m: map<int, string>)
    ensures var t := Written(m, WindowsCodesAsWritten, WindowsStrings);
      && WSAECONNABORTED in t && PrintedNumber(t[WSAECONNABORTED]) == WSAENETRESET != WSAECONNABORTED
      && WSAENETRESET in t && PrintedNumber(t[WSAENETRESET]) == WSAENOTCONN != WSAENETRESET
  {
    WindowsAsWrittenSlots();
    WindowsAsWrittenPopulated(m);
    WindowsSlot29Text();
    WindowsSlot34Text();
  }

  lemma WindowsAsWrittenSlots()
    ensures |WindowsCodesAsWritten| == |WindowsStrings| == 95
    ensures WindowsCodesAsWritten[29] == WSAECONNABORTED && WindowsCodesAsWritten[34] == WSAENETRESET
    ensures forall j :: 29 < j < 95 ==> WindowsCodesAsWritten[j] != WSAECONNABORTED
    ensures forall j :: 34 < j < 95 ==> WindowsCodesAsWritten[j] != WSAENETRESET
  {
  }
}
