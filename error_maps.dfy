/** What the two `std::map<int, string>` operations of rutil/Errdes.cxx do to a table.

    `Written` is the table a populate loop leaves behind: the writes
    `table[codes[i]] = strings[i]` for i = 0, 1, ..., in that order.  `Subscripted` is the
    table after a read through `operator[]`, which inserts an empty string under a key it
    does not find.  The lemmas give `Written` an independent description (each written key
    holds the string of its last write) and derive last-write-wins, the untouched keys and
    idempotence from it. */
module ErrorMaps {

  /** The table `m` after `m[codes[i]] = strings[i]` for every i in increasing order. */
  function Written(m: map<int, string>, codes: seq<int>, strings: seq<string>): (r: map<int, string>)
    requires |codes| == |strings|
    ensures forall k :: k in r <==> k in m || k in codes
    decreases |codes|
  {
    if |codes| == 0 then m
    else
      var n := |codes| - 1;
      Written(m, codes[..n], strings[..n])[codes[n] := strings[n]]
  }

  /** The position of the last `k` in `codes`, or -1 when there is none. */
  function LastIndex(codes: seq<int>, k: int): (i: int)
    ensures -1 <= i < |codes|
    ensures i == -1 <==> k !in codes
    ensures 0 <= i ==> codes[i] == k && forall j :: i < j < |codes| ==> codes[j] != k
  {
    if |codes| == 0 then -1
    else if codes[|codes| - 1] == k then |codes| - 1
    else LastIndex(codes[..|codes| - 1], k)
  }

  /** A written key holds the string of its last write; every other key keeps its value. */
  lemma {:induction false} WrittenAt(m: map<int, string>, codes: seq<int>, strings: seq<string>, k: int)
    requires |codes| == |strings|
    requires k in m || k in codes
    ensures Written(m, codes, strings)[k] == if k in codes then strings[LastIndex(codes, k)] else m[k]
  {
    if |codes| > 0 {
      var n := |codes| - 1;
      if codes[n] != k {
        assert k in codes ==> k in codes[..n] by {
          if k in codes {
            var j :| 0 <= j < |codes| && codes[j] == k;
            assert codes[..n][j] == k;
          }
        }
        assert k !in codes ==> k !in codes[..n];
        WrittenAt(m, codes[..n], strings[..n], k);
      }
    }
  }

  /** A write that no later write to the same key overrides is what the table holds. */
  lemma LastWriteWins(m: map<int, string>, codes: seq<int>, strings: seq<string>, i: int)
    requires |codes| == |strings| && 0 <= i < |codes|
    requires forall j :: i < j < |codes| ==> codes[j] != codes[i]
    ensures codes[i] in Written(m, codes, strings)
    ensures Written(m, codes, strings)[codes[i]] == strings[i]
  {
    WrittenAt(m, codes, strings, codes[i]);
    var last := LastIndex(codes, codes[i]);
    assert last == i;
  }

  /** A populate loop leaves every key outside its code array as it was. */
  lemma WrittenElsewhere(m: map<int, string>, codes: seq<int>, strings: seq<string>, k: int)
    requires |codes| == |strings| && k !in codes
    ensures k in Written(m, codes, strings) <==> k in m
    ensures k in m ==> Written(m, codes, strings)[k] == m[k]
  {
    if k in m {
      WrittenAt(m, codes, strings, k);
    }
  }

  /** What a populate loop leaves under its own keys does not depend on the table before it. */
  lemma WrittenKeysIgnoreBefore(m: map<int, string>, m': map<int, string>, codes: seq<int>, strings: seq<string>, k: int)
    requires |codes| == |strings| && k in codes
    ensures Written(m, codes, strings)[k] == Written(m', codes, strings)[k]
  {
    WrittenAt(m, codes, strings, k);
    WrittenAt(m', codes, strings, k);
  }

  /** Running the same populate loop twice leaves the table it leaves after once. */
  lemma WrittenTwice(m: map<int, string>, codes: seq<int>, strings: seq<string>)
    requires |codes| == |strings|
    ensures Written(Written(m, codes, strings), codes, strings) == Written(m, codes, strings)
  {
    var once := Written(m, codes, strings);
    var twice := Written(once, codes, strings);
    forall k | k in twice
      ensures k in once && twice[k] == once[k]
    {
      if k in codes {
        WrittenKeysIgnoreBefore(once, m, codes, strings, k);
      } else {
        WrittenElsewhere(once, codes, strings, k);
      }
    }
  }

  /** The value `m[k]` reads: the stored string, or the empty string that `operator[]`
      inserts for a missing key. */
  function Lookup(m: map<int, string>, k: int): (v: string)
    ensures k in m ==> v == m[k]
    ensures k !in m ==> v == ""
  {
    if k in m then m[k] else ""
  }

  /** The table after reading `m[k]` through `operator[]`. */
  function Subscripted(m: map<int, string>, k: int): (r: map<int, string>)
    ensures r.Keys == m.Keys + {k}
    ensures r[k] == Lookup(m, k)
    ensures forall j :: j in m ==> r[j] == m[j]
  {
    if k in m then m else m[k := ""]
  }

  /** A second read of the same key through `operator[]` changes nothing more and reads the same. */
  lemma SubscriptedTwice(m: map<int, string>, k: int)
    ensures Subscripted(Subscripted(m, k), k) == Subscripted(m, k)
    ensures Lookup(Subscripted(m, k), k) == Lookup(m, k)
  {
  }
}
