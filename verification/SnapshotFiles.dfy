/** The snapshot file: JSON object keys are decimal strings, zero bitmap words are
    dropped on save, and keys are parsed back with `int` on load. */
module SnapshotFiles {
  import opened TickLedger

  datatype Option<T> = None | Some(value: T)

  // ----- integer keys as strings

  function DigitChar(d: nat): char
    requires d < 10
  {
    ('0' as int + d) as char
  }

  predicate IsDigit(c: char) {
    '0' <= c <= '9'
  }

  function DigitValue(c: char): nat
    requires IsDigit(c)
  {
    c as int - '0' as int
  }

  function PrintNat(n: nat): string {
    if n < 10 then [DigitChar(n)] else PrintNat(n / 10) + [DigitChar(n % 10)]
  }

  function PrintInt(i: int): string {
    if i < 0 then "-" + PrintNat(-i) else PrintNat(i)
  }

  function ParseNat(s: string): nat
    requires forall c :: c in s ==> IsDigit(c)
  {
    if s == "" then 0
    else
      assert s[|s| - 1] in s;
      10 * ParseNat(s[..|s| - 1]) + DigitValue(s[|s| - 1])
  }

  predicate IsNumber(s: string) {
    s != "" && forall c :: c in s ==> IsDigit(c)
  }

  /** `int(s)`; None stands for ValueError. */
  function ParseInt(s: string): Option<int> {
    if IsNumber(s) then Some(ParseNat(s) as int)
    else if s != "" && s[0] == '-' && IsNumber(s[1..]) then Some(0 - ParseNat(s[1..]))
    else None
  }

  lemma {:induction false} NatRoundTrip(n: nat)
    ensures IsNumber(PrintNat(n)) && ParseNat(PrintNat(n)) == n
  {
    if n >= 10 {
      NatRoundTrip(n / 10);
      var p := PrintNat(n);
      assert p[..|p| - 1] == PrintNat(n / 10);
    } else {
      var p := PrintNat(n);
      assert p[..0] == "";
    }
  }

  lemma IntRoundTrip(i: int)
    ensures ParseInt(PrintInt(i)) == Some(i)
  {
    if i < 0 {
      NatRoundTrip(-i);
      assert PrintInt(i)[1..] == PrintNat(-i);
      assert PrintInt(i)[0] in PrintInt(i);
    } else {
      NatRoundTrip(i);
    }
  }

  /** Keys are decimal numerals. */
  lemma PrintedDigits(n: nat, d: nat)
    requires d < 10
    ensures PrintInt(d) == ["0123456789"[d]]
    ensures n > 0 ==> PrintInt(10 * n + d) == PrintInt(n) + ["0123456789"[d]]
    ensures n > 0 ==> PrintInt(0 - n) == "-" + PrintInt(n)
  {
  }

  predicate IsKey(s: string) {
    ParseInt(s).Some? && PrintInt(ParseInt(s).value) == s
  }

  /** The key strings that `ujson.dump` writes for integers. */
  type IntString = s: string | IsKey(s) witness "0"

  function IntKey(s: string): (i: int)
    requires IsKey(s)
    ensures PrintInt(i) == s
  {
    ParseInt(s).value
  }

  lemma PrintedKey(i: int)
    ensures IsKey(PrintInt(i)) && IntKey(PrintInt(i)) == i
  {
    IntRoundTrip(i);
  }

  lemma PrintedKeys()
    ensures forall i {:trigger PrintInt(i)} :: IsKey(PrintInt(i)) && IntKey(PrintInt(i)) == i
  {
    forall i ensures IsKey(PrintInt(i)) && IntKey(PrintInt(i)) == i {
      PrintedKey(i);
    }
  }

  function WithStringKeys<V>(m: map<int, V>): (r: map<IntString, V>)
    ensures forall k :: k in r ==> IntKey(k) in m && r[k] == m[IntKey(k)]
    ensures forall i :: i in m ==> PrintInt(i) in r
  {
    PrintedKeys();
    map i | i in m :: PrintInt(i) := m[i]
  }

  function WithIntKeys<V>(m: map<IntString, V>): (r: map<int, V>)
    ensures forall i :: i in r ==> PrintInt(i) in m && r[i] == m[PrintInt(i)]
    ensures forall k :: k in m ==> IntKey(k) in r
  {
    map k | k in m :: IntKey(k) := m[k]
  }

  lemma KeysRoundTrip<V>(m: map<int, V>)
    ensures WithIntKeys(WithStringKeys(m)) == m
  {
    var s := WithStringKeys(m);
    var r := WithIntKeys(s);
    forall i ensures i in r <==> i in m {
      PrintedKey(i);
      if i in m { assert PrintInt(i) in s; }
    }
    forall i | i in r ensures r[i] == m[i] {
      PrintedKey(i);
    }
  }

  // ----- the file

  datatype PoolRecord = PoolRecord(tickData: map<IntString, Tick>, tickBitmap: map<IntString, set<int>>)

  datatype SnapshotFile = SnapshotFile(block: int, pools: map<string, PoolRecord>)

  type Snapshot = map<string, Ledger>

  function DropZeroWords(words: map<int, set<int>>): map<int, set<int>> {
    map w | w in words && words[w] != {} :: words[w]
  }

  function SavePool(l: Ledger): PoolRecord {
    PoolRecord(WithStringKeys(l.ticks), WithStringKeys(DropZeroWords(l.words)))
  }

  function Save(s: Snapshot, newest: int): SnapshotFile
  {
    SnapshotFile(newest, map p | p in s :: SavePool(s[p]))
  }

  function Load(f: SnapshotFile): Snapshot
  {
    map p | p in f.pools :: Ledger(WithIntKeys(f.pools[p].tickData), WithIntKeys(f.pools[p].tickBitmap))
  }

  /** Saving and loading gives the snapshot back, minus its zero words. */
  lemma SaveLoad(s: Snapshot, newest: int)
    ensures Load(Save(s, newest)) == map p | p in s :: Ledger(s[p].ticks, DropZeroWords(s[p].words))
  {
    forall p | p in s
      ensures WithIntKeys(WithStringKeys(s[p].ticks)) == s[p].ticks
      ensures WithIntKeys(WithStringKeys(DropZeroWords(s[p].words))) == DropZeroWords(s[p].words)
    {
      KeysRoundTrip(s[p].ticks);
      KeysRoundTrip(DropZeroWords(s[p].words));
    }
  }

  /** A reloaded ledger reads like the saved one, and keeps the ledger invariants. */
  lemma ReloadedReadsTheSame(s: Snapshot, newest: int, p: string, spacing: int)
    requires p in s && spacing > 0
    ensures p in Load(Save(s, newest)) && SameLedger(Load(Save(s, newest))[p], s[p])
    ensures BitmapMatches(s[p], spacing) ==> BitmapMatches(Load(Save(s, newest))[p], spacing)
  {
    SaveLoad(s, newest);
    CleanReadsTheSame(s[p], spacing);
  }

  lemma CleanReadsTheSame(l: Ledger, spacing: int)
    requires spacing > 0
    ensures var c := Ledger(l.ticks, DropZeroWords(l.words));
            SameLedger(c, l) && (BitmapMatches(l, spacing) ==> BitmapMatches(c, spacing))
  {
    assert forall w :: WordAt(DropZeroWords(l.words), w) == WordAt(l.words, w);
  }
}
