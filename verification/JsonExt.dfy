/**
 The extended JSON serializer: values that JSON cannot express are written as strings with a
 six-character prefix; maps and sets carry JSON text inside such a string, to any depth.
 */
module JsonExt {
  import opened Prelude
  import opened JsonText

  // ------------------------------------------------------- integers as decimal text

  function NatText(n: nat): (t: string)
    ensures t != "" && forall c <- t :: '0' <= c <= '9'
  {
    if n < 10 then [('0' as int + n) as char] else NatText(n / 10) + [('0' as int + n % 10) as char]
  }

  function NatValue(t: string): Option<nat> {
    if t == "" then None
    else
      var c := t[|t| - 1];
      if !('0' <= c <= '9') then None
      else if |t| == 1 then Some(c as int - '0' as int)
      else
        var head := NatValue(t[..|t| - 1]);
        if head.None? then None else Some(head.value * 10 + (c as int - '0' as int))
  }

  lemma {:induction false} NatTextBack(n: nat)
    ensures NatValue(NatText(n)) == Some(n)
  {
    if n >= 10 {
      NatTextBack(n / 10);
      var t := NatText(n);
      assert t[..|t| - 1] == NatText(n / 10);
    }
  }

  function IntText(n: int): string {
    if n < 0 then "-" + NatText(-n) else NatText(n)
  }

  function IntValue(t: string): Option<int> {
    if t != "" && t[0] == '-' then
      match NatValue(t[1..])
      case None => None
      case Some(m) => var n: int := m; Some(0 - n)
    else NatValue(t)
  }

  lemma IntTextBack(n: int)
    ensures IntValue(IntText(n)) == Some(n)
  {
    if n < 0 {
      NatTextBack(-n);
      assert IntText(n)[1..] == NatText(-n);
    } else {
      NatTextBack(n);
      assert NatText(n)[0] in NatText(n);
    }
  }

  // ------------------------------------------------- base64, section 4 of RFC 4648

  function Digit64(n: nat): char
    requires n < 64
  {
    if n < 26 then ('A' as int + n) as char
    else if n < 52 then ('a' as int + n - 26) as char
    else if n < 62 then ('0' as int + n - 52) as char
    else if n == 62 then '+'
    else '/'
  }

  function Value64(c: char): Option<nat> {
    if 'A' <= c <= 'Z' then Some(c as int - 'A' as int)
    else if 'a' <= c <= 'z' then Some(c as int - 'a' as int + 26)
    else if '0' <= c <= '9' then Some(c as int - '0' as int + 52)
    else if c == '+' then Some(62)
    else if c == '/' then Some(63)
    else None
  }

  function Base64(bs: seq<Byte>): string {
    if bs == [] then ""
    else
      var a := bs[0] as int;
      if |bs| == 1 then [Digit64(a / 4), Digit64(a % 4 * 16), '=', '=']
      else
        var b := bs[1] as int;
        if |bs| == 2 then [Digit64(a / 4), Digit64(a % 4 * 16 + b / 16), Digit64(b % 16 * 4), '=']
        else
          var c := bs[2] as int;
          [Digit64(a / 4), Digit64(a % 4 * 16 + b / 16), Digit64(b % 16 * 4 + c / 64),
              Digit64(c % 64)] + Base64(bs[3..])
  }

  /** The bytes of one group of four characters. */
  function Group64(p: char, q: char, r: char, s: char): Option<seq<Byte>> {
    var (w, x, y, z) := (Value64(p), Value64(q), Value64(r), Value64(s));
    if w.None? || x.None? then None
    else
      var first := (w.value * 4 + x.value / 16) % 256;
      if r == '=' && s == '=' then Some([first as Byte])
      else if y.None? then None
      else
        var second := (x.value % 16 * 16 + y.value / 4) % 256;
        if s == '=' then Some([first as Byte, second as Byte])
        else if z.None? then None
        else Some([first as Byte, second as Byte, ((y.value % 4 * 64 + z.value) % 256) as Byte])
  }

  function Unbase64(t: string): Option<seq<Byte>> {
    if t == "" then Some([])
    else if |t| < 4 then None
    else
      var head := Group64(t[0], t[1], t[2], t[3]);
      if head.None? then None
      else
        var tail := Unbase64(t[4..]);
        if tail.None? then None else Some(head.value + tail.value)
  }

  lemma Value64Back(n: nat)
    requires n < 64
    ensures Value64(Digit64(n)) == Some(n) && Digit64(n) != '='
  {
  }

  lemma Apart16(p: nat, q: nat)
    requires q < 16
    ensures (p * 16 + q) / 16 == p && (p * 16 + q) % 16 == q
  {
  }

  lemma Apart4(p: nat, q: nat)
    requires q < 4
    ensures (p * 4 + q) / 4 == p && (p * 4 + q) % 4 == q
  {
  }

  lemma Group1(a: Byte)
    ensures var x := a as int; Group64(Digit64(x / 4), Digit64(x % 4 * 16), '=', '=') == Some([a])
  {
    var x := a as int;
    Value64Back(x / 4);
    Value64Back(x % 4 * 16);
    Apart16(x % 4, 0);
  }

  lemma Group2(a: Byte, b: Byte)
    ensures var x, y := a as int, b as int;
            Group64(Digit64(x / 4), Digit64(x % 4 * 16 + y / 16), Digit64(y % 16 * 4), '=') == Some([a, b])
  {
    var x, y := a as int, b as int;
    Value64Back(x / 4);
    Value64Back(x % 4 * 16 + y / 16);
    Value64Back(y % 16 * 4);
    Apart16(x % 4, y / 16);
    Apart4(y % 16, 0);
    GroupOf(Digit64(x / 4), Digit64(x % 4 * 16 + y / 16), Digit64(y % 16 * 4), '=',
            x / 4, x % 4 * 16 + y / 16, y % 16 * 4, 0);
  }

  lemma Group3(a: Byte, b: Byte, c: Byte)
    ensures var x, y, z := a as int, b as int, c as int;
            Group64(Digit64(x / 4), Digit64(x % 4 * 16 + y / 16), Digit64(y % 16 * 4 + z / 64),
                Digit64(z % 64)) == Some([a, b, c])
  {
    var x, y, z := a as int, b as int, c as int;
    Value64Back(x / 4);
    Value64Back(x % 4 * 16 + y / 16);
    Value64Back(y % 16 * 4 + z / 64);
    Value64Back(z % 64);
    Apart16(x % 4, y / 16);
    Apart4(y % 16, z / 64);
    GroupOf(Digit64(x / 4), Digit64(x % 4 * 16 + y / 16), Digit64(y % 16 * 4 + z / 64), Digit64(z % 64),
            x / 4, x % 4 * 16 + y / 16, y % 16 * 4 + z / 64, z % 64);
  }

  /** A group of two or three bytes, given the values of its characters. */
  lemma GroupOf(p: char, q: char, r: char, s: char, w: nat, x: nat, y: nat, z: nat)
    requires Value64(p) == Some(w) && Value64(q) == Some(x) && Value64(r) == Some(y) && r != '='
    requires w < 64 && x < 64 && y < 64 && (s == '=' || (Value64(s) == Some(z) && z < 64))
    ensures
      var first, second := (w * 4 + x / 16) as Byte, (x % 16 * 16 + y / 4) as Byte;
      Group64(p, q, r, s) == Some(if s == '=' then [first, second] else [first, second, (y % 4 * 64 + z) as Byte])
  {
    FitsByte(w * 4 + x / 16);
    FitsByte(x % 16 * 16 + y / 4);
    if s != '=' { FitsByte(y % 4 * 64 + z); }
  }

  lemma FitsByte(n: nat)
    requires n < 256
    ensures n % 256 == n
  {
  }

  lemma {:induction false} Base64Back(bs: seq<Byte>)
    ensures Unbase64(Base64(bs)) == Some(bs)
  {
    if |bs| == 1 {
      OneByteBack(bs);
    } else if |bs| == 2 {
      TwoBytesBack(bs);
    } else if |bs| > 2 {
      Base64Back(bs[3..]);
      Group3(bs[0], bs[1], bs[2]);
      assert Base64(bs)[4..] == Base64(bs[3..]);
      assert bs == [bs[0], bs[1], bs[2]] + bs[3..];
    }
  }

  lemma OneByteBack(bs: seq<Byte>)
    requires |bs| == 1
    ensures Unbase64(Base64(bs)) == Some(bs)
  {
    Group1(bs[0]);
    assert Base64(bs)[4..] == "" && [bs[0]] + [] == bs;
  }

  lemma TwoBytesBack(bs: seq<Byte>)
    requires |bs| == 2
    ensures Unbase64(Base64(bs)) == Some(bs)
  {
    Group2(bs[0], bs[1]);
    assert Base64(bs)[4..] == "";
    assert bs == [bs[0], bs[1]] + [];
  }

  // -------------------------------------------------- regular expressions: flags|source

  function IndexOfBar(t: string): (n: nat)
    ensures n <= |t|
    ensures n < |t| ==> t[n] == '|'
    ensures forall i | 0 <= i < n :: t[i] != '|'
  {
    if t == "" || t[0] == '|' then 0 else 1 + IndexOfBar(t[1..])
  }

  lemma {:induction false} BarAfterFlags(flags: string, source: string)
    requires forall c <- flags :: c != '|'
    ensures IndexOfBar(flags + "|" + source) == |flags|
  {
    var t := flags + "|" + source;
    var n := IndexOfBar(t);
    assert t[|flags|] == '|';
    assert forall i | 0 <= i < |flags| :: t[i] == flags[i] && flags[i] in flags;
  }

  // ------------------------------------------------- the order of own property keys

  /** An array index: decimal digits without a leading zero, below 2^32 - 1. */
  predicate IsIndex(key: string) {
    && key != "" && (forall c <- key :: '0' <= c <= '9')
    && (key == "0" || key[0] != '0')
    && NatValue(key).Some? && NatValue(key).value < 0xFFFF_FFFF
  }

  lemma {:induction false} TextOfValue(key: string)
    requires key != "" && (forall c <- key :: '0' <= c <= '9') && (key == "0" || key[0] != '0')
    ensures NatValue(key).Some? && NatText(NatValue(key).value) == key
    ensures key != "0" ==> NatValue(key).value > 0
  {
    var n := |key| - 1;
    var head, c := key[..n], key[n];
    assert c in key && key == head + [c];
    if n > 0 {
      assert forall x | x in head :: x in key;
      assert head[0] == key[0];
      TextOfValue(head);
    }
  }

  lemma {:induction false} TextIsIndexLike(n: nat)
    ensures var t := NatText(n); t != "" && (forall c <- t :: '0' <= c <= '9') && (t == "0" || t[0] != '0')
    ensures n > 0 ==> NatText(n) != "0"
  {
    if n >= 10 { TextIsIndexLike(n / 10); }
  }

  /** An index is the decimal text of a number below 2^32 - 1, and nothing else is. */
  lemma IndexIff(key: string)
    ensures IsIndex(key) <==> exists n: nat :: n < 4294967295 && key == NatText(n)
  {
    if IsIndex(key) {
      TextOfValue(key);
      assert key == NatText(NatValue(key).value);
    }
    if n: nat :| n < 4294967295 && key == NatText(n) {
      TextIsIndexLike(n);
      NatTextBack(n);
    }
  }

  function IndexOf(key: string): nat {
    var v := NatValue(key);
    if v.Some? then v.value else 0
  }

  predicate IsName(key: string) { !IsIndex(key) }

  function Keep<T>(es: seq<Entry<T>>, p: string -> bool): seq<Entry<T>> {
    if es == [] then []
    else if p(es[0].key) then [es[0]] + Keep(es[1..], p)
    else Keep(es[1..], p)
  }

  function Insert<T>(e: Entry<T>, es: seq<Entry<T>>, rank: string -> nat): seq<Entry<T>> {
    if es == [] || rank(e.key) <= rank(es[0].key) then [e] + es
    else [es[0]] + Insert(e, es[1..], rank)
  }

  function Sort<T>(es: seq<Entry<T>>, rank: string -> nat): seq<Entry<T>> {
    if es == [] then [] else Insert(es[0], Sort(es[1..], rank), rank)
  }

  /** Entries in the order in which an object lists its own keys: indices ascending, then the rest. */
  function OwnOrder<T>(es: seq<Entry<T>>): seq<Entry<T>> {
    Sort(Keep(es, IsIndex), IndexOf) + Keep(es, IsName)
  }

  lemma {:induction false} InsertSame<T>(e: Entry<T>, es: seq<Entry<T>>, rank: string -> nat)
    ensures multiset(Insert(e, es, rank)) == multiset{e} + multiset(es)
  {
    if es != [] {
      InsertSame(e, es[1..], rank);
      assert es == [es[0]] + es[1..];
    }
  }

  lemma {:induction false} SortSame<T>(es: seq<Entry<T>>, rank: string -> nat)
    ensures multiset(Sort(es, rank)) == multiset(es)
  {
    if es != [] {
      SortSame(es[1..], rank);
      InsertSame(es[0], Sort(es[1..], rank), rank);
      assert es == [es[0]] + es[1..];
    }
  }

  lemma {:induction false} KeepSplits<T>(es: seq<Entry<T>>, p: string -> bool, q: string -> bool)
    requires forall k :: q(k) == !p(k)
    ensures multiset(Keep(es, p)) + multiset(Keep(es, q)) == multiset(es)
  {
    if es != [] {
      KeepSplits(es[1..], p, q);
      assert es == [es[0]] + es[1..];
    }
  }

  /** Reordering loses and invents no entry. */
  lemma OwnOrderKeepsEntries<T(!new)>(es: seq<Entry<T>>)
    ensures multiset(OwnOrder(es)) == multiset(es)
    ensures |OwnOrder(es)| == |es|
    ensures forall e :: e in OwnOrder(es) <==> e in es
  {
    KeepSplits(es, IsIndex, IsName);
    SortSame(Keep(es, IsIndex), IndexOf);
    SameMultiset(OwnOrder(es), es);
  }

  lemma SameMultiset<T(!new)>(a: seq<T>, b: seq<T>)
    requires multiset(a) == multiset(b)
    ensures |a| == |b| && forall x :: x in a <==> x in b
  {
    assert |multiset(a)| == |a| && |multiset(b)| == |b|;
    forall x
      ensures x in a <==> x in b
    {
      assert x in a <==> x in multiset(a);
      assert x in b <==> x in multiset(b);
    }
  }

  ghost predicate Ascending<T>(es: seq<Entry<T>>, rank: string -> nat) {
    forall i, j | 0 <= i < j < |es| :: rank(es[i].key) <= rank(es[j].key)
  }

  lemma {:induction false} InsertAscending<T>(e: Entry<T>, es: seq<Entry<T>>, rank: string -> nat)
    requires Ascending(es, rank)
    ensures Ascending(Insert(e, es, rank), rank)
    ensures forall x <- Insert(e, es, rank) :: x == e || x in es
  {
    if es != [] && !(rank(e.key) <= rank(es[0].key)) {
      InsertAscending(e, es[1..], rank);
      var tail := Insert(e, es[1..], rank);
      forall j | 0 <= j < |tail|
        ensures rank(es[0].key) <= rank(tail[j].key)
      {
        assert tail[j] in tail;
        if tail[j] != e {
          var k :| 0 <= k < |es[1..]| && es[1..][k] == tail[j];
          assert es[k + 1] == tail[j];
        }
      }
    }
  }

  lemma {:induction false} SortAscending<T>(es: seq<Entry<T>>, rank: string -> nat)
    ensures Ascending(Sort(es, rank), rank)
    ensures forall x <- Sort(es, rank) :: x in es
  {
    if es != [] {
      SortAscending(es[1..], rank);
      InsertAscending(es[0], Sort(es[1..], rank), rank);
    }
  }

  lemma {:induction false} SortOfSorted<T>(es: seq<Entry<T>>, rank: string -> nat)
    requires Ascending(es, rank)
    ensures Sort(es, rank) == es
  {
    if es != [] {
      SortOfSorted(es[1..], rank);
      assert |es| > 1 ==> rank(es[0].key) <= rank(es[1].key);
      assert es == [es[0]] + es[1..];
    }
  }

  lemma {:induction false} KeepConcat<T>(a: seq<Entry<T>>, b: seq<Entry<T>>, p: string -> bool)
    ensures Keep(a + b, p) == Keep(a, p) + Keep(b, p)
  {
    if a == [] {
      assert a + b == b;
    } else {
      KeepConcat(a[1..], b, p);
      assert (a + b)[1..] == a[1..] + b;
    }
  }

  lemma {:induction false} KeepAll<T>(es: seq<Entry<T>>, p: string -> bool)
    requires forall e <- es :: p(e.key)
    ensures Keep(es, p) == es
  {
    if es != [] {
      KeepAll(es[1..], p);
      assert es[0] in es && es == [es[0]] + es[1..];
    }
  }

  lemma {:induction false} KeepNone<T>(es: seq<Entry<T>>, p: string -> bool)
    requires forall e <- es :: !p(e.key)
    ensures Keep(es, p) == []
  {
    if es != [] {
      KeepNone(es[1..], p);
      assert es[0] in es;
    }
  }

  lemma {:induction false} KeepHolds<T>(es: seq<Entry<T>>, p: string -> bool)
    ensures forall e <- Keep(es, p) :: p(e.key)
  {
    if es != [] { KeepHolds(es[1..], p); }
  }

  lemma OwnOrderTwice<T>(es: seq<Entry<T>>)
    ensures OwnOrder(OwnOrder(es)) == OwnOrder(es)
  {
    var a, b := Sort(Keep(es, IsIndex), IndexOf), Keep(es, IsName);
    KeepHolds(es, IsIndex);
    KeepHolds(es, IsName);
    SortAscending(Keep(es, IsIndex), IndexOf);
    SortOfSorted(a, IndexOf);
    KeepAll(a, IsIndex);
    KeepNone(b, IsIndex);
    KeepNone(a, IsName);
    KeepAll(b, IsName);
    KeepConcat(a, b, IsIndex);
    KeepConcat(a, b, IsName);
    assert a + [] == a && [] + b == b;
  }

  function MapValues<T, U>(es: seq<Entry<T>>, f: T -> U): seq<Entry<U>> {
    if es == [] then [] else [Entry(es[0].key, f(es[0].value))] + MapValues(es[1..], f)
  }

  lemma {:induction false} MapValuesAt<T, U>(es: seq<Entry<T>>, f: T -> U)
    ensures |MapValues(es, f)| == |es|
    ensures forall i | 0 <= i < |es| :: MapValues(es, f)[i] == Entry(es[i].key, f(es[i].value))
  {
    if es != [] { MapValuesAt(es[1..], f); }
  }

  lemma {:induction false} InsertMapped<T, U>(e: Entry<T>, es: seq<Entry<T>>, f: T -> U, rank: string -> nat)
    ensures Insert(Entry(e.key, f(e.value)), MapValues(es, f), rank) == MapValues(Insert(e, es, rank), f)
  {
    var me := Entry(e.key, f(e.value));
    if es == [] {
      assert MapValues([e], f) == [me] + MapValues([e][1..], f);
    } else if rank(e.key) <= rank(es[0].key) {
      assert ([e] + es)[1..] == es;
    } else {
      InsertMapped(e, es[1..], f, rank);
      assert MapValues(es, f)[1..] == MapValues(es[1..], f);
      assert ([es[0]] + Insert(e, es[1..], rank))[1..] == Insert(e, es[1..], rank);
    }
  }

  lemma {:induction false} SortMapped<T, U>(es: seq<Entry<T>>, f: T -> U, rank: string -> nat)
    ensures Sort(MapValues(es, f), rank) == MapValues(Sort(es, rank), f)
  {
    if es != [] {
      SortMapped(es[1..], f, rank);
      InsertMapped(es[0], Sort(es[1..], rank), f, rank);
      assert MapValues(es, f)[1..] == MapValues(es[1..], f);
    }
  }

  lemma {:induction false} KeepMapped<T, U>(es: seq<Entry<T>>, f: T -> U, p: string -> bool)
    ensures Keep(MapValues(es, f), p) == MapValues(Keep(es, p), f)
  {
    if es != [] {
      KeepMapped(es[1..], f, p);
      assert MapValues(es, f)[1..] == MapValues(es[1..], f);
      assert p(es[0].key) ==> Keep(es, p)[1..] == Keep(es[1..], p);
    }
  }

  lemma {:induction false} MapValuesConcat<T, U>(a: seq<Entry<T>>, b: seq<Entry<T>>, f: T -> U)
    ensures MapValues(a + b, f) == MapValues(a, f) + MapValues(b, f)
  {
    AppendTail(a, b);
    if a != [] {
      MapValuesConcat(a[1..], b, f);
      Assoc([Entry(a[0].key, f(a[0].value))], MapValues(a[1..], f), MapValues(b, f));
    }
  }

  /** The order depends on the keys only. */
  lemma OwnOrderMapped<T, U>(es: seq<Entry<T>>, f: T -> U)
    ensures OwnOrder(MapValues(es, f)) == MapValues(OwnOrder(es), f)
  {
    KeepMapped(es, f, IsIndex);
    KeepMapped(es, f, IsName);
    SortMapped(Keep(es, IsIndex), f, IndexOf);
    MapValuesConcat(Sort(Keep(es, IsIndex), IndexOf), Keep(es, IsName), f);
  }

  // ---------------------------------------------------------------------- values

  /** What the serializer carries. A RegExp is its source and flags; a Date its milliseconds. */
  datatype Value =
    | Null
    | Bool(b: bool)
    | Num(text: string)
    | Str(s: string)
    | Arr(items: seq<Value>)
    | Obj(fields: seq<Entry<Value>>)
    | BigInt(n: int)
    | Date(ms: int)
    | Buffer(bytes: seq<Byte>)
    | RegExp(source: string, flags: string)
    | MapOf(entries: seq<Entry<Value>>)
    | SetOf(elements: seq<Value>)

  predicate DistinctKeys<T>(es: seq<Entry<T>>) {
    forall i, j | 0 <= i < j < |es| :: es[i].key != es[j].key
  }

  /** Values a program can hold: keys are distinct, object fields stand in own-key order, flags contain no bar. */
  predicate Holdable(v: Value) {
    match v
    case Num(t) => t != "" && forall c <- t :: NumChar(c)
    case Arr(items) => forall x <- items :: Holdable(x)
    case Obj(fields) => DistinctKeys(fields) && OwnOrder(fields) == fields && forall f <- fields :: Holdable(f.value)
    case RegExp(_, flags) => forall c <- flags :: c != '|'
    case MapOf(entries) => DistinctKeys(entries) && forall f <- entries :: Holdable(f.value)
    case SetOf(elements) => forall x <- elements :: Holdable(x)
    case _ => true
  }

  // ------------------------------------------------------------------- serializing

  predicate LooksPrefixed(s: string) {
    |s| >= 2 && s[0] == '[' && s[1] == '['
  }

  /** The replacer, applied to a value and everything below it. */
  function Replace(v: Value): Json
    decreases v, 1
  {
    match v
    case Null => JNull
    case Bool(b) => JBool(b)
    case Num(t) => JNum(t)
    case Str(s) => JStr(if LooksPrefixed(s) then "[[ES]]" + s else s)
    case Arr(items) => JArr(ReplaceAll(items))
    case Obj(fields) => JObj(ReplaceFields(fields))
    case BigInt(n) => JStr("[[BI]]" + IntText(n))
    case Date(ms) => JStr("[[DT]]" + IntText(ms))
    case Buffer(bytes) => JStr("[[BF]]" + Base64(bytes))
    case RegExp(source, flags) => JStr("[[RE]]" + (flags + "|" + source))
    // an object is built from the entries first, so they are written in its own-key order
    case MapOf(entries) => JStr("[[MP]]" + Print(JObj(OwnOrder(ReplaceFields(entries)))))
    case SetOf(elements) => JStr("[[ST]]" + Print(JArr(ReplaceAll(elements))))
  }

  function ReplaceAll(vs: seq<Value>): seq<Json>
    decreases vs, 0
  {
    if vs == [] then [] else [Replace(vs[0])] + ReplaceAll(vs[1..])
  }

  function ReplaceFields(fs: seq<Entry<Value>>): seq<Entry<Json>>
    decreases fs, 0
  {
    if fs == [] then [] else [Entry(fs[0].key, Replace(fs[0].value))] + ReplaceFields(fs[1..])
  }

  function Serialize(v: Value): string {
    Print(Replace(v))
  }

  // ----------------------------------------------------------------- deserializing

  /** None stands for text at which JSON.parse, BigInt, Map or Set throws. */
  function Deserialize(text: string): Option<Value>
    decreases |text|, 1
  {
    var j := Parse(text);
    if j.None? then None else Revive(j.value)
  }

  /** The reviver, applied to everything below a value and then to the value. */
  function Revive(j: Json): Option<Value>
    decreases Size(j), 0
  {
    match j
    case JNull => Some(Null)
    case JBool(b) => Some(Bool(b))
    case JNum(t) => Some(Num(t))
    case JStr(s) => if LooksPrefixed(s) then RevivePrefixed(s) else Some(Str(s))
    case JArr(items) =>
      var vs := ReviveAll(items);
      if vs.None? then None else Some(Arr(vs.value))
    case JObj(members) =>
      var fs := ReviveFields(members);
      if fs.None? then None else Some(Obj(OwnOrder(fs.value)))
  }

  function ReviveAll(js: seq<Json>): Option<seq<Value>>
    decreases ItemsSize(js), 1
  {
    if js == [] then Some([])
    else
      var head, tail := Revive(js[0]), ReviveAll(js[1..]);
      if head.None? || tail.None? then None else Some([head.value] + tail.value)
  }

  function ReviveFields(ms: seq<Entry<Json>>): Option<seq<Entry<Value>>>
    decreases MembersSize(ms), 1
  {
    if ms == [] then Some([])
    else
      var head, tail := Revive(ms[0].value), ReviveFields(ms[1..]);
      if head.None? || tail.None? then None else Some([Entry(ms[0].key, head.value)] + tail.value)
  }

  /** Strings that start with a double bracket; a prefix the serializer does not know is left alone. */
  function RevivePrefixed(s: string): Option<Value>
    requires LooksPrefixed(s)
    decreases |s|, 2
  {
    if |s| < 6 then Some(Str(s))
    else
      var prefix, body := s[..6], s[6..];
      if prefix == "[[BI]]" then
        var n := IntValue(body);
        if n.None? then None else Some(BigInt(n.value))
      else if prefix == "[[DT]]" then
        var n := IntValue(body);
        if n.None? then None else Some(Date(n.value))
      else if prefix == "[[MP]]" then
        var inner := Deserialize(body);
        if inner.Some? && inner.value.Obj? then Some(MapOf(inner.value.fields)) else None
      else if prefix == "[[ST]]" then
        var inner := Deserialize(body);
        if inner.Some? && inner.value.Arr? then Some(SetOf(inner.value.items)) else None
      else if prefix == "[[BF]]" then
        var bytes := Unbase64(body);
        if bytes.None? then None else Some(Buffer(bytes.value))
      else if prefix == "[[RE]]" then
        var bar := IndexOfBar(body);
        Some(RegExp(if bar < |body| then body[bar + 1..] else "", body[..bar]))
      else if prefix == "[[ES]]" then Some(Str(body))
      else Some(Str(s))
  }

  // -------------------------------------------------------------------- round trip

  /** The value with the entries of every map in own-key order, which is all a round trip changes. */
  function Canon(v: Value): Value
    decreases v, 1
  {
    match v
    case Arr(items) => Arr(CanonAll(items))
    case Obj(fields) => Obj(CanonFields(fields))
    case MapOf(entries) => MapOf(OwnOrder(CanonFields(entries)))
    case SetOf(elements) => SetOf(CanonAll(elements))
    case _ => v
  }

  function CanonAll(vs: seq<Value>): seq<Value>
    decreases vs, 0
  {
    if vs == [] then [] else [Canon(vs[0])] + CanonAll(vs[1..])
  }

  function CanonFields(fs: seq<Entry<Value>>): seq<Entry<Value>>
    decreases fs, 0
  {
    if fs == [] then [] else [Entry(fs[0].key, Canon(fs[0].value))] + CanonFields(fs[1..])
  }

  lemma {:induction false} ReplaceFieldsMaps(fs: seq<Entry<Value>>)
    ensures ReplaceFields(fs) == MapValues(fs, Replace)
  {
    if fs != [] { ReplaceFieldsMaps(fs[1..]); }
  }

  lemma {:induction false} CanonFieldsMaps(fs: seq<Entry<Value>>)
    ensures CanonFields(fs) == MapValues(fs, Canon)
  {
    if fs != [] { CanonFieldsMaps(fs[1..]); }
  }

  lemma {:induction false} ReplaceIsValid(v: Value)
    requires Holdable(v)
    ensures Valid(Replace(v))
    decreases v, 1
  {
    match v
    case Arr(items) => ReplaceAllIsValid(items);
    case Obj(fields) => ReplaceFieldsIsValid(fields);
    case _ =>
  }

  lemma {:induction false} ReplaceAllIsValid(vs: seq<Value>)
    requires forall x <- vs :: Holdable(x)
    ensures forall j <- ReplaceAll(vs) :: Valid(j)
    decreases vs, 0
  {
    if vs != [] {
      ReplaceIsValid(vs[0]);
      ReplaceAllIsValid(vs[1..]);
    }
  }

  lemma {:induction false} ReplaceFieldsIsValid(fs: seq<Entry<Value>>)
    requires forall f <- fs :: Holdable(f.value)
    ensures forall m <- ReplaceFields(fs) :: Valid(m.value)
    decreases fs, 0
  {
    if fs != [] {
      ReplaceIsValid(fs[0].value);
      ReplaceFieldsIsValid(fs[1..]);
    }
  }

  /** The two texts a prefixed string is cut into. */
  lemma Prefixed(prefix: string, body: string)
    requires |prefix| == 6 && prefix[0] == '[' && prefix[1] == '['
    ensures LooksPrefixed(prefix + body) && (prefix + body)[..6] == prefix && (prefix + body)[6..] == body
  {
  }

  /** Members that revive one by one, in whatever order they were written. */
  lemma {:induction false} RevivePointwise(fs: seq<Entry<Value>>)
    requires forall f <- fs :: Revive(Replace(f.value)) == Some(Canon(f.value))
    ensures ReviveFields(MapValues(fs, Replace)) == Some(MapValues(fs, Canon))
  {
    if fs != [] {
      RevivePointwise(fs[1..]);
      assert fs[0] in fs;
      assert MapValues(fs, Replace)[1..] == MapValues(fs[1..], Replace);
    }
  }

  /** Reviving the members of an object that was written in own-key order. */
  lemma FieldsBack(fs: seq<Entry<Value>>)
    requires forall f <- fs :: Revive(Replace(f.value)) == Some(Canon(f.value))
    ensures Revive(JObj(OwnOrder(ReplaceFields(fs)))) == Some(Obj(OwnOrder(CanonFields(fs))))
  {
    ReplaceFieldsMaps(fs);
    CanonFieldsMaps(fs);
    OwnOrderMapped(fs, Replace);
    OwnOrderMapped(fs, Canon);
    OwnOrderKeepsEntries(fs);
    RevivePointwise(OwnOrder(fs));
    MembersRevived(OwnOrder(ReplaceFields(fs)), CanonFields(fs));
  }

  lemma MembersRevived(ms: seq<Entry<Json>>, fs: seq<Entry<Value>>)
    requires ReviveFields(ms) == Some(OwnOrder(fs))
    ensures Revive(JObj(ms)) == Some(Obj(OwnOrder(fs)))
  {
    OwnOrderTwice(fs);
  }

  lemma OwnOrderIsValid(ms: seq<Entry<Json>>)
    requires forall m <- ms :: Valid(m.value)
    ensures Valid(JObj(OwnOrder(ms)))
  {
    OwnOrderKeepsEntries(ms);
  }

  /** Reviving a map: its text is revived as an object first. */
  lemma MapTextBack(j: Json)
    requires Valid(j) && Revive(j).Some? && Revive(j).value.Obj?
    ensures Revive(JStr("[[MP]]" + Print(j))) == Some(MapOf(Revive(j).value.fields))
  {
    ParsePrint(j);
    Prefixed("[[MP]]", Print(j));
    assert Deserialize(Print(j)) == Revive(j);
  }

  lemma MapBack(entries: seq<Entry<Value>>)
    requires forall f <- entries :: Holdable(f.value) && Revive(Replace(f.value)) == Some(Canon(f.value))
    ensures Revive(Replace(MapOf(entries))) == Some(Canon(MapOf(entries)))
  {
    ReplaceFieldsIsValid(entries);
    OwnOrderIsValid(ReplaceFields(entries));
    FieldsBack(entries);
    MapTextBack(JObj(OwnOrder(ReplaceFields(entries))));
  }

  lemma SetBack(elements: seq<Value>)
    requires forall x <- elements :: Holdable(x)
    requires ReviveAll(ReplaceAll(elements)) == Some(CanonAll(elements))
    ensures Revive(Replace(SetOf(elements))) == Some(Canon(SetOf(elements)))
  {
    var j := JArr(ReplaceAll(elements));
    ReplaceAllIsValid(elements);
    ParsePrint(j);
    Prefixed("[[ST]]", Print(j));
    var s := "[[ST]]" + Print(j);
    assert Replace(SetOf(elements)) == JStr(s) && Revive(JStr(s)) == RevivePrefixed(s);
    assert Deserialize(Print(j)) == Revive(j);
  }

  lemma StringBack(s: string)
    ensures Revive(Replace(Str(s))) == Some(Str(s))
  {
    if LooksPrefixed(s) { Prefixed("[[ES]]", s); }
  }

  lemma NumberBack(n: int)
    ensures Revive(JStr("[[BI]]" + IntText(n))) == Some(BigInt(n))
    ensures Revive(JStr("[[DT]]" + IntText(n))) == Some(Date(n))
  {
    IntTextBack(n);
    Prefixed("[[BI]]", IntText(n));
    Prefixed("[[DT]]", IntText(n));
  }

  lemma BufferBack(bytes: seq<Byte>)
    ensures Revive(JStr("[[BF]]" + Base64(bytes))) == Some(Buffer(bytes))
  {
    Base64Back(bytes);
    BufferText(Base64(bytes), bytes);
  }

  lemma BufferText(text: string, bytes: seq<Byte>)
    requires Unbase64(text) == Some(bytes)
    ensures Revive(JStr("[[BF]]" + text)) == Some(Buffer(bytes))
  {
    Prefixed("[[BF]]", text);
  }

  lemma RegExpBack(source: string, flags: string)
    requires forall c <- flags :: c != '|'
    ensures Revive(JStr("[[RE]]" + (flags + "|" + source))) == Some(RegExp(source, flags))
  {
    var body := flags + "|" + source;
    BarAfterFlags(flags, source);
    Prefixed("[[RE]]", body);
    assert body[|flags| + 1..] == source && body[..|flags|] == flags;
  }

  lemma ScalarValueBack(v: Value)
    requires Holdable(v) && !v.Arr? && !v.Obj? && !v.MapOf? && !v.SetOf?
    ensures Revive(Replace(v)) == Some(v)
  {
    match v
    case Str(s) => StringBack(s);
    case BigInt(n) => NumberBack(n);
    case Date(ms) => NumberBack(ms);
    case Buffer(bytes) => BufferBack(bytes);
    case RegExp(source, flags) => RegExpBack(source, flags);
    case _ =>
  }

  lemma {:induction false} ReviveReplace(v: Value)
    requires Holdable(v)
    ensures Revive(Replace(v)) == Some(Canon(v))
    decreases v, 1
  {
    match v
    case Arr(items) => ReviveReplaceAll(items);
    case SetOf(elements) =>
      ReviveReplaceAll(elements);
      SetBack(elements);
    case Obj(fields) =>
      forall f | f in fields
        ensures Revive(Replace(f.value)) == Some(Canon(f.value))
      {
        ReviveReplace(f.value);
      }
      ObjectFieldsBack(fields);
    case MapOf(entries) =>
      forall f | f in entries
        ensures Holdable(f.value) && Revive(Replace(f.value)) == Some(Canon(f.value))
      {
        ReviveReplace(f.value);
      }
      MapBack(entries);
    case _ => ScalarValueBack(v);
  }

  lemma ObjectFieldsBack(fields: seq<Entry<Value>>)
    requires OwnOrder(fields) == fields
    requires forall f <- fields :: Revive(Replace(f.value)) == Some(Canon(f.value))
    ensures Revive(Replace(Obj(fields))) == Some(Canon(Obj(fields)))
  {
    FieldsBack(fields);
    ReplaceFieldsMaps(fields);
    CanonFieldsMaps(fields);
    OwnOrderMapped(fields, Replace);
    OwnOrderMapped(fields, Canon);
  }

  lemma {:induction false} ReviveReplaceAll(vs: seq<Value>)
    requires forall x <- vs :: Holdable(x)
    ensures ReviveAll(ReplaceAll(vs)) == Some(CanonAll(vs))
    decreases vs, 0
  {
    if vs != [] {
      ReviveReplace(vs[0]);
      ReviveReplaceAll(vs[1..]);
      assert ReplaceAll(vs)[1..] == ReplaceAll(vs[1..]);
    }
  }

  /** The round trip, for every value nested to any depth. */
  lemma RoundTrip(v: Value)
    requires Holdable(v)
    ensures Deserialize(Serialize(v)) == Some(Canon(v))
  {
    ReplaceIsValid(v);
    ParsePrint(Replace(v));
    ReviveReplace(v);
  }

  // -------------------------------------------- what the round trip does to maps

  /** Every map inside lists its index keys first and ascending. */
  predicate MapsInOwnOrder(v: Value) {
    match v
    case Arr(items) => forall x <- items :: MapsInOwnOrder(x)
    case Obj(fields) => forall f <- fields :: MapsInOwnOrder(f.value)
    case MapOf(entries) => OwnOrder(entries) == entries && forall f <- entries :: MapsInOwnOrder(f.value)
    case SetOf(elements) => forall x <- elements :: MapsInOwnOrder(x)
    case _ => true
  }

  lemma {:induction false} CanonSame(v: Value)
    ensures Canon(v) == v <==> MapsInOwnOrder(v)
    decreases v, 1
  {
    match v
    case Arr(items) => CanonAllSame(items);
    case SetOf(elements) => CanonAllSame(elements);
    case Obj(fields) => CanonFieldsSame(fields);
    case MapOf(entries) =>
      CanonFieldsSame(entries);
      CanonMapSame(entries);
    case _ =>
  }

  /** If reordering the canonical entries gives the original ones, both were in order already. */
  lemma CanonMapSame(entries: seq<Entry<Value>>)
    requires CanonFields(entries) == entries <==> forall f <- entries :: MapsInOwnOrder(f.value)
    ensures OwnOrder(CanonFields(entries)) == entries <==>
              OwnOrder(entries) == entries && forall f <- entries :: MapsInOwnOrder(f.value)
  {
    if OwnOrder(CanonFields(entries)) == entries {
      OwnOrderTwice(CanonFields(entries));
      CanonFieldsMaps(entries);
      OwnOrderMapped(entries, Canon);
      MapValuesAt(OwnOrder(entries), Canon);
      MapValuesAt(entries, Canon);
    }
  }

  lemma {:induction false} CanonAllSame(vs: seq<Value>)
    ensures CanonAll(vs) == vs <==> forall x <- vs :: MapsInOwnOrder(x)
    decreases vs, 0
  {
    if vs != [] {
      CanonSame(vs[0]);
      CanonAllSame(vs[1..]);
      assert vs == [vs[0]] + vs[1..] && CanonAll(vs)[1..] == CanonAll(vs[1..]);
    }
  }

  lemma {:induction false} CanonFieldsSame(fs: seq<Entry<Value>>)
    ensures CanonFields(fs) == fs <==> forall f <- fs :: MapsInOwnOrder(f.value)
    decreases fs, 0
  {
    if fs != [] {
      CanonSame(fs[0].value);
      CanonFieldsSame(fs[1..]);
      assert fs == [fs[0]] + fs[1..] && CanonFields(fs)[1..] == CanonFields(fs[1..]);
    }
  }

  /** The value comes back unchanged if and only if its maps list their keys in own-key order. */
  lemma RoundTripIsIdentityIff(v: Value)
    requires Holdable(v)
    ensures Deserialize(Serialize(v)) == Some(v) <==> MapsInOwnOrder(v)
  {
    RoundTrip(v);
    CanonSame(v);
  }

  /** A map whose insertion order is lost: an index key moves in front of a name. */
  lemma MapOrderIsLost(name: string, index: string, x: int, y: int)
    requires IsName(name) && IsIndex(index)
    ensures
      var v := MapOf([Entry(name, BigInt(x)), Entry(index, BigInt(y))]);
      Holdable(v) && Deserialize(Serialize(v)) == Some(MapOf([Entry(index, BigInt(y)), Entry(name, BigInt(x))]))
  {
    var a, b := Entry(name, BigInt(x)), Entry(index, BigInt(y));
    RoundTrip(MapOf([a, b]));
    assert [a, b][1..] == [b] && [b][1..] == [];
    assert CanonFields([b]) == [b] && CanonFields([a, b]) == [a, b];
    NameThenIndex(a, b);
  }

  lemma NameThenIndex<T>(a: Entry<T>, b: Entry<T>)
    requires IsName(a.key) && IsIndex(b.key)
    ensures OwnOrder([a, b]) == [b, a]
  {
    KeepConcat([a], [b], IsIndex);
    KeepConcat([a], [b], IsName);
    assert [a] + [b] == [a, b];
    KeepAll([a], IsName);
    KeepNone([b], IsName);
    KeepNone([a], IsIndex);
    KeepAll([b], IsIndex);
    SortOfSorted([b], IndexOf);
  }

  // ------------------------------------------------------------------ the wire format

  /** The text that a node reads from another one: a tag of six characters and the body behind it. */
  ghost predicate Tagged(j: Json, tag: string, body: string) {
    |tag| == 6 && j == JStr(tag + body)
  }

  /** What the body of each tag says, by the way it is read. */
  lemma WireFormat(n: int, bytes: seq<Byte>, source: string, flags: string, s: string)
    ensures exists t :: Tagged(Replace(BigInt(n)), "[[BI]]", t) && IntValue(t) == Some(n)
    ensures exists t :: Tagged(Replace(Date(n)), "[[DT]]", t) && IntValue(t) == Some(n)
    ensures exists t :: Tagged(Replace(Buffer(bytes)), "[[BF]]", t) && Unbase64(t) == Some(bytes)
    ensures Tagged(Replace(RegExp(source, flags)), "[[RE]]", flags + "|" + source)
    ensures if |s| >= 2 && s[..2] == "[[" then Tagged(Replace(Str(s)), "[[ES]]", s) else Replace(Str(s)) == JStr(s)
  {
    NumberFormat(n);
    BufferFormat(bytes);
    StringFormat(s);
  }

  lemma NumberFormat(n: int)
    ensures exists t :: Tagged(Replace(BigInt(n)), "[[BI]]", t) && IntValue(t) == Some(n)
    ensures exists t :: Tagged(Replace(Date(n)), "[[DT]]", t) && IntValue(t) == Some(n)
  {
    IntTextBack(n);
    assert Tagged(Replace(BigInt(n)), "[[BI]]", IntText(n)) && Tagged(Replace(Date(n)), "[[DT]]", IntText(n));
  }

  lemma BufferFormat(bytes: seq<Byte>)
    ensures exists t :: Tagged(Replace(Buffer(bytes)), "[[BF]]", t) && Unbase64(t) == Some(bytes)
  {
    Base64Back(bytes);
    assert Tagged(Replace(Buffer(bytes)), "[[BF]]", Base64(bytes));
  }

  lemma StringFormat(s: string)
    ensures if |s| >= 2 && s[..2] == "[[" then Tagged(Replace(Str(s)), "[[ES]]", s) else Replace(Str(s)) == JStr(s)
  {
    if |s| >= 2 { assert s[..2] == [s[0], s[1]]; }
  }

  /** Maps and sets carry the JSON text of an object in own-key order, and of an array. */
  lemma NestedWireFormat(v: Value)
    requires Holdable(v)
    ensures v.MapOf? ==> exists t :: Tagged(Replace(v), "[[MP]]", t)
                                     && Parse(t) == Some(JObj(OwnOrder(MapValues(v.entries, Replace))))
    ensures v.SetOf? ==> exists t :: Tagged(Replace(v), "[[ST]]", t) && Parse(t) == Some(JArr(ReplaceAll(v.elements)))
  {
    if v.MapOf? {
      var j := JObj(OwnOrder(ReplaceFields(v.entries)));
      ReplaceFieldsIsValid(v.entries);
      OwnOrderIsValid(ReplaceFields(v.entries));
      ReplaceFieldsMaps(v.entries);
      ParsePrint(j);
      assert Tagged(Replace(v), "[[MP]]", Print(j));
    }
    if v.SetOf? {
      var j := JArr(ReplaceAll(v.elements));
      ReplaceAllIsValid(v.elements);
      ParsePrint(j);
      assert Tagged(Replace(v), "[[ST]]", Print(j));
    }
  }

  /** Numbers are written in decimal. */
  lemma DecimalText(n: int)
    ensures IntText(-120) == "-120" && IntText(0) == "0"
    ensures n > 0 ==> IntText(0 - n) == "-" + IntText(n)
    ensures n >= 10 ==> IntText(n) == IntText(n / 10) + IntText(n % 10)
  {
    assert NatText(120) == NatText(12) + ['0'] && NatText(12) == NatText(1) + ['2'] && NatText(1) == "1";
  }

  /** A string with two brackets in front but none of the tags is left as it is. */
  lemma UnknownTagIsKept(s: string)
    requires |s| >= 2 && s[..2] == "[["
    requires |s| >= 6 ==> s[..6] !in {"[[BI]]", "[[DT]]", "[[MP]]", "[[ST]]", "[[BF]]", "[[RE]]", "[[ES]]"}
    ensures Revive(JStr(s)) == Some(Str(s))
  {
    assert s[..2][0] == s[0] && s[..2][1] == s[1];
  }

  /** The test vectors of section 10 of RFC 4648, and one with the last two digits. */
  lemma Base64Vectors()
    ensures Base64([102]) == "Zg==" && Base64([102, 111]) == "Zm8=" && Base64([102, 111, 111]) == "Zm9v"
    ensures Base64([102, 111, 111, 98, 97, 114]) == "Zm9vYmFy" && Base64([251, 255]) == "+/8="
  {
    assert [102 as Byte, 111, 111][3..] == [];
    assert [102 as Byte, 111, 111, 98, 97, 114][3..] == [98, 97, 114] && [98 as Byte, 97, 114][3..] == [];
  }
}
