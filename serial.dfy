/**
 * Serialisation of JSON values to text and back, standing in for
 * `json.dumps` and `json.load`. The encoding is self-delimiting: a one-letter
 * tag, decimal counts closed by ':', strings by length. What matters to the
 * rest of the model is that a value survives being written and read again
 * (`Loads(Dumps(v)) == Some(v)`), hence that `Dumps` is injective.
 */
module Serial {
  import opened Wrappers
  import opened Json

  predicate IsDigit(c: char) { '0' <= c <= '9' }

  predicate AllDigits(s: string) { forall i :: 0 <= i < |s| ==> IsDigit(s[i]) }

  function DigitChar(d: nat): (c: char)
    requires d < 10
    ensures IsDigit(c)
  {
    ('0' as int + d) as char
  }

  function DigitValue(c: char): nat
    requires IsDigit(c)
  {
    c as int - '0' as int
  }

  /** The decimal digits of `n`, most significant first. */
  function Decimal(n: nat): (s: string)
    ensures |s| > 0 && AllDigits(s)
  {
    if n < 10 then [DigitChar(n)] else Decimal(n / 10) + [DigitChar(n % 10)]
  }

  /** The number the digits `ds` denote, read left to right onto `acc`. */
  function Horner(acc: nat, ds: string): nat
    requires AllDigits(ds)
    decreases |ds|
  {
    if ds == [] then acc else Horner(acc * 10 + DigitValue(ds[0]), ds[1..])
  }

  /** Reads digits up to the first ':' onto `acc`; the text after the ':' is left over. */
  function ReadNat(s: string, acc: nat): (r: Option<(nat, string)>)
    ensures r.Some? ==> |r.value.1| < |s|
  {
    if s == [] then None
    else if s[0] == ':' then Some((acc, s[1..]))
    else if IsDigit(s[0]) then ReadNat(s[1..], acc * 10 + DigitValue(s[0]))
    else None
  }

  function Dumps(v: Json): string
  {
    match v
    case Null => "n"
    case Bool(b) => if b then "t" else "f"
    case Num(n) => if n >= 0 then "i" + Decimal(n) + ":" else "m" + Decimal(-n) + ":"
    case Str(s) => "s" + Decimal(|s|) + ":" + s
    case Arr(items) => "a" + Decimal(|items|) + ":" + DumpsItems(items)
    case Obj(fields) => "o" + Decimal(|fields|) + ":" + DumpsFields(fields)
  }

  function DumpsItems(items: seq<Json>): string
  {
    if items == [] then "" else Dumps(items[0]) + DumpsItems(items[1..])
  }

  function DumpsFields(fields: seq<Field>): string
  {
    if fields == [] then ""
    else
      var f := fields[0];
      Decimal(|f.key|) + ":" + f.key + Dumps(f.value) + DumpsFields(fields[1..])
  }

  /** Parses one value off the front of `s`, returning it with the text after it. */
  function Parse(s: string): (r: Option<(Json, string)>)
    ensures r.Some? ==> |r.value.1| < |s|
    decreases |s|, 0
  {
    if s == [] then None
    else if s[0] == 'n' then Some((Null, s[1..]))
    else if s[0] == 't' then Some((Bool(true), s[1..]))
    else if s[0] == 'f' then Some((Bool(false), s[1..]))
    else
      match ReadNat(s[1..], 0)
      case None => None
      case Some((n, rest)) => ParseCounted(s[0], n, rest)
  }

  /** Parses what follows a tag that carries a count: a number, a string, an array, an object. */
  function ParseCounted(tag: char, n: nat, rest: string): (r: Option<(Json, string)>)
    ensures r.Some? ==> |r.value.1| <= |rest|
    decreases |rest|, 2
  {
    if tag == 'i' then Some((Num(n), rest))
    else if tag == 'm' then Some((Num(-(n as int)), rest))
    else if tag == 's' then
      if n <= |rest| then Some((Str(rest[..n]), rest[n..])) else None
    else if tag == 'a' then
      match ParseItems(rest, n)
      case Some((items, rest')) => Some((Arr(items), rest'))
      case None => None
    else if tag == 'o' then
      match ParseFields(rest, n)
      case Some((fields, rest')) => Some((Obj(fields), rest'))
      case None => None
    else None
  }

  /** Parses `n` values in a row. */
  function ParseItems(s: string, n: nat): (r: Option<(seq<Json>, string)>)
    ensures r.Some? ==> |r.value.1| <= |s|
    decreases |s|, 1, n
  {
    if n == 0 then Some(([], s))
    else
      match Parse(s)
      case None => None
      case Some((v, rest)) =>
        match ParseItems(rest, n - 1)
        case None => None
        case Some((vs, rest')) => Some(([v] + vs, rest'))
  }

  /** Parses `n` key-value pairs in a row. */
  function ParseFields(s: string, n: nat): (r: Option<(seq<Field>, string)>)
    ensures r.Some? ==> |r.value.1| <= |s|
    decreases |s|, 1, n
  {
    if n == 0 then Some(([], s))
    else
      match ReadNat(s, 0)
      case None => None
      case Some((len, rest)) =>
        if len > |rest| then None
        else
          match Parse(rest[len..])
          case None => None
          case Some((v, rest')) =>
            match ParseFields(rest', n - 1)
            case None => None
            case Some((fs, rest'')) => Some(([Field(rest[..len], v)] + fs, rest''))
  }

  /** `json.load`: one whole value and nothing after it, or a decoding failure. */
  function Loads(text: string): Option<Json>
  {
    match Parse(text)
    case Some((v, rest)) => if rest == [] then Some(v) else None
    case None => None
  }

  lemma {:induction false} HornerSnoc(acc: nat, ds: string, c: char)
    requires AllDigits(ds) && IsDigit(c)
    ensures AllDigits(ds + [c])
    ensures Horner(acc, ds + [c]) == Horner(acc, ds) * 10 + DigitValue(c)
    decreases |ds|
  {
    if ds != [] {
      assert (ds + [c])[1..] == ds[1..] + [c];
      HornerSnoc(acc * 10 + DigitValue(ds[0]), ds[1..], c);
    }
  }

  lemma {:induction false} HornerDecimal(n: nat)
    ensures Horner(0, Decimal(n)) == n
  {
    if n >= 10 {
      HornerDecimal(n / 10);
      HornerSnoc(0, Decimal(n / 10), DigitChar(n % 10));
    }
  }

  lemma {:induction false} ReadDigits(ds: string, acc: nat, rest: string)
    requires AllDigits(ds)
    ensures ReadNat(ds + ":" + rest, acc) == Some((Horner(acc, ds), rest))
  {
    if ds != [] {
      assert (ds + ":" + rest)[1..] == ds[1..] + ":" + rest;
      ReadDigits(ds[1..], acc * 10 + DigitValue(ds[0]), rest);
    } else {
      assert ds + ":" + rest == [':'] + rest;
    }
  }

  /** A count written by `Decimal` and closed by ':' reads back as itself. */
  lemma ReadDecimal(n: nat, rest: string)
    ensures ReadNat(Decimal(n) + ":" + rest, 0) == Some((n, rest))
  {
    ReadDigits(Decimal(n), 0, rest);
    HornerDecimal(n);
  }

  /** Any value parses back off the front of its own encoding, whatever follows it. */
  lemma {:induction false} ParseDumps(v: Json, rest: string)
    ensures Parse(Dumps(v) + rest) == Some((v, rest))
    decreases v, 1
  {
    match v
    case Null =>
    case Bool(b) =>
    case Num(n) => ParseDumpsNum(n, rest);
    case Str(t) => ParseDumpsStr(t, rest);
    case Arr(items) =>
      ParseDumpsItems(items, rest);
      ParseArr(items, rest);
    case Obj(fields) =>
      ParseDumpsFields(fields, rest);
      ParseObj(fields, rest);
  }

  lemma ParseDumpsNum(n: int, rest: string)
    ensures Parse(Dumps(Num(n)) + rest) == Some((Num(n), rest))
  {
    var s := Dumps(Num(n)) + rest;
    if n >= 0 {
      assert s[0] == 'i' && s[1..] == Decimal(n) + ":" + rest;
      ReadDecimal(n, rest);
    } else {
      assert s[0] == 'm' && s[1..] == Decimal(-n) + ":" + rest;
      ReadDecimal(-n, rest);
    }
  }

  lemma ParseDumpsStr(t: string, rest: string)
    ensures Parse(Dumps(Str(t)) + rest) == Some((Str(t), rest))
  {
    var s := Dumps(Str(t)) + rest;
    assert s[0] == 's' && s[1..] == Decimal(|t|) + ":" + (t + rest);
    ReadDecimal(|t|, t + rest);
    assert (t + rest)[..|t|] == t && (t + rest)[|t|..] == rest;
  }

  /** An array parses back once its elements do. */
  lemma ParseArr(items: seq<Json>, rest: string)
    requires ParseItems(DumpsItems(items) + rest, |items|) == Some((items, rest))
    ensures Parse(Dumps(Arr(items)) + rest) == Some((Arr(items), rest))
  {
    var body := DumpsItems(items) + rest;
    var counted := Decimal(|items|) + ":" + body;
    DumpsArrSplit(items, rest);
    ReadDecimal(|items|, body);
    CountedArr(|items|, body, items, rest);
    ParseTagged('a', counted);
  }

  lemma CountedArr(n: nat, body: string, items: seq<Json>, rest: string)
    requires ParseItems(body, n) == Some((items, rest))
    ensures ParseCounted('a', n, body) == Some((Arr(items), rest))
  {
  }

  lemma DumpsArrSplit(items: seq<Json>, rest: string)
    ensures Dumps(Arr(items)) + rest == ['a'] + (Decimal(|items|) + ":" + (DumpsItems(items) + rest))
  {
    Regroup('a', Decimal(|items|), DumpsItems(items), rest);
  }

  /** An object parses back once its fields do. */
  lemma ParseObj(fields: seq<Field>, rest: string)
    requires ParseFields(DumpsFields(fields) + rest, |fields|) == Some((fields, rest))
    ensures Parse(Dumps(Obj(fields)) + rest) == Some((Obj(fields), rest))
  {
    var body := DumpsFields(fields) + rest;
    var counted := Decimal(|fields|) + ":" + body;
    DumpsObjSplit(fields, rest);
    ReadDecimal(|fields|, body);
    ParseTagged('o', counted);
  }

  lemma DumpsObjSplit(fields: seq<Field>, rest: string)
    ensures Dumps(Obj(fields)) + rest == ['o'] + (Decimal(|fields|) + ":" + (DumpsFields(fields) + rest))
  {
    Regroup('o', Decimal(|fields|), DumpsFields(fields), rest);
  }

  lemma Regroup(tag: char, count: string, body: string, rest: string)
    ensures [tag] + count + ":" + body + rest == [tag] + (count + ":" + (body + rest))
  {
  }

  /** A counted tag hands what follows its count to `ParseCounted`. */
  lemma ParseTagged(tag: char, counted: string)
    requires tag !in "ntf"
    ensures Parse([tag] + counted) ==
      match ReadNat(counted, 0)
      case None => None
      case Some((n, rest)) => ParseCounted(tag, n, rest)
  {
    assert ([tag] + counted)[1..] == counted;
  }

  lemma {:induction false} ParseDumpsItems(items: seq<Json>, rest: string)
    ensures ParseItems(DumpsItems(items) + rest, |items|) == Some((items, rest))
    decreases items, 0
  {
    if items != [] {
      var tail := DumpsItems(items[1..]) + rest;
      var s := DumpsItems(items) + rest;
      assert s == Dumps(items[0]) + tail;
      ParseDumps(items[0], tail);
      ParseDumpsItems(items[1..], rest);
      assert Parse(s) == Some((items[0], tail));
      assert ParseItems(tail, |items| - 1) == Some((items[1..], rest));
      assert [items[0]] + items[1..] == items;
    } else {
      assert DumpsItems(items) + rest == rest;
    }
  }

  lemma {:induction false} ParseDumpsFields(fields: seq<Field>, rest: string)
    ensures ParseFields(DumpsFields(fields) + rest, |fields|) == Some((fields, rest))
    decreases fields, 0
  {
    if fields != [] {
      var f := fields[0];
      var tail := DumpsFields(fields[1..]) + rest;
      var after := f.key + Dumps(f.value) + tail;
      var s := DumpsFields(fields) + rest;
      assert ReadNat(s, 0) == Some((|f.key|, after)) by {
        FieldsSplit(fields, rest);
        ReadDecimal(|f.key|, after);
      }
      assert Parse(after[|f.key|..]) == Some((f.value, tail)) by {
        assert after[|f.key|..] == Dumps(f.value) + tail;
        ParseDumps(f.value, tail);
      }
      assert ParseFields(tail, |fields| - 1) == Some((fields[1..], rest)) by {
        ParseDumpsFields(fields[1..], rest);
      }
      ParseFieldStep(s, |fields|, after, |f.key|, f.value, tail, fields[1..], rest);
      assert after[..|f.key|] == f.key;
      assert [Field(f.key, f.value)] + fields[1..] == fields;
    } else {
      assert DumpsFields(fields) + rest == rest;
    }
  }

  lemma FieldsSplit(fields: seq<Field>, rest: string)
    requires fields != []
    ensures DumpsFields(fields) + rest
         == Decimal(|fields[0].key|) + ":" + (fields[0].key + Dumps(fields[0].value) + (DumpsFields(fields[1..]) + rest))
  {
  }

  /** One field read: its key length, its key, its value, then the remaining fields. */
  lemma ParseFieldStep(s: string, n: nat, after: string, len: nat, v: Json, tail: string, fs: seq<Field>, rest: string)
    requires n > 0 && ReadNat(s, 0) == Some((len, after)) && len <= |after|
    requires Parse(after[len..]) == Some((v, tail))
    requires ParseFields(tail, n - 1) == Some((fs, rest))
    ensures ParseFields(s, n) == Some(([Field(after[..len], v)] + fs, rest))
  {
  }

  /** What `Dumps` writes, `Loads` reads back unchanged. */
  lemma LoadsDumps(v: Json)
    ensures Loads(Dumps(v)) == Some(v)
  {
    ParseDumps(v, []);
    assert Dumps(v) + [] == Dumps(v);
  }

  /** Two different values never serialise to the same text. */
  lemma DumpsInjective(v: Json, w: Json)
    requires Dumps(v) == Dumps(w)
    ensures v == w
  {
    LoadsDumps(v);
    LoadsDumps(w);
  }
}
