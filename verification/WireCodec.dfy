/**
  The wire codec of the protocol probe: variable-length numbers, tagged fields, and frames
  whose header tells its own width.  Printer and parser undo each other.
 */
module WireCodec {
  import opened Wrappers
  import opened ByteStrings

  datatype Error = Truncated | UnsupportedWire | Closed | TooLong

  // ---------------------------------------------------------------------
  // Variable-length numbers: seven bits a byte, least significant first.
  // ---------------------------------------------------------------------

  function Varint(n: nat): (r: Bytes)
    ensures r != []
  {
    if n > 127 then [n % 128 + 128] + Varint(n / 128) else [n]
  }

  // The number at the front of a stream and the bytes it takes.
  function ReadNumber(s: Bytes): (r: Option<(nat, nat)>)
    ensures r.Some? ==> 0 < r.value.1 <= |s|
  {
    if s == [] then None
    else if s[0] < 128 then Some((s[0], 1))
    else
      var rest := ReadNumber(s[1..]);
      if rest.None? then None else Some((s[0] - 128 + 128 * rest.value.0, rest.value.1 + 1))
  }

  lemma {:induction false} NumberRoundTrip(n: nat, rest: Bytes)
    ensures ReadNumber(Varint(n) + rest) == Some((n, |Varint(n)|))
    decreases n
  {
    if n > 127 {
      NumberRoundTrip(n / 128, rest);
      assert (Varint(n) + rest)[1..] == Varint(n / 128) + rest;
    }
  }

  // A number that is cut short is not read.
  lemma {:induction false} CutNumberIsRefused(n: nat, k: nat)
    requires k < |Varint(n)|
    ensures ReadNumber(Varint(n)[..k]).None?
    decreases n
  {
    if n > 127 && k > 0 {
      CutNumberIsRefused(n / 128, k - 1);
      assert Varint(n)[..k][1..] == Varint(n / 128)[..k - 1];
    }
  }

  // No reading of a number is shorter than what is written for it.
  lemma {:induction false} VarintIsShortest(s: Bytes)
    requires ReadNumber(s).Some?
    ensures |Varint(ReadNumber(s).value.0)| <= ReadNumber(s).value.1
    decreases |s|
  {
    if s[0] >= 128 {
      VarintIsShortest(s[1..]);
      var n := ReadNumber(s).value.0;
      assert n / 128 == ReadNumber(s[1..]).value.0;
    }
  }

  function Power128(i: nat): (p: nat)
    ensures p > 0
  {
    if i == 0 then 1 else 128 * Power128(i - 1)
  }

  // Byte i holds the i-th seven bits; every byte but the last has its high bit set, and no
  // bits are left above the last.
  lemma {:induction false} VarintBytes(n: nat, i: nat)
    requires i < |Varint(n)|
    ensures Varint(n)[i] == n / Power128(i) % 128 + if i < |Varint(n)| - 1 then 128 else 0
    ensures i == |Varint(n)| - 1 ==> n / Power128(i) < 128 && (i > 0 ==> n / Power128(i) > 0)
    decreases n
  {
    if n > 127 && i > 0 {
      VarintBytes(n / 128, i - 1);
      DivideTwice(n, Power128(i - 1));
    }
  }

  lemma DivideTwice(n: nat, p: nat)
    requires p > 0
    ensures n / 128 / p == n / (128 * p)
  {
    var a := n / 128;
    Divided(a, p);
    DividedTwice(n, p, 128 * p, a / p, a % p, n % 128);
  }

  lemma Divided(a: nat, p: nat)
    requires p > 0
    ensures a == p * (a / p) + a % p
  {
  }

  lemma DividedTwice(n: nat, p: nat, m: nat, q: nat, r: nat, b: nat)
    requires m == 128 * p && r < p && b < 128 && n == 128 * (p * q + r) + b
    ensures n / m == q
  {
    assert m * q == 128 * (p * q);
    DivideExactly(n, m, q, 128 * r + b);
  }

  lemma DivideExactly(n: nat, p: nat, q: nat, r: nat)
    requires n == p * q + r && r < p
    ensures n / p == q
  {
    var d := n / p;
    assert p * d <= n < p * d + p;
    TimesKeepsOrder(p, d + 1, q);
    TimesKeepsOrder(p, q + 1, d);
  }

  lemma TimesKeepsOrder(p: nat, a: nat, b: nat)
    ensures a <= b ==> p * a <= p * b
  {
  }

  // A negative number does not fit its last byte.
  method EncodeVarint(number: int) returns (r: Option<Bytes>)
    ensures r == if number < 0 then None else Some(Varint(number))
  {
    if number < 0 {
      return None;
    }
    var n, result := number, [];
    while n > 127
      invariant n >= 0 && Varint(number) == result + Varint(n)
    {
      result := result + [n % 128 + 128];
      n := n / 128;
    }
    r := Some(result + [n]);
  }

  // ---------------------------------------------------------------------
  // Fields and messages.
  // ---------------------------------------------------------------------

  datatype Value = Number(number: nat) | Blob(bytes: Bytes)

  datatype Field = Field(key: nat, value: Value)

  // The key and the wire type: 0 for a number, 2 for a blob.
  function Tag(f: Field): nat {
    8 * f.key + if f.value.Blob? then 2 else 0
  }

  // The number itself, or the size of the blob.
  function Content(f: Field): nat {
    if f.value.Blob? then |f.value.bytes| else f.value.number
  }

  function Header(f: Field): Bytes {
    Varint(Tag(f)) + Varint(Content(f))
  }

  function Payload(f: Field): Bytes {
    if f.value.Blob? then f.value.bytes else []
  }

  function Message(fields: seq<Field>): Bytes {
    if fields == [] then [] else Header(fields[0]) + Payload(fields[0]) + Message(fields[1..])
  }

  method EncodeNumber(field: int, value: int) returns (r: Option<Bytes>)
    ensures r == if field < 0 || value < 0 then None else Some(Message([Field(field, Number(value))]))
    ensures field >= 0 && value >= 0 ==> r == Some(Varint(8 * field) + Varint(value))
  {
    var tag := EncodeVarint(8 * field);
    var number := EncodeVarint(value);
    r := if tag.None? || number.None? then None else Some(tag.value + number.value);
    MessageOfOne(field, value, []);
  }

  method EncodeBlob(field: int, value: Bytes) returns (r: Option<Bytes>)
    ensures r == if field < 0 then None else Some(Message([Field(field, Blob(value))]))
    ensures field >= 0 ==> r == Some(Varint(8 * field + 2) + Varint(|value|) + value)
  {
    var tag := EncodeVarint(8 * field + 2);
    var size := EncodeVarint(|value|);
    r := if tag.None? then None else Some(tag.value + size.value + value);
    MessageOfOne(field, 0, value);
  }

  lemma MessageOfOne(field: int, number: int, bytes: Bytes)
    ensures field >= 0 && number >= 0 ==> Message([Field(field, Number(number))]) == Varint(8 * field) + Varint(number)
    ensures field >= 0 ==> Message([Field(field, Blob(bytes))]) == Varint(8 * field + 2) + Varint(|bytes|) + bytes
  {
  }

  function Least(a: nat, b: nat): (r: nat)
    ensures r == a || r == b
    ensures r <= a && r <= b
  {
    if a < b then a else b
  }

  // The field at the front of a stream and the bytes it claims, which may be more than are
  // left: a blob cut short is read as what there is of it.
  function ReadField(s: Bytes): (r: Result<(Field, nat), Error>)
    ensures r.Success? ==> r.value.1 > 0
  {
    var tag := ReadNumber(s);
    if tag.None? then Failure(Truncated)
    else
      var t := s[tag.value.1..];
      var key := tag.value.0 / 8;
      if tag.value.0 % 8 == 0 then
        var number := ReadNumber(t);
        if number.None? then Failure(Truncated)
        else Success((Field(key, Number(number.value.0)), tag.value.1 + number.value.1))
      else if tag.value.0 % 8 == 2 then
        var size := ReadNumber(t);
        if size.None? then Failure(Truncated)
        else
          var u := t[size.value.1..];
          Success((Field(key, Blob(u[..Least(size.value.0, |u|)])), tag.value.1 + size.value.1 + size.value.0))
      else Failure(UnsupportedWire)
  }

  function Prepended(done: seq<Field>, more: Result<seq<Field>, Error>): Result<seq<Field>, Error> {
    if more.Failure? then more else Success(done + more.value)
  }

  // All fields of a message in order.
  function Fields(s: Bytes): Result<seq<Field>, Error> {
    if s == [] then Success([])
    else
      var f := ReadField(s);
      if f.Failure? then Failure(f.error)
      else Prepended([f.value.0], Fields(s[Least(f.value.1, |s|)..]))
  }

  function LastWrites(fields: seq<Field>): map<nat, Value> {
    if fields == [] then map[]
    else
      var f := fields[|fields| - 1];
      LastWrites(fields[..|fields| - 1])[f.key := f.value]
  }

  // The last write of a key wins, and nothing else is in the map.
  lemma {:induction false} LastWriteWins(fields: seq<Field>, key: nat, value: Value)
    ensures (key in LastWrites(fields) && LastWrites(fields)[key] == value) <==> LastWriteIs(fields, key, value)
    decreases |fields|
  {
    hide LastWriteIs;
    if fields == [] {
      NoLastWrite(key, value);
    }
    if fields != [] {
      var shorter, last := fields[..|fields| - 1], fields[|fields| - 1];
      LastWriteWins(shorter, key, value);
      assert fields == shorter + [last];
      LastWriteAt(shorter, last, key, value);
    }
  }

  ghost predicate LastWriteIs(fields: seq<Field>, key: nat, value: Value) {
    exists i :: 0 <= i < |fields| && fields[i] == Field(key, value)
                && forall j :: i < j < |fields| ==> fields[j].key != key
  }

  lemma NoLastWrite(key: nat, value: Value)
    ensures !LastWriteIs([], key, value)
  {
  }

  lemma LastWriteAt(shorter: seq<Field>, last: Field, key: nat, value: Value)
    ensures LastWriteIs(shorter + [last], key, value) <==>
            if last.key == key then last.value == value else LastWriteIs(shorter, key, value)
  {
    var fields := shorter + [last];
    if last == Field(key, value) {
      assert fields[|shorter|] == Field(key, value);
    } else if last.key != key {
      if i :| 0 <= i < |shorter| && shorter[i] == Field(key, value)
              && forall j :: i < j < |shorter| ==> shorter[j].key != key {
        assert fields[i] == Field(key, value);
      }
      if i :| 0 <= i < |fields| && fields[i] == Field(key, value)
              && forall j :: i < j < |fields| ==> fields[j].key != key {
        assert shorter[i] == Field(key, value);
        assert forall j :: i < j < |shorter| ==> shorter[j] == fields[j];
      }
    } else {
      assert fields[|shorter|].key == key;
    }
  }

  method ReadInt(data: Bytes, start: nat) returns (r: Option<(nat, nat)>)
    requires start <= |data|
    ensures r == NumberAt(data, start)
  {
    hide ReadNumber, Shifted, Plus;
    NothingShifted(ReadNumber(data[start..]));
    var n: nat, power: nat, offset: nat := 0, 1, start;
    while true
      invariant start <= offset <= |data|
      invariant ReadNumber(data[start..]) == Shifted(ReadNumber(data[offset..]), n, power, offset - start)
      decreases |data| - offset
    {
      NumberStep(data[offset..], n, power, offset - start);
      if offset == |data| {
        return None;
      }
      var b := data[offset];
      assert data[offset..][1..] == data[offset + 1..];
      offset := offset + 1;
      if b < 128 {
        return Some((Plus(n, b, power), offset));
      }
      n := Plus(n, b - 128, power);
      power := power * 128;
    }
  }

  // What is read in all, when the bytes before gave n and the next one counts `power`.
  function Shifted(rest: Option<(nat, nat)>, n: nat, power: nat, k: nat): Option<(nat, nat)> {
    if rest.None? then None else Some((n + rest.value.0 * power, k + rest.value.1))
  }

  function Plus(n: nat, digit: nat, power: nat): nat {
    n + digit * power
  }

  lemma NumberStep(s: Bytes, n: nat, power: nat, k: nat)
    ensures s == [] ==> Shifted(ReadNumber(s), n, power, k) == None
    ensures s != [] && s[0] < 128 ==> Shifted(ReadNumber(s), n, power, k) == Some((Plus(n, s[0], power), k + 1))
    ensures s != [] && s[0] >= 128 ==>
              Shifted(ReadNumber(s), n, power, k) ==
                Shifted(ReadNumber(s[1..]), Plus(n, s[0] - 128, power), power * 128, k + 1)
  {
    hide ReadNumber;
    FirstByte(s);
    if s != [] && s[0] >= 128 {
      LaterByte(ReadNumber(s[1..]), s[0] - 128, n, power, k);
    }
  }

  // A byte with its high bit set counts in front of what follows.
  function InFront(low: nat, rest: Option<(nat, nat)>): Option<(nat, nat)> {
    if rest.None? then None else Some((low + 128 * rest.value.0, rest.value.1 + 1))
  }

  lemma FirstByte(s: Bytes)
    ensures s == [] ==> ReadNumber(s) == None
    ensures s != [] && s[0] < 128 ==> ReadNumber(s) == Some((s[0], 1))
    ensures s != [] && s[0] >= 128 ==> ReadNumber(s) == InFront(s[0] - 128, ReadNumber(s[1..]))
  {
  }

  lemma LaterByte(rest: Option<(nat, nat)>, low: nat, n: nat, power: nat, k: nat)
    ensures Shifted(InFront(low, rest), n, power, k) == Shifted(rest, Plus(n, low, power), power * 128, k + 1)
  {
    if rest.Some? {
      var high := rest.value.0;
      assert (low + 128 * high) * power == low * power + 128 * high * power;
      assert high * (power * 128) == 128 * high * power;
    }
  }

  lemma NothingShifted(r: Option<(nat, nat)>)
    ensures Shifted(r, 0, 1, 0) == r
  {
  }

  // One round of the loop: the field at an offset, and the offset behind what it claims.
  method DecodeField(data: Bytes, i: nat) returns (r: Result<(Field, nat), Error>)
    requires i < |data|
    ensures var f := ReadField(After(data, i));
            if f.Failure? then r == Failure(f.error) else r == Success((f.value.0, i + f.value.1))
  {
    hide ReadField, NumberAt, After;
    FieldAt(data, i);
    var tag := ReadInt(data, i);
    if tag.None? {
      return Failure(Truncated);
    }
    var key := tag.value.0 / 8;
    if tag.value.0 % 8 == 0 {
      var number := ReadInt(data, tag.value.1);
      if number.None? {
        return Failure(Truncated);
      }
      r := Success((Field(key, Number(number.value.0)), number.value.1));
    } else if tag.value.0 % 8 == 2 {
      var size := ReadInt(data, tag.value.1);
      if size.None? {
        return Failure(Truncated);
      }
      var end := size.value.1 + size.value.0;
      r := Success((Field(key, Blob(data[size.value.1..Least(end, |data|)])), end));
    } else {
      r := Failure(UnsupportedWire);
    }
  }

  method Decode(data: Bytes) returns (r: Result<map<nat, Value>, Error>)
    ensures var fields := Fields(data);
            r == if fields.Failure? then Failure(fields.error) else Success(LastWrites(fields.value))
  {
    var result: map<nat, Value> := map[];
    var i: nat := 0;
    ghost var done: seq<Field> := [];
    hide Fields, LastWrites, ReadField, After, ReadSoFar, Payload, Message, Varint, ReadNumber;
    Start(data);
    while i < |data|
      invariant ReadSoFar(data, i, done, result)
      decreases |data| - i
    {
      FailedField(data, i, done, result);
      var f := DecodeField(data, i);
      if f.Failure? {
        return Failure(f.error);
      }
      OneMore(data, i, done, result, f.value.0, f.value.1 - i);
      result := result[f.value.0.key := f.value.0.value];
      done := done + [f.value.0];
      i := f.value.1;
    }
    AllRead(data, i, done, result);
    r := Success(result);
  }

  // The number at an offset, and the offset behind it.
  function NumberAt(data: Bytes, i: nat): (r: Option<(nat, nat)>)
    requires i <= |data|
    ensures r.Some? ==> i < r.value.1 <= |data|
  {
    var number := ReadNumber(data[i..]);
    if number.None? then None else Some((number.value.0, i + number.value.1))
  }

  // Reading a field by offsets.
  lemma FieldAt(data: Bytes, i: nat)
    requires i < |data|
    ensures After(data, i) != []
    ensures var tag := NumberAt(data, i);
            if tag.None? then ReadField(After(data, i)) == Failure(Truncated)
            else
              var number := NumberAt(data, tag.value.1);
              if tag.value.0 % 8 != 0 && tag.value.0 % 8 != 2 then ReadField(After(data, i)) == Failure(UnsupportedWire)
              else if number.None? then ReadField(After(data, i)) == Failure(Truncated)
              else if tag.value.0 % 8 == 0 then
                ReadField(After(data, i)) ==
                  Success((Field(tag.value.0 / 8, Number(number.value.0)), number.value.1 - i))
              else
                var end := number.value.1 + number.value.0;
                ReadField(After(data, i)) ==
                Success((Field(tag.value.0 / 8, Blob(data[number.value.1..Least(end, |data|)])), end - i))
  {
    hide ReadNumber;
    var s := After(data, i);
    assert s == data[i..];
    var tag := NumberAt(data, i);
    if tag.Some? {
      assert s[tag.value.1 - i..] == data[tag.value.1..];
      var number := NumberAt(data, tag.value.1);
      if number.Some? {
        var u := data[number.value.1..];
        assert data[tag.value.1..][number.value.1 - tag.value.1..] == u;
        assert u[..Least(number.value.0, |u|)] == data[number.value.1..Least(number.value.1 + number.value.0, |data|)];
      }
    }
  }

  // The fields before offset i, and the map of their last writes.
  ghost predicate ReadSoFar(data: Bytes, i: nat, done: seq<Field>, result: map<nat, Value>) {
    result == LastWrites(done) && Fields(data) == Prepended(done, Fields(After(data, i)))
  }

  lemma AllRead(data: Bytes, i: nat, done: seq<Field>, result: map<nat, Value>)
    requires i >= |data| && ReadSoFar(data, i, done, result)
    ensures Fields(data) == Success(done) && result == LastWrites(done)
  {
    assert After(data, i) == [];
    assert done + [] == done;
  }

  function After(data: Bytes, i: nat): Bytes {
    data[Least(i, |data|)..]
  }

  lemma Start(data: Bytes)
    ensures ReadSoFar(data, 0, [], map[])
  {
    hide Fields;
    assert After(data, 0) == data;
    if Fields(data).Success? {
      assert [] + Fields(data).value == Fields(data).value;
    }
  }

  lemma FieldsStep(s: Bytes)
    requires s != []
    ensures var f := ReadField(s);
            Fields(s) ==
              if f.Failure? then Failure(f.error) else Prepended([f.value.0], Fields(s[Least(f.value.1, |s|)..]))
  {
  }

  lemma LastWriteStep(done: seq<Field>, f: Field)
    ensures LastWrites(done + [f]) == LastWrites(done)[f.key := f.value]
  {
    assert (done + [f])[..|done|] == done;
  }

  lemma PrependedTwice(done: seq<Field>, f: Field, more: Result<seq<Field>, Error>)
    ensures Prepended(done, Prepended([f], more)) == Prepended(done + [f], more)
  {
    if more.Success? {
      assert done + ([f] + more.value) == done + [f] + more.value;
    }
  }

  lemma FailedField(data: Bytes, i: nat, done: seq<Field>, result: map<nat, Value>)
    requires i < |data| && ReadSoFar(data, i, done, result)
    ensures ReadField(After(data, i)).Failure? ==> Fields(data) == Failure(ReadField(After(data, i)).error)
  {
    hide Fields, ReadField;
    FieldsStep(After(data, i));
  }

  lemma OneMore(data: Bytes, i: nat, done: seq<Field>, result: map<nat, Value>, f: Field, n: nat)
    requires i < |data| && ReadSoFar(data, i, done, result) && ReadField(After(data, i)) == Success((f, n))
    ensures ReadSoFar(data, i + n, done + [f], result[f.key := f.value])
  {
    hide Fields, ReadField, LastWrites, Prepended;
    var s := After(data, i);
    FieldsStep(s);
    assert s[Least(n, |s|)..] == After(data, i + n);
    PrependedTwice(done, f, Fields(After(data, i + n)));
    LastWriteStep(done, f);
  }

  // ---------------------------------------------------------------------
  // What is written is read back.
  // ---------------------------------------------------------------------

  lemma ReadsHeader(f: Field, k: nat, rest: Bytes)
    requires k <= |Payload(f)| && (k < |Payload(f)| ==> rest == [])
    ensures ReadField(Header(f) + Payload(f)[..k] + rest) ==
            Success((if f.value.Blob? then Field(f.key, Blob(f.value.bytes[..k])) else f, |Header(f)| + |Payload(f)|))
  {
    hide ReadNumber, Varint, ReadField;
    var s := Header(f) + Payload(f)[..k] + rest;
    var u := Payload(f)[..k] + rest;
    assert s == Varint(Tag(f)) + (Varint(Content(f)) + u);
    NumberRoundTrip(Tag(f), Varint(Content(f)) + u);
    assert s[|Varint(Tag(f))|..] == Varint(Content(f)) + u;
    NumberRoundTrip(Content(f), u);
    assert (Varint(Content(f)) + u)[|Varint(Content(f))|..] == u;
    ReadsTagAndContent(s, f, |Varint(Tag(f))|, |Varint(Content(f))|);
    if f.value.Blob? {
      assert u[..Least(Content(f), |u|)] == f.value.bytes[..k];
    }
  }

  lemma ReadsTagAndContent(s: Bytes, f: Field, a: nat, b: nat)
    requires ReadNumber(s) == Some((Tag(f), a)) && ReadNumber(s[a..]) == Some((Content(f), b))
    ensures var u := s[a..][b..];
            ReadField(s) ==
            if f.value.Blob? then Success((Field(f.key, Blob(u[..Least(Content(f), |u|)])), a + b + Content(f)))
            else Success((f, a + b))
  {
    hide ReadNumber;
  }

  lemma {:induction false} ReadsMessage(fields: seq<Field>, more: Bytes)
    ensures Fields(Message(fields) + more) == Prepended(fields, Fields(more))
    decreases |fields|
  {
    hide ReadField, Header, Fields;
    if fields == [] {
      assert Message(fields) + more == more;
      if Fields(more).Success? {
        assert [] + Fields(more).value == Fields(more).value;
      }
    } else {
      var f, rest := fields[0], Message(fields[1..]) + more;
      var s := Message(fields) + more;
      assert s == Header(f) + Payload(f)[..|Payload(f)|] + rest;
      ReadsHeader(f, |Payload(f)|, rest);
      if f.value.Blob? {
        assert f.value.bytes[..|f.value.bytes|] == f.value.bytes;
      }
      FieldsStep(s);
      assert s[|Header(f)| + |Payload(f)|..] == rest;
      ReadsMessage(fields[1..], more);
      PrependedTwice([], f, Fields(rest));
      PrependedTail(fields, Fields(more));
    }
  }

  lemma PrependedTail(fields: seq<Field>, more: Result<seq<Field>, Error>)
    requires fields != []
    ensures Prepended([fields[0]], Prepended(fields[1..], more)) == Prepended(fields, more)
  {
    if more.Success? {
      assert [fields[0]] + (fields[1..] + more.value) == fields + more.value;
    }
  }

  lemma MessageRoundTrip(fields: seq<Field>)
    ensures Fields(Message(fields)) == Success(fields)
  {
    hide Message;
    ReadsMessage(fields, []);
    assert Message(fields) + [] == Message(fields);
    assert fields + [] == fields;
  }

  // A field of any other wire type is refused, whatever was read before it and follows it.
  lemma OtherWireIsRefused(fields: seq<Field>, key: nat, wire: nat, rest: Bytes)
    requires wire < 8 && wire != 0 && wire != 2
    ensures Fields(Message(fields) + (Varint(8 * key + wire) + rest)) == Failure(UnsupportedWire)
  {
    hide Message, Varint, ReadNumber;
    var s := Varint(8 * key + wire) + rest;
    ReadsMessage(fields, s);
    NumberRoundTrip(8 * key + wire, rest);
    assert s != [];
  }

  lemma CutHeaderIsRefused(f: Field, k: nat)
    requires 0 < k < |Header(f)|
    ensures ReadField(Header(f)[..k]) == Failure(Truncated)
  {
    hide ReadNumber, Varint;
    var s := Header(f)[..k];
    if k < |Varint(Tag(f))| {
      CutNumberIsRefused(Tag(f), k);
      assert s == Varint(Tag(f))[..k];
    } else {
      var part := Varint(Content(f))[..k - |Varint(Tag(f))|];
      assert s == Varint(Tag(f)) + part;
      NumberRoundTrip(Tag(f), part);
      assert s[|Varint(Tag(f))|..] == part;
      CutNumberIsRefused(Content(f), |part|);
    }
  }

  /**
    A message cut short is refused exactly when the cut falls inside a header: between two
    fields it reads as the fields before, and inside a blob as a shorter blob.
   */
  lemma CutMessage(fields: seq<Field>, f: Field, k: nat)
    requires k < |Header(f)| + |Payload(f)|
    ensures Fields(Message(fields) + (Header(f) + Payload(f))[..k]) ==
            if k == 0 then Success(fields)
            else if k < |Header(f)| then Failure(Truncated)
            else Success(fields + [Field(f.key, Blob(Payload(f)[..k - |Header(f)|]))])
  {
    hide ReadField, Header, Message;
    var s := (Header(f) + Payload(f))[..k];
    ReadsMessage(fields, s);
    if k == 0 {
      assert fields + [] == fields;
    } else if k < |Header(f)| {
      assert s == Header(f)[..k];
      CutHeaderIsRefused(f, k);
    } else {
      assert s == Header(f) + Payload(f)[..k - |Header(f)|] + [];
      ReadsHeader(f, k - |Header(f)|, []);
      FieldsStep(s);
      assert s[|s|..] == [];
      var cut := Field(f.key, Blob(Payload(f)[..k - |Header(f)|]));
      PrependedTwice(fields, cut, Success([]));
      assert fields + [cut] + [] == fields + [cut];
    }
  }

  // ---------------------------------------------------------------------
  // Frames: a little-endian header of one to four bytes, its two low bits the width.
  // ---------------------------------------------------------------------

  function Power(w: nat): nat {
    if w == 0 then 1 else 256 * Power(w - 1)
  }

  function Little(n: nat, width: nat): (r: Bytes)
    ensures |r| == width
  {
    if width == 0 then [] else [n % 256] + Little(n / 256, width - 1)
  }

  function FromLittle(s: Bytes): nat {
    if s == [] then 0 else s[0] + 256 * FromLittle(s[1..])
  }

  lemma {:induction false} LittleRoundTrip(n: nat, width: nat)
    requires n < Power(width)
    ensures FromLittle(Little(n, width)) == n
    decreases width
  {
    if width > 0 {
      LittleRoundTrip(n / 256, width - 1);
      assert Little(n, width)[1..] == Little(n / 256, width - 1);
    }
  }

  // A quarter of what `width` bytes can hold.
  function Capacity(width: nat): nat
    requires 1 <= width <= 4
  {
    if width == 1 then 0x40 else if width == 2 then 0x4000 else if width == 3 then 0x40_0000 else 0x4000_0000
  }

  // The least width that holds a length, if four bytes can.
  function Width(size: nat): (width: Option<nat>)
    ensures width.None? <==> size >= Capacity(4)
    ensures width.Some? ==> 1 <= width.value <= 4 && size < Capacity(width.value)
    ensures width.Some? ==> forall w :: 1 <= w < width.value ==> size >= Capacity(w)
  {
    if size < Capacity(1) then Some(1)
    else if size < Capacity(2) then Some(2)
    else if size < Capacity(3) then Some(3)
    else if size < Capacity(4) then Some(4)
    else None
  }

  function Frame(data: Bytes): Option<Bytes> {
    var width := Width(|data|);
    if width.None? then None else Some(Little(4 * |data| + width.value - 1, width.value) + data)
  }

  const MAX_FRAME := 1024 * 1024

  // What reading one frame yields, and the stream that is left.
  function NextFrame(stream: Bytes): (Result<Bytes, Error>, Bytes) {
    if stream == [] then (Failure(Closed), [])
    else
      var width := stream[0] % 4 + 1;
      if |stream| < width then (Failure(Closed), [])
      else
        var size := FromLittle(stream[..width]) / 4;
        if size >= MAX_FRAME then (Failure(TooLong), stream[width..])
        else if |stream| < width + size then (Failure(Closed), [])
        else (Success(stream[width..width + size]), stream[width + size..])
  }

  /**
    The bytes of a frame: four times the size plus the width less one, in one to four bytes,
    least significant first, and then the payload.
   */
  lemma FrameBytes(data: Bytes)
    ensures var n := 4 * |data|;
            Frame(data) ==
            if |data| < 64 then Some([n] + data)
            else if |data| < 16384 then Some([(n + 1) % 256, (n + 1) / 256] + data)
            else if |data| < 4194304 then Some([(n + 2) % 256, (n + 2) / 256 % 256, (n + 2) / 65536] + data)
            else if |data| < 1073741824 then
              Some([(n + 3) % 256, (n + 3) / 256 % 256, (n + 3) / 65536 % 256, (n + 3) / 16777216] + data)
            else None
  {
    hide Little;
    var n := 4 * |data|;
    if |data| < 64 {
      LittleBytes(n, 1);
    } else if |data| < 16384 {
      LittleBytes(n + 1, 2);
    } else if |data| < 4194304 {
      LittleBytes(n + 2, 3);
    } else if |data| < 1073741824 {
      LittleBytes(n + 3, 4);
    }
  }

  lemma LittleBytes(n: nat, width: nat)
    ensures width == 1 && n < 256 ==> Little(n, width) == [n]
    ensures width == 2 && n < 65536 ==> Little(n, width) == [n % 256, n / 256]
    ensures width == 3 && n < 16777216 ==> Little(n, width) == [n % 256, n / 256 % 256, n / 65536]
    ensures width == 4 && n < 4294967296 ==>
              Little(n, width) == [n % 256, n / 256 % 256, n / 65536 % 256, n / 16777216]
    decreases width
  {
    if width > 0 {
      hide Little;
      LittleBytes(n / 256, width - 1);
      LittleStep(n, width);
      assert n / 256 / 256 == n / 65536 && n / 256 / 65536 == n / 16777216;
    }
  }

  lemma LittleStep(n: nat, width: nat)
    ensures width > 0 ==> Little(n, width) == [n % 256] + Little(n / 256, width - 1)
    ensures width == 0 ==> Little(n, width) == []
  {
  }

  function ByteAt(s: Bytes, i: nat): nat {
    if i < |s| then s[i] else 0
  }

  // The size that a header of up to four bytes tells.
  function SizeTold(header: Bytes): nat {
    ByteAt(header, 0) / 4 + 64 * ByteAt(header, 1) + 16384 * ByteAt(header, 2) + 4194304 * ByteAt(header, 3)
  }

  /**
    What the reader makes of any stream: the two low bits of the first byte tell the width of
    the header, and the rest of the header the size, which must be below a mebibyte.
   */
  lemma HeaderIsRead(stream: Bytes)
    ensures stream == [] || |stream| < stream[0] % 4 + 1 ==> NextFrame(stream) == (Failure(Closed), [])
    ensures stream != [] && |stream| >= stream[0] % 4 + 1 ==>
              var width := stream[0] % 4 + 1;
              var size := SizeTold(stream[..width]);
              NextFrame(stream) ==
              if size >= 1048576 then (Failure(TooLong), stream[width..])
              else if |stream| < width + size then (Failure(Closed), [])
              else (Success(stream[width..width + size]), stream[width + size..])
  {
    if stream != [] && |stream| >= stream[0] % 4 + 1 {
      LittleTold(stream[..stream[0] % 4 + 1]);
    }
    hide FromLittle;
  }

  lemma LittleTold(h: Bytes)
    requires 1 <= |h| <= 4
    ensures FromLittle(h) / 4 == SizeTold(h)
  {
    hide FromLittle, ByteAt;
    assert FromByte(h, 4) == 0 && FromByte(h, 0) == FromLittle(h[0..]);
    hide FromByte;
    FromLittleStep(h, 0);
    FromLittleStep(h, 1);
    FromLittleStep(h, 2);
    FromLittleStep(h, 3);
    assert h[0..] == h;
    QuarterOf(ByteAt(h, 0), ByteAt(h, 1), ByteAt(h, 2), ByteAt(h, 3));
  }

  lemma QuarterOf(a: nat, b: nat, c: nat, d: nat)
    ensures (a + 256 * (b + 256 * (c + 256 * d))) / 4 == a / 4 + 64 * b + 16384 * c + 4194304 * d
  {
  }

  // The number from a byte on; beyond the last byte it is zero.
  function FromByte(h: Bytes, i: nat): nat {
    if i < |h| then FromLittle(h[i..]) else 0
  }

  lemma FromLittleStep(h: Bytes, i: nat)
    ensures FromByte(h, i) == ByteAt(h, i) + 256 * FromByte(h, i + 1)
  {
    if i < |h| {
      assert h[i..][1..] == h[i + 1..];
    }
  }

  lemma LowBits(n: nat, width: nat)
    requires 1 <= width <= 4
    ensures Little(4 * n + width - 1, width)[0] % 4 == width - 1
  {
  }

  lemma Fits(size: nat, width: nat)
    requires 1 <= width <= 4
    ensures Power(width) == 4 * Capacity(width)
  {
    assert Power(1) == 256 && Power(2) == 0x1_0000;
    assert Power(3) == 0x100_0000 && Power(4) == 0x1_0000_0000;
  }

  /**
    A framed payload in front of anything is read back when it is below the reader's bound,
    and refused with only its header gone otherwise.
   */
  lemma FrameRoundTrip(data: Bytes, rest: Bytes)
    requires Frame(data).Some?
    ensures NextFrame(Frame(data).value + rest) ==
            if |data| < MAX_FRAME then (Success(data), rest) else (Failure(TooLong), data + rest)
  {
    hide Little, FromLittle, Power, Capacity;
    var width := Width(|data|).value;
    var header := Little(4 * |data| + width - 1, width);
    var stream := Frame(data).value + rest;
    Fits(|data|, width);
    LittleRoundTrip(4 * |data| + width - 1, width);
    LowBits(|data|, width);
    assert stream[0] == header[0];
    assert stream[..width] == header;
    assert stream[width..] == data + rest;
    if |data| < MAX_FRAME {
      assert stream[width..width + |data|] == data;
      assert stream[width + |data|..] == rest;
    }
  }

  lemma {:induction false} FromLittleBound(s: Bytes)
    ensures FromLittle(s) < Power(|s|)
    decreases |s|
  {
    if s != [] {
      FromLittleBound(s[1..]);
    }
  }

  // No frame that reads as a payload is shorter than the one written for it.
  lemma FrameIsShortest(stream: Bytes)
    requires NextFrame(stream).0.Success?
    ensures var (data, rest) := NextFrame(stream);
            Frame(data.value).Some? && |Frame(data.value).value| + |rest| <= |stream|
  {
    hide FromLittle, Power, Little;
    var width := stream[0] % 4 + 1;
    FromLittleBound(stream[..width]);
    Fits(0, width);
  }

  // Frames back to back.
  function Stream(payloads: seq<Bytes>): Option<Bytes> {
    if payloads == [] then Some([])
    else
      var first, more := Frame(payloads[0]), Stream(payloads[1..]);
      if first.None? || more.None? then None else Some(first.value + more.value)
  }

  // The results of reading n frames one after another.
  function ReadAll(stream: Bytes, n: nat): (seq<Result<Bytes, Error>>, Bytes)
    decreases n
  {
    if n == 0 then ([], stream)
    else
      var (first, rest) := NextFrame(stream);
      var (more, left) := ReadAll(rest, n - 1);
      ([first] + more, left)
  }

  function Succeeded(payloads: seq<Bytes>): seq<Result<Bytes, Error>> {
    seq(|payloads|, i requires 0 <= i < |payloads| => Success(payloads[i]))
  }

  // Every payload below the reader's bound can be framed, and all are read back in order.
  lemma {:induction false} StreamRoundTrip(payloads: seq<Bytes>, rest: Bytes)
    requires forall i :: 0 <= i < |payloads| ==> |payloads[i]| < MAX_FRAME
    ensures Stream(payloads).Some? && ReadAll(Stream(payloads).value + rest, |payloads|) == (Succeeded(payloads), rest)
    decreases |payloads|
  {
    hide Frame, NextFrame;
    if payloads == [] {
      assert [] + rest == rest;
    } else {
      CanBeFramed(payloads[0]);
      StreamRoundTrip(payloads[1..], rest);
      var more := Stream(payloads[1..]).value;
      FrameRoundTrip(payloads[0], more + rest);
      assert Stream(payloads).value + rest == Frame(payloads[0]).value + (more + rest);
      assert Succeeded(payloads) == [Success(payloads[0])] + Succeeded(payloads[1..]);
    }
  }

  function Payloads(messages: seq<seq<Field>>): seq<Bytes> {
    seq(|messages|, i requires 0 <= i < |messages| => Message(messages[i]))
  }

  // Any messages, framed back to back, are read and decoded to their fields in order.
  lemma ConversationRoundTrip(messages: seq<seq<Field>>, rest: Bytes)
    requires forall i :: 0 <= i < |messages| ==> |Message(messages[i])| < MAX_FRAME
    ensures var payloads := Payloads(messages);
            && Stream(payloads).Some?
            && ReadAll(Stream(payloads).value + rest, |messages|) == (Succeeded(payloads), rest)
            && forall i :: 0 <= i < |messages| ==> Fields(payloads[i]) == Success(messages[i])
  {
    hide Message, Fields, ReadAll;
    StreamRoundTrip(Payloads(messages), rest);
    forall i | 0 <= i < |messages|
      ensures Fields(Payloads(messages)[i]) == Success(messages[i])
    {
      MessageRoundTrip(messages[i]);
    }
  }

  lemma CanBeFramed(data: Bytes)
    ensures Frame(data).Some? <==> |data| < 0x4000_0000
  {
  }

  // ---------------------------------------------------------------------
  // A connection that delivers its bytes in pieces of any size.
  // ---------------------------------------------------------------------

  class Socket {
    // Bytes on their way; the peer closes behind the last one.
    var unread: Bytes

    constructor (bytes: Bytes)
      ensures unread == bytes
    {
      unread := bytes;
    }

    // Any non-empty piece of at most n bytes; none only at the end of the stream.
    method Receive(n: nat) returns (part: Bytes)
      requires n > 0
      modifies this
      ensures |part| <= n && old(unread) == part + unread
      ensures part == [] <==> old(unread) == []
    {
      var k: nat :| k <= n && k <= |unread| && (k == 0 <==> unread == []);
      part, unread := unread[..k], unread[k..];
    }

    method Exact(n: nat) returns (r: Option<Bytes>)
      modifies this
      ensures if |old(unread)| < n then r == None && unread == []
              else r == Some(old(unread)[..n]) && unread == old(unread)[n..]
    {
      var result: Bytes := [];
      while |result| < n
        invariant old(unread) == result + unread && |result| <= n
        decreases n - |result|
      {
        var part := Receive(n - |result|);
        if part == [] {
          assert old(unread) == result;
          return None;
        }
        assert old(unread) == result + part + unread;
        result := result + part;
      }
      r := Some(result);
    }

    method ReadFrame() returns (r: Result<Bytes, Error>)
      modifies this
      ensures (r, unread) == NextFrame(old(unread))
    {
      hide FromLittle;
      ghost var stream := unread;
      var first := Exact(1);
      if first.None? {
        return Failure(Closed);
      }
      var width := first.value[0] % 4 + 1;
      var header := Exact(width - 1);
      if header.None? {
        return Failure(Closed);
      }
      assert first.value + header.value == stream[..width];
      assert unread == stream[width..];
      var size := FromLittle(first.value + header.value) / 4;
      if size >= MAX_FRAME {
        return Failure(TooLong);
      }
      var data := Exact(size);
      r := if data.None? then Failure(Closed) else Success(data.value);
      assert |stream| >= width + size ==> stream[width..][..size] == stream[width..width + size];
      assert |stream| >= width + size ==> stream[width..][size..] == stream[width + size..];
    }
  }

  /**
    A whole conversation: n frames are read and decoded, one after another.  On any messages
    framed back to back, however the connection delivers them, it yields each message's map
    of last writes and leaves what follows.
   */
  method Converse(socket: Socket, n: nat, ghost messages: seq<seq<Field>>, ghost rest: Bytes)
    returns (maps: seq<Result<map<nat, Value>, Error>>)
    requires |messages| == n && forall i :: 0 <= i < n ==> |Message(messages[i])| < MAX_FRAME
    requires Stream(Payloads(messages)).Some? && socket.unread == Stream(Payloads(messages)).value + rest
    modifies socket
    ensures |maps| == n && forall i :: 0 <= i < n ==> maps[i] == Success(LastWrites(messages[i]))
    ensures socket.unread == rest
  {
    hide Message, Fields, NextFrame, LastWrites, Stream;
    maps := [];
    StreamOfNone(rest);
    assert messages[0..] == messages;
    for i := 0 to n
      invariant |maps| == i && forall j :: 0 <= j < i ==> maps[j] == Success(LastWrites(messages[j]))
      invariant Stream(Payloads(messages[i..])).Some? && socket.unread == Stream(Payloads(messages[i..])).value + rest
    {
      NextMessage(messages[i..], rest);
      assert messages[i..][1..] == messages[i + 1..];
      var data := socket.ReadFrame();
      var fields := Decode(data.value);
      maps := maps + [fields];
    }
  }

  lemma StreamOfNone(rest: Bytes)
    ensures Stream(Payloads([])).Some? && Stream(Payloads([])).value + rest == rest
  {
  }

  // The first of several framed messages is read, and decodes to its fields.
  lemma NextMessage(messages: seq<seq<Field>>, rest: Bytes)
    requires messages != [] && |Message(messages[0])| < MAX_FRAME && Stream(Payloads(messages)).Some?
    ensures Stream(Payloads(messages[1..])).Some?
    ensures NextFrame(Stream(Payloads(messages)).value + rest) ==
            (Success(Message(messages[0])), Stream(Payloads(messages[1..])).value + rest)
    ensures Fields(Message(messages[0])) == Success(messages[0])
  {
    hide Message, Fields, Frame, NextFrame;
    var payloads := Payloads(messages);
    assert payloads[1..] == Payloads(messages[1..]);
    var more := Stream(payloads[1..]).value;
    FrameRoundTrip(payloads[0], more + rest);
    assert Stream(payloads).value + rest == Frame(payloads[0]).value + (more + rest);
    MessageRoundTrip(messages[0]);
  }
}
