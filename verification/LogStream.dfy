/** base/LogStream.h and base/LogStream.cc: the fixed buffer, the integer printers and the stream inserters. */
module LogStream {
  import opened Sequences
  import opened Numerals

  const SMALL_BUFFER := 4000
  const MAX_NUMERIC_SIZE := 32

  /** `std::reverse(a + lo, a + hi)`. */
  method ReverseRange(a: array<char>, lo: nat, hi: nat)
    requires lo <= hi <= a.Length
    modifies a
    ensures a[lo..hi] == Reversed(old(a[lo..hi]))
    ensures forall k | 0 <= k < lo || hi <= k < a.Length :: a[k] == old(a[k])
  {
    var i, j := lo, hi;
    while i + 1 < j
      invariant lo <= i <= j + 1 && i <= hi && i - lo == hi - j
      invariant forall k | lo <= k < i || j <= k < hi :: a[k] == old(a[lo + hi - 1 - k])
      invariant forall k | 0 <= k < lo || i <= k < j || hi <= k < a.Length :: a[k] == old(a[k])
    {
      j := j - 1;
      a[i], a[j] := a[j], a[i];
      i := i + 1;
    }
    ghost var was := old(a[lo..hi]);
    forall k | 0 <= k < hi - lo
      ensures a[lo..hi][k] == was[hi - lo - 1 - k]
    {
      assert a[lo + k] == old(a[lo + hi - 1 - (lo + k)]);
    }
    ReversedIs(was, a[lo..hi]);
  }

  /** What one pass of the do-while loop peels off: the symmetric digit table is read within its bounds and gives
      the last digit of the magnitude, whatever the sign of the remainder. */
  lemma NextDigit(i: int)
    ensures var lsd, rest := TruncatedRemainder(i, 10), TruncatedQuotient(i, 10);
            && -9 <= lsd <= 9
            && Abs(rest) == Abs(i) / 10
            && NatNumeral(Abs(i), Decimal) ==
               (if rest == 0 then "" else NatNumeral(Abs(rest), Decimal)) + [DIGITS[ZERO + lsd]]
  {
    var lsd := TruncatedRemainder(i, 10);
    assert Abs(lsd) == Abs(i) % 10;
    assert DIGITS[ZERO + lsd] == DigitChar(Abs(lsd));
  }

  /** One turn of a printing loop: the last digit of what is left to print goes to the end of the reversed output. */
  lemma DigitMoves(numeral: string, todo: string, digits: string, c: char)
    requires numeral == todo + [c] + Reversed(digits)
    ensures numeral == todo + Reversed(digits + [c])
  {
    ReversedSnoc(digits, c);
    assert todo + [c] + Reversed(digits) == todo + ([c] + Reversed(digits));
  }

  lemma NothingPrinted(numeral: string)
    ensures numeral == numeral + Reversed("")
  {
  }

  /** The do-while loop of `convert`: the digits of the magnitude, least significant first. */
  method EmitDigits(a: array<char>, at: nat, value: int) returns (p: nat)
    requires at + |NatNumeral(Abs(value), Decimal)| <= a.Length
    modifies a
    ensures p == at + |NatNumeral(Abs(value), Decimal)|
    ensures Reversed(a[at..p]) == NatNumeral(Abs(value), Decimal)
    ensures forall k | 0 <= k < at || p <= k < a.Length :: a[k] == old(a[k])
  {
    hide NatNumeral, Reversed, TruncatedQuotient, TruncatedRemainder;
    ghost var magnitude := NatNumeral(Abs(value), Decimal);
    var i := value;
    p := at;
    ghost var todo, digits := magnitude, "";
    NothingPrinted(magnitude);
    NatNumeralHead(Abs(value), Decimal);
    while true
      invariant at <= p <= a.Length && |magnitude| == |todo| + (p - at)
      invariant todo == NatNumeral(Abs(i), Decimal) && todo != ""
      invariant digits == a[at..p] && magnitude == todo + Reversed(digits)
      invariant forall k | 0 <= k < at || p <= k < a.Length :: a[k] == old(a[k])
      decreases |todo|
    {
      NextDigit(i);
      var lsd := TruncatedRemainder(i, 10);
      i := TruncatedQuotient(i, 10);
      ghost var c := DIGITS[ZERO + lsd];
      todo := if i == 0 then "" else NatNumeral(Abs(i), Decimal);
      DigitMoves(magnitude, todo, digits, c);
      a[p] := DIGITS[ZERO + lsd];
      p := p + 1;
      assert a[at..p] == digits + [c];
      digits := digits + [c];
      if i == 0 { break; }
      NatNumeralHead(Abs(i), Decimal);
    }
    assert magnitude == "" + Reversed(digits);
  }

  /** The digits, and after them the minus sign of a negative value: the numeral backwards. */
  method EmitBackwards(a: array<char>, at: nat, value: int) returns (p: nat)
    requires at + |Numeral(value)| <= a.Length
    modifies a
    ensures p == at + |Numeral(value)|
    ensures Reversed(a[at..p]) == Numeral(value)
    ensures forall k | 0 <= k < at || p <= k < a.Length :: a[k] == old(a[k])
  {
    p := EmitDigits(a, at, value);
    if value < 0 {
      ghost var digits := a[at..p];
      a[p] := '-';
      p := p + 1;
      assert a[at..p] == digits + ['-'];
      ReversedSnoc(digits, '-');
    }
  }

  /** `convert`: prints `value` at `a[at..]`, least significant digit first, then reverses in place.
      21 characters of room are enough for every integer type. */
  method Convert(a: array<char>, at: nat, value: int) returns (len: nat)
    requires INT64_MIN <= value <= UINT64_MAX
    requires at + 21 <= a.Length
    modifies a
    ensures len == |Numeral(value)| <= 20
    ensures a[at..at + len] == Numeral(value) && a[at + len] == '\0'
    ensures forall k | 0 <= k < at || at + len < k < a.Length :: a[k] == old(a[k])
  {
    hide Numeral, Reversed;
    NumeralFits(value);
    var p := EmitBackwards(a, at, value);
    ghost var text := a[at..p];
    a[p] := '\0';
    assert a[at..p] == text;
    ReverseRange(a, at, p);
    len := p - at;
  }

  /** What one pass of `convertHex` peels off. */
  lemma NextHexDigit(i: nat)
    ensures NatNumeral(i, Hex) == (if i / 16 == 0 then "" else NatNumeral(i / 16, Hex)) + [DIGITS_HEX[i % 16]]
  {
  }

  /** The do-while loop of `convertHex`. */
  method EmitHexDigits(a: array<char>, at: nat, value: nat) returns (p: nat)
    requires at + |NatNumeral(value, Hex)| <= a.Length
    modifies a
    ensures p == at + |NatNumeral(value, Hex)|
    ensures Reversed(a[at..p]) == NatNumeral(value, Hex)
    ensures forall k | 0 <= k < at || p <= k < a.Length :: a[k] == old(a[k])
  {
    hide NatNumeral, Reversed;
    ghost var numeral := NatNumeral(value, Hex);
    var i := value;
    p := at;
    ghost var todo, digits := numeral, "";
    NothingPrinted(numeral);
    NatNumeralHead(value, Hex);
    while true
      invariant at <= p <= a.Length && |numeral| == |todo| + (p - at)
      invariant todo == NatNumeral(i, Hex) && todo != ""
      invariant digits == a[at..p] && numeral == todo + Reversed(digits)
      invariant forall k | 0 <= k < at || p <= k < a.Length :: a[k] == old(a[k])
      decreases |todo|
    {
      NextHexDigit(i);
      var lsd := i % 16;
      i := i / 16;
      ghost var c := DIGITS_HEX[lsd];
      todo := if i == 0 then "" else NatNumeral(i, Hex);
      DigitMoves(numeral, todo, digits, c);
      a[p] := DIGITS_HEX[lsd];
      p := p + 1;
      assert a[at..p] == digits + [c];
      digits := digits + [c];
      if i == 0 { break; }
      NatNumeralHead(i, Hex);
    }
    assert numeral == "" + Reversed(digits);
  }

  /** `convertHex`: at most 16 digits and the terminator. */
  method ConvertHex(a: array<char>, at: nat, value: nat) returns (len: nat)
    requires value <= UINT64_MAX
    requires at + 17 <= a.Length
    modifies a
    ensures len == |NatNumeral(value, Hex)| <= 16
    ensures a[at..at + len] == NatNumeral(value, Hex) && a[at + len] == '\0'
    ensures forall k | 0 <= k < at || at + len < k < a.Length :: a[k] == old(a[k])
  {
    hide NatNumeral, Reversed;
    HexNumeralFits(value);
    var p := EmitHexDigits(a, at, value);
    ghost var text := a[at..p];
    a[p] := '\0';
    assert a[at..p] == text;
    ReverseRange(a, at, p);
    len := p - at;
  }

  /** `memcpy(a + at, text)`. */
  method CopyInto(a: array<char>, at: nat, text: string)
    requires at + |text| <= a.Length
    modifies a
    ensures a[at..at + |text|] == text
    ensures forall k | 0 <= k < at || at + |text| <= k < a.Length :: a[k] == old(a[k])
  {
    forall k | 0 <= k < |text| { a[at + k] := text[k]; }
  }

  /** `0x` and the hexadecimal address. */
  method PrintPointer(a: array<char>, at: nat, address: nat) returns (len: nat)
    requires address <= UINT64_MAX
    requires at + 19 <= a.Length
    modifies a
    ensures len <= 18 && a[at..at + len] == "0x" + NatNumeral(address, Hex)
    ensures forall k | 0 <= k < at || at + len < k < a.Length :: a[k] == old(a[k])
  {
    CopyInto(a, at, "0x");
    ghost var before := a[at..at + 2];
    var digits := ConvertHex(a, at + 2, address);
    assert a[at..at + 2] == before;
    assert a[at..at + 2 + digits] == a[at..at + 2] + a[at + 2..at + 2 + digits];
    len := digits + 2;
  }

  /** `FixedBuffer<SIZE>`: `cur` counts the bytes between `data_` and `cur_`. */
  class FixedBuffer {
    const data: array<char>
    var cur: nat

    ghost predicate Valid()
      reads this
    {
      cur <= data.Length
    }

    function Avail(): int
      reads this
    {
      data.Length - cur
    }

    function Contents(): string
      requires Valid()
      reads this, data
    {
      data[..cur]
    }

    constructor (size: nat)
      ensures Valid() && fresh(data) && data.Length == size && Contents() == ""
    {
      data := new char[size];
      cur := 0;
    }

    /** `append`: the whole message, or nothing when fewer than `|message| + 1` bytes are free. */
    method Append(message: string)
      requires Valid()
      modifies this, data
      ensures Valid()
      ensures Contents() == old(Contents()) + if |message| < old(Avail()) then message else ""
    {
      if Avail() > |message| {
        CopyInto(data, cur, message);
        assert data[..cur] == old(Contents());
        assert data[..cur + |message|] == data[..cur] + data[cur..cur + |message|];
        cur := cur + |message|;
      }
    }

    method Add(len: nat)
      requires Valid() && len <= Avail()
      modifies this`cur
      ensures Valid() && cur == old(cur) + len
    {
      cur := cur + len;
    }

    method Reset()
      modifies this`cur
      ensures Valid() && Contents() == ""
    {
      cur := 0;
    }
  }

  /** The arguments of the `operator<<` overloads. `Floating` carries what `snprintf` renders; a null C string is
      None. */
  datatype Item =
    | Boolean(flag: bool)
    | Integer(value: int)
    | Pointer(address: nat)
    | Floating(rendered: string)
    | Character(c: char)
    | CString(text: Option<string>)
    | Text(s: string)

  predicate Typed(item: Item) {
    && (item.Integer? ==> INT64_MIN <= item.value <= UINT64_MAX)
    && (item.Pointer? ==> item.address <= UINT64_MAX)
    && (item.Floating? ==> |item.rendered| < MAX_NUMERIC_SIZE)
  }

  function Rendering(item: Item): string {
    match item
    case Boolean(flag) => if flag then "1" else "0"
    case Integer(value) => Numeral(value)
    case Pointer(address) => "0x" + NatNumeral(address, Hex)
    case Floating(rendered) => rendered
    case Character(c) => [c]
    case CString(text) => if text.Some? then text.value else "(null)"
    case Text(s) => s
  }

  /** The free bytes an insertion asks for: 32 for numbers, one more than its length for text. */
  function Room(item: Item): nat {
    if item.Integer? || item.Pointer? || item.Floating? then MAX_NUMERIC_SIZE else |Rendering(item)| + 1
  }

  /** The fixed renderings, and what the numeric ones read as. */
  lemma RenderingReads(item: Item)
    ensures item.Boolean? ==> Rendering(item) == [if item.flag then '1' else '0']
    ensures item.Character? ==> Rendering(item) == [item.c]
    ensures item.CString? ==> Rendering(item) == match item.text case Some(text) => text case None => "(null)"
    ensures item.Text? ==> Rendering(item) == item.s
    ensures item.Floating? ==> Rendering(item) == item.rendered
    ensures item.Integer? ==> Canonical(Rendering(item)) && ParseInt(Rendering(item)) == Some(item.value)
    ensures item.Pointer? ==>
              && |Rendering(item)| > 2 && Rendering(item)[0] == '0' && Rendering(item)[1] == 'x'
              && ParseNat(Rendering(item)[2..], Hex) == Some(item.address) && NoLeadingZero(Rendering(item)[2..])
  {
    if item.Integer? { NumeralReads(item.value); }
    if item.Pointer? {
      NatNumeralRoundTrip(item.address, Hex);
      NatNumeralHead(item.address, Hex);
      assert Rendering(item)[2..] == NatNumeral(item.address, Hex);
    }
  }

  /** Text goes in whole when it leaves a byte free, numbers when 32 bytes are free; otherwise nothing goes in. */
  lemma InsertedWholeOrNot(content: string, item: Item)
    ensures var r := Rendering(item);
            Inserted(content, item) ==
            if item.Integer? || item.Pointer? || item.Floating? then
              if |content| + 32 <= 4000 then content + r else content
            else
              if |content| + |r| < 4000 then content + r else content
  {
  }

  function Inserted(content: string, item: Item): string {
    if SMALL_BUFFER - |content| >= Room(item) then content + Rendering(item) else content
  }

  function InsertedAll(content: string, items: seq<Item>): string
    decreases |items|
  {
    if items == [] then content else InsertedAll(Inserted(content, items[0]), items[1..])
  }

  class Stream {
    const buffer: FixedBuffer

    ghost predicate Valid()
      reads this, buffer
    {
      buffer.Valid() && buffer.data.Length == SMALL_BUFFER
    }

    function Contents(): string
      requires Valid()
      reads this, buffer, buffer.data
    {
      buffer.Contents()
    }

    constructor ()
      ensures Valid() && fresh(buffer) && fresh(buffer.data) && Contents() == ""
    {
      buffer := new FixedBuffer(SMALL_BUFFER);
    }

    /** The `operator<<` of strings, characters and booleans. */
    method InsertText(item: Item)
      requires Valid() && (item.Boolean? || item.Character? || item.CString? || item.Text?)
      modifies buffer, buffer.data
      ensures Valid() && Contents() == Inserted(old(Contents()), item)
    {
      match item
      case Boolean(flag) => buffer.Append(if flag then "1" else "0");
      case Character(c) => buffer.Append([c]);
      case CString(text) =>
        if text.Some? { buffer.Append(text.value); } else { buffer.Append("(null)"); }
      case Text(s) => buffer.Append(s);
    }

    /** `formatInteger`: prints straight into the free part of the buffer. */
    method InsertInteger(value: int)
      requires Valid() && Typed(Integer(value))
      modifies buffer, buffer.data
      ensures Valid() && Contents() == Inserted(old(Contents()), Integer(value))
    {
      if buffer.Avail() >= MAX_NUMERIC_SIZE {
        ghost var was := Contents();
        var at := buffer.cur;
        var len := Convert(buffer.data, at, value);
        buffer.Add(len);
        assert buffer.data[..at] == was;
        assert buffer.data[..at + len] == buffer.data[..at] + buffer.data[at..at + len];
      }
    }

    method InsertPointer(address: nat)
      requires Valid() && Typed(Pointer(address))
      modifies buffer, buffer.data
      ensures Valid() && Contents() == Inserted(old(Contents()), Pointer(address))
    {
      if buffer.Avail() >= MAX_NUMERIC_SIZE {
        ghost var was := Contents();
        var at := buffer.cur;
        var len := PrintPointer(buffer.data, at, address);
        buffer.Add(len);
        assert buffer.data[..at] == was;
        assert buffer.data[..at + len] == buffer.data[..at] + buffer.data[at..at + len];
      }
    }

    /** The inserters of `double` and `long double`: `snprintf` into the free part, at most 32 bytes with the NUL. */
    method InsertFloating(rendered: string)
      requires Valid() && Typed(Floating(rendered))
      modifies buffer, buffer.data
      ensures Valid() && Contents() == Inserted(old(Contents()), Floating(rendered))
    {
      if buffer.Avail() >= MAX_NUMERIC_SIZE {
        ghost var was := Contents();
        var at := buffer.cur;
        CopyInto(buffer.data, at, rendered + "\0");
        buffer.Add(|rendered|);
        assert buffer.data[..at] == was;
        assert buffer.data[at..at + |rendered|] == buffer.data[at..at + |rendered| + 1][..|rendered|];
        assert buffer.data[..at + |rendered|] == buffer.data[..at] + buffer.data[at..at + |rendered|];
      }
    }

    method Insert(item: Item)
      requires Valid() && Typed(item)
      modifies buffer, buffer.data
      ensures Valid() && Contents() == Inserted(old(Contents()), item)
    {
      match item
      case Integer(value) => InsertInteger(value);
      case Pointer(address) => InsertPointer(address);
      case Floating(rendered) => InsertFloating(rendered);
      case _ => InsertText(item);
    }
  }

  lemma {:induction false} StreamNeverFull(content: string, items: seq<Item>)
    requires |content| < SMALL_BUFFER && forall item <- items :: Typed(item)
    ensures |InsertedAll(content, items)| < SMALL_BUFFER
    ensures content <= InsertedAll(content, items)
    decreases |items|
  {
    if items != [] {
      RoomSuffices(items[0]);
      StreamNeverFull(Inserted(content, items[0]), items[1..]);
    }
  }

  /** The reserved 32 bytes hold every number with a byte to spare. */
  lemma RoomSuffices(item: Item)
    requires Typed(item)
    ensures |Rendering(item)| < Room(item)
  {
    if item.Integer? { NumeralFits(item.value); }
    if item.Pointer? { HexNumeralFits(item.address); }
  }

  /** Everything a `Logger` statement inserts: the time, the user's items, and the place (base/Logging.cc). */
  function LoggerItems(time: string, items: seq<Item>, file: string, line: int): seq<Item> {
    [CString(Some(time))] + items
    + [CString(Some(" -- ")), Text(file), Character(':'), Integer(line), Character(' ')]
  }

  /** A `Logger` message is shorter than a logger buffer, whatever was inserted. */
  lemma LoggerMessageFits(time: string, items: seq<Item>, file: string, line: int)
    requires Typed(Integer(line)) && forall item <- items :: Typed(item)
    ensures |InsertedAll("", LoggerItems(time, items, file, line))| < SMALL_BUFFER
  {
    StreamNeverFull("", LoggerItems(time, items, file, line));
  }
}
