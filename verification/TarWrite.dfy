/** A writer of archives in the ustar Interchange Format of POSIX, with long names as GNU tar writes
    them: what the scan reads is what such a writer put there. */
module TarWrite {
  import opened Durability
  import opened TarPath
  import opened TarIndex

  // ---------- The fields of a header ----------

  /** The octal digits of a number, most significant first. */
  function Digits(n: nat, width: nat): Bytes {
    if width == 0 then [] else Digits(n / 8, width - 1) + [48 + n % 8]
  }

  function Power(width: nat): nat {
    if width == 0 then 1 else 8 * Power(width - 1)
  }

  /** What the scan does not read: ids, time, link name, version, owner and device names, the rest. */
  datatype Extras = Extras(ids: Bytes, mtime: Bytes, link: Bytes, owner: Bytes, rest: Bytes)

  datatype Header = Header(name: Bytes, mode: nat, size: nat, flag: Byte, prefix: Bytes, extras: Extras)

  const MAGIC: Bytes := [117, 115, 116, 97, 114, 0]

  predicate Sized(h: Header) {
    && |h.name| <= 100 && h.mode < 0x20_0000 && h.size < 0x2_0000_0000 && |h.prefix| <= 155
    && |h.extras.ids| == 16 && |h.extras.mtime| == 12 && |h.extras.link| == 100 && |h.extras.owner| == 82
    && |h.extras.rest| == 12
  }

  /** A byte of a field that is filled up with zeros. */
  function Filled(b: Bytes, i: nat): Byte {
    if i < |b| then b[i] else 0
  }

  /** The byte at each place of the block, by the table of the standard. */
  function Place(h: Header, sum: Bytes, i: nat): Byte
    requires Sized(h) && |sum| == 8 && i < BLOCK
  {
    if i < 100 then Filled(h.name, i)
    else if i < 108 then Filled(Digits(h.mode, 7), i - 100)
    else if i < 124 then h.extras.ids[i - 108]
    else if i < 136 then Filled(Digits(h.size, 11), i - 124)
    else if i < 148 then h.extras.mtime[i - 136]
    else if i < 156 then sum[i - 148]
    else if i == 156 then h.flag
    else if i < 257 then h.extras.link[i - 157]
    else if i < 263 then MAGIC[i - 257]
    else if i < 345 then h.extras.owner[i - 263]
    else if i < 500 then Filled(h.prefix, i - 345)
    else h.extras.rest[i - 500]
  }

  function Block(h: Header, sum: Bytes): (b: Bytes)
    requires Sized(h) && |sum| == 8
    ensures |b| == BLOCK && forall i :: 0 <= i < BLOCK ==> b[i] == Place(h, sum, i)
  {
    seq(BLOCK, i requires 0 <= i < BLOCK => Place(h, sum, i))
  }

  const BLANKS: Bytes := [32, 32, 32, 32, 32, 32, 32, 32]

  /** The sum of all bytes. */
  function Sum(b: Bytes, n: nat): nat
    requires n <= |b|
  {
    if n == 0 then 0 else Sum(b, n - 1) + b[n - 1]
  }

  /** Six digits of the sum over the block with blanks in place of the sum, a zero and a blank. */
  function SumField(h: Header): (s: Bytes)
    requires Sized(h)
    ensures |s| == 8
  {
    DigitsLength(Sum(Block(h, BLANKS), BLOCK), 6);
    Digits(Sum(Block(h, BLANKS), BLOCK), 6) + [0, 32]
  }

  function Ustar(h: Header): (b: Bytes)
    requires Sized(h)
    ensures |b| == BLOCK
  {
    Block(h, SumField(h))
  }

  // ---------- What a reader finds in the fields ----------

  /** A decoder of UTF-8 reads ASCII as it is. */
  ghost predicate Ascii(decode: Decoder) {
    forall b: Bytes :: (forall i :: 0 <= i < |b| ==> b[i] < 128) ==> decode(b) == Some(Chars(b))
  }

  function Chars(b: Bytes): (s: string)
    requires forall i :: 0 <= i < |b| ==> b[i] < 128
    ensures |s| == |b| && forall i :: 0 <= i < |b| ==> s[i] == b[i] as char
  {
    seq(|b|, i requires 0 <= i < |b| => b[i] as char)
  }

  lemma {:induction false} DigitsLength(n: nat, width: nat)
    ensures |Digits(n, width)| == width
    ensures forall i :: 0 <= i < width ==> 48 <= Digits(n, width)[i] < 56
  {
    if width > 0 { DigitsLength(n / 8, width - 1); }
  }

  /** Reading the digits gives back the number. */
  lemma {:induction false} DigitsRead(n: nat, width: nat)
    requires n < Power(width)
    ensures forall i :: 0 <= i < |Digits(n, width)| ==> Digits(n, width)[i] < 128
    ensures Octal(Chars(Digits(n, width))) == Some(n)
  {
    DigitsLength(n, width);
    if width > 0 {
      DigitsLength(n / 8, width - 1);
      DigitsRead(n / 8, width - 1);
      var s := Chars(Digits(n, width));
      assert s[..width - 1] == Chars(Digits(n / 8, width - 1));
      assert s[width - 1] == (48 + n % 8) as char;
    } else {
      assert Chars([]) == [];
    }
  }

  lemma TrimPlain(s: string)
    requires s != [] && forall i :: 0 <= i < |s| ==> '0' <= s[i] <= '7'
    ensures Trim(s) == s
  {
    assert !Blank(s[0]) && !Blank(s[|s| - 1]);
  }

  lemma {:induction false} UpToZeroStops(b: Bytes, n: nat)
    requires n <= |b| && (forall i :: 0 <= i < n ==> b[i] != 0) && (n < |b| ==> b[n] == 0)
    ensures UpToZero(b) == b[..n]
  {
    if n > 0 {
      UpToZeroStops(b[1..], n - 1);
      assert b[..n] == [b[0]] + b[1..][..n - 1];
    }
  }

  /** A field of digits with a zero behind them is read as the number. */
  lemma NumberRead(decode: Decoder, b: Bytes, n: nat, width: nat)
    requires Ascii(decode) && width > 0 && n < Power(width) && n <= SAFE_INTEGER
    requires |b| > width && b[..width] == Digits(n, width) && b[width] == 0
    ensures Number(decode, b) == Some(n)
  {
    var d := Digits(n, width);
    DigitsLength(n, width);
    assert forall i :: 0 <= i < width ==> b[i] == d[i];
    UpToZeroStops(b, width);
    DigitsRead(n, width);
    var s := Chars(d);
    TrimPlain(s);
  }

  lemma Powers()
    ensures Power(6) == 0x4_0000 && Power(7) == 0x20_0000 && Power(11) == 0x2_0000_0000
  {
    assert Power(1) == 8 && Power(2) == 64 && Power(3) == 512 && Power(4) == 4096 && Power(5) == 0x8000;
    assert Power(6) == 0x4_0000 && Power(7) == 0x20_0000 && Power(8) == 0x100_0000;
    assert Power(9) == 0x800_0000 && Power(10) == 0x4000_0000;
  }

  lemma {:induction false} SumBounded(b: Bytes, n: nat)
    requires n <= |b|
    ensures Sum(b, n) <= 255 * n
  {
    if n > 0 { SumBounded(b, n - 1); }
  }

  /** The scan's sum skips the field in which it stands. */
  lemma {:induction false} ChecksumIsSum(h: Header, sum: Bytes, n: nat)
    requires Sized(h) && |sum| == 8 && n <= BLOCK
    ensures Checksum(Block(h, sum), n) == Sum(Block(h, BLANKS), n)
  {
    if n > 0 {
      ChecksumIsSum(h, sum, n - 1);
      assert Block(h, sum)[n - 1] == Place(h, sum, n - 1);
      assert Block(h, BLANKS)[n - 1] == Place(h, BLANKS, n - 1);
    }
  }

  lemma SumIsRead(decode: Decoder, h: Header)
    requires Ascii(decode) && Sized(h)
    ensures Number(decode, Ustar(h)[148..156]) == Some(Checksum(Ustar(h), BLOCK))
  {
    hide Place, Number, Digits, Checksum, Sum;
    var n := Sum(Block(h, BLANKS), BLOCK);
    SumBounded(Block(h, BLANKS), BLOCK);
    Powers();
    ChecksumIsSum(h, SumField(h), BLOCK);
    DigitsLength(n, 6);
    SumPlaces(h, SumField(h));
    var b := Ustar(h)[148..156];
    assert b == SumField(h);
    assert b[..6] == Digits(n, 6) && b[6] == 0;
    NumberRead(decode, b, n, 6);
  }

  lemma SumPlaces(h: Header, sum: Bytes)
    requires Sized(h) && |sum| == 8
    ensures Block(h, sum)[148..156] == sum
  {
    assert forall i :: 0 <= i < 8 ==> Block(h, sum)[148..156][i] == Place(h, sum, 148 + i);
  }

  lemma ModeIsRead(decode: Decoder, h: Header)
    requires Ascii(decode) && Sized(h)
    ensures Number(decode, Ustar(h)[100..108]) == Some(h.mode)
  {
    hide Number, Digits, Checksum, Sum, SumField;
    var b := Ustar(h)[100..108];
    DigitsLength(h.mode, 7);
    Powers();
    assert forall i :: 0 <= i < 8 ==> b[i] == Place(h, SumField(h), 100 + i);
    assert b[..7] == Digits(h.mode, 7) && b[7] == 0;
    NumberRead(decode, b, h.mode, 7);
  }

  lemma SizeIsRead(decode: Decoder, h: Header)
    requires Ascii(decode) && Sized(h)
    ensures Number(decode, Ustar(h)[124..136]) == Some(h.size)
  {
    hide Number, Digits, Checksum, Sum, SumField;
    var b := Ustar(h)[124..136];
    DigitsLength(h.size, 11);
    Powers();
    assert forall i :: 0 <= i < 12 ==> b[i] == Place(h, SumField(h), 124 + i);
    assert b[..11] == Digits(h.size, 11) && b[11] == 0;
    NumberRead(decode, b, h.size, 11);
  }

  /** Whatever was written in a header, its size is read back; unless the mode carries a set-user-id,
      set-group-id or sticky bit, for which the header is refused. */
  lemma SizeComesBack(decode: Decoder, h: Header)
    requires Ascii(decode) && Sized(h)
    ensures HeaderSize(decode, Ustar(h)) == if Special(h.mode) then None else Some(h.size)
  {
    hide Number, Ustar, Checksum, Special;
    SumIsRead(decode, h);
    ModeIsRead(decode, h);
    SizeIsRead(decode, h);
    SpecialIs(h.mode);
  }

  lemma SpecialIs(mode: nat)
    ensures Special(mode) <==> mode / 512 % 8 != 0
  {
    var q, rest := mode / 4096, mode % 4096;
    assert mode == 4096 * q + rest;
    Divides(mode, q, rest, 512, 8);
    Divides(mode, q, rest, 1024, 4);
    Divides(mode, q, rest, 2048, 2);
    Modulo(4 * q, rest / 512, 8 * q + rest / 512);
    Modulo(2 * q, rest / 1024, 4 * q + rest / 1024);
    Modulo(q, rest / 2048, 2 * q + rest / 2048);
  }

  lemma Divides(mode: nat, q: nat, rest: nat, d: nat, k: nat)
    requires mode == 4096 * q + rest && rest < 4096 && d > 0 && d * k == 4096
    requires (d == 512 && k == 8) || (d == 1024 && k == 4) || (d == 2048 && k == 2)
    ensures mode / d == k * q + rest / d
  {
  }

  lemma Modulo(half: nat, r: nat, n: nat)
    requires n == 2 * half + r
    ensures n % 2 == r % 2
  {
  }

  /** The bits 04000, 02000 and 01000 of a mode. */
  predicate Special(mode: nat) {
    mode / 2048 % 2 == 1 || mode / 1024 % 2 == 1 || mode / 512 % 2 == 1
  }

  /** A sum that is not that of the block refuses the header. */
  lemma WrongSumRefused(decode: Decoder, h: Header, n: nat)
    requires Ascii(decode) && Sized(h) && n < 0x4_0000 && n != Sum(Block(h, BLANKS), BLOCK)
    ensures |Digits(n, 6) + [0, 32]| == 8 && HeaderSize(decode, Block(h, Digits(n, 6) + [0, 32])) == None
  {
    hide Place, Number, Digits, Checksum, Sum;
    DigitsLength(n, 6);
    var sum := Digits(n, 6) + [0, 32];
    Powers();
    ChecksumIsSum(h, sum, BLOCK);
    SumPlaces(h, sum);
    assert sum[..6] == Digits(n, 6) && sum[6] == 0;
    NumberRead(decode, sum, n, 6);
  }

  predicate NoZero(b: Bytes) {
    forall i :: 0 <= i < |b| ==> b[i] != 0
  }

  lemma TextRead(decode: Decoder, field: Bytes, b: Bytes)
    requires |b| <= |field| && NoZero(b) && forall i :: 0 <= i < |field| ==> field[i] == Filled(b, i)
    ensures Text(decode, field) == decode(b)
  {
    UpToZeroStops(field, |b|);
    assert field[..|b|] == b;
  }

  /** The name in a header: the prefix, if its text is not empty, and the name. */
  function FullName(decode: Decoder, h: Header): Option<string> {
    var short, prefix := decode(h.name), decode(h.prefix);
    if short.None? || prefix.None? then None
    else if prefix.value == "" then short else Some(prefix.value + "/" + short.value)
  }

  lemma NameComesBack(decode: Decoder, h: Header)
    requires Ascii(decode) && Sized(h) && NoZero(h.name) && NoZero(h.prefix)
    ensures HeaderName(decode, Ustar(h)) == FullName(decode, h)
  {
    hide SumField, Digits, Text, Place, Ustar, Filled, Ascii, NoZero;
    var b := Ustar(h);
    NamePlaces(h);
    PrefixPlaces(h);
    MagicPlaces(h);
    TextRead(decode, b[0..100], h.name);
    TextRead(decode, b[345..500], h.prefix);
    MagicIsRead(decode, b[257..263]);
  }

  lemma NamePlaces(h: Header)
    requires Sized(h)
    ensures forall i :: 0 <= i < 100 ==> Ustar(h)[0..100][i] == Filled(h.name, i)
  {
    hide SumField, Digits, Filled;
    forall i | 0 <= i < 100 ensures Ustar(h)[0..100][i] == Filled(h.name, i) {
      assert Ustar(h)[i] == Place(h, SumField(h), i);
    }
  }

  lemma PrefixPlaces(h: Header)
    requires Sized(h)
    ensures forall i :: 0 <= i < 155 ==> Ustar(h)[345..500][i] == Filled(h.prefix, i)
  {
    hide SumField, Digits, Filled;
    forall i | 0 <= i < 155 ensures Ustar(h)[345..500][i] == Filled(h.prefix, i) {
      assert Ustar(h)[345 + i] == Place(h, SumField(h), 345 + i);
    }
  }

  lemma MagicPlaces(h: Header)
    requires Sized(h)
    ensures Ustar(h)[257..263] == MAGIC && Ustar(h)[262] == 0
  {
    hide SumField, Digits, Filled;
    var b := Ustar(h)[257..263];
    forall i | 0 <= i < 6 ensures b[i] == MAGIC[i] { assert Ustar(h)[257 + i] == Place(h, SumField(h), 257 + i); }
    assert MAGIC[5] == 0 && b[5] == Ustar(h)[262];
  }

  lemma MagicIsRead(decode: Decoder, field: Bytes)
    requires Ascii(decode) && field == MAGIC
    ensures Text(decode, field) == Some("ustar")
  {
    hide Ascii, Chars, UpToZero;
    UpToZeroStops(field, 5);
    assert field[..5] == [117, 115, 116, 97, 114];
    AsciiReads(decode, [117, 115, 116, 97, 114]);
    UstarText();
  }

  lemma AsciiReads(decode: Decoder, b: Bytes)
    requires Ascii(decode) && forall i :: 0 <= i < |b| ==> b[i] < 128
    ensures decode(b) == Some(Chars(b))
  {
  }

  lemma UstarText()
    ensures Chars([117, 115, 116, 97, 114]) == "ustar"
  {
    var s := Chars([117, 115, 116, 97, 114]);
    assert s[0] == 'u' && s[1] == 's' && s[2] == 't' && s[3] == 'a' && s[4] == 'r';
  }

  // ---------- Whole archives ----------

  /** A member to be written; a long name goes into a member of its own before it. */
  datatype Item = Item(header: Header, body: Bytes, long: Option<Bytes>)

  const LONG_LINK: Bytes := [46, 47, 46, 47, 64, 76, 111, 110, 103, 76, 105, 110, 107]

  function LongHeader(item: Item): Header
    requires item.long.Some?
  {
    Header(LONG_LINK, 0, |item.long.value| + 1, 76, [], item.header.extras)
  }

  function Title(decode: Decoder, item: Item): Option<string> {
    if item.long.Some? then decode(item.long.value) else FullName(decode, item.header)
  }

  /** A regular file or a directory, with plain permissions and a name that is safe. */
  ghost predicate Legal(decode: Decoder, item: Item) {
    var h := item.header;
    && Sized(h) && NoZero(h.name) && NoZero(h.prefix) && !Special(h.mode) && h.size == |item.body|
    && (h.flag == 0 || h.flag == 48 || (h.flag == 53 && item.body == [])) && FullName(decode, h).Some?
    && (item.long.Some? ==> |item.long.value| <= 4096 && NoZero(item.long.value))
    && Title(decode, item).Some? && SafeName(Title(decode, item).value).Some?
  }

  function Zero(n: nat): (b: Bytes)
    ensures |b| == n && Zeros(b)
  {
    seq(n, _ => 0)
  }

  function Stuffed(b: Bytes): (r: Bytes)
    ensures |r| == Padded(|b|) && r[..|b|] == b
  {
    b + Zero(Padded(|b|) - |b|)
  }

  function MembersOf(item: Item): seq<Member>
    requires Sized(item.header) && (item.long.Some? ==> |item.long.value| <= 4096)
  {
    (if item.long.Some? then [Member(Ustar(LongHeader(item)), Stuffed(item.long.value + [0]))] else []) +
    [Member(Ustar(item.header), Stuffed(item.body))]
  }

  /** Where the body of the item starts, if the item is written at `at`, and where the next one is. */
  function BodyAt(item: Item, at: nat): nat {
    at + 512 + if item.long.Some? then 512 + Padded(|item.long.value| + 1) else 0
  }

  function NextAt(item: Item, at: nat): nat {
    BodyAt(item, at) + Padded(|item.body|)
  }

  ghost function EntryOf(decode: Decoder, item: Item, at: nat): Entry
    requires Legal(decode, item)
  {
    Entry(SafeName(Title(decode, item).value).value, item.header.flag == 53, BodyAt(item, at), |item.body|)
  }

  ghost predicate AllLegal(decode: Decoder, items: seq<Item>) {
    forall i :: 0 <= i < |items| ==> Legal(decode, items[i])
  }

  /** What the index of the items should be. */
  ghost function Layout(decode: Decoder, items: seq<Item>, at: nat): (entries: seq<Entry>)
    requires AllLegal(decode, items)
    ensures |entries| == |items|
  {
    if items == [] then []
    else [EntryOf(decode, items[0], at)] + Layout(decode, items[1..], NextAt(items[0], at))
  }

  ghost function AllMembers(decode: Decoder, items: seq<Item>): seq<Member>
    requires AllLegal(decode, items)
  {
    if items == [] then [] else MembersOf(items[0]) + AllMembers(decode, items[1..])
  }

  ghost function Archive(decode: Decoder, items: seq<Item>, blocks: nat): Bytes
    requires AllLegal(decode, items)
  {
    Flatten(AllMembers(decode, items)) + Zero(512 * blocks)
  }

  lemma UstarFits(decode: Decoder, h: Header, body: Bytes)
    requires Ascii(decode) && Sized(h) && !Special(h.mode) && h.size == |body|
    ensures Fits(decode, Member(Ustar(h), Stuffed(body))) && HeaderSize(decode, Ustar(h)) == Some(|body|)
    ensures Ustar(h)[156] == h.flag
  {
    hide Digits, SumField, HeaderSize;
    SizeComesBack(decode, h);
    assert Ustar(h)[257] == Place(h, SumField(h), 257) == 117;
    assert Ustar(h)[156] == Place(h, SumField(h), 156);
  }

  lemma LongFits(item: Item)
    requires Sized(item.header) && item.long.Some? && |item.long.value| <= 4096
    ensures Sized(LongHeader(item)) && !Special(LongHeader(item).mode)
    ensures LongHeader(item).size == |item.long.value + [0]|
  {
    assert |LONG_LINK| == 13;
  }

  /** The long name is taken up. */
  lemma TakesLong(decode: Decoder, kind: Kind, item: Item, at: nat, st: State)
    requires Ascii(decode) && Legal(decode, item) && item.long.Some? && st.long.None?
    ensures Sized(LongHeader(item))
    ensures Take(decode, kind, st, Ustar(LongHeader(item)), at, item.long.value + [0]) ==
              Some(st.(long := decode(item.long.value)))
  {
    hide Ustar, SafeName, FullName;
    LongFits(item);
    UstarFits(decode, LongHeader(item), item.long.value + [0]);
    var b := item.long.value + [0];
    UpToZeroStops(b, |item.long.value|);
    assert b[..|item.long.value|] == item.long.value;
  }

  /** The entry is accepted under the name that was written. */
  lemma TakesItem(decode: Decoder, kind: Kind, item: Item, at: nat, st: State)
    requires Ascii(decode) && Legal(decode, item) && |st.entries| < MAX_ENTRIES
    requires st.long == if item.long.Some? then decode(item.long.value) else None
    requires
      var name := SafeName(Title(decode, item).value).value;
      && !Named(st.entries, name) && (name == "" ==> item.header.flag == 53)
      && Placed(kind, name, item.header.flag == 53, |item.body|)
    ensures
      var name := SafeName(Title(decode, item).value).value;
      Take(decode, kind, st, Ustar(item.header), at, item.body) ==
        Some(State(None, st.entries + [Entry(name, item.header.flag == 53, at + 512, |item.body|)]))
  {
    hide Ustar, SafeName, Placed, HeaderName, FullName;
    UstarFits(decode, item.header, item.body);
    NameComesBack(decode, item.header);
  }

  lemma {:induction false} FlattenJoins(a: seq<Member>, b: seq<Member>)
    ensures Flatten(a + b) == Flatten(a) + Flatten(b)
    decreases a
  {
    if a == [] {
      assert a + b == b;
    } else {
      assert (a + b)[0] == a[0] && (a + b)[1..] == a[1..] + b;
      FlattenJoins(a[1..], b);
      assert a[0].header + a[0].body + (Flatten(a[1..]) + Flatten(b)) == Flatten(a) + Flatten(b);
    }
  }

  ghost predicate AllFit(decode: Decoder, members: seq<Member>) {
    forall i :: 0 <= i < |members| ==> Fits(decode, members[i])
  }

  lemma MembersFit(decode: Decoder, item: Item)
    requires Ascii(decode) && Legal(decode, item)
    ensures AllFit(decode, MembersOf(item))
  {
    hide Ustar, Fits, SafeName, FullName, HeaderSize, Special, Ascii, NoZero;
    UstarFits(decode, item.header, item.body);
    if item.long.Some? {
      LongFits(item);
      UstarFits(decode, LongHeader(item), item.long.value + [0]);
    }
  }

  /** Members take whole blocks. */
  lemma {:induction false} FlattenAligned(decode: Decoder, members: seq<Member>)
    requires AllFit(decode, members)
    ensures |Flatten(members)| % BLOCK == 0
  {
    hide Zeros, HeaderSize, Padded;
    if members != [] {
      var m := members[0];
      assert Fits(decode, m);
      FlattenAligned(decode, members[1..]);
      Aligned(BLOCK + |m.body|, |Flatten(members[1..])|);
      Aligned(BLOCK, |m.body|);
    }
  }

  lemma Aligned(x: nat, y: nat)
    requires x % BLOCK == 0 && y % BLOCK == 0
    ensures (x + y) % BLOCK == 0
  {
  }

  lemma FlattenOne(m: Member)
    ensures Flatten([m]) == m.header + m.body
  {
    assert [m][1..] == [];
    assert Flatten([m][1..]) == [];
  }

  lemma {:induction false} AllMembersFit(decode: Decoder, items: seq<Item>)
    requires Ascii(decode) && AllLegal(decode, items)
    ensures AllFit(decode, AllMembers(decode, items))
  {
    hide Legal, Fits, MembersOf, Ascii;
    if items != [] {
      assert Legal(decode, items[0]);
      MembersFit(decode, items[0]);
      AllMembersFit(decode, items[1..]);
    }
  }

  /** Taking the members of one item. */
  lemma ReplayItem(decode: Decoder, kind: Kind, item: Item, rest: seq<Member>, at: nat, st: State)
    requires Ascii(decode) && Legal(decode, item) && st.long.None? && |st.entries| < MAX_ENTRIES
    requires AllFit(decode, rest) && AllFit(decode, MembersOf(item) + rest)
    requires
      var e := EntryOf(decode, item, at);
      !Named(st.entries, e.name) && (e.name == "" ==> e.directory) && Placed(kind, e.name, e.directory, e.size)
    ensures Replay(decode, kind, MembersOf(item) + rest, at, st) ==
              Replay(decode, kind, rest, NextAt(item, at), State(None, st.entries + [EntryOf(decode, item, at)]))
  {
    hide Ustar, Fits, SafeName, FullName, HeaderSize, Special, Take, Named, Placed, Legal, Ascii, Padded, LongHeader;
    LegalIs(decode, item);
    var own := Member(Ustar(item.header), Stuffed(item.body));
    UstarFits(decode, item.header, item.body);
    if item.long.Some? {
      LongFits(item);
      var name := item.long.value + [0];
      UstarFits(decode, LongHeader(item), name);
      var long := Member(Ustar(LongHeader(item)), Stuffed(name));
      TakesLong(decode, kind, item, at, st);
      var members := MembersOf(item) + rest;
      assert members[0] == long && members[1..] == [own] + rest;
      var mid := at + 512 + Padded(|name|);
      TakesItem(decode, kind, item, mid, st.(long := decode(item.long.value)));
      assert ([own] + rest)[0] == own && ([own] + rest)[1..] == rest;
    } else {
      TakesItem(decode, kind, item, at, st);
      var members := MembersOf(item) + rest;
      assert members[0] == own && members[1..] == rest;
    }
  }

  lemma LegalIs(decode: Decoder, item: Item)
    requires Legal(decode, item)
    ensures Sized(item.header) && !Special(item.header.mode) && item.header.size == |item.body|
    ensures item.long.Some? ==> |item.long.value| <= 4096
    ensures Title(decode, item).Some? && SafeName(Title(decode, item).value).Some?
  {
    hide SafeName, Special, FullName;
  }

  ghost predicate Apart(entries: seq<Entry>) {
    forall i, k :: 0 <= i < k < |entries| ==> entries[i].name != entries[k].name
  }

  /** Every entry has a place in archives of this kind, and a name unless it is the root. */
  ghost predicate AllPlaced(kind: Kind, entries: seq<Entry>) {
    forall i :: 0 <= i < |entries| ==>
      && Placed(kind, entries[i].name, entries[i].directory, entries[i].size)
      && (entries[i].name == "" ==> entries[i].directory)
  }

  lemma {:induction false} ReplayItems(decode: Decoder, kind: Kind, items: seq<Item>, at: nat, st: State)
    requires Ascii(decode) && AllLegal(decode, items) && st.long.None?
    requires AllFit(decode, AllMembers(decode, items))
    requires |st.entries| + |items| <= MAX_ENTRIES
    requires Apart(st.entries + Layout(decode, items, at)) && AllPlaced(kind, Layout(decode, items, at))
    ensures Replay(decode, kind, AllMembers(decode, items), at, st) ==
              Some(State(None, st.entries + Layout(decode, items, at)))
    decreases items
  {
    hide Legal, Fits, MembersOf, Placed, EntryOf, Ascii;
    if items == [] {
      assert st.entries + [] == st.entries;
    } else {
      var item, rest := items[0], items[1..];
      assert Legal(decode, item);
      var e, more := EntryOf(decode, item, at), Layout(decode, rest, NextAt(item, at));
      assert Layout(decode, items, at) == [e] + more && ([e] + more)[0] == e;
      assert st.entries + [e] + more == st.entries + ([e] + more);
      NotNamed(st.entries, e, more);
      assert forall i :: 0 <= i < |more| ==> more[i] == ([e] + more)[i + 1];
      AllMembersFit(decode, rest);
      ReplayItem(decode, kind, item, AllMembers(decode, rest), at, st);
      ReplayItems(decode, kind, rest, NextAt(item, at), State(None, st.entries + [e]));
    }
  }

  lemma NotNamed(before: seq<Entry>, e: Entry, more: seq<Entry>)
    requires Apart(before + ([e] + more))
    ensures !Named(before, e.name)
  {
    var all := before + ([e] + more);
    assert all[|before|] == e && forall i :: 0 <= i < |before| ==> all[i] == before[i];
  }

  /** For every list of legal members with distinct names, and any number of zero blocks from two on:
      the index of the archive written is exactly their names, kinds, places and sizes. */
  lemma WrittenIsIndexed(decode: Decoder, kind: Kind, items: seq<Item>, blocks: nat)
    requires Ascii(decode) && AllLegal(decode, items) && 0 < |items| <= MAX_ENTRIES && blocks >= 2
    requires
      var entries, a := Layout(decode, items, 0), Archive(decode, items, blocks);
      Apart(entries) && AllPlaced(kind, entries) && Disjoint(entries) && Complete(kind, a, entries)
    ensures Index(decode, kind, Archive(decode, items, blocks)) == Some(Layout(decode, items, 0))
  {
    hide Legal, Fits, Layout, AllMembers, Disjoint, Complete, Ascii, Scan, AllPlaced, Apart, Replay, Flatten;
    var members, entries := AllMembers(decode, items), Layout(decode, items, 0);
    var a, n := Archive(decode, items, blocks), |Flatten(AllMembers(decode, items))|;
    AllMembersFit(decode, items);
    FlattenAligned(decode, members);
    Aligned(n, 512 * blocks);
    assert [] + entries == entries;
    ReplayItems(decode, kind, items, 0, START);
    assert a[0..n] == Flatten(members) && a[n..] == Zero(512 * blocks);
    TilesScan(decode, kind, a, 0, START, members, entries);
  }

  /** The body of an item lies behind its headers. */
  lemma ItemLies(item: Item) returns (pre: Bytes)
    requires Sized(item.header) && (item.long.Some? ==> |item.long.value| <= 4096)
    ensures Flatten(MembersOf(item)) == pre + Stuffed(item.body) && |pre| == BodyAt(item, 0)
    ensures |Flatten(MembersOf(item))| == NextAt(item, 0)
  {
    hide Ustar, Stuffed, Padded, Special;
    var own := Member(Ustar(item.header), Stuffed(item.body));
    FlattenOne(own);
    if item.long.Some? {
      LongFits(item);
      var long := Member(Ustar(LongHeader(item)), Stuffed(item.long.value + [0]));
      FlattenOne(long);
      FlattenJoins([long], [own]);
      assert MembersOf(item) == [long] + [own];
      pre := long.header + long.body + own.header;
      assert long.header + long.body + (own.header + own.body) == pre + own.body;
    } else {
      assert MembersOf(item) == [own];
      pre := own.header;
    }
  }

  /** What lies in the middle of a text is found there. */
  lemma Amid(x: Bytes, y: Bytes, z: Bytes, k: nat)
    requires k <= |y|
    ensures (x + y + z)[|x|..|x| + k] == y[..k]
  {
  }

  lemma Regroup(a: Bytes, b: Bytes, c: Bytes, d: Bytes)
    ensures a + (b + c) + d == a + b + c + d
  {
  }

  /** The layout, item by item. */
  lemma LayoutAt(decode: Decoder, items: seq<Item>, at: nat, i: nat)
    requires AllLegal(decode, items) && i < |items|
    ensures i == 0 ==>
      var e := Layout(decode, items, at)[0];
      e.bodyOffset == at + BodyAt(items[0], 0) && e.size == |items[0].body|
    ensures NextAt(items[0], at) == at + NextAt(items[0], 0)
    ensures i > 0 ==> Layout(decode, items, at)[i] == Layout(decode, items[1..], NextAt(items[0], at))[i - 1]
  {
    hide Padded, SafeName, FullName, Title, Special, NoZero, Sized;
  }

  /** A stretch of `a` is this body. */
  predicate Lies(a: Bytes, at: nat, body: Bytes) {
    at + |body| <= |a| && a[at..at + |body|] == body
  }

  lemma FirstLies(item: Item, before: Bytes, more: Bytes, after: Bytes)
    requires Sized(item.header) && (item.long.Some? ==> |item.long.value| <= 4096)
    ensures Lies(before + (Flatten(MembersOf(item)) + more) + after, |before| + BodyAt(item, 0), item.body)
    ensures |Flatten(MembersOf(item))| == NextAt(item, 0)
  {
    hide MembersOf, Flatten, Padded, Stuffed, BodyAt, NextAt, Sized;
    var pre := ItemLies(item);
    var own, body := Flatten(MembersOf(item)), Stuffed(item.body);
    assert before + (own + more) + after == (before + pre) + body + (more + after);
    Amid(before + pre, body, more + after, |item.body|);
  }

  lemma FirstAndRest(decode: Decoder, items: seq<Item>)
    requires AllLegal(decode, items) && items != []
    ensures Sized(items[0].header) && (items[0].long.Some? ==> |items[0].long.value| <= 4096)
    ensures Flatten(AllMembers(decode, items)) ==
              Flatten(MembersOf(items[0])) + Flatten(AllMembers(decode, items[1..]))
  {
    hide MembersOf, Flatten, Legal, Sized, Title, SafeName;
    assert Legal(decode, items[0]);
    LegalIs(decode, items[0]);
    FlattenJoins(MembersOf(items[0]), AllMembers(decode, items[1..]));
  }

  /** The bytes at the place and of the size that the index gives are the body that was written. */
  lemma {:induction false} BodiesLie(decode: Decoder, items: seq<Item>, before: Bytes, after: Bytes, i: nat)
    requires AllLegal(decode, items) && i < |items|
    ensures
      var e := Layout(decode, items, |before|)[i];
      e.size == |items[i].body| &&
      Lies(before + Flatten(AllMembers(decode, items)) + after, e.bodyOffset, items[i].body)
    decreases items
  {
    hide MembersOf, Flatten, Padded, Stuffed, Legal, Layout, BodyAt, NextAt, Lies, Sized, AllMembers, Title, SafeName;
    var item, rest := items[0], items[1..];
    assert Legal(decode, item);
    LegalIs(decode, item);
    LayoutAt(decode, items, |before|, i);
    FirstAndRest(decode, items);
    var own, more := Flatten(MembersOf(item)), Flatten(AllMembers(decode, rest));
    FirstLies(item, before, more, after);
    if i > 0 {
      Regroup(before, own, more, after);
      BodiesLie(decode, rest, before + own, after, i - 1);
    }
  }

  /** So a reader of the written archive gets back every body, byte for byte. */
  lemma BodiesComeBack(decode: Decoder, items: seq<Item>, blocks: nat, i: nat)
    requires AllLegal(decode, items) && i < |items|
    ensures
      var a, e := Archive(decode, items, blocks), Layout(decode, items, 0)[i];
      e.bodyOffset + e.size <= |a| && a[e.bodyOffset..e.bodyOffset + e.size] == items[i].body
  {
    hide Layout, AllMembers, Flatten, Legal;
    BodiesLie(decode, items, [], Zero(512 * blocks), i);
    assert [] + Flatten(AllMembers(decode, items)) == Flatten(AllMembers(decode, items));
  }
}
