/** The index of a state archive: what the scan accepts, and what acceptance means. */
module TarIndex {
  import opened Durability
  import opened TarPath

  type Byte = b: nat | b < 256

  type Bytes = seq<Byte>

  const BLOCK := 512
  const SAFE_INTEGER := 0x1F_FFFF_FFFF_FFFF
  const MAX_ENTRIES := 200_000

  datatype Kind = Controller | CrowdSec

  datatype Entry = Entry(name: string, directory: bool, bodyOffset: nat, size: nat)

  /** A text decoder: the platform's strict UTF-8, left open. */
  type Decoder = Bytes -> Option<string>

  // ---------- Fields ----------

  predicate Zeros(b: Bytes) {
    forall i :: 0 <= i < |b| ==> b[i] == 0
  }

  function UpToZero(b: Bytes): Bytes {
    if b == [] || b[0] == 0 then [] else [b[0]] + UpToZero(b[1..])
  }

  /** `tarString`. */
  function Text(decode: Decoder, b: Bytes): Option<string> {
    decode(UpToZero(b))
  }

  /** What `trim` takes off. */
  predicate Blank(c: char) {
    var n := c as int;
    || 9 <= n <= 13 || n == 32 || n == 0xA0 || n == 0x1680 || 0x2000 <= n <= 0x200A
    || n == 0x2028 || n == 0x2029 || n == 0x202F || n == 0x205F || n == 0x3000 || n == 0xFEFF
  }

  function Trim(s: string): string
    decreases |s|
  {
    if s == [] then []
    else if Blank(s[0]) then Trim(s[1..])
    else if Blank(s[|s| - 1]) then Trim(s[..|s| - 1])
    else s
  }

  function Octal(s: string): Option<nat> {
    if s == [] then Some(0)
    else
      var n := |s| - 1;
      var high := Octal(s[..n]);
      if high.None? || !('0' <= s[n] <= '7') then None
      else Some(8 * high.value + (s[n] as int - '0' as int))
  }

  /** `tarNumber`. */
  function Number(decode: Decoder, b: Bytes): Option<nat> {
    var text := Text(decode, b);
    if text.None? || Trim(text.value) == [] then None
    else
      var n := Octal(Trim(text.value));
      if n.None? || n.value > SAFE_INTEGER then None else n
  }

  /** The sum of the header bytes with the checksum field taken as blanks. */
  function Checksum(h: Bytes, n: nat): nat
    requires n <= |h|
  {
    if n == 0 then 0 else Checksum(h, n - 1) + if 148 <= n - 1 < 156 then 32 else h[n - 1]
  }

  /** The size field of a header that passes its checks. */
  function HeaderSize(decode: Decoder, h: Bytes): Option<nat>
    requires |h| == BLOCK
  {
    var mode := Number(decode, h[100..108]);
    if Number(decode, h[148..156]) != Some(Checksum(h, BLOCK)) || mode.None? || (mode.value / 512) % 8 != 0 then None
    else Number(decode, h[124..136])
  }

  function Padded(size: nat): (r: nat)
    ensures size <= r < size + BLOCK && r % BLOCK == 0
  {
    (size + 511) / 512 * 512
  }

  function HeaderName(decode: Decoder, h: Bytes): Option<string>
    requires |h| == BLOCK
  {
    var magic, short := Text(decode, h[257..263]), Text(decode, h[0..100]);
    if magic.None? || short.None? then None
    else if magic.value == "ustar" && h[262] == 0 then
      var prefix := Text(decode, h[345..500]);
      if prefix.None? then None
      else if prefix.value == "" then short
      else Some(prefix.value + "/" + short.value)
    else short
  }

  // ---------- One member ----------

  /** Where the scan is: a long name that waits for its entry, and the entries so far. */
  datatype State = State(long: Option<string>, entries: seq<Entry>)

  const START := State(None, [])

  predicate Named(entries: seq<Entry>, name: string) {
    exists i :: 0 <= i < |entries| && entries[i].name == name
  }

  const CROWDSEC_FILES: set<string> := {
    "data/crowdsec.db", "data/crowdsec.db-wal", "credentials/local_api_credentials.yaml",
    "credentials/online_api_credentials.yaml", "credentials/console.yaml", "bouncer/caddy-bouncer-key"
  }

  predicate Placed(kind: Kind, name: string, directory: bool, size: nat) {
    kind == CrowdSec ==>
      && (if directory then name in {"", "data", "credentials", "bouncer"} else name in CROWDSEC_FILES)
      && (!directory && name != "data/crowdsec.db" && name != "data/crowdsec.db-wal" ==> size <= 65_536)
  }

  /** What a CrowdSec archive may hold: four directories, and six files of which all but the
      database and its log are small. */
  lemma PlacedIs(name: string, size: nat)
    ensures Placed(CrowdSec, name, true, size) <==>
              name == "" || name == "data" || name == "credentials" || name == "bouncer"
    ensures Placed(CrowdSec, name, false, size) <==>
      || name == "data/crowdsec.db" || name == "data/crowdsec.db-wal"
      || (size <= 64 * 1024 &&
          (|| name == "credentials/local_api_credentials.yaml" || name == "credentials/online_api_credentials.yaml"
           || name == "credentials/console.yaml" || name == "bouncer/caddy-bouncer-key"))
  {
  }

  /** A header of type `L` carries the name of the next member in its body. */
  function TakeLong(decode: Decoder, st: State, body: Bytes): Option<State> {
    if st.long.Some? || |body| > 4097 then None
    else
      var name := Text(decode, body);
      if name.None? then None else Some(st.(long := name))
  }

  function TakeEntry(decode: Decoder, kind: Kind, st: State, h: Bytes, at: nat, size: nat): Option<State>
    requires |h| == BLOCK
  {
    var directory := h[156] == 53;
    var own := HeaderName(decode, h);
    if h[156] != 0 && h[156] != 48 && h[156] != 53 then None
    else if (directory && size != 0) || own.None? then None
    else
      var name := SafeName(if st.long.Some? then st.long.value else own.value);
      if name.None? || (name.value == "" && !directory) || Named(st.entries, name.value) then None
      else if !Placed(kind, name.value, directory, size) || |st.entries| >= MAX_ENTRIES then None
      else Some(State(None, st.entries + [Entry(name.value, directory, at + BLOCK, size)]))
  }

  /** One member at `at`, with the first `size` bytes of its body. */
  function Take(decode: Decoder, kind: Kind, st: State, h: Bytes, at: nat, body: Bytes): Option<State>
    requires |h| == BLOCK
  {
    if h[156] == 76 then TakeLong(decode, st, body) else TakeEntry(decode, kind, st, h, at, |body|)
  }

  // ---------- The end ----------

  /** `validateArchivePathConflicts`: no file is a directory of another member. */
  ghost predicate Disjoint(entries: seq<Entry>) {
    forall i, k :: 0 <= i < |entries| && 0 <= k < |entries| && !entries[i].directory ==>
          !Ancestor(entries[i].name, entries[k].name)
  }

  predicate HasFile(entries: seq<Entry>, name: string) {
    exists i :: 0 <= i < |entries| && entries[i].name == name && !entries[i].directory
  }

  const SQLITE: Bytes := [83, 81, 76, 105, 116, 101, 32, 102, 111, 114, 109, 97, 116, 32, 51, 0]

  /** The index of the first entry of a name, or the length. */
  function Find(entries: seq<Entry>, name: string): (i: nat)
    ensures i <= |entries| && (i < |entries| ==> entries[i].name == name)
    ensures forall k :: 0 <= k < i ==> entries[k].name != name
  {
    if entries == [] || entries[0].name == name then 0 else 1 + Find(entries[1..], name)
  }

  /** A database comes with its credentials and starts with the SQLite signature. */
  ghost predicate Complete(kind: Kind, a: Bytes, entries: seq<Entry>) {
    kind == CrowdSec && Named(entries, "data/crowdsec.db") ==>
      && HasFile(entries, "credentials/local_api_credentials.yaml") && HasFile(entries, "bouncer/caddy-bouncer-key")
      && Signed(a, entries[Find(entries, "data/crowdsec.db")])
  }

  predicate Signed(a: Bytes, db: Entry) {
    var n := if db.size < 16 then db.size else 16;
    db.bodyOffset + n <= |a| && a[db.bodyOffset..db.bodyOffset + n] == SQLITE
  }

  ghost predicate Final(kind: Kind, a: Bytes, st: State) {
    st.long.None? && st.entries != [] && Disjoint(st.entries) && Complete(kind, a, st.entries)
  }

  // ---------- The scan ----------

  ghost function Scan(decode: Decoder, kind: Kind, a: Bytes, at: nat, st: State): Option<seq<Entry>>
    decreases |a| - at
  {
    if at + BLOCK > |a| then None
    else
      var h := a[at..at + BLOCK];
      if Zeros(h) then
        if at + 1024 <= |a| && Zeros(a[at + BLOCK..]) && Final(kind, a, st) then Some(st.entries) else None
      else
        var size := HeaderSize(decode, h);
        if size.None? || at + BLOCK + Padded(size.value) > |a| then None
        else
          var next := Take(decode, kind, st, h, at, a[at + BLOCK..at + BLOCK + size.value]);
          if next.None? then None else Scan(decode, kind, a, at + BLOCK + Padded(size.value), next.value)
  }

  ghost function Index(decode: Decoder, kind: Kind, a: Bytes): Option<seq<Entry>> {
    if |a| < 1024 || |a| % BLOCK != 0 then None else Scan(decode, kind, a, 0, START)
  }

  // ---------- What an archive is ----------

  /** A member as it lies in the archive: its header and its padded body. */
  datatype Member = Member(header: Bytes, body: Bytes)

  ghost predicate Fits(decode: Decoder, m: Member) {
    && |m.header| == BLOCK && !Zeros(m.header)
    && HeaderSize(decode, m.header).Some? && |m.body| == Padded(HeaderSize(decode, m.header).value)
  }

  function Flatten(members: seq<Member>): Bytes {
    if members == [] then [] else members[0].header + members[0].body + Flatten(members[1..])
  }

  /** The members taken one after the other, the first of them at `at`. */
  ghost function Replay(decode: Decoder, kind: Kind, members: seq<Member>, at: nat, st: State): Option<State>
    requires forall i :: 0 <= i < |members| ==> Fits(decode, members[i])
  {
    if members == [] then Some(st)
    else
      var m := members[0];
      assert Fits(decode, m);
      var next := Take(decode, kind, st, m.header, at, m.body[..HeaderSize(decode, m.header).value]);
      if next.None? then None
      else Replay(decode, kind, members[1..], at + BLOCK + |m.body|, next.value)
  }

  /** From `at` on, the archive is exactly these members end to end and at least two zero blocks. */
  ghost predicate Tiled(decode: Decoder, a: Bytes, at: nat, members: seq<Member>) {
    && (forall i :: 0 <= i < |members| ==> Fits(decode, members[i]))
    && at + |Flatten(members)| + 1024 <= |a|
    && a[at..at + |Flatten(members)|] == Flatten(members) && Zeros(a[at + |Flatten(members)|..])
  }

  ghost predicate Yields(decode: Decoder, kind: Kind, a: Bytes, at: nat, st: State, members: seq<Member>,
                         entries: seq<Entry>) {
    && Tiled(decode, a, at, members)
    && var last := Replay(decode, kind, members, at, st);
    && last.Some? && Final(kind, a, last.value) && entries == last.value.entries
  }

  // ---------- Acceptance is tiling ----------

  /** A member in front of a tiled rest. */
  lemma TiledCons(decode: Decoder, a: Bytes, at: nat, size: nat, rest: seq<Member>)
    requires at + BLOCK + Padded(size) <= |a| && !Zeros(a[at..at + BLOCK])
    requires HeaderSize(decode, a[at..at + BLOCK]) == Some(size)
    requires Tiled(decode, a, at + BLOCK + Padded(size), rest)
    ensures
      var m := Member(a[at..at + BLOCK], a[at + BLOCK..at + BLOCK + Padded(size)]);
      Fits(decode, m) && Tiled(decode, a, at, [m] + rest) && m.body[..size] == a[at + BLOCK..at + BLOCK + size]
  {
    hide Zeros, HeaderSize, Padded;
    var m := Member(a[at..at + BLOCK], a[at + BLOCK..at + BLOCK + Padded(size)]);
    var members, next := [m] + rest, at + BLOCK + Padded(size);
    assert members[1..] == rest && members[0] == m;
    assert Flatten(members) == m.header + m.body + Flatten(rest);
    var n := |Flatten(rest)|;
    SliceJoin(a, at, at + BLOCK, next, next + n);
    SliceHead(a, at + BLOCK, Padded(size), size);
    assert at + |Flatten(members)| == next + n;
  }

  lemma {:induction false} ScanTiles(decode: Decoder, kind: Kind, a: Bytes, at: nat, st: State)
    returns (members: seq<Member>)
    requires Scan(decode, kind, a, at, st).Some?
    ensures Yields(decode, kind, a, at, st, members, Scan(decode, kind, a, at, st).value)
    decreases |a| - at
  {
    hide HeaderSize, Padded, Take, Final;
    var h := a[at..at + BLOCK];
    if Zeros(h) {
      members := [];
      assert a[at..at] == [];
      assert forall i :: at <= i < |a| ==>
            a[i] == if i < at + BLOCK then h[i - at] else a[at + BLOCK..][i - at - BLOCK];
    } else {
      var size := HeaderSize(decode, h).value;
      var body := a[at + BLOCK..at + BLOCK + size];
      var next := Take(decode, kind, st, h, at, body).value;
      var rest := ScanTiles(decode, kind, a, at + BLOCK + Padded(size), next);
      TiledCons(decode, a, at, size, rest);
      var m := Member(h, a[at + BLOCK..at + BLOCK + Padded(size)]);
      members := [m] + rest;
      assert members[1..] == rest && members[0] == m;
      assert m.body[..size] == body;
    }
  }

  lemma {:induction false} TilesScan(decode: Decoder, kind: Kind, a: Bytes, at: nat, st: State, members: seq<Member>,
                                     entries: seq<Entry>)
    requires Yields(decode, kind, a, at, st, members, entries)
    ensures Scan(decode, kind, a, at, st) == Some(entries)
    decreases |members|
  {
    hide HeaderSize, Padded, Take, Final;
    if members == [] {
      assert forall i :: 0 <= i < |a| - at ==> a[at..][i] == 0;
    } else {
      var m, rest := members[0], members[1..];
      assert Fits(decode, m);
      TiledHead(decode, a, at, members);
      var size := HeaderSize(decode, m.header).value;
      SliceHead(a, at + BLOCK, |m.body|, size);
      var next := Take(decode, kind, st, m.header, at, m.body[..size]).value;
      TilesScan(decode, kind, a, at + BLOCK + |m.body|, next, rest, entries);
    }
  }

  lemma SliceHead(a: Bytes, from: nat, n: nat, k: nat)
    requires k <= n && from + n <= |a|
    ensures a[from..from + n][..k] == a[from..from + k]
  {
  }

  /** The first member of a tiled stretch lies where the scan looks for it. */
  lemma TiledHead(decode: Decoder, a: Bytes, at: nat, members: seq<Member>)
    requires Tiled(decode, a, at, members) && members != [] && Fits(decode, members[0])
    ensures
      var m := members[0];
      && at + BLOCK + |m.body| <= |a|
      && a[at..at + BLOCK] == m.header && a[at + BLOCK..at + BLOCK + |m.body|] == m.body
      && Tiled(decode, a, at + BLOCK + |m.body|, members[1..])
  {
    hide Zeros, HeaderSize, Padded;
    var m, rest := members[0], members[1..];
    var all, next := Flatten(members), at + BLOCK + |m.body|;
    assert all == m.header + m.body + Flatten(rest);
    Parts3(m.header, m.body, Flatten(rest));
    SliceIn(a, at, |all|, 0, BLOCK);
    SliceIn(a, at, |all|, BLOCK, BLOCK + |m.body|);
    SliceIn(a, at, |all|, BLOCK + |m.body|, |all|);
  }

  lemma Parts3(x: Bytes, y: Bytes, z: Bytes)
    ensures
      var all := x + y + z;
      all[0..|x|] == x && all[|x|..|x| + |y|] == y && all[|x| + |y|..|all|] == z
  {
  }

  lemma SliceIn(a: Bytes, from: nat, n: nat, i: nat, k: nat)
    requires i <= k <= n && from + n <= |a|
    ensures a[from..from + n][i..k] == a[from + i..from + k]
  {
    var whole := a[from..from + n];
    assert forall x :: i <= x < k ==> whole[x] == a[from + x];
    assert whole[i..k] == a[from + i..from + k];
  }

  lemma SliceJoin(a: Bytes, p: nat, q: nat, r: nat, t: nat)
    requires p <= q <= r <= t <= |a|
    ensures a[p..t] == a[p..q] + a[q..r] + a[r..t]
  {
  }

  /** For every byte string: the scan accepts it, with this index, exactly when it is a sequence
      of acceptable members laid end to end before a trailer of zeros. */
  lemma AcceptedIffTiled(decode: Decoder, kind: Kind, a: Bytes, entries: seq<Entry>)
    ensures Index(decode, kind, a) == Some(entries) <==>
              |a| % BLOCK == 0 && exists members :: Yields(decode, kind, a, 0, START, members, entries)
  {
    hide Yields, Scan;
    if Index(decode, kind, a) == Some(entries) {
      var members := ScanTiles(decode, kind, a, 0, START);
    }
    if |a| % BLOCK == 0 && exists members :: Yields(decode, kind, a, 0, START, members, entries) {
      var members :| Yields(decode, kind, a, 0, START, members, entries);
      YieldsLength(decode, kind, a, members, entries);
      TilesScan(decode, kind, a, 0, START, members, entries);
    }
  }

  lemma YieldsLength(decode: Decoder, kind: Kind, a: Bytes, members: seq<Member>, entries: seq<Entry>)
    requires Yields(decode, kind, a, 0, START, members, entries)
    ensures |a| >= 1024
  {
  }

  // ---------- What acceptance promises ----------

  /** The entries so far: disjoint bodies before `at`, distinct relative names. */
  ghost predicate Laid(entries: seq<Entry>, at: nat) {
    && (forall i :: 0 <= i < |entries| ==>
          && BLOCK <= entries[i].bodyOffset && entries[i].bodyOffset + Padded(entries[i].size) <= at
          && Relative(entries[i].name) && (entries[i].name == "" ==> entries[i].directory)
          && (entries[i].directory ==> entries[i].size == 0))
    && (forall i, k :: 0 <= i < k < |entries| ==>
          && entries[i].bodyOffset + Padded(entries[i].size) + BLOCK <= entries[k].bodyOffset
          && entries[i].name != entries[k].name)
    && |entries| <= MAX_ENTRIES
  }

  lemma TakeLays(decode: Decoder, kind: Kind, st: State, h: Bytes, at: nat, body: Bytes)
    requires |h| == BLOCK && Laid(st.entries, at) && Take(decode, kind, st, h, at, body).Some?
    ensures Laid(Take(decode, kind, st, h, at, body).value.entries, at + BLOCK + Padded(|body|))
  {
    hide Relative, SafeName, HeaderName, Placed, Padded, Text;
    var next := Take(decode, kind, st, h, at, body).value;
    if h[156] != 76 {
      var own := HeaderName(decode, h);
      SafeNameIsRelative(if st.long.Some? then st.long.value else own.value);
      var last := next.entries[|st.entries|];
      assert next.entries == st.entries + [last] && last.size == |body|;
      assert forall i :: 0 <= i < |st.entries| ==> st.entries[i].name != last.name;
    }
  }

  lemma {:induction false} ScanLays(decode: Decoder, kind: Kind, a: Bytes, at: nat, st: State)
    requires |a| >= 1024 && Laid(st.entries, at) && Scan(decode, kind, a, at, st).Some?
    ensures Scan(decode, kind, a, at, st).value != []
    ensures Laid(Scan(decode, kind, a, at, st).value, |a| - 1024) && Disjoint(Scan(decode, kind, a, at, st).value)
    ensures Complete(kind, a, Scan(decode, kind, a, at, st).value)
    decreases |a| - at
  {
    hide HeaderSize, Padded, Take, Relative, Disjoint, Complete;
    var h := a[at..at + BLOCK];
    if !Zeros(h) {
      var size := HeaderSize(decode, h).value;
      var body := a[at + BLOCK..at + BLOCK + size];
      TakeLays(decode, kind, st, h, at, body);
      ScanLays(decode, kind, a, at + BLOCK + Padded(size), Take(decode, kind, st, h, at, body).value);
    }
  }

  /** An accepted archive: bodies do not overlap and lie before the trailer, names are distinct
      and relative without `..`, and no file is a directory of another member. */
  lemma AcceptedIsSafe(decode: Decoder, kind: Kind, a: Bytes)
    requires Index(decode, kind, a).Some?
    ensures
      var entries := Index(decode, kind, a).value;
      Laid(entries, |a| - 1024) && Disjoint(entries) && Complete(kind, a, entries) && entries != []
  {
    hide Laid, Disjoint, Complete, Scan;
    LaidEmpty();
    ScanLays(decode, kind, a, 0, START);
  }

  lemma LaidEmpty()
    ensures Laid([], 0)
  {
  }
}
