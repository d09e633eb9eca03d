/** The scan as the archive reader runs it: a generator that asks for one stretch of bytes at a
    time, and its two drivers. */
module TarScan {
  import opened Durability
  import opened TarPath
  import opened TarIndex

  /** What the generator waits for. */
  datatype Stage = AtHeader | InLong(body: nat, size: nat) | InTrailer(from: nat) | InSignature(db: nat) | Over

  datatype Yield = Wants(offset: nat, size: nat) | Returns(entries: seq<Entry>) | Throws

  const CHUNK := 65_536

  /** The name table holds exactly the entries. */
  ghost predicate Mapped(names: map<string, bool>, entries: seq<Entry>) {
    && (forall i :: 0 <= i < |entries| ==> entries[i].name in names && names[entries[i].name] == entries[i].directory)
    && (forall n :: n in names ==> Named(entries, n))
  }

  /** `validateArchivePathConflicts`. */
  method ConflictFree(names: map<string, bool>, entries: seq<Entry>) returns (ok: bool)
    requires Mapped(names, entries)
    ensures ok <==> Disjoint(entries)
  {
    var k := 0;
    while k < |entries|
      invariant k <= |entries|
      invariant forall i, x :: 0 <= i < |entries| && 0 <= x < k && !entries[i].directory ==>
                !Ancestor(entries[i].name, entries[x].name)
    {
      var name := entries[k].name;
      var slash := 0;
      while slash < |name|
        invariant slash <= |name|
        invariant forall i :: 0 <= i < |entries| && !entries[i].directory && |entries[i].name| < slash ==>
                  !Ancestor(entries[i].name, name)
      {
        if name[slash] == SLASH && name[..slash] in names && !names[name[..slash]] {
          var i :| 0 <= i < |entries| && entries[i].name == name[..slash];
          assert Ancestor(entries[i].name, entries[k].name);
          return false;
        }
        slash := slash + 1;
      }
      k := k + 1;
    }
    ok := true;
  }

  /** What is left to find out, as a function of what the generator has kept. */
  ghost function Rest(decode: Decoder, kind: Kind, a: Bytes, stage: Stage, offset: nat, st: State): Option<seq<Entry>> {
    match stage
    case AtHeader => Scan(decode, kind, a, offset, st)
    case InLong(body, size) =>
      if body + size > |a| then None
      else
        var next := TakeLong(decode, st, a[body..body + size]);
        if next.None? then None else Scan(decode, kind, a, offset, next.value)
    case InTrailer(from) =>
      if from <= |a| && Zeros(a[from..]) && Final(kind, a, st) then Some(st.entries) else None
    case InSignature(db) =>
      if db < |st.entries| && Signed(a, st.entries[db]) then Some(st.entries) else None
    case Over => None
  }

  // ---------- Steps of the scan ----------

  /** A stretch of zeros is its first chunk and the rest of it. */
  lemma ZerosSplit(a: Bytes, from: nat, to: nat)
    requires from <= to <= |a|
    ensures Zeros(a[from..]) <==> Zeros(a[from..to]) && Zeros(a[to..])
  {
    if Zeros(a[from..]) {
      assert forall i :: 0 <= i < to - from ==> a[from..to][i] == a[from..][i];
      assert forall i :: 0 <= i < |a| - to ==> a[to..][i] == a[from..][i + to - from];
    }
    if Zeros(a[from..to]) && Zeros(a[to..]) {
      assert forall i :: 0 <= i < |a| - from ==>
        a[from..][i] == if i < to - from then a[from..to][i] else a[to..][i - (to - from)];
    }
  }

  lemma MappedMore(names: map<string, bool>, entries: seq<Entry>, e: Entry)
    requires Mapped(names, entries) && e.name !in names
    ensures Mapped(names[e.name := e.directory], entries + [e])
  {
    var more := entries + [e];
    assert more[|entries|] == e;
    forall n | n in names ensures Named(more, n) {
      var i :| 0 <= i < |entries| && entries[i].name == n;
      assert more[i].name == n;
    }
  }

  lemma MappedHas(names: map<string, bool>, entries: seq<Entry>, name: string)
    requires Mapped(names, entries)
    ensures name in names <==> Named(entries, name)
    ensures name in names && !names[name] <==> HasFile(entries, name)
  {
  }

  /** A file of a well-laid index lies within the archive. */
  lemma LaidWithin(entries: seq<Entry>, at: nat, i: nat)
    requires Laid(entries, at) && i < |entries|
    ensures entries[i].bodyOffset + entries[i].size <= at
  {
  }

  /** The scan at a member goes on behind it. */
  lemma ScanMember(decode: Decoder, kind: Kind, a: Bytes, at: nat, st: State, size: nat)
    requires at + BLOCK + Padded(size) <= |a| && !Zeros(a[at..at + BLOCK])
    requires HeaderSize(decode, a[at..at + BLOCK]) == Some(size)
    ensures
      var t := Take(decode, kind, st, a[at..at + BLOCK], at, a[at + BLOCK..at + BLOCK + size]);
      Scan(decode, kind, a, at, st) ==
        if t.None? then None else Scan(decode, kind, a, at + BLOCK + Padded(size), t.value)
  {
    hide Zeros, HeaderSize, Padded, Take;
  }

  lemma NothingIsZeros()
    ensures Zeros([])
  {
  }

  lemma LaidLater(entries: seq<Entry>, at: nat, later: nat)
    requires Laid(entries, at) && at <= later
    ensures Laid(entries, later)
  {
  }

  lemma LaidCount(entries: seq<Entry>, at: nat)
    requires Laid(entries, at)
    ensures |entries| <= MAX_ENTRIES
  {
  }

  class Generator {
    const decode: Decoder
    const byteLength: nat
    const kind: Kind
    var stage: Stage
    var offset: nat
    var longName: Option<string>
    var names: map<string, bool>
    var entries: seq<Entry>

    /** The generator scans `a` and will return what the scan of `a` returns. */
    ghost predicate Tracks(a: Bytes)
      reads this
    {
      && |a| == byteLength && 1024 <= byteLength && byteLength % BLOCK == 0
      && offset <= byteLength && Mapped(names, entries) && Laid(entries, offset)
      && (stage.InTrailer? ==> longName.None?)
      && Rest(decode, kind, a, stage, offset, State(longName, entries)) == Index(decode, kind, a)
    }

    /** What the generator asks for next. */
    function Wanted(): (y: Yield)
      reads this
    {
      match stage
      case AtHeader => Wants(offset, BLOCK)
      case InLong(body, size) => Wants(body, size)
      case InTrailer(from) =>
        Wants(from, if from + CHUNK <= byteLength then CHUNK else if from <= byteLength then byteLength - from else 0)
      case InSignature(db) =>
        if db >= |entries| then Throws
        else Wants(entries[db].bodyOffset, if entries[db].size < 16 then entries[db].size else 16)
      case Over => Throws
    }

    /** How much work is left, for the drivers to terminate. */
    ghost function Left(): int
      reads this
    {
      match stage
      case AtHeader => 2 * (byteLength - offset) + 3
      case InLong(_, _) => 2 * (byteLength - offset) + 4
      case InTrailer(from) => byteLength - from + 1
      case InSignature(_) => 1
      case Over => 0
    }

    /** The generator is suspended at a request it may make. */
    ghost predicate Suspended(a: Bytes, y: Yield)
      reads this
    {
      Tracks(a) && y == Wanted() && y.Wants? && y.offset + y.size <= |a| && Left() >= 0 &&
      (stage.InTrailer? ==> stage.from < byteLength)
    }

    /** What every resumption ends in: a request, or the outcome of the scan. */
    ghost predicate Answers(a: Bytes, y: Yield)
      reads this
    {
      && (y.Wants? ==> Suspended(a, y))
      && (y.Returns? ==> Index(decode, kind, a) == Some(y.entries))
      && (y.Throws? ==> Index(decode, kind, a) == None)
    }

    constructor (decode: Decoder, byteLength: nat, kind: Kind)
      ensures this.decode == decode && this.byteLength == byteLength && this.kind == kind
      ensures stage == AtHeader && offset == 0 && longName == None && names == map[] && entries == []
    {
      this.decode, this.byteLength, this.kind := decode, byteLength, kind;
      stage, offset, longName, names, entries := AtHeader, 0, None, map[], [];
    }

    /** The first `next()`. */
    method Begin(ghost a: Bytes) returns (y: Yield)
      requires |a| == byteLength && stage == AtHeader && offset == 0 && longName == None && names == map[]
      requires entries == []
      ensures Answers(a, y)
    {
      hide Scan;
      if byteLength < 1024 || byteLength % BLOCK != 0 { return Throws; }
      y := Wanted();
    }

    /** The loop test: another header, or no trailer was found. */
    method Await(ghost a: Bytes) returns (y: Yield)
      requires Tracks(a) && stage == AtHeader
      ensures Answers(a, y)
    {
      if offset + BLOCK > byteLength { return Throws; }
      hide Scan;
      y := Wanted();
    }

    /** A header of an entry: its name is entered in the table. */
    method Enter(h: Bytes, size: nat) returns (ok: bool)
      requires |h| == BLOCK && h[156] != 76 && Mapped(names, entries) && |entries| <= MAX_ENTRIES
      modifies this`longName, this`names, this`entries
      ensures
        var next := TakeEntry(decode, kind, State(old(longName), old(entries)), h, offset, size);
        (ok <==> next.Some?) && (ok ==> State(longName, entries) == next.value && Mapped(names, entries))
    {
      hide SafeName, HeaderName, Placed;
      if h[156] != 0 && h[156] != 48 && h[156] != 53 { return false; }
      var directory := h[156] == 53;
      if directory && size != 0 { return false; }
      var own := HeaderName(decode, h);
      if own.None? { return false; }
      var name := SafeName(if longName.Some? then longName.value else own.value);
      if name.None? { return false; }
      MappedHas(names, entries, name.value);
      if (name.value == "" && !directory) || name.value in names { return false; }
      if !Placed(kind, name.value, directory, size) { return false; }
      MappedMore(names, entries, Entry(name.value, directory, offset + BLOCK, size));
      longName := None;
      names := names[name.value := directory];
      entries := entries + [Entry(name.value, directory, offset + BLOCK, size)];
      ok := |entries| <= MAX_ENTRIES;
    }

    /** A header block has arrived. */
    method OnHeader(h: Bytes, ghost a: Bytes) returns (y: Yield)
      requires Suspended(a, Wants(offset, BLOCK)) && stage == AtHeader && h == a[offset..offset + BLOCK]
      modifies this
      ensures Answers(a, y) && (y.Wants? ==> Left() < old(Left()))
    {
      hide Zeros, HeaderSize, TakeEntry, TakeLong, Disjoint, Complete, Laid, Mapped;
      if Zeros(h) {
        if longName.Some? || offset + 1024 > byteLength { return Throws; }
        stage := InTrailer(offset + BLOCK);
        y := Wanted();
        return;
      }
      var size := HeaderSize(decode, h);
      if size.None? { return Throws; }
      var next := offset + BLOCK + Padded(size.value);
      if next > byteLength { return Throws; }
      y := OnMember(h, size.value, a);
    }

    /** A header that passed its checks: a long name to read, or an entry. */
    method OnMember(h: Bytes, size: nat, ghost a: Bytes) returns (y: Yield)
      requires Tracks(a) && stage == AtHeader && offset + BLOCK + Padded(size) <= byteLength
      requires h == a[offset..offset + BLOCK] && !Zeros(h) && HeaderSize(decode, h) == Some(size)
      modifies this
      ensures Answers(a, y) && (y.Wants? ==> Left() < old(Left()))
    {
      hide Zeros, HeaderSize, TakeEntry, Final, Mapped, Padded, Index;
      hide Scan, Laid, SafeName, Text;
      ghost var st, body := State(longName, entries), a[offset + BLOCK..offset + BLOCK + size];
      ScanMember(decode, kind, a, offset, st, size);
      var next := offset + BLOCK + Padded(size);
      if h[156] == 76 {
        if longName.Some? || size > 4097 { return Throws; }
        LaidLater(entries, offset, next);
        stage := InLong(offset + BLOCK, size);
        offset := next;
        y := Wanted();
      } else {
        LaidCount(entries, offset);
        if Take(decode, kind, st, h, offset, body).Some? { TakeLays(decode, kind, st, h, offset, body); }
        var ok := Enter(h, size);
        if !ok { return Throws; }
        offset := next;
        y := Await(a);
      }
    }

    /** The body of a long name has arrived. */
    method OnLong(reply: Bytes, ghost a: Bytes) returns (y: Yield)
      requires stage.InLong? && Suspended(a, Wants(stage.body, stage.size))
      requires reply == a[stage.body..stage.body + stage.size]
      modifies this
      ensures Answers(a, y) && (y.Wants? ==> Left() < old(Left()))
    {
      hide Scan, Text, Laid, Mapped;
      if longName.Some? || |reply| > 4097 { return Throws; }
      var name := Text(decode, reply);
      if name.None? { return Throws; }
      longName := name;
      stage := AtHeader;
      y := Await(a);
    }

    /** A chunk of the trailer has arrived. */
    method OnTrailer(reply: Bytes, ghost a: Bytes) returns (y: Yield)
      requires stage.InTrailer? && Suspended(a, Wanted()) && stage.from < byteLength
      requires reply == a[Wanted().offset..Wanted().offset + Wanted().size]
      modifies this
      ensures Answers(a, y) && (y.Wants? ==> Left() < old(Left()))
    {
      hide Scan, Zeros, Laid, Mapped, Final, Index;
      var to := stage.from + |reply|;
      ZerosSplit(a, stage.from, to);
      if !Zeros(reply) { return Throws; }
      if stage.from + CHUNK < byteLength {
        stage := InTrailer(stage.from + CHUNK);
        y := Wanted();
        return;
      }
      assert a[to..] == [];
      assert Zeros(a[to..]) by { NothingIsZeros(); }
      y := Close(a);
    }

    /** The whole trailer is zero. */
    method Close(ghost a: Bytes) returns (y: Yield)
      requires Tracks(a) && stage.InTrailer? && stage.from < byteLength && Zeros(a[stage.from..])
      modifies this`stage
      ensures Answers(a, y) && (y.Wants? ==> Left() < old(Left()))
    {
      hide Scan, Zeros, Laid, Mapped, Disjoint, Index, Signed;
      if entries == [] { return Throws; }
      var ok := ConflictFree(names, entries);
      if !ok { return Throws; }
      MappedHas(names, entries, "data/crowdsec.db");
      if kind == CrowdSec && "data/crowdsec.db" in names {
        var required := ["credentials/local_api_credentials.yaml", "bouncer/caddy-bouncer-key"];
        MappedHas(names, entries, required[0]);
        MappedHas(names, entries, required[1]);
        if required[0] !in names || names[required[0]] || required[1] !in names || names[required[1]] { return Throws; }
        var db := Find(entries, "data/crowdsec.db");
        LaidWithin(entries, offset, db);
        stage := InSignature(db);
        y := Wanted();
      } else {
        y := Returns(entries);
        stage := Over;
      }
    }

    /** The head of the database has arrived. */
    method OnSignature(reply: Bytes, ghost a: Bytes) returns (y: Yield)
      requires stage.InSignature? && Suspended(a, Wanted())
      requires reply == a[Wanted().offset..Wanted().offset + Wanted().size]
      modifies this`stage
      ensures Answers(a, y) && !y.Wants?
    {
      hide Index, Laid, Mapped, Scan;
      if reply != SQLITE { return Throws; }
      y := Returns(entries);
      stage := Over;
    }

    /** `next(reply)`. */
    method Next(reply: Bytes, ghost a: Bytes, ghost y: Yield) returns (r: Yield)
      requires Suspended(a, y) && reply == a[y.offset..y.offset + y.size]
      modifies this
      ensures Answers(a, r) && (r.Wants? ==> Left() < old(Left()))
    {
      hide Tracks, Index;
      match stage {
        case AtHeader => r := OnHeader(reply, a);
        case InLong(_, _) => r := OnLong(reply, a);
        case InTrailer(_) => r := OnTrailer(reply, a);
        case InSignature(_) => r := OnSignature(reply, a);
      }
    }
  }

  // ---------- The drivers ----------

  /** `validateStateArchive`: the whole archive is in memory. */
  method ValidateArchive(decode: Decoder, archive: Bytes, kind: Kind) returns (r: Option<seq<Entry>>)
    ensures r == Index(decode, kind, archive)
  {
    hide Index;
    var index := new Generator(decode, |archive|, kind);
    var next := index.Begin(archive);
    while next.Wants?
      invariant fresh(index) && index.decode == decode && index.kind == kind && index.Answers(archive, next)
      decreases if next.Wants? then index.Left() else -1
    {
      next := index.Next(archive[next.offset..next.offset + next.size], archive, next);
    }
    r := if next.Returns? then Some(next.entries) else None;
  }

  /** `readFileRange`: reads may be short; one that makes no progress is an error. */
  method ReadFileRange(file: Bytes, offset: nat, size: nat) returns (r: Option<Bytes>)
    requires offset + size <= |file|
    ensures r.Some? ==> r.value == file[offset..offset + size]
  {
    var buffer: Bytes := [];
    while |buffer| < size
      invariant |buffer| <= size && buffer == file[offset..offset + |buffer|]
    {
      var count: int := *;
      if !(0 < count <= size - |buffer|) { return None; }
      var from := offset + |buffer|;
      assert file[offset..from + count] == file[offset..from] + file[from..from + count];
      buffer := buffer + file[from..from + count];
    }
    r := Some(buffer);
  }

  /** `validateStateArchiveFile`: the archive is a file; a read or the caller may stop it.  If
      neither does, it finds what the scan of the same bytes in memory finds. */
  method ValidateArchiveFile(decode: Decoder, file: Bytes, kind: Kind) returns (stopped: bool, r: Option<seq<Entry>>)
    ensures !stopped ==> r == Index(decode, kind, file)
  {
    hide Index;
    var index := new Generator(decode, |file|, kind);
    var next := index.Begin(file);
    while next.Wants?
      invariant fresh(index) && index.decode == decode && index.kind == kind && index.Answers(file, next)
      decreases if next.Wants? then index.Left() else -1
    {
      var aborted: bool := *;
      if aborted { return true, None; }
      var bytes := ReadFileRange(file, next.offset, next.size);
      if bytes.None? { return true, None; }
      next := index.Next(bytes.value, file, next);
    }
    stopped, r := false, if next.Returns? then Some(next.entries) else None;
  }
}
