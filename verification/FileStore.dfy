/** The message store: an offset index over an append-only file of length-prefixed records. */
module FileStore {
  import opened Types
  import opened Packing
  import opened RwPackets

  // ---------------------------------------------------------------------
  // The environment: one file and the position of its open descriptor

  /** Reads and writes may move fewer bytes than asked for, or fail. */
  class PosixFile {
    const reliable: bool     // no call fails
    var present: bool
    var bytes: seq<Byte>
    var pos: nat
    var idleWrites: nat      // how many writes may still return zero

    constructor (reliable: bool, idleWrites: nat)
      ensures this.reliable == reliable && this.idleWrites == idleWrites
      ensures !present && bytes == [] && pos == 0
    {
      this.reliable, this.idleWrites := reliable, idleWrites;
      present, bytes, pos := false, [], 0;
    }

    method Read(buf: array<Byte>, at: nat, size: nat) returns (n: int)
      requires 0 < size && at + size <= buf.Length
      modifies `pos, buf
      ensures -1 <= n <= size && (n == -1 ==> !reliable)
      ensures pos == old(pos) + if n > 0 then n else 0
      ensures n == 0 ==> pos >= |bytes|
      ensures n > 0 ==> pos <= |bytes| && buf[..] == Spliced(old(buf[..]), at, bytes[old(pos)..pos])
      ensures n <= 0 ==> buf[..] == old(buf[..])
    {
      var chance: bool := *;
      if !reliable && chance {
        return -1;
      }
      if pos >= |bytes| {
        return 0;
      }
      n :| 0 < n <= size && pos + n <= |bytes|;
      Fill(buf, at, bytes[pos..pos + n]);
      pos := pos + n;
    }

    /** Only appending is modelled: the store always writes at the end. */
    method Write(data: seq<Byte>) returns (n: int)
      requires data != [] && pos == |bytes|
      modifies `bytes, `pos, `idleWrites
      ensures -1 <= n <= |data| && (n == -1 ==> !reliable)
      ensures bytes == old(bytes) + data[..if n > 0 then n else 0] && pos == |bytes|
      ensures if n == 0 then idleWrites < old(idleWrites) else idleWrites == old(idleWrites)
    {
      var chance: bool := *;
      if !reliable && chance {
        assert bytes == bytes + data[..0];
        return -1;
      }
      chance := *;
      if idleWrites > 0 && chance {
        idleWrites := idleWrites - 1;
        assert bytes == bytes + data[..0];
        return 0;
      }
      n :| 0 < n <= |data|;
      bytes := bytes + data[..n];
      pos := pos + n;
    }
  }

  // ---------------------------------------------------------------------
  // Partial transfers

  datatype ReadStatus = ReadSuccess | EndOfFile | ReadFailure

  /** The `count` bytes of the file from `start` on. */
  function Window(bytes: seq<Byte>, start: nat, count: nat): (r: seq<Byte>)
    requires count > 0 ==> start + count <= |bytes|
    ensures |r| == count
  {
    if count == 0 then [] else bytes[start..start + count]
  }

  /** Reads into buf[..size] until it is full, the file ends, or a read fails. */
  method ReadPartial(file: PosixFile, buf: array<Byte>, size: nat) returns (status: ReadStatus, count: nat)
    requires size <= buf.Length
    modifies file`pos, buf
    ensures count <= size && file.pos == old(file.pos) + count
    ensures count > 0 ==> file.pos <= |file.bytes|
    ensures buf[..] == Spliced(old(buf[..]), 0, Window(file.bytes, old(file.pos), count))
    ensures status == ReadSuccess <==> count == size
    ensures status == EndOfFile ==> file.pos >= |file.bytes|
    ensures status == ReadFailure ==> !file.reliable
  {
    count := 0;
    ghost var was, start := buf[..], file.pos;
    while count < size
      invariant count <= size && file.pos == start + count && (count > 0 ==> file.pos <= |file.bytes|)
      invariant Filled(file.bytes, start, count, was, buf[..])
      decreases size - count
    {
      ghost var before := buf[..];
      var n := file.Read(buf, count, size - count);
      if n <= 0 {
        FilledIsSpliced(file.bytes, start, count, was, buf[..]);
        return if n == -1 then ReadFailure else EndOfFile, count;
      }
      FilledFurther(file.bytes, start, count, n, was, before, buf[..]);
      count := count + n;
    }
    FilledIsSpliced(file.bytes, start, count, was, buf[..]);
    status := ReadSuccess;
  }

  /** The first `count` bytes of a buffer come from the file, and the rest are as they were. */
  predicate Filled(bytes: seq<Byte>, start: nat, count: nat, was: seq<Byte>, now: seq<Byte>) {
    && count <= |was| == |now| && (count > 0 ==> start + count <= |bytes|)
    && (forall k | 0 <= k < count :: now[k] == bytes[start + k])
    && (forall k | count <= k < |now| :: now[k] == was[k])
  }

  lemma FilledIsSpliced(bytes: seq<Byte>, start: nat, count: nat, was: seq<Byte>, now: seq<Byte>)
    requires Filled(bytes, start, count, was, now)
    ensures now == Spliced(was, 0, Window(bytes, start, count))
  {
  }

  lemma FilledFurther(
      bytes: seq<Byte>, start: nat, count: nat, n: nat, was: seq<Byte>, before: seq<Byte>, now: seq<Byte>)
    requires Filled(bytes, start, count, was, before) && start + count + n <= |bytes| && count + n <= |was|
    requires now == Spliced(before, count, bytes[start + count..start + count + n])
    ensures Filled(bytes, start, count + n, was, now)
  {
  }

  /** Appends the whole of data unless a write fails. */
  method WritePartial(file: PosixFile, data: seq<Byte>) returns (ok: bool, count: nat)
    requires file.pos == |file.bytes|
    modifies file`bytes, file`pos, file`idleWrites
    ensures count <= |data| && file.bytes == old(file.bytes) + data[..count] && file.pos == |file.bytes|
    ensures ok <==> count == |data|
    ensures file.reliable ==> ok
  {
    count := 0;
    ghost var was := file.bytes;
    assert was == was + data[..0];
    while count < |data|
      invariant count <= |data| && file.pos == |file.bytes|
      invariant file.bytes == was + data[..count]
      decreases file.idleWrites + (|data| - count)
    {
      var n := file.Write(data[count..]);
      if n == -1 {
        assert file.bytes == was + data[..count];
        return false, count;
      }
      assert data[..count] + data[count..][..n] == data[..count + n];
      assert file.bytes == was + data[..count + n];
      count := count + n;
    }
    ok := true;
  }

  // ---------------------------------------------------------------------
  // Records, the scan that rebuilds the index, and the plain list of messages

  type Message = seq<Byte>

  /** The size field holds the size modulo 2^16. */
  function Record(m: Message): seq<Byte> { SizeField(|m| % TWO_TO_THE_16) + m }

  function Image(messages: seq<Message>): seq<Byte> {
    if messages == [] then [] else Record(messages[0]) + Image(messages[1..])
  }

  /** Where each record starts: the prefix sums of the record lengths. */
  function Offsets(messages: seq<Message>, base: nat): (r: seq<nat>)
    ensures |r| == |messages|
  {
    if messages == [] then []
    else [base] + Offsets(messages[1..], base + PACKET_SIZE_LENGTH + |messages[0]|)
  }

  function Scan(bytes: seq<Byte>, off: nat): seq<nat>
    decreases |bytes| - off
  {
    if off + PACKET_SIZE_LENGTH > |bytes| then []
    else [off] + Scan(bytes, off + PACKET_SIZE_LENGTH + SizeIn(bytes[off..]))
  }

  predicate Storable(m: Message) { |m| < TWO_TO_THE_16 }

  predicate AllStorable(messages: seq<Message>) { forall k | 0 <= k < |messages| :: Storable(messages[k]) }

  /** The size a record announces. */
  lemma RecordSize(m: Message, rest: seq<Byte>)
    ensures SizeIn(Record(m) + rest) == |m| % TWO_TO_THE_16
  {
    var size, bytes := |m| % TWO_TO_THE_16, Record(m) + rest;
    assert bytes[0] == size / 256 && bytes[1] == size % 256;
  }

  /** What the scan makes of a record. */
  lemma ScanRecord(bytes: seq<Byte>, off: nat, m: Message, rest: seq<Byte>)
    requires off <= |bytes| && bytes[off..] == Record(m) + rest
    ensures Scan(bytes, off) == [off] + Scan(bytes, off + PACKET_SIZE_LENGTH + |m| % TWO_TO_THE_16)
  {
    RecordSize(m, rest);
  }

  /** One step of the scan, after `scanned`. */
  lemma ScanOne(bytes: seq<Byte>, off: nat, scanned: seq<nat>, size: nat)
    requires off + PACKET_SIZE_LENGTH <= |bytes| && size == SizeIn(Window(bytes, off, PACKET_SIZE_LENGTH))
    ensures scanned + Scan(bytes, off) == scanned + [off] + Scan(bytes, off + PACKET_SIZE_LENGTH + size)
  {
    assert Window(bytes, off, PACKET_SIZE_LENGTH) == bytes[off..][..PACKET_SIZE_LENGTH];
  }

  /** A message too long for its size field makes the scan stop inside it. */
  lemma ScanTooLong(bytes: seq<Byte>, off: nat, m: Message, rest: seq<Byte>)
    requires !Storable(m) && off <= |bytes| && bytes[off..] == Record(m) + rest
    ensures |Scan(bytes, off)| > 1 && Scan(bytes, off)[1] < off + |Record(m)|
  {
    ScanRecord(bytes, off, m, rest);
    var next := off + PACKET_SIZE_LENGTH + |m| % TWO_TO_THE_16;
    assert |m| >= |m| % TWO_TO_THE_16 + TWO_TO_THE_16;
    assert |bytes| == off + |Record(m)| + |rest|;
    assert Scan(bytes, next)[0] == next;
  }

  /** A message that fits leaves the question to the records after it. */
  lemma ScanFits(bytes: seq<Byte>, off: nat, m: Message, rest: seq<Byte>)
    requires Storable(m) && off <= |bytes| && bytes[off..] == Record(m) + rest
    ensures var next := off + |Record(m)|;
            next <= |bytes| && bytes[next..] == rest && Scan(bytes, off) == [off] + Scan(bytes, next)
  {
    ScanRecord(bytes, off, m, rest);
    DropFirst(bytes, off, Record(m), rest);
  }

  lemma OffsetsFirst(messages: seq<Message>, base: nat)
    requires messages != []
    ensures Offsets(messages, base) == [base] + Offsets(messages[1..], base + |Record(messages[0])|)
  {
  }

  /** Scanning a written file finds the starts of its records exactly when every message fits 65535 bytes. */
  lemma {:induction false} ScanImage(bytes: seq<Byte>, off: nat, messages: seq<Message>)
    requires off <= |bytes| && bytes[off..] == Image(messages)
    ensures Scan(bytes, off) == Offsets(messages, off) <==> AllStorable(messages)
    decreases |messages|
  {
    if messages == [] {
      assert Scan(bytes, off) == [];
    } else {
      var m, rest, next := messages[0], messages[1..], off + |Record(messages[0])|;
      AllStorableSplit(messages);
      OffsetsFirst(messages, off);
      if Storable(m) {
        ScanFits(bytes, off, m, Image(rest));
        ScanImage(bytes, next, rest);
        SameTail(off, Scan(bytes, next), Offsets(rest, next));
      } else {
        ScanTooLong(bytes, off, m, Image(rest));
        SecondOffset(messages, off);
      }
    }
  }

  lemma DropFirst(bytes: seq<Byte>, off: nat, first: seq<Byte>, rest: seq<Byte>)
    requires off <= |bytes| && bytes[off..] == first + rest
    ensures off + |first| <= |bytes| && bytes[off + |first|..] == rest
  {
    assert |bytes[off..]| == |first| + |rest|;
    assert bytes[off + |first|..] == bytes[off..][|first|..];
  }

  lemma SecondOffset(messages: seq<Message>, base: nat)
    requires messages != []
    ensures |Offsets(messages, base)| > 1 ==> Offsets(messages, base)[1] == base + |Record(messages[0])|
  {
    var tail := Offsets(messages[1..], base + |Record(messages[0])|);
    assert Offsets(messages, base) == [base] + tail;
  }

  lemma AllStorableSplit(messages: seq<Message>)
    requires messages != []
    ensures AllStorable(messages) <==> Storable(messages[0]) && AllStorable(messages[1..])
  {
    assert forall k | 0 < k < |messages| :: messages[k] == messages[1..][k - 1];
  }

  lemma SameTail(x: nat, s: seq<nat>, t: seq<nat>)
    ensures [x] + s == [x] + t <==> s == t
  {
    assert ([x] + s)[1..] == s && ([x] + t)[1..] == t;
  }

  lemma {:induction false} ImageAppend(messages: seq<Message>, m: Message)
    ensures Image(messages + [m]) == Image(messages) + Record(m)
  {
    if messages == [] {
      assert messages + [m] == [m];
    } else {
      ImageAppend(messages[1..], m);
      assert (messages + [m])[1..] == messages[1..] + [m];
      assert Record(messages[0]) + (Image(messages[1..]) + Record(m)) == Image(messages) + Record(m);
    }
  }

  lemma {:induction false} OffsetsAppend(messages: seq<Message>, m: Message, base: nat)
    ensures Offsets(messages + [m], base) == Offsets(messages, base) + [base + |Image(messages)|]
  {
    if messages == [] {
      assert messages + [m] == [m];
    } else {
      var next := base + |Record(messages[0])|;
      OffsetsFirst(messages + [m], base);
      OffsetsFirst(messages, base);
      assert (messages + [m])[1..] == messages[1..] + [m];
      OffsetsAppend(messages[1..], m, next);
      assert |Image(messages)| == |Record(messages[0])| + |Image(messages[1..])|;
    }
  }

  /** The record of message i stands at offset i, and the next offset is where it ends. */
  lemma {:induction false} RecordAt(before: seq<Byte>, messages: seq<Message>, i: nat)
    requires i < |messages|
    ensures var off := Offsets(messages, |before|)[i];
            var bytes := before + Image(messages);
            && off + |Record(messages[i])| <= |bytes|
            && bytes[off..off + |Record(messages[i])|] == Record(messages[i])
            && (i + 1 < |messages| ==> Offsets(messages, |before|)[i + 1] == off + |Record(messages[i])|)
    decreases i
  {
    var next := before + Record(messages[0]);
    assert before + Image(messages) == next + Image(messages[1..]);
    if i == 0 {
    } else {
      RecordAt(next, messages[1..], i - 1);
    }
  }

  /** The bytes of a record: the size, high byte first, then the message. */
  lemma RecordBytes(m: Message)
    requires |m| < 65536
    ensures |Record(m)| == 2 + |m|
    ensures (Record(m)[0] as int) * 256 + Record(m)[1] as int == |m| && Record(m)[2..] == m
  {
    assert |m| / 256 * 256 + |m| % 256 == |m|;
  }

  /** The message whose record starts at `off`, if the file holds all of it. */
  function RecordIn(bytes: seq<Byte>, off: nat): Option<Message> {
    if off + PACKET_SIZE_LENGTH > |bytes| then None
    else
      var size := SizeIn(Window(bytes, off, PACKET_SIZE_LENGTH));
      if off + PACKET_SIZE_LENGTH + size > |bytes| then None else Some(Window(bytes, off + PACKET_SIZE_LENGTH, size))
  }

  /** A record, read in two windows: its size, then its message. */
  lemma RecordWindows(bytes: seq<Byte>, off: nat, m: Message)
    requires Storable(m) && off + |Record(m)| <= |bytes| && bytes[off..off + |Record(m)|] == Record(m)
    ensures SizeIn(Window(bytes, off, PACKET_SIZE_LENGTH)) == |m|
    ensures Window(bytes, off + PACKET_SIZE_LENGTH, |m|) == m
  {
    var record := bytes[off..off + |Record(m)|];
    assert Window(bytes, off, PACKET_SIZE_LENGTH) == record[..PACKET_SIZE_LENGTH] == SizeField(|m|);
    assert |m| / 256 * 256 + |m| % 256 == |m|;
    assert m == [] || Window(bytes, off + PACKET_SIZE_LENGTH, |m|) == record[PACKET_SIZE_LENGTH..];
  }

  // ---------------------------------------------------------------------
  // The store over whole runs

  /** The file and the index of the store that has it open. */
  datatype Store = Store(bytes: seq<Byte>, offsets: seq<nat>)

  datatype StoreOp = Add(m: Message) | Reopen

  function AddTo(s: Store, m: Message): Store {
    Store(s.bytes + Record(m), s.offsets + [|s.bytes|])
  }

  /** Closing, and opening the same file with a fresh store. */
  function Reopened(s: Store): Store { Store(s.bytes, Scan(s.bytes, 0)) }

  function Run(s: Store, ops: seq<StoreOp>): Store {
    if ops == [] then s
    else
      var t := Run(s, ops[..|ops| - 1]);
      match ops[|ops| - 1]
      case Add(m) => AddTo(t, m)
      case Reopen => Reopened(t)
  }

  /** The plain list of messages a run stored. */
  function Added(ops: seq<StoreOp>): seq<Message> {
    if ops == [] then []
    else Added(ops[..|ops| - 1]) + match ops[|ops| - 1] case Add(m) => [m] case Reopen => []
  }

  /** Those the last reopening had to find again; the later ones were indexed as they were added. */
  function Scanned(ops: seq<StoreOp>): seq<Message> {
    if ops == [] then []
    else
      var before := ops[..|ops| - 1];
      match ops[|ops| - 1] case Add(_) => Scanned(before) case Reopen => Added(before)
  }

  lemma {:induction false} FileIsImage(ops: seq<StoreOp>)
    ensures Run(Store([], []), ops).bytes == Image(Added(ops))
  {
    if ops == [] {
    } else {
      var before, op := ops[..|ops| - 1], ops[|ops| - 1];
      FileIsImage(before);
      match op
      case Add(m) => ImageAppend(Added(before), m);
      case Reopen => assert Added(ops) == Added(before);
    }
  }

  lemma SameHead(s: seq<nat>, t: seq<nat>, x: nat)
    ensures s + [x] == t + [x] <==> s == t
  {
    assert (s + [x])[..|s|] == s && (t + [x])[..|t|] == t;
  }

  /** In every run the index is the prefix sums of the messages exactly when all that the last reopening scanned fit. */
  lemma {:induction false} IndexAgreement(ops: seq<StoreOp>)
    ensures Run(Store([], []), ops).bytes == Image(Added(ops))
    ensures Run(Store([], []), ops).offsets == Offsets(Added(ops), 0) <==> AllStorable(Scanned(ops))
    decreases |ops|
  {
    FileIsImage(ops);
    if ops == [] {
    } else {
      var before, op := ops[..|ops| - 1], ops[|ops| - 1];
      var messages, t := Added(before), Run(Store([], []), before);
      FileIsImage(before);
      match op
      case Add(m) =>
        IndexAgreement(before);
        OffsetsAppend(messages, m, 0);
        SameHead(t.offsets, Offsets(messages, 0), |t.bytes|);
      case Reopen =>
        assert Added(ops) == messages;
        ScanImage(t.bytes, 0, messages);
    }
  }

  /** So reopening at the end of a run recovers the index exactly when every stored message fits. */
  lemma ReopenAgreement(ops: seq<StoreOp>)
    ensures Run(Store([], []), ops + [Reopen]).offsets == Offsets(Added(ops), 0) <==> AllStorable(Added(ops))
  {
    assert (ops + [Reopen])[..|ops|] == ops;
    IndexAgreement(ops + [Reopen]);
    assert Added(ops + [Reopen]) == Added(ops);
  }

  lemma SliceExtended(before: seq<Message>, messages: seq<Message>, from: nat, i: nat)
    requires from <= i < |messages|
    ensures before + messages[from..i] + [messages[i]] == before + messages[from..i + 1]
  {
  }

  // ---------------------------------------------------------------------
  // The store

  class FileStore {
    const file: PosixFile
    var isOpen: bool
    var offsets: seq<nat>

    constructor (file: PosixFile)
      ensures this.file == file && !isOpen && offsets == []
    {
      this.file := file;
      isOpen, offsets := false, [];
    }

    ghost function State(): Store
      reads this, file`bytes
    {
      Store(file.bytes, offsets)
    }

    /** The store holds these messages. */
    ghost predicate Holds(messages: seq<Message>)
      reads this, file`bytes
    {
      AllStorable(messages) && State() == Store(Image(messages), Offsets(messages, 0))
    }

    /** What the messages in an existing file are, a fresh store knows after opening it. */
    method Open(ghost messages: seq<Message>) returns (ok: bool)
      modifies this, file
      ensures ok && old(offsets == [] && file.bytes == Image(messages) && (file.present || messages == []))
                && AllStorable(messages)
              ==> Holds(messages) && NextSequenceNumber() == |messages| + 1
      ensures file.bytes == old(file.bytes) && (ok ==> file.present && isOpen)
      ensures ok ==> offsets == old(offsets) + if old(file.present) then Scan(file.bytes, 0) else []
      ensures file.reliable ==> ok
    {
      if file.bytes == Image(messages) {
        ScanImage(file.bytes, 0, messages);
      }
      if file.present {
        file.pos := 0;
        ok := SetOffsets();
        isOpen := false;
        if !ok {
          return;
        }
      }
      var chance: bool := *;
      if !file.reliable && chance {
        return false;
      }
      file.present, file.pos := true, 0;
      isOpen, ok := true, true;
    }

    method SetOffsets() returns (ok: bool)
      requires file.pos == 0
      modifies this`offsets, file`pos
      ensures ok ==> offsets == old(offsets) + Scan(file.bytes, 0)
      ensures file.reliable ==> ok
    {
      var off := 0;
      ghost var scanned: seq<nat> := [];
      while true
        invariant file.pos == off
        invariant offsets == old(offsets) + scanned
        invariant Scan(file.bytes, 0) == scanned + Scan(file.bytes, off)
        decreases |file.bytes| - off
      {
        var sz := new Byte[PACKET_SIZE_LENGTH];
        var status, count := ReadPartial(file, sz, PACKET_SIZE_LENGTH);
        if status == ReadFailure {
          return false;
        }
        if status == EndOfFile {
          assert Scan(file.bytes, off) == [];
          return true;
        }
        assert sz[..] == Window(file.bytes, off, PACKET_SIZE_LENGTH);
        var size: int := (sz[0] as int) * 256 + sz[1] as int;
        ScanOne(file.bytes, off, scanned, size);
        offsets := offsets + [off];
        scanned := scanned + [off];
        var chance: bool := *;
        if !file.reliable && chance {
          return false;
        }
        file.pos := file.pos + size;
        off := file.pos;
      }
    }

    method Add(data: Message, ghost messages: seq<Message>) returns (ok: bool)
      requires isOpen
      modifies this`offsets, file
      ensures ok && old(Holds(messages)) && Storable(data) ==>
                Holds(messages + [data]) && NextSequenceNumber() == |messages| + 2
      ensures ok ==> State() == AddTo(old(State()), data)
      ensures !ok ==>
                || (offsets == old(offsets) && file.bytes == old(file.bytes))
                || (offsets == old(offsets) + [|old(file.bytes)|] && file.bytes < old(file.bytes) + Record(data))
      ensures file.reliable ==> ok
      ensures file.present == old(file.present)
    {
      var chance: bool := *;
      if !file.reliable && chance {
        return false;
      }
      ImageAppend(messages, data);
      OffsetsAppend(messages, data, 0);
      file.pos := |file.bytes|;
      offsets := offsets + [file.pos];
      var size := |data| % TWO_TO_THE_16;
      var count;
      ok, count := WritePartial(file, SizeField(size));
      assert SizeField(size)[..|SizeField(size)|] == SizeField(size);
      if !ok {
        return;
      }
      ghost var headed := file.bytes;
      ok, count := WritePartial(file, data);
      assert data[..|data|] == data;
      assert file.bytes == old(file.bytes) + (SizeField(size) + data[..count]);
    }

    function NextSequenceNumber(): (n: nat)
      reads this
    {
      |offsets| + 1
    }

    /** Reads the record that starts at the current position, if the file holds all of it. */
    method ReadRecord() returns (got: Option<Message>)
      modifies file`pos
      ensures got.Some? ==> got == RecordIn(file.bytes, old(file.pos))
      ensures got.Some? ==> file.pos == old(file.pos) + PACKET_SIZE_LENGTH + |got.value|
      ensures file.reliable ==> got == RecordIn(file.bytes, old(file.pos))
    {
      var size := ReadSize();
      if size.None? {
        return None;
      }
      got := ReadBytes(size.value);
    }

    method ReadSize() returns (size: Option<nat>)
      modifies file`pos
      ensures size.Some? ==>
                && file.pos == old(file.pos) + PACKET_SIZE_LENGTH <= |file.bytes|
                && size.value == SizeIn(Window(file.bytes, old(file.pos), PACKET_SIZE_LENGTH))
      ensures file.reliable ==> (size.Some? <==> old(file.pos) + PACKET_SIZE_LENGTH <= |file.bytes|)
    {
      ghost var off := file.pos;
      var sz := new Byte[PACKET_SIZE_LENGTH](_ => 0);
      var status, count := ReadPartial(file, sz, PACKET_SIZE_LENGTH);
      if status != ReadSuccess {
        return None;
      }
      assert sz[..] == Window(file.bytes, off, PACKET_SIZE_LENGTH);
      size := Some((sz[0] as int) * 256 + sz[1] as int);
    }

    method ReadBytes(size: nat) returns (got: Option<Message>)
      requires file.pos <= |file.bytes|
      modifies file`pos
      ensures got.Some? ==>
                && file.pos == old(file.pos) + size <= |file.bytes|
                && got.value == Window(file.bytes, old(file.pos), size)
      ensures file.reliable ==> (got.Some? <==> old(file.pos) + size <= |file.bytes|)
    {
      ghost var off := file.pos;
      var message := new Byte[size](_ => 0);
      var status, count := ReadPartial(file, message, size);
      if status != ReadSuccess {
        return None;
      }
      assert message[..] == Window(file.bytes, off, size);
      got := Some(message[..]);
    }

    /** Reads the message whose record starts at the current position. */
    method GetOne(ghost messages: seq<Message>, ghost i: nat) returns (m: Option<Message>)
      requires Holds(messages) && i < |messages| && file.pos == offsets[i]
      modifies file`pos
      ensures m.Some? ==> m.value == messages[i]
      ensures m.Some? && i + 1 < |messages| ==> file.pos == offsets[i + 1]
      ensures file.reliable ==> m.Some?
    {
      RecordAt([], messages, i);
      assert [] + Image(messages) == file.bytes;
      RecordWindows(file.bytes, file.pos, messages[i]);
      m := ReadRecord();
    }

    /** Appends messages first..last, counted from one, to what the caller already has. */
    method Get(first: nat, last: nat, before: seq<Message>, ghost messages: seq<Message>)
      returns (ok: bool, got: seq<Message>)
      requires Holds(messages)
      modifies file`pos
      ensures ok ==> 1 <= first <= last <= |messages| && got == before + messages[first - 1..last]
      ensures !(1 <= first <= last <= |messages|) ==> !ok && got == before
      ensures file.reliable ==> (ok <==> 1 <= first <= last <= |messages|)
    {
      got := before;
      if first < 1 || first > |offsets| {
        return false, got;
      }
      if last < first || last > |offsets| {
        return false, got;
      }
      var chance: bool := *;
      if !file.reliable && chance {
        return false, got;
      }
      file.pos := offsets[first - 1];
      ok, got := GetRange(first, last, before, messages);
    }

    method GetRange(first: nat, last: nat, before: seq<Message>, ghost messages: seq<Message>)
      returns (ok: bool, got: seq<Message>)
      requires Holds(messages) && 1 <= first <= last <= |messages| && file.pos == offsets[first - 1]
      modifies file`pos
      ensures ok ==> got == before + messages[first - 1..last]
      ensures file.reliable ==> ok
    {
      got := before;
      var i := first;
      while i <= last
        invariant first <= i <= last + 1
        invariant got == before + messages[first - 1..i - 1]
        invariant i <= last ==> file.pos == offsets[i - 1]
      {
        var m := GetOne(messages, i - 1);
        if m.None? {
          return false, got;
        }
        SliceExtended(before, messages, first - 1, i - 1);
        got := got + [m.value];
        i := i + 1;
      }
      ok := true;
    }
  }

  /**
   * What the store is for: messages added to a new file are there for a fresh store that opens it, which numbers the
   * next one after them and returns any valid range of them.
   */
  method StoreAndReload(file: PosixFile, messages: seq<Message>, first: nat, last: nat)
    returns (next: nat, ok: bool, got: seq<Message>)
    requires file.reliable && !file.present && file.bytes == [] && AllStorable(messages)
    modifies file
    ensures next == |messages| + 1
    ensures ok <==> 1 <= first <= last <= |messages|
    ensures got == if ok then messages[first - 1..last] else []
  {
    var store := new FileStore(file);
    ok := store.Open([]);
    var i := 0;
    while i < |messages|
      invariant 0 <= i <= |messages|
      invariant store.file == file && store.isOpen && file.present && store.Holds(messages[..i])
    {
      ok := store.Add(messages[i], messages[..i]);
      assert messages[..i] + [messages[i]] == messages[..i + 1];
      i := i + 1;
    }
    assert messages[..i] == messages;
    var reopened := new FileStore(file);
    ok := reopened.Open(messages);
    next := reopened.NextSequenceNumber();
    ok, got := reopened.Get(first, last, [], messages);
  }
}
