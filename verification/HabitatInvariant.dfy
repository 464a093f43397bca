/** What every step of the habitat protocol keeps. */
module HabitatInvariant {
  import opened Common
  import opened HabitatDisk
  import opened HabitatProtocol

  // ---------------------------------------------------------------- the saved history

  /** `w` agrees with the saved events below number `end`. */
  predicate Agrees(first: nat, log: seq<int>, w: World, end: nat)
    requires end <= first + |log|
  {
    first <= w.base && forall k :: w.base <= k < end && k < w.End() ==> w.At(k) == log[k - first]
  }

  /** Everything `w` holds has been saved. */
  predicate SavedFully(first: nat, log: seq<int>, w: World) {
    w.End() <= first + |log| && Agrees(first, log, w, w.End())
  }

  predicate EverOK(first: nat, log: seq<int>, ever: set<Data>) {
    forall x :: x in ever && Decode(x).Some? ==> SavedFully(first, log, Decode(x).value)
  }

  predicate ActiveOK(disk: Disk, first: nat, log: seq<int>, ever: set<Data>)
    requires disk.Sound()
  {
    match disk.Content(Active)
    case None => first == 0 && log == [] && ever == {}
    case Some(x) =>
      && x in ever
      && match Decode(x)
         case None => log == []
         case Some(d) => d.End() == first + |log|
  }

  /** An archive with this name holds event `k` with value `v`. */
  predicate ArchiveHolds(n: Name, k: nat, v: int) {
    && n.Archive? && Decode(n.digest.of).Some?
    && Decode(n.digest.of).value.Covers(k) && Decode(n.digest.of).value.At(k) == v
  }

  /** Event `k` is in the active file or in an archive of the directory. */
  ghost predicate Covered(disk: Disk, k: nat, v: int)
    requires disk.Sound()
  {
    || (exists n :: n in disk.names && ArchiveHolds(n, k, v))
    || match disk.Content(Active)
       case None => false
       case Some(x) => Decode(x).Some? && Decode(x).value.Covers(k) && Decode(x).value.At(k) == v
  }

  /** Event number `k` has been saved. */
  predicate Saved(first: nat, log: seq<int>, k: nat) {
    first <= k < first + |log|
  }

  function EventAt(first: nat, log: seq<int>, k: nat): int
    requires Saved(first, log, k)
  {
    log[k - first]
  }

  /** Active file and archives together hold everything saved so far. */
  ghost predicate Coverage(disk: Disk, first: nat, log: seq<int>)
    requires disk.Sound()
  {
    forall k: nat :: Saved(first, log, k) ==> Covered(disk, k, EventAt(first, log, k))
  }

  // ---------------------------------------------------------------- files

  /** The active inode has one name, two archives never share one, and an archive's content is
      the one its name promises. */
  ghost predicate FilesOK(disk: Disk) {
    && disk.Sound()
    && (Active in disk.names ==> disk.Single(Active))
    && (forall n, m :: n in disk.names && m in disk.names && n.Archive? && m.Archive? && n != m ==>
          disk.names[n] != disk.names[m])
    && forall n :: n in disk.names && n.Archive? ==> disk.files[disk.names[n]] == n.digest.of
  }

  // ---------------------------------------------------------------- locks

  predicate LocksOK(s: System) {
    && (forall id :: id in s.clients ==> LockOK(s.disk.lock, s.held, id, s.clients[id]))
    && forall l :: l in s.held ==>
         s.held[l] in s.clients && Holding(s.clients[s.held[l]].pc) && s.clients[s.held[l]].lock == l
  }

  predicate LockOK(lock: nat, held: map<nat, nat>, id: nat, c: Client) {
    && (Inside(c.pc) ==> c.lock == lock)
    && (Holding(c.pc) ==> c.lock in held && held[c.lock] == id)
  }

  lemma OneInside(s: System, id: nat, other: nat)
    requires LocksOK(s) && id in s.clients && other in s.clients
    requires Inside(s.clients[id].pc) && Inside(s.clients[other].pc)
    ensures id == other
  {}

  // ---------------------------------------------------------------- one client

  /** The world in memory continues the document that the store expects to find. */
  predicate MemoryOK(first: nat, log: seq<int>, ever: set<Data>, c: Client) {
    && (c.memory.Some? ==> c.loaded)
    && (c.loaded && c.expected.Some? ==> c.expected.value.of in ever)
    && (c.memory.Some? ==>
          match c.expected
          case None => first == 0 && c.memory.value.base == 0
          case Some(digest) =>
            && Decode(digest.of).Some?
            && Continues(first, log, c.memory.value, Decode(digest.of).value))
  }

  predicate Continues(first: nat, log: seq<int>, w: World, d: World) {
    && w.base <= d.base && d.End() <= w.End() && d.End() <= first + |log|
    && Agrees(first, log, w, d.End())
  }

  /** A save in progress writes the world in memory, cut in two or whole. */
  predicate OpOK(c: Client, op: Op) {
    op.Save? ==>
      && c.memory.Some? && op.cut <= |c.memory.value.events|
      && op.value == Encode(c.memory.value.Retire(op.cut))
      && (op.archive.None? ==> op.cut == 0)
      && (op.archive.Some? ==> op.archive.value == Encode(c.memory.value.Segment(op.cut)))
  }

  /** What holds between two calls whatever the other processes do. */
  predicate Calm(first: nat, log: seq<int>, ever: set<Data>, c: Client) {
    && MemoryOK(first, log, ever, c)
    && match c.pc
       case Idle => true
       case Locking(op) => OpOK(c, op)
       case Checking(op) => OpOK(c, op)
       case Reading(op) => OpOK(c, op)
       case Creating(op, stage) => OpOK(c, op) && StageOK(op, stage)
       case Writing(op, stage, temp, _, _) => OpOK(c, op) && StageOK(op, stage) && temp.Temp?
       case Publishing(op, stage, temp, _) => OpOK(c, op) && StageOK(op, stage) && temp.Temp?
       case Removing(op, stage, temp, done) =>
         && OpOK(c, op) && StageOK(op, stage) && temp.Temp?
         && (done && stage.ActiveStage? ==> Stored(first, log, ever, c, op))
       case Unlocking(op, done, found) =>
         && OpOK(c, op)
         && (done && op.Save? ==> Stored(first, log, ever, c, op))
         && (done && op.Load? ==> match found case None => first == 0 case Some(x) => x in ever)
  }

  predicate Stored(first: nat, log: seq<int>, ever: set<Data>, c: Client, op: Op)
    requires op.Save?
  {
    op.value in ever && c.memory.Some? && SavedFully(first, log, c.memory.value)
  }

  /** What holds inside the critical section. */
  predicate Critical(disk: Disk, c: Client)
    requires disk.Sound()
  {
    match c.pc
    case Creating(op, stage) => Matched(disk, c, op, stage)
    case Writing(op, stage, temp, ino, offset) =>
      && Matched(disk, c, op, stage) && OwnsTemp(disk, temp, ino)
      && StageOK(op, stage) && offset <= |Payload(op, stage)| && disk.files[ino] == Payload(op, stage)[..offset]
    case Publishing(op, stage, temp, ino) =>
      && Matched(disk, c, op, stage) && OwnsTemp(disk, temp, ino)
      && StageOK(op, stage) && disk.files[ino] == Payload(op, stage)
    case Removing(op, stage, _, done) =>
      done && stage.ArchiveStage? ==> op.Save? && Matched(disk, c, op, ActiveStage)
    case _ => true
  }

  /** The active file is still the expected one; before the active file is replaced, the
      archive of the retired history exists. */
  predicate Matched(disk: Disk, c: Client, op: Op, stage: Stage)
    requires disk.Sound()
  {
    && DigestOf(disk.Content(Active)) == c.expected
    && (stage.ActiveStage? && op.Save? && op.archive.Some? ==> ArchiveName(op) in disk.names)
  }

  predicate OwnsTemp(disk: Disk, temp: Name, ino: nat)
    requires disk.Sound()
  {
    temp in disk.names && disk.names[temp] == ino && disk.Single(temp)
  }

  // ---------------------------------------------------------------- the invariant

  ghost predicate SharedOK(disk: Disk, first: nat, log: seq<int>, ever: set<Data>) {
    && FilesOK(disk) && EverOK(first, log, ever)
    && ActiveOK(disk, first, log, ever) && Coverage(disk, first, log)
  }

  ghost predicate ClientsOK(s: System)
    requires s.disk.Sound()
  {
    forall id :: id in s.clients ==>
      Calm(s.first, s.log, s.ever, s.clients[id]) && Critical(s.disk, s.clients[id])
  }

  ghost predicate Inv(s: System) {
    LocksOK(s) && SharedOK(s.disk, s.first, s.log, s.ever) && ClientsOK(s)
  }

  /** A directory that holds no active file, or one whole file that some earlier run left. */
  ghost predicate Initial(s: System) {
    && s.held == map[] && s.clients == map[] && FilesOK(s.disk)
    && match s.disk.Content(Active)
       case None => s.first == 0 && s.log == [] && s.ever == {}
       case Some(x) =>
         && s.ever == {x}
         && match Decode(x)
            case None => s.log == []
            case Some(d) => s.first == d.base && s.log == d.events
  }

  lemma InitialIsOK(s: System)
    requires Initial(s)
    ensures Inv(s)
  {}

  // ---------------------------------------------------------------- more saved history

  lemma CalmGrows(first: nat, log: seq<int>, ever: set<Data>, log': seq<int>, ever': set<Data>, c: Client)
    requires Calm(first, log, ever, c) && log <= log' && ever <= ever'
    ensures Calm(first, log', ever', c)
  {}

  /** A client outside the critical section does not care about the disk. */
  lemma OthersStay(s: System, t: System, id: nat)
    requires LocksOK(s) && s.disk.Sound() && t.disk.Sound() && ClientsOK(s)
    requires id in s.clients && Inside(s.clients[id].pc)
    requires t.first == s.first && s.log <= t.log && s.ever <= t.ever
    requires t.clients.Keys == s.clients.Keys && forall o :: o in s.clients && o != id ==> t.clients[o] == s.clients[o]
    requires Calm(t.first, t.log, t.ever, t.clients[id]) && Critical(t.disk, t.clients[id])
    ensures ClientsOK(t)
  {
    forall o | o in t.clients && o != id
      ensures Calm(t.first, t.log, t.ever, t.clients[o]) && Critical(t.disk, t.clients[o])
    {
      CalmGrows(s.first, s.log, s.ever, t.log, t.ever, s.clients[o]);
      if Inside(s.clients[o].pc) {
        OneInside(s, id, o);
      }
    }
  }

  /** A step inside the critical section keeps the locks. */
  lemma LocksStay(s: System, t: System, id: nat)
    requires LocksOK(s) && id in s.clients && Inside(s.clients[id].pc)
    requires t.disk.lock == s.disk.lock && t.held == s.held
    requires exists c :: t.clients == s.clients[id := c] && c.lock == s.clients[id].lock && Holding(c.pc)
    ensures LocksOK(t)
  {}

  // ---------------------------------------------------------------- steps on the disk

  /** Client `id` is `c` now; the locks and the other clients are as before. */
  predicate Moves(s: System, t: System, id: nat, c: Client) {
    && id in s.clients && t.clients == s.clients[id := c]
    && t.first == s.first && s.log <= t.log && s.ever <= t.ever
    && t.disk.lock == s.disk.lock && t.held == s.held
  }

  lemma InsideStepKeeps(s: System, t: System, id: nat, c: Client)
    requires Inv(s) && Moves(s, t, id, c)
    requires Inside(s.clients[id].pc) && c.lock == s.clients[id].lock && Holding(c.pc)
    requires SharedOK(t.disk, t.first, t.log, t.ever)
    requires Calm(t.first, t.log, t.ever, c) && Critical(t.disk, c)
    ensures Inv(t)
  {
    LocksStay(s, t, id);
    OthersStay(s, t, id);
  }

  /** Coverage only needs the active content and the archive names. */
  lemma CoverageStays(disk: Disk, disk': Disk, first: nat, log: seq<int>)
    requires disk.Sound() && disk'.Sound() && Coverage(disk, first, log)
    requires disk'.Content(Active) == disk.Content(Active)
    requires forall n :: n in disk.names && n.Archive? ==> n in disk'.names
    ensures Coverage(disk', first, log)
  {
    forall k: nat | Saved(first, log, k)
      ensures Covered(disk', k, EventAt(first, log, k))
    {
      assert Covered(disk, k, EventAt(first, log, k));
      if n :| n in disk.names && ArchiveHolds(n, k, EventAt(first, log, k)) {
        assert n in disk'.names;
      }
    }
  }

  lemma SharedStays(disk: Disk, disk': Disk, first: nat, log: seq<int>, ever: set<Data>)
    requires SharedOK(disk, first, log, ever) && FilesOK(disk')
    requires disk'.Content(Active) == disk.Content(Active)
    requires forall n :: n in disk.names && n.Archive? ==> n in disk'.names
    ensures SharedOK(disk', first, log, ever)
  {
    CoverageStays(disk, disk', first, log);
  }

  lemma CreateKeepsFiles(disk: Disk, temp: Name, ino: nat)
    requires FilesOK(disk) && temp.Temp? && temp !in disk.names && ino !in disk.files
    ensures FilesOK(disk.Create(temp, ino)) && OwnsTemp(disk.Create(temp, ino), temp, ino)
    ensures disk.Create(temp, ino).Content(Active) == disk.Content(Active)
  {}

  lemma Created(disk: Disk, first: nat, log: seq<int>, ever: set<Data>, c: Client, temp: Name, ino: nat)
    requires FilesOK(disk) && Calm(first, log, ever, c) && Critical(disk, c) && c.pc.Creating?
    requires temp.Temp? && temp !in disk.names && ino !in disk.files
    ensures var after := c.(pc := Writing(c.pc.op, c.pc.stage, temp, ino, 0));
            Calm(first, log, ever, after) && disk.Create(temp, ino).Sound() && Critical(disk.Create(temp, ino), after)
  {
    CreateKeepsFiles(disk, temp, ino);
  }

  lemma CreateKeeps(s: System, id: nat, uuid: nat, ino: nat, t: System)
    requires Inv(s) && id in s.clients && DoCreate(s, id, s.clients[id], uuid, ino) == Some(t)
    ensures Inv(t)
  {
    CreateKeepsFiles(s.disk, Temp(uuid), ino);
    SharedStays(s.disk, t.disk, s.first, s.log, s.ever);
    Created(s.disk, s.first, s.log, s.ever, s.clients[id], Temp(uuid), ino);
    InsideStepKeeps(s, t, id, t.clients[id]);
  }

  lemma AppendKeepsFiles(disk: Disk, temp: Name, ino: nat, bytes: Data)
    requires FilesOK(disk) && OwnsTemp(disk, temp, ino) && temp.Temp?
    ensures FilesOK(disk.Append(ino, bytes)) && OwnsTemp(disk.Append(ino, bytes), temp, ino)
    ensures disk.Append(ino, bytes).Content(Active) == disk.Content(Active)
  {
    forall n | n in disk.names && n != temp ensures disk.names[n] != ino {}
  }

  lemma TakeMore(data: Data, offset: nat, count: nat)
    requires offset + count <= |data|
    ensures data[..offset] + data[offset..offset + count] == data[..offset + count]
  {}

  lemma WriterIsCalm(first: nat, log: seq<int>, ever: set<Data>, c: Client, offset: nat)
    requires Calm(first, log, ever, c) && c.pc.Writing?
    ensures Calm(first, log, ever, c.(pc := c.pc.(offset := offset)))
  {}

  lemma Written(disk: Disk, first: nat, log: seq<int>, ever: set<Data>, c: Client, count: nat)
    requires FilesOK(disk) && Calm(first, log, ever, c) && Critical(disk, c) && c.pc.Writing?
    requires c.pc.offset + count <= |Payload(c.pc.op, c.pc.stage)|
    ensures c.pc.ino in disk.files
    ensures var disk' := disk.Append(c.pc.ino, Payload(c.pc.op, c.pc.stage)[c.pc.offset..c.pc.offset + count]);
            var after := c.(pc := c.pc.(offset := c.pc.offset + count));
            && FilesOK(disk') && disk'.Content(Active) == disk.Content(Active)
            && Calm(first, log, ever, after) && Critical(disk', after)
  {
    var data := Payload(c.pc.op, c.pc.stage);
    AppendKeepsFiles(disk, c.pc.temp, c.pc.ino, data[c.pc.offset..c.pc.offset + count]);
    TakeMore(data, c.pc.offset, count);
    WriterIsCalm(first, log, ever, c, c.pc.offset + count);
  }

  lemma WriteMoves(s: System, id: nat, c: Client, count: nat, t: System, after: Client)
    requires id in s.clients && DoWrite(s, id, c, count) == Some(t)
    requires after == t.clients[id]
    ensures Moves(s, t, id, after) && c.pc.Writing? && after == c.(pc := c.pc.(offset := c.pc.offset + count))
    ensures t.log == s.log && t.ever == s.ever
    ensures StageOK(c.pc.op, c.pc.stage) && c.pc.offset + count <= |Payload(c.pc.op, c.pc.stage)|
          && c.pc.ino in s.disk.files
    ensures t.disk == s.disk.Append(c.pc.ino, Payload(c.pc.op, c.pc.stage)[c.pc.offset..c.pc.offset + count])
  {}

  lemma WriteKeeps(s: System, id: nat, count: nat, t: System)
    requires Inv(s) && id in s.clients && DoWrite(s, id, s.clients[id], count) == Some(t)
    ensures Inv(t)
  {
    var c, after := s.clients[id], t.clients[id];
    WriteMoves(s, id, c, count, t, after);
    Written(s.disk, s.first, s.log, s.ever, c, count);
    SharedStays(s.disk, t.disk, s.first, s.log, s.ever);
    InsideStepKeeps(s, t, id, after);
  }

  lemma UnlinkKeepsFiles(disk: Disk, temp: Name)
    requires FilesOK(disk) && temp.Temp?
    ensures FilesOK(disk.Unlink(temp)) && disk.Unlink(temp).Content(Active) == disk.Content(Active)
  {}

  lemma Removed(disk: Disk, disk': Disk, first: nat, log: seq<int>, ever: set<Data>, c: Client)
    requires disk.Sound() && Calm(first, log, ever, c) && Critical(disk, c) && c.pc.Removing?
    requires disk'.Sound() && disk'.Content(Active) == disk.Content(Active)
    requires forall n :: n in disk.names && n.Archive? ==> n in disk'.names
    ensures var next := if c.pc.done && c.pc.stage.ArchiveStage? then Creating(c.pc.op, ActiveStage)
                        else Unlocking(c.pc.op, c.pc.done, None);
            Calm(first, log, ever, c.(pc := next)) && Critical(disk', c.(pc := next))
  {}

  lemma RemoveKeeps(s: System, id: nat, unlinked: bool, t: System)
    requires Inv(s) && id in s.clients && DoRemove(s, id, s.clients[id], unlinked) == Some(t)
    ensures Inv(t)
  {
    var c := s.clients[id];
    UnlinkKeepsFiles(s.disk, c.pc.temp);
    SharedStays(s.disk, t.disk, s.first, s.log, s.ever);
    Removed(s.disk, t.disk, s.first, s.log, s.ever, c);
    InsideStepKeeps(s, t, id, t.clients[id]);
  }

  lemma LinkKeepsFiles(disk: Disk, temp: Name, ino: nat, name: Name)
    requires FilesOK(disk) && OwnsTemp(disk, temp, ino) && temp.Temp?
    requires name.Archive? && name !in disk.names && disk.files[ino] == name.digest.of
    ensures FilesOK(disk.Link(temp, name)) && disk.Link(temp, name).Content(Active) == disk.Content(Active)
  {
    assert Active in disk.names ==> disk.names[Active] != ino;
  }

  /** The archive of a save that is being published can be linked, or an equal one is there. */
  lemma Linked(disk: Disk, disk': Disk, first: nat, log: seq<int>, ever: set<Data>, c: Client, same: bool)
    requires FilesOK(disk) && Calm(first, log, ever, c) && Critical(disk, c)
    requires c.pc.Publishing? && c.pc.stage.ArchiveStage?
    requires disk'.Sound() && disk'.Content(Active) == disk.Content(Active)
    requires same ==> ArchiveName(c.pc.op) in disk'.names
    ensures var after := c.(pc := Removing(c.pc.op, ArchiveStage, c.pc.temp, same));
            Calm(first, log, ever, after) && Critical(disk', after)
  {}

  lemma LinkKeeps(s: System, id: nat, t: System)
    requires Inv(s) && id in s.clients && DoLink(s, id, s.clients[id]) == Some(t)
    ensures Inv(t)
  {
    var c := s.clients[id];
    var name := ArchiveName(c.pc.op);
    assert Critical(s.disk, c) && Calm(s.first, s.log, s.ever, c);
    assert t.disk == if name in s.disk.names then s.disk else s.disk.Link(c.pc.temp, name);
    if name !in s.disk.names {
      LinkKeepsFiles(s.disk, c.pc.temp, c.pc.ino, name);
    }
    SharedStays(s.disk, t.disk, s.first, s.log, s.ever);
    Linked(s.disk, t.disk, s.first, s.log, s.ever, c, t.clients[id].pc.done);
    InsideStepKeeps(s, t, id, t.clients[id]);
  }

  // ---------------------------------------------------------------- replacing the active file

  /** A save that is about to replace the expected file. */
  ghost predicate Replaces(s: System, c: Client, op: Op) {
    && SharedOK(s.disk, s.first, s.log, s.ever) && Calm(s.first, s.log, s.ever, c)
    && OpOK(c, op) && op.Save? && Matched(s.disk, c, op, ActiveStage)
  }

  /** The world continues everything saved so far. */
  lemma WorldContinuesLog(s: System, c: Client, op: Op)
    requires Replaces(s, c, op)
    ensures s.first <= c.memory.value.base <= s.first + |s.log| <= c.memory.value.End()
    ensures Agrees(s.first, s.log, c.memory.value, s.first + |s.log|)
  {}

  /** The saved history after the active file is replaced. */
  lemma LogGrows(s: System, c: Client, op: Op)
    requires Replaces(s, c, op)
    ensures s.log <= Extended(s.first, s.log, c.memory)
    ensures s.first + |Extended(s.first, s.log, c.memory)| == c.memory.value.End()
    ensures SavedFully(s.first, Extended(s.first, s.log, c.memory), c.memory.value)
  {
    WorldContinuesLog(s, c, op);
    ExtendedAgrees(s.first, s.log, c.memory.value);
  }

  lemma ExtendedAgrees(first: nat, log: seq<int>, w: World)
    requires first <= w.base <= first + |log| <= w.End() && Agrees(first, log, w, first + |log|)
    ensures log <= Extended(first, log, Some(w)) && first + |Extended(first, log, Some(w))| == w.End()
    ensures SavedFully(first, Extended(first, log, Some(w)), w)
  {
    var log' := Extended(first, log, Some(w));
    forall k | w.base <= k < w.End() ensures w.At(k) == log'[k - first] {
      assert k < first + |log| ==> w.At(k) == log[k - first];
    }
  }

  /** Saved events that the world has retired are in archives. */
  lemma RetiredIsArchived(s: System, c: Client, op: Op, k: nat)
    requires Replaces(s, c, op) && Saved(s.first, s.log, k) && k < c.memory.value.base
    ensures exists n :: n in s.disk.names && ArchiveHolds(n, k, EventAt(s.first, s.log, k))
  {
    assert Covered(s.disk, k, EventAt(s.first, s.log, k));
  }

  lemma SplitWorld(w: World, cut: nat)
    requires cut <= |w.events|
    ensures Decode(Encode(w.Retire(cut))) == Some(w.Retire(cut)) && w.Retire(cut).End() == w.End()
    ensures Decode(Encode(w.Segment(cut))) == Some(w.Segment(cut))
    ensures forall k :: w.base <= k < w.base + cut ==> w.Segment(cut).At(k) == w.At(k)
    ensures forall k :: w.base + cut <= k < w.End() ==> w.Retire(cut).At(k) == w.At(k)
  {
    DecodeEncode(w.Retire(cut));
    DecodeEncode(w.Segment(cut));
  }

  /** The directory after a save: the new document is active, and no archive is gone. */
  ghost predicate Replaced(disk: Disk, disk': Disk, op: Op)
    requires op.Save?
  {
    && disk'.Sound() && disk'.Content(Active) == Some(op.value)
    && forall n :: n in disk.names && n.Archive? ==> n in disk'.names
  }

  lemma ArchivedIsCovered(s: System, disk': Disk, c: Client, op: Op, k: nat)
    requires Replaces(s, c, op) && Replaced(s.disk, disk', op)
    requires Saved(s.first, s.log, k) && k < c.memory.value.base
    ensures Covered(disk', k, EventAt(s.first, s.log, k))
  {
    RetiredIsArchived(s, c, op, k);
    var n :| n in s.disk.names && ArchiveHolds(n, k, EventAt(s.first, s.log, k));
    assert n in disk'.names;
  }

  lemma SegmentIsCovered(s: System, disk': Disk, c: Client, op: Op, k: nat)
    requires Replaces(s, c, op) && Replaced(s.disk, disk', op)
    requires c.memory.value.base <= k < c.memory.value.base + op.cut
    ensures Covered(disk', k, c.memory.value.At(k))
  {
    SplitWorld(c.memory.value, op.cut);
    assert ArchiveHolds(ArchiveName(op), k, c.memory.value.At(k));
  }

  lemma RestIsCovered(s: System, disk': Disk, c: Client, op: Op, k: nat)
    requires Replaces(s, c, op) && Replaced(s.disk, disk', op)
    requires c.memory.value.base + op.cut <= k < c.memory.value.End()
    ensures Covered(disk', k, c.memory.value.At(k))
  {
    SplitWorld(c.memory.value, op.cut);
  }

  /** The replaced file and the archives hold the grown history. */
  lemma CoverageGrows(s: System, disk': Disk, c: Client, op: Op)
    requires Replaces(s, c, op) && Replaced(s.disk, disk', op)
    ensures Coverage(disk', s.first, Extended(s.first, s.log, c.memory))
  {
    var w, grown := c.memory.value, Extended(s.first, s.log, c.memory);
    WorldContinuesLog(s, c, op);
    LogGrows(s, c, op);
    forall k: nat | Saved(s.first, grown, k)
      ensures Covered(disk', k, EventAt(s.first, grown, k))
    {
      if k < w.base {
        ArchivedIsCovered(s, disk', c, op, k);
      } else if k < w.base + op.cut {
        SegmentIsCovered(s, disk', c, op, k);
      } else {
        RestIsCovered(s, disk', c, op, k);
      }
    }
  }

  lemma EverGrows(s: System, c: Client, op: Op)
    requires Replaces(s, c, op)
    ensures EverOK(s.first, Extended(s.first, s.log, c.memory), s.ever + {op.value})
    ensures Stored(s.first, Extended(s.first, s.log, c.memory), s.ever + {op.value}, c, op)
  {
    var w, log' := c.memory.value, Extended(s.first, s.log, c.memory);
    LogGrows(s, c, op);
    SplitWorld(w, op.cut);
    assert SavedFully(s.first, log', w.Retire(op.cut));
    forall x | x in s.ever && Decode(x).Some? ensures SavedFully(s.first, log', Decode(x).value) {}
  }

  lemma RenameKeepsFiles(disk: Disk, temp: Name, ino: nat)
    requires FilesOK(disk) && OwnsTemp(disk, temp, ino) && temp.Temp?
    ensures FilesOK(disk.Rename(temp, Active)) && disk.Rename(temp, Active).Content(Active) == Some(disk.files[ino])
    ensures forall n :: n in disk.names && n.Archive? ==> n in disk.Rename(temp, Active).names
  {}

  lemma RenameShared(s: System, t: System, c: Client, op: Op, temp: Name, ino: nat)
    requires Replaces(s, c, op) && OwnsTemp(s.disk, temp, ino) && temp.Temp? && s.disk.files[ino] == op.value
    requires t.disk == s.disk.Rename(temp, Active) && t.first == s.first
    requires t.log == Extended(s.first, s.log, c.memory) && t.ever == s.ever + {op.value}
    ensures SharedOK(t.disk, t.first, t.log, t.ever)
  {
    RenameKeepsFiles(s.disk, temp, ino);
    LogGrows(s, c, op);
    SplitWorld(c.memory.value, op.cut);
    CoverageGrows(s, t.disk, c, op);
    EverGrows(s, c, op);
  }

  lemma RenameKeeps(s: System, id: nat, t: System)
    requires Inv(s) && id in s.clients && DoRename(s, id, s.clients[id]) == Some(t)
    ensures Inv(t)
  {
    var c := s.clients[id];
    var op := c.pc.op;
    assert Critical(s.disk, c) && Calm(s.first, s.log, s.ever, c);
    RenameShared(s, t, c, op, c.pc.temp, c.pc.ino);
    LogGrows(s, c, op);
    EverGrows(s, c, op);
    CalmGrows(s.first, s.log, s.ever, t.log, t.ever, c);
    InsideStepKeeps(s, t, id, t.clients[id]);
  }

  // ---------------------------------------------------------------- steps that leave the disk alone

  /** Only client `id` changed, and it still holds what a client should. */
  lemma OneClientKeeps(s: System, t: System, id: nat)
    requires Inv(s) && LocksOK(t)
    requires t.disk == s.disk && t.first == s.first && t.log == s.log && t.ever == s.ever
    requires id in t.clients && forall o :: o in t.clients && o != id ==> o in s.clients && t.clients[o] == s.clients[o]
    requires Calm(t.first, t.log, t.ever, t.clients[id]) && Critical(t.disk, t.clients[id])
    ensures Inv(t)
  {}

  /** A step that neither takes nor releases a lock. */
  lemma QuietLocks(s: System, t: System, id: nat, c: Client)
    requires LocksOK(s) && t.disk.lock == s.disk.lock && t.held == s.held
    requires t.clients == s.clients[id := c]
    requires if id in s.clients
             then c.lock == s.clients[id].lock && Holding(c.pc) == Holding(s.clients[id].pc)
                  && (Inside(c.pc) ==> Inside(s.clients[id].pc) || c.lock == s.disk.lock)
             else c.pc.Idle?
    ensures LocksOK(t)
  {}

  lemma StartKeeps(s: System, id: nat, t: System)
    requires Inv(s) && DoStart(s, id) == Some(t)
    ensures Inv(t)
  {
    QuietLocks(s, t, id, t.clients[id]);
    OneClientKeeps(s, t, id);
  }

  lemma TickKeeps(s: System, id: nat, event: int, t: System)
    requires Inv(s) && id in s.clients && DoTick(s, id, s.clients[id], event) == Some(t)
    ensures Inv(t)
  {
    var w := s.clients[id].memory.value;
    var w' := World(w.base, w.events + [event]);
    assert Calm(s.first, s.log, s.ever, s.clients[id]);
    assert forall k :: w.Covers(k) ==> w'.At(k) == w.At(k);
    QuietLocks(s, t, id, t.clients[id]);
    OneClientKeeps(s, t, id);
  }

  lemma CallLoadKeeps(s: System, id: nat, t: System)
    requires Inv(s) && id in s.clients && DoCallLoad(s, id, s.clients[id]) == Some(t)
    ensures Inv(t)
  {
    assert Calm(s.first, s.log, s.ever, s.clients[id]);
    QuietLocks(s, t, id, t.clients[id]);
    OneClientKeeps(s, t, id);
  }

  lemma CallSaveKeeps(s: System, id: nat, segment: Option<nat>, tick: nat, t: System)
    requires Inv(s) && id in s.clients && DoCallSave(s, id, s.clients[id], segment, tick) == Some(t)
    ensures Inv(t)
  {
    var w := s.clients[id].memory.value;
    assert Calm(s.first, s.log, s.ever, s.clients[id]);
    assert w.Retire(0).events == w.events;
    QuietLocks(s, t, id, t.clients[id]);
    OneClientKeeps(s, t, id);
  }

  lemma FlockedLocks(s: System, t: System, id: nat, c: Client)
    requires LocksOK(s) && id in s.clients && s.clients[id].lock !in s.held
    requires c.pc.Checking? && c.lock == s.clients[id].lock && t.clients == s.clients[id := c]
    requires !Holding(s.clients[id].pc) && t.disk.lock == s.disk.lock && t.held == s.held[c.lock := id]
    ensures LocksOK(t)
  {}

  lemma FlockKeeps(s: System, id: nat, t: System)
    requires Inv(s) && id in s.clients && DoFlock(s, id, s.clients[id]) == Some(t)
    ensures Inv(t)
  {
    assert Calm(s.first, s.log, s.ever, s.clients[id]);
    FlockedLocks(s, t, id, t.clients[id]);
    OneClientKeeps(s, t, id);
  }

  lemma CheckLockKeeps(s: System, id: nat, t: System)
    requires Inv(s) && id in s.clients && DoCheckLock(s, id, s.clients[id]) == Some(t)
    ensures Inv(t)
  {
    assert Calm(s.first, s.log, s.ever, s.clients[id]);
    QuietLocks(s, t, id, t.clients[id]);
    OneClientKeeps(s, t, id);
  }

  lemma FailedIsCalm(disk: Disk, first: nat, log: seq<int>, ever: set<Data>, c: Client)
    requires disk.Sound() && Calm(first, log, ever, c) && !c.pc.Idle? && !c.pc.Removing? && !c.pc.Unlocking?
    ensures Calm(first, log, ever, c.(pc := FailedPc(c.pc))) && Critical(disk, c.(pc := FailedPc(c.pc)))
    ensures Holding(FailedPc(c.pc)) == Holding(c.pc) && (Inside(FailedPc(c.pc)) ==> Inside(c.pc))
  {}

  lemma FailKeeps(s: System, id: nat, t: System)
    requires Inv(s) && id in s.clients && DoFail(s, id, s.clients[id]) == Some(t)
    ensures Inv(t)
  {
    FailedIsCalm(s.disk, s.first, s.log, s.ever, s.clients[id]);
    QuietLocks(s, t, id, t.clients[id]);
    OneClientKeeps(s, t, id);
  }

  lemma ReadIsCalm(disk: Disk, first: nat, log: seq<int>, ever: set<Data>, c: Client)
    requires SharedOK(disk, first, log, ever) && Calm(first, log, ever, c) && c.pc.Reading?
    ensures var after := c.(pc := AfterRead(c, c.pc.op, disk.Content(Active)));
            Calm(first, log, ever, after) && Critical(disk, after) && Holding(after.pc)
  {}

  lemma ReadKeeps(s: System, id: nat, t: System)
    requires Inv(s) && id in s.clients && DoRead(s, id, s.clients[id]) == Some(t)
    ensures Inv(t)
  {
    ReadIsCalm(s.disk, s.first, s.log, s.ever, s.clients[id]);
    QuietLocks(s, t, id, t.clients[id]);
    OneClientKeeps(s, t, id);
  }

  lemma SyncKeeps(s: System, id: nat, t: System)
    requires Inv(s) && id in s.clients && DoSync(s, id, s.clients[id]) == Some(t)
    ensures Inv(t)
  {
    var pc := s.clients[id].pc;
    assert Critical(s.disk, s.clients[id]) && Calm(s.first, s.log, s.ever, s.clients[id]);
    assert Payload(pc.op, pc.stage)[..pc.offset] == Payload(pc.op, pc.stage);
    QuietLocks(s, t, id, t.clients[id]);
    OneClientKeeps(s, t, id);
  }

  lemma AfterLoadIsCalm(first: nat, log: seq<int>, ever: set<Data>, c: Client, found: Option<Data>)
    requires EverOK(first, log, ever)
    requires match found case None => first == 0 case Some(x) => x in ever
    ensures Calm(first, log, ever, AfterLoad(c, found))
  {}

  lemma AfterSaveIsCalm(first: nat, log: seq<int>, ever: set<Data>, c: Client, op: Op, committed: bool)
    requires EverOK(first, log, ever) && OpOK(c, op) && op.Save? && Stored(first, log, ever, c, op)
    requires MemoryOK(first, log, ever, c)
    ensures Calm(first, log, ever, AfterSave(c, op, committed))
  {
    SplitWorld(c.memory.value, op.cut);
  }

  lemma UnlockKeeps(s: System, id: nat, committed: bool, t: System)
    requires Inv(s) && id in s.clients && DoUnlock(s, id, s.clients[id], committed) == Some(t)
    ensures Inv(t)
  {
    var c := s.clients[id];
    var after := t.clients[id];
    assert Calm(s.first, s.log, s.ever, c);
    UnlockedIsCalm(s.first, s.log, s.ever, c, committed, after);
    UnlockedLocks(s, t, id, after);
    OneClientKeeps(s, t, id);
  }

  lemma UnlockedIsCalm(first: nat, log: seq<int>, ever: set<Data>, c: Client, committed: bool, after: Client)
    requires EverOK(first, log, ever) && Calm(first, log, ever, c) && c.pc.Unlocking?
    requires after == if !c.pc.done then c.(pc := Idle)
                      else if c.pc.op.Load? then AfterLoad(c, c.pc.found) else AfterSave(c, c.pc.op, committed)
    ensures Calm(first, log, ever, after) && after.pc.Idle? && after.lock == c.lock
  {
    if c.pc.done && c.pc.op.Load? {
      AfterLoadIsCalm(first, log, ever, c, c.pc.found);
    } else if c.pc.done {
      AfterSaveIsCalm(first, log, ever, c, c.pc.op, committed);
    }
  }

  lemma UnlockedLocks(s: System, t: System, id: nat, after: Client)
    requires LocksOK(s) && id in s.clients && Holding(s.clients[id].pc)
    requires after.pc.Idle? && t.clients == s.clients[id := after]
    requires t.disk.lock == s.disk.lock && t.held == s.held - {s.clients[id].lock}
    ensures LocksOK(t)
  {}

  lemma CrashedLocks(s: System, t: System, id: nat)
    requires LocksOK(s) && id in s.clients && t.clients == s.clients - {id} && t.disk.lock == s.disk.lock
    requires t.held == if Holding(s.clients[id].pc) then s.held - {s.clients[id].lock} else s.held
    ensures LocksOK(t)
  {}

  lemma CrashKeeps(s: System, id: nat, t: System)
    requires Inv(s) && id in s.clients && DoCrash(s, id, s.clients[id]) == Some(t)
    ensures Inv(t)
  {
    CrashedLocks(s, t, id);
    forall o | o in t.clients ensures Calm(t.first, t.log, t.ever, t.clients[o]) && Critical(t.disk, t.clients[o]) {
      assert t.clients[o] == s.clients[o];
    }
  }

  lemma ReplaceLockKeeps(s: System, ino: nat, t: System)
    requires Inv(s) && DoReplaceLock(s, ino) == Some(t)
    ensures Inv(t)
  {
    assert t.disk.Content(Active) == s.disk.Content(Active);
    CoverageStays(s.disk, t.disk, s.first, s.log);
    forall id | id in s.clients ensures Critical(t.disk, t.clients[id]) {
      assert !Inside(s.clients[id].pc);
    }
  }

  predicate Outside(a: Action) {
    a.Start? || a.Tick? || a.CallLoad? || a.CallSave? || a.Crash? || a.ReplaceLock?
  }

  lemma OutsideStepKeeps(s: System, a: Action, t: System)
    requires Inv(s) && Apply(s, a) == Some(t) && Outside(a)
    ensures Inv(t)
  {
    match a
    case Start(id) => StartKeeps(s, id, t);
    case Tick(id, event) => TickKeeps(s, id, event, t);
    case CallLoad(id) => CallLoadKeeps(s, id, t);
    case CallSave(id, segment, tick) => CallSaveKeeps(s, id, segment, tick, t);
    case Crash(id) => CrashKeeps(s, id, t);
    case ReplaceLock(ino) => ReplaceLockKeeps(s, ino, t);
  }

  lemma PublishKeeps(s: System, id: nat, t: System)
    requires Inv(s) && Apply(s, Publish(id)) == Some(t)
    ensures Inv(t)
  {
    if DoLink(s, id, s.clients[id]) == Some(t) {
      LinkKeeps(s, id, t);
    } else {
      RenameKeeps(s, id, t);
    }
  }

  predicate WritesFile(a: Action) {
    a.Create? || a.Write? || a.Sync? || a.Publish?
  }

  lemma WritingStepKeeps(s: System, a: Action, t: System)
    requires Inv(s) && Apply(s, a) == Some(t) && WritesFile(a)
    ensures Inv(t)
  {
    match a
    case Create(id, uuid, ino) => CreateKeeps(s, id, uuid, ino, t);
    case Write(id, count) => WriteKeeps(s, id, count, t);
    case Sync(id) => SyncKeeps(s, id, t);
    case Publish(id) => PublishKeeps(s, id, t);
  }

  predicate Opens(a: Action) {
    a.Flock? || a.CheckLock? || a.Read?
  }

  lemma OpeningStepKeeps(s: System, a: Action, t: System)
    requires Inv(s) && Apply(s, a) == Some(t) && Opens(a)
    ensures Inv(t)
  {
    match a
    case Flock(id) => FlockKeeps(s, id, t);
    case CheckLock(id) => CheckLockKeeps(s, id, t);
    case Read(id) => ReadKeeps(s, id, t);
  }

  predicate Closes(a: Action) {
    a.Remove? || a.Unlock? || a.Fail?
  }

  lemma ClosingStepKeeps(s: System, a: Action, t: System)
    requires Inv(s) && Apply(s, a) == Some(t) && Closes(a)
    ensures Inv(t)
  {
    match a
    case Remove(id, unlinked) => RemoveKeeps(s, id, unlinked, t);
    case Unlock(id, committed) => UnlockKeeps(s, id, committed, t);
    case Fail(id) => FailKeeps(s, id, t);
  }

  /** Every step of every process, every failure and every crash keeps the invariant. */
  lemma StepKeeps(s: System, a: Action, t: System)
    requires Inv(s) && Apply(s, a) == Some(t)
    ensures Inv(t)
  {
    if Outside(a) {
      OutsideStepKeeps(s, a, t);
    } else if Opens(a) {
      OpeningStepKeeps(s, a, t);
    } else if WritesFile(a) {
      WritingStepKeeps(s, a, t);
    } else {
      ClosingStepKeeps(s, a, t);
    }
  }
}
