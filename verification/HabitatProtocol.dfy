/**
 Several habitat stores on one directory, as a state machine whose steps are single system
 calls: any interleaving, a failure of any call, and a crash of any process between two calls.

 Sources: pet/swift/PetHabitatStore.swift (load, save, write, coordinated) and the save of
 pet/swift/PetHost.swift with the segment calls of pet/swift/PetNativeCore.swift.
 */
module HabitatProtocol {
  import opened Common
  import opened HabitatDisk

  // ---------------------------------------------------------------- states

  /** One call on a store. A save carries the active document, and when history is segmented
      the archive of the first `cut` events. */
  datatype Op = Load | Save(value: Data, archive: Option<Data>, tick: nat, cut: nat)

  datatype Stage = ArchiveStage | ActiveStage

  /** Where a process is between two system calls. */
  datatype Pc =
    | Idle
    | Locking(op: Op)
    | Checking(op: Op)
    | Reading(op: Op)
    | Creating(op: Op, stage: Stage)
    | Writing(op: Op, stage: Stage, temp: Name, ino: nat, offset: nat)
    | Publishing(op: Op, stage: Stage, temp: Name, ino: nat)
    | Removing(op: Op, stage: Stage, temp: Name, done: bool)
    | Unlocking(op: Op, done: bool, found: Option<Data>)

  /** A process: one host with its world in memory, and one store. */
  datatype Client = Client(lock: nat, loaded: bool, expected: Option<Digest>, memory: Option<World>, pc: Pc)

  /** `held` maps a locked lock-file inode to its holder. `first`, `log` and `ever` record what
      has been saved: the events from number `first` on, and all contents the active file had. */
  datatype System = System(disk: Disk, held: map<nat, nat>, clients: map<nat, Client>,
                           first: nat, log: seq<int>, ever: set<Data>)

  function Put(s: System, id: nat, c: Client): System {
    s.(clients := s.clients[id := c])
  }

  /** The document that a stage writes. */
  function Payload(op: Op, stage: Stage): Data
    requires op.Save? && (stage.ArchiveStage? ==> op.archive.Some?)
  {
    if stage.ArchiveStage? then op.archive.value else op.value
  }

  function ArchiveName(op: Op): Name
    requires op.Save? && op.archive.Some?
  {
    Archive(op.tick, Sha256(op.archive.value))
  }

  function DigestOf(content: Option<Data>): Option<Digest> {
    match content
    case None => None
    case Some(data) => Some(Sha256(data))
  }

  /** The save operation of a world, with a segment of `cut` events or without. */
  function SaveOf(w: World, segment: Option<nat>, tick: nat): Op
    requires segment.Some? ==> segment.value <= |w.events|
  {
    match segment
    case None => Save(Encode(w), None, tick, 0)
    case Some(cut) => Save(Encode(w.Retire(cut)), Some(Encode(w.Segment(cut))), tick, cut)
  }

  // ---------------------------------------------------------------- steps

  datatype Action =
    | Start(id: nat)
    | Crash(id: nat)
    | Tick(id: nat, event: int)
    | CallLoad(id: nat)
    | CallSave(id: nat, segment: Option<nat>, tick: nat)
    | Flock(id: nat)
    | CheckLock(id: nat)
    | Read(id: nat)
    | Create(id: nat, uuid: nat, ino: nat)
    | Write(id: nat, count: nat)
    | Sync(id: nat)
    | Publish(id: nat)
    | Remove(id: nat, unlinked: bool)
    | Unlock(id: nat, committed: bool)
    | Fail(id: nat)
    | ReplaceLock(ino: nat)

  /** Inside the critical section: the lock is held and is the current lock file. */
  predicate Inside(pc: Pc) {
    pc.Reading? || pc.Creating? || pc.Writing? || pc.Publishing? || pc.Removing?
  }

  predicate Holding(pc: Pc) {
    Inside(pc) || pc.Checking? || pc.Unlocking?
  }

  /** A system call failed: the `defer` blocks run, and the call throws. */
  function FailedPc(pc: Pc): Pc {
    match pc
    case Checking(op) => Unlocking(op, false, None)
    case Reading(op) => Unlocking(op, false, None)
    case Creating(op, _) => Unlocking(op, false, None)
    case Writing(op, stage, temp, _, _) => Removing(op, stage, temp, false)
    case Publishing(op, stage, temp, _) => Removing(op, stage, temp, false)
    case _ => Idle
  }

  /** After the active file is read: a load is finished; a save goes on if the content is what
      this store expects. */
  function AfterRead(c: Client, op: Op, content: Option<Data>): Pc {
    if content.Some? && |content.value| > LIMIT then Unlocking(op, false, None)
    else if op.Load? then Unlocking(op, true, content)
    else if DigestOf(content) != c.expected then Unlocking(op, false, None)
    else if op.archive.None? then Creating(op, ActiveStage)
    else if |op.archive.value| > ARCHIVE_LIMIT then Unlocking(op, false, None)
    else Creating(op, ArchiveStage)
  }

  /** A successful load: the host decodes the file, or starts a new world if there is none. If
      the file cannot be restored the host drops the store: the visit stays in memory. */
  function AfterLoad(c: Client, found: Option<Data>): Client {
    c.(pc := Idle, loaded := true, expected := DigestOf(found),
       memory := match found case None => Some(World(0, [])) case Some(data) => Decode(data))
  }

  /** A successful save: the revision is remembered and, unless `commitSegment` throws, the
      world retires the archived history. */
  function AfterSave(c: Client, op: Op, committed: bool): Client
    requires op.Save?
  {
    var kept := if committed && c.memory.Some? && op.cut <= |c.memory.value.events|
                then Some(c.memory.value.Retire(op.cut)) else c.memory;
    c.(pc := Idle, expected := Some(Sha256(op.value)), memory := kept)
  }

  // ---------------------------------------------------------------- one function a step

  function DoStart(s: System, id: nat): Option<System> {
    if id in s.clients then None else Some(Put(s, id, Client(s.disk.lock, false, None, None, Idle)))
  }

  /** The lock file is replaced while no store is inside its critical section. */
  function DoReplaceLock(s: System, ino: nat): Option<System> {
    if (exists id :: id in s.clients && Inside(s.clients[id].pc)) then None
    else Some(s.(disk := s.disk.(lock := ino)))
  }

  function DoCrash(s: System, id: nat, c: Client): Option<System> {
    Some(s.(clients := s.clients - {id}, held := if Holding(c.pc) then s.held - {c.lock} else s.held))
  }

  function DoTick(s: System, id: nat, c: Client, event: int): Option<System> {
    if c.pc.Idle? && c.memory.Some? then
      Some(Put(s, id, c.(memory := Some(World(c.memory.value.base, c.memory.value.events + [event])))))
    else None
  }

  function DoCallLoad(s: System, id: nat, c: Client): Option<System> {
    if c.pc.Idle? then Some(Put(s, id, c.(pc := Locking(Load)))) else None
  }

  function DoCallSave(s: System, id: nat, c: Client, segment: Option<nat>, tick: nat): Option<System> {
    if !c.pc.Idle? || c.memory.None? || !c.loaded then None
    else if segment.Some? && segment.value > |c.memory.value.events| then None
    else
      var op := SaveOf(c.memory.value, segment, tick);
      if |op.value| > LIMIT then None else Some(Put(s, id, c.(pc := Locking(op))))
  }

  function DoFlock(s: System, id: nat, c: Client): Option<System> {
    if !c.pc.Locking? || c.lock in s.held then None
    else Some(Put(s, id, c.(pc := Checking(c.pc.op))).(held := s.held[c.lock := id]))
  }

  function DoCheckLock(s: System, id: nat, c: Client): Option<System> {
    if !c.pc.Checking? then None
    else Some(Put(s, id, c.(pc := if c.lock == s.disk.lock then Reading(c.pc.op) else Unlocking(c.pc.op, false, None))))
  }

  function DoRead(s: System, id: nat, c: Client): Option<System>
    requires s.disk.Sound()
  {
    if !c.pc.Reading? then None
    else Some(Put(s, id, c.(pc := AfterRead(c, c.pc.op, s.disk.Content(Active)))))
  }

  function DoCreate(s: System, id: nat, c: Client, uuid: nat, ino: nat): Option<System> {
    if !c.pc.Creating? || Temp(uuid) in s.disk.names || ino in s.disk.files then None
    else
      Some(Put(s, id, c.(pc := Writing(c.pc.op, c.pc.stage, Temp(uuid), ino, 0)))
           .(disk := s.disk.Create(Temp(uuid), ino)))
  }

  predicate StageOK(op: Op, stage: Stage) {
    op.Save? && (stage.ArchiveStage? ==> op.archive.Some?)
  }

  /** One `write` call, which may write less than it is given. */
  function DoWrite(s: System, id: nat, c: Client, count: nat): Option<System> {
    match c.pc
    case Writing(op, stage, temp, ino, offset) =>
      if !StageOK(op, stage) || ino !in s.disk.files || count == 0 || offset + count > |Payload(op, stage)| then None
      else Some(Put(s, id, c.(pc := Writing(op, stage, temp, ino, offset + count)))
                .(disk := s.disk.Append(ino, Payload(op, stage)[offset..offset + count])))
    case _ => None
  }

  function DoSync(s: System, id: nat, c: Client): Option<System> {
    match c.pc
    case Writing(op, stage, temp, ino, offset) =>
      if !StageOK(op, stage) || offset != |Payload(op, stage)| then None
      else Some(Put(s, id, c.(pc := Publishing(op, stage, temp, ino))))
    case _ => None
  }

  /** The link step: an existing archive is accepted only if it has one link and is equal. */
  function DoLink(s: System, id: nat, c: Client): Option<System>
    requires s.disk.Sound()
  {
    match c.pc
    case Publishing(op, ArchiveStage, temp, _) =>
      if !StageOK(op, ArchiveStage) then None
      else if temp in s.disk.names && ArchiveName(op) !in s.disk.names then
        Some(Put(s, id, c.(pc := Removing(op, ArchiveStage, temp, true))).(disk := s.disk.Link(temp, ArchiveName(op))))
      else
        var same := s.disk.Content(ArchiveName(op)) == op.archive && s.disk.Single(ArchiveName(op));
        Some(Put(s, id, c.(pc := Removing(op, ArchiveStage, temp, same))))
    case _ => None
  }

  /** The saved history once the world in memory replaces the active file. */
  function Extended(first: nat, log: seq<int>, memory: Option<World>): seq<int> {
    match memory
    case None => log
    case Some(w) => if w.base <= first + |log| < w.End() then log + w.events[first + |log| - w.base..] else log
  }

  /** The rename step. */
  function DoRename(s: System, id: nat, c: Client): Option<System>
  {
    match c.pc
    case Publishing(op, ActiveStage, temp, _) =>
      if !StageOK(op, ActiveStage) || temp !in s.disk.names || temp == Active then None
      else Some(Put(s, id, c.(pc := Removing(op, ActiveStage, temp, true)))
                .(disk := s.disk.Rename(temp, Active), log := Extended(s.first, s.log, c.memory),
                    ever := s.ever + {op.value}))
    case _ => None
  }

  /** The `defer` of `write`; its result is ignored, so the name may stay. */
  function DoRemove(s: System, id: nat, c: Client, unlinked: bool): Option<System> {
    match c.pc
    case Removing(op, stage, temp, done) =>
      if !temp.Temp? then None
      else
        var next := if done && stage.ArchiveStage? then Creating(op, ActiveStage) else Unlocking(op, done, None);
        Some(Put(s, id, c.(pc := next)).(disk := if unlinked then s.disk.Unlink(temp) else s.disk))
    case _ => None
  }

  function DoUnlock(s: System, id: nat, c: Client, committed: bool): Option<System> {
    match c.pc
    case Unlocking(op, done, found) =>
      var after := if !done then c.(pc := Idle)
                   else if op.Load? then AfterLoad(c, found) else AfterSave(c, op, committed);
      Some(Put(s, id, after).(held := s.held - {c.lock}))
    case _ => None
  }

  function DoFail(s: System, id: nat, c: Client): Option<System> {
    if c.pc.Idle? || c.pc.Removing? || c.pc.Unlocking? then None
    else Some(Put(s, id, c.(pc := FailedPc(c.pc))))
  }

  /** One step, if the action is possible now. */
  function Apply(s: System, a: Action): Option<System>
    requires s.disk.Sound()
  {
    if a.Start? then DoStart(s, a.id)
    else if a.ReplaceLock? then DoReplaceLock(s, a.ino)
    else if a.id !in s.clients then None
    else
      var c := s.clients[a.id];
      match a
      case Crash(id) => DoCrash(s, id, c)
      case Tick(id, event) => DoTick(s, id, c, event)
      case CallLoad(id) => DoCallLoad(s, id, c)
      case CallSave(id, segment, tick) => DoCallSave(s, id, c, segment, tick)
      case Flock(id) => DoFlock(s, id, c)
      case CheckLock(id) => DoCheckLock(s, id, c)
      case Read(id) => DoRead(s, id, c)
      case Create(id, uuid, ino) => DoCreate(s, id, c, uuid, ino)
      case Write(id, count) => DoWrite(s, id, c, count)
      case Sync(id) => DoSync(s, id, c)
      case Publish(id) => if c.pc.Publishing? && c.pc.stage.ArchiveStage? then DoLink(s, id, c) else DoRename(s, id, c)
      case Remove(id, unlinked) => DoRemove(s, id, c, unlinked)
      case Unlock(id, committed) => DoUnlock(s, id, c, committed)
      case Fail(id) => DoFail(s, id, c)
  }
}
