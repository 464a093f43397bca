/** A save of the habitat protocol that nothing disturbs: one process takes its steps, no call fails,
    and the file, the lock and the archive name are as the store expects. It goes through. */
module HabitatProgress {
  import opened Common
  import opened HabitatDisk
  import opened HabitatProtocol
  import opened HabitatInvariant

  /** The actions lead from one state to the other. */
  ghost predicate Leads(s: System, actions: seq<Action>, t: System)
    decreases |actions|
  {
    if actions == [] then s == t
    else
      var n := |actions| - 1;
      exists m: System :: Leads(s, actions[..n], m) && m.disk.Sound() && Apply(m, actions[n]) == Some(t)
  }

  ghost predicate CanReach(s: System, t: System) {
    exists actions :: Leads(s, actions, t)
  }

  lemma Takes(s0: System, s: System, a: Action, t: System)
    requires CanReach(s0, s) && s.disk.Sound() && Apply(s, a) == Some(t)
    ensures CanReach(s0, t)
  {
    var actions :| Leads(s0, actions, s);
    assert (actions + [a])[..|actions|] == actions && (actions + [a])[|actions|] == a;
    assert Leads(s0, actions + [a], t);
  }

  lemma {:induction false} LeadsKeeps(s0: System, actions: seq<Action>, t: System)
    requires Inv(s0) && Leads(s0, actions, t)
    ensures Inv(t)
    decreases |actions|
  {
    if actions != [] {
      var n := |actions| - 1;
      var m: System :| Leads(s0, actions[..n], m) && m.disk.Sound() && Apply(m, actions[n]) == Some(t);
      LeadsKeeps(s0, actions[..n], m);
      StepKeeps(m, actions[n], t);
    }
  }

  /** Process `id` is at `pc`, and the rest of it is as in `c`. */
  predicate At(s: System, id: nat, c: Client, pc: Pc) {
    id in s.clients && s.clients[id] == c.(pc := pc)
  }

  // ---------------------------------------------------------------- single steps

  lemma Flocks(s0: System, s: System, id: nat, c: Client, op: Op) returns (t: System)
    requires CanReach(s0, s) && s.disk.Sound() && At(s, id, c, Locking(op)) && c.lock !in s.held
    ensures CanReach(s0, t) && t.disk == s.disk && At(t, id, c, Checking(op))
  {
    t := Apply(s, Flock(id)).value;
    Takes(s0, s, Flock(id), t);
  }

  lemma ChecksLock(s0: System, s: System, id: nat, c: Client, op: Op) returns (t: System)
    requires CanReach(s0, s) && s.disk.Sound() && At(s, id, c, Checking(op)) && c.lock == s.disk.lock
    ensures CanReach(s0, t) && t.disk == s.disk && At(t, id, c, Reading(op))
  {
    t := Apply(s, CheckLock(id)).value;
    Takes(s0, s, CheckLock(id), t);
  }

  function FirstStage(op: Op): Stage
    requires op.Save?
  {
    if op.archive.Some? then ArchiveStage else ActiveStage
  }

  /** The save finds what it expects. */
  predicate Welcome(disk: Disk, c: Client, op: Op)
    requires disk.Sound()
  {
    && op.Save? && DigestOf(disk.Content(Active)) == c.expected
    && (disk.Content(Active).Some? ==> |disk.Content(Active).value| <= LIMIT)
    && (op.archive.Some? ==> |op.archive.value| <= ARCHIVE_LIMIT && Free(disk, op))
  }

  /** The name of the archive is not in use, or by one file with the same content. */
  predicate Free(disk: Disk, op: Op)
    requires disk.Sound() && op.Save? && op.archive.Some?
  {
    ArchiveName(op) in disk.names ==> disk.Single(ArchiveName(op)) && disk.Content(ArchiveName(op)) == op.archive
  }

  lemma ReadsActive(s0: System, s: System, id: nat, c: Client, op: Op) returns (t: System)
    requires CanReach(s0, s) && s.disk.Sound() && At(s, id, c, Reading(op)) && Welcome(s.disk, c, op)
    ensures CanReach(s0, t) && t.disk == s.disk && At(t, id, c, Creating(op, FirstStage(op)))
  {
    t := Apply(s, Read(id)).value;
    Takes(s0, s, Read(id), t);
  }

  lemma Creates(s0: System, s: System, id: nat, c: Client, op: Op, stage: Stage, uuid: nat, ino: nat)
    returns (t: System)
    requires CanReach(s0, s) && s.disk.Sound() && At(s, id, c, Creating(op, stage))
    requires Temp(uuid) !in s.disk.names && ino !in s.disk.files
    ensures CanReach(s0, t) && t.disk.Sound() && t.disk == s.disk.Create(Temp(uuid), ino)
    ensures At(t, id, c, Writing(op, stage, Temp(uuid), ino, 0))
  {
    t := Apply(s, Create(id, uuid, ino)).value;
    Takes(s0, s, Create(id, uuid, ino), t);
  }

  lemma WritesAll(s0: System, s: System, id: nat, c: Client, op: Op, stage: Stage, temp: Name, ino: nat)
    returns (t: System)
    requires CanReach(s0, s) && s.disk.Sound() && At(s, id, c, Writing(op, stage, temp, ino, 0))
    requires StageOK(op, stage) && Payload(op, stage) != [] && ino in s.disk.files && s.disk.files[ino] == []
    ensures CanReach(s0, t) && t.disk.Sound()
    ensures At(t, id, c, Writing(op, stage, temp, ino, |Payload(op, stage)|))
    ensures t.disk.names == s.disk.names && t.disk.files == s.disk.files[ino := Payload(op, stage)]
  {
    var data := Payload(op, stage);
    assert data[0..0 + |data|] == data && [] + data == data;
    t := Apply(s, Write(id, |data|)).value;
    Takes(s0, s, Write(id, |data|), t);
  }

  lemma Syncs(s0: System, s: System, id: nat, c: Client, op: Op, stage: Stage, temp: Name, ino: nat)
    returns (t: System)
    requires CanReach(s0, s) && s.disk.Sound() && StageOK(op, stage)
    requires At(s, id, c, Writing(op, stage, temp, ino, |Payload(op, stage)|))
    ensures CanReach(s0, t) && t.disk == s.disk && At(t, id, c, Publishing(op, stage, temp, ino))
  {
    t := Apply(s, Sync(id)).value;
    Takes(s0, s, Sync(id), t);
  }

  lemma Links(s0: System, s: System, id: nat, c: Client, op: Op, temp: Name, ino: nat) returns (t: System)
    requires CanReach(s0, s) && s.disk.Sound() && StageOK(op, ArchiveStage) && temp in s.disk.names
    requires At(s, id, c, Publishing(op, ArchiveStage, temp, ino)) && Free(s.disk, op)
    ensures CanReach(s0, t) && t.disk.Sound() && At(t, id, c, Removing(op, ArchiveStage, temp, true))
    ensures ArchiveName(op) in t.disk.names && t.disk.files == s.disk.files
  {
    t := Apply(s, Publish(id)).value;
    Takes(s0, s, Publish(id), t);
  }

  lemma Renames(s0: System, s: System, id: nat, c: Client, op: Op, temp: Name, ino: nat) returns (t: System)
    requires CanReach(s0, s) && s.disk.Sound() && op.Save? && At(s, id, c, Publishing(op, ActiveStage, temp, ino))
    requires temp.Temp? && temp in s.disk.names
    ensures CanReach(s0, t) && t.disk.Sound() && t.disk == s.disk.Rename(temp, Active)
    ensures At(t, id, c, Removing(op, ActiveStage, temp, true))
  {
    t := Apply(s, Publish(id)).value;
    Takes(s0, s, Publish(id), t);
  }

  lemma Removes(s0: System, s: System, id: nat, c: Client, op: Op, stage: Stage, temp: Name) returns (t: System)
    requires CanReach(s0, s) && s.disk.Sound() && At(s, id, c, Removing(op, stage, temp, true)) && temp.Temp?
    ensures CanReach(s0, t) && t.disk.Sound() && t.disk == s.disk.Unlink(temp)
    ensures At(t, id, c, if stage.ArchiveStage? then Creating(op, ActiveStage) else Unlocking(op, true, None))
  {
    t := Apply(s, Remove(id, true)).value;
    Takes(s0, s, Remove(id, true), t);
  }

  lemma Unlocks(s0: System, s: System, id: nat, c: Client, op: Op) returns (t: System)
    requires CanReach(s0, s) && s.disk.Sound() && op.Save? && At(s, id, c, Unlocking(op, true, None))
    ensures CanReach(s0, t) && t.disk == s.disk && id in t.clients && c.lock !in t.held
    ensures t.clients[id] == AfterSave(c, op, true)
  {
    t := Apply(s, Unlock(id, true)).value;
    Takes(s0, s, Unlock(id, true), t);
  }

  // ---------------------------------------------------------------- one file

  /** Creating, writing and syncing the file of one stage. */
  lemma FileIsWritten(s0: System, s: System, id: nat, c: Client, op: Op, stage: Stage, uuid: nat, ino: nat)
    returns (t: System)
    requires CanReach(s0, s) && s.disk.Sound() && At(s, id, c, Creating(op, stage))
    requires StageOK(op, stage) && Payload(op, stage) != []
    requires Temp(uuid) !in s.disk.names && ino !in s.disk.files
    ensures CanReach(s0, t) && t.disk.Sound() && At(t, id, c, Publishing(op, stage, Temp(uuid), ino))
    ensures t.disk.names == s.disk.names[Temp(uuid) := ino]
    ensures t.disk.files == s.disk.files[ino := Payload(op, stage)]
  {
    var a := Creates(s0, s, id, c, op, stage, uuid, ino);
    var b := WritesAll(s0, a, id, c, op, stage, Temp(uuid), ino);
    t := Syncs(s0, b, id, c, op, stage, Temp(uuid), ino);
  }

  lemma StaysFree(disk: Disk, disk': Disk, op: Op, temp: Name, ino: nat, data: Data)
    requires disk.Sound() && disk'.Sound() && op.Save? && op.archive.Some? && Free(disk, op)
    requires temp.Temp? && temp !in disk.names && ino !in disk.files
    requires disk'.names == disk.names[temp := ino] && disk'.files == disk.files[ino := data]
    ensures Free(disk', op)
  {
    var n := ArchiveName(op);
    if n in disk'.names {
      assert n in disk.names && disk'.names[n] == disk.names[n] != ino;
      forall m | m in disk'.names && disk'.names[m] == disk'.names[n] ensures m == n {
        assert m != temp;
      }
    }
  }

  // ---------------------------------------------------------------- the whole save

  /** Up to the point where the active file is to be written. */
  lemma ArchiveIsLinked(s0: System, s: System, id: nat, c: Client, op: Op, uuid: nat, ino: nat) returns (t: System)
    requires CanReach(s0, s) && s.disk.Sound() && At(s, id, c, Creating(op, ArchiveStage))
    requires StageOK(op, ArchiveStage) && op.archive.value != [] && Free(s.disk, op)
    requires Temp(uuid) !in s.disk.names && ino !in s.disk.files
    ensures CanReach(s0, t) && t.disk.Sound() && At(t, id, c, Creating(op, ActiveStage))
    ensures ArchiveName(op) in t.disk.names
  {
    var a := FileIsWritten(s0, s, id, c, op, ArchiveStage, uuid, ino);
    StaysFree(s.disk, a.disk, op, Temp(uuid), ino, op.archive.value);
    var b := Links(s0, a, id, c, op, Temp(uuid), ino);
    t := Removes(s0, b, id, c, op, ArchiveStage, Temp(uuid));
  }

  /** From there to the end of the call. */
  lemma ActiveIsReplaced(s0: System, s: System, id: nat, c: Client, op: Op, uuid: nat, ino: nat) returns (t: System)
    requires CanReach(s0, s) && s.disk.Sound() && At(s, id, c, Creating(op, ActiveStage))
    requires op.Save? && op.value != []
    requires Temp(uuid) !in s.disk.names && ino !in s.disk.files
    ensures CanReach(s0, t) && t.disk.Sound() && t.disk.Content(Active) == Some(op.value)
    ensures forall n :: n in s.disk.names && n.Archive? ==> n in t.disk.names
    ensures id in t.clients && t.clients[id] == AfterSave(c, op, true) && c.lock !in t.held
  {
    var a := FileIsWritten(s0, s, id, c, op, ActiveStage, uuid, ino);
    t := RenamedAndUnlocked(s0, a, id, c, op, Temp(uuid), ino);
  }

  lemma RenamedAndUnlocked(s0: System, s: System, id: nat, c: Client, op: Op, temp: Name, ino: nat) returns (t: System)
    requires CanReach(s0, s) && s.disk.Sound() && op.Save? && At(s, id, c, Publishing(op, ActiveStage, temp, ino))
    requires temp.Temp? && temp in s.disk.names && s.disk.names[temp] == ino
    ensures CanReach(s0, t) && t.disk == s.disk.Rename(temp, Active).Unlink(temp)
    ensures t.disk.Sound() && t.disk.Content(Active) == Some(s.disk.files[ino])
    ensures id in t.clients && t.clients[id] == AfterSave(c, op, true) && c.lock !in t.held
  {
    var b := Renames(s0, s, id, c, op, temp, ino);
    var d := Removes(s0, b, id, c, op, ActiveStage, temp);
    t := Unlocks(s0, d, id, c, op);
  }

  lemma Bound(ids: set<nat>) returns (id: nat)
    ensures forall n :: n in ids ==> n < id
  {
    id := 0;
    if ids != {} {
      var n :| n in ids;
      var rest := Bound(ids - {n});
      id := if rest <= n then n + 1 else rest;
      forall k | k in ids ensures k < id {
        assert k == n || k in ids - {n};
      }
    }
  }

  /** A temporary name and an inode that are not in use. */
  lemma SomethingIsFree(disk: Disk) returns (uuid: nat, ino: nat)
    ensures Temp(uuid) !in disk.names && ino !in disk.files
  {
    var ids := set n | n in disk.names && n.Temp? :: n.id;
    uuid := Bound(ids);
    ino := Bound(disk.files.Keys);
    assert forall n :: n in disk.names && n.Temp? ==> n.id in ids;
  }

  /** Reading the expected file, with the lock held. */
  lemma LockedAndRead(s: System, id: nat, c: Client, op: Op) returns (t: System)
    requires s.disk.Sound() && At(s, id, c, Locking(op)) && c.lock == s.disk.lock && c.lock !in s.held
    requires Welcome(s.disk, c, op)
    ensures CanReach(s, t) && t.disk == s.disk && At(t, id, c, Creating(op, FirstStage(op)))
  {
    assert Leads(s, [], s);
    var a := Flocks(s, s, id, c, op);
    var b := ChecksLock(s, a, id, c, op);
    t := ReadsActive(s, b, id, c, op);
  }

  lemma DocumentsAreNotEmpty(first: nat, log: seq<int>, ever: set<Data>, c: Client, op: Op)
    requires Calm(first, log, ever, c) && c.pc == Locking(op) && op.Save?
    ensures op.value != [] && (op.archive.Some? ==> op.archive.value != [])
    ensures c.memory.Some? && op.cut <= |c.memory.value.events|
  {}

  /** A save whose store expects the file that is there, with the lock current and free and the name of
      its archive free, can go through, whatever the other processes are doing: then the file holds its
      document, the archive is linked, the store expects that document, and the world has retired
      exactly the segment. */
  lemma UndisturbedSave(s: System, id: nat, op: Op) returns (t: System)
    requires Inv(s) && id in s.clients && s.clients[id].pc == Locking(op)
    requires s.clients[id].lock == s.disk.lock && s.disk.lock !in s.held && Welcome(s.disk, s.clients[id], op)
    ensures CanReach(s, t) && Inv(t) && id in t.clients
    ensures t.disk.Content(Active) == Some(op.value)
    ensures op.archive.Some? ==> ArchiveName(op) in t.disk.names
    ensures t.clients[id].pc == Idle && t.clients[id].expected == Some(Sha256(op.value))
    ensures s.clients[id].memory.Some? && op.cut <= |s.clients[id].memory.value.events|
    ensures t.clients[id].memory == Some(s.clients[id].memory.value.Retire(op.cut))
  {
    var c := s.clients[id];
    DocumentsAreNotEmpty(s.first, s.log, s.ever, c, op);
    var a := LockedAndRead(s, id, c, op);
    if op.archive.Some? {
      var uuid, ino := SomethingIsFree(a.disk);
      a := ArchiveIsLinked(s, a, id, c, op, uuid, ino);
    }
    var uuid, ino := SomethingIsFree(a.disk);
    t := ActiveIsReplaced(s, a, id, c, op, uuid, ino);
    var actions :| Leads(s, actions, t);
    LeadsKeeps(s, actions, t);
  }

  /** A call of save carries the world, or with a segment the world without it and its archive. */
  lemma SaveBegins(s: System, id: nat, segment: Option<nat>, tick: nat) returns (t: System, op: Op)
    requires s.disk.Sound() && id in s.clients && s.clients[id].pc.Idle? && s.clients[id].loaded
    requires s.clients[id].memory.Some? && (segment.Some? ==> segment.value <= |s.clients[id].memory.value.events|)
    requires var w := s.clients[id].memory.value;
             |Encode(if segment.Some? then w.Retire(segment.value) else w)| <= LIMIT
    ensures Apply(s, CallSave(id, segment, tick)) == Some(t) && t.disk == s.disk && t.held == s.held
    ensures id in t.clients && t.clients[id] == s.clients[id].(pc := Locking(op)) && op.Save?
    ensures var w := s.clients[id].memory.value;
            if segment.Some? then
              && op.cut == segment.value && op.value == Encode(w.Retire(segment.value))
              && op.archive == Some(Encode(w.Segment(segment.value))) && op.tick == tick
            else op.cut == 0 && op.value == Encode(w) && op.archive == None
  {
    t := Apply(s, CallSave(id, segment, tick)).value;
    op := t.clients[id].pc.op;
  }

  /** A load with the lock current and free can go through if the file is within its limit: the store
      remembers the content, and the world is the decoded file, or a new one if there is none. */
  lemma UndisturbedLoad(s: System, id: nat) returns (t: System)
    requires Inv(s) && id in s.clients && s.clients[id].pc == Locking(Load)
    requires s.clients[id].lock == s.disk.lock && s.disk.lock !in s.held
    requires s.disk.Content(Active).Some? ==> |s.disk.Content(Active).value| <= LIMIT
    ensures CanReach(s, t) && t.disk == s.disk && id in t.clients
    ensures t.clients[id].pc == Idle && t.clients[id].loaded
    ensures t.clients[id].expected == DigestOf(s.disk.Content(Active))
    ensures t.clients[id].memory == match s.disk.Content(Active) case None => Some(World(0,
          [])) case Some(x) => Decode(x)
  {
    var c := s.clients[id];
    assert Leads(s, [], s);
    var a := Flocks(s, s, id, c, Load);
    var b := ChecksLock(s, a, id, c, Load);
    var d := ReadsForLoad(s, b, id, c);
    t := UnlocksLoad(s, d, id, c, s.disk.Content(Active));
  }

  lemma ReadsForLoad(s0: System, s: System, id: nat, c: Client) returns (t: System)
    requires CanReach(s0, s) && s.disk.Sound() && At(s, id, c, Reading(Load))
    requires s.disk.Content(Active).Some? ==> |s.disk.Content(Active).value| <= LIMIT
    ensures CanReach(s0, t) && t.disk == s.disk && At(t, id, c, Unlocking(Load, true, s.disk.Content(Active)))
  {
    t := Apply(s, Read(id)).value;
    Takes(s0, s, Read(id), t);
  }

  lemma UnlocksLoad(s0: System, s: System, id: nat, c: Client, found: Option<Data>) returns (t: System)
    requires CanReach(s0, s) && s.disk.Sound() && At(s, id, c, Unlocking(Load, true, found))
    ensures CanReach(s0, t) && t.disk == s.disk && id in t.clients && t.clients[id] == AfterLoad(c, found)
  {
    t := Apply(s, Unlock(id, true)).value;
    Takes(s0, s, Unlock(id, true), t);
  }
}
