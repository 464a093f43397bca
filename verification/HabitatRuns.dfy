/** What holds over whole runs of the habitat protocol: any number of processes on one
    directory, in any interleaving, with failures and crashes. */
module HabitatRuns {
  import opened Common
  import opened HabitatDisk
  import opened HabitatProtocol
  import opened HabitatInvariant

  // ---------------------------------------------------------------- single steps

  function TempOf(pc: Pc): Option<Name> {
    match pc
    case Writing(_, _, temp, _, _) => Some(temp)
    case Publishing(_, _, temp, _) => Some(temp)
    case Removing(_, _, temp, _) => Some(temp)
    case _ => None
  }

  /** Archives keep their names, and so do temporary files of other processes. */
  predicate NamesKept(disk: Disk, disk': Disk, own: Option<Name>) {
    forall n :: n in disk.names && (n.Archive? || (n.Temp? && own != Some(n))) ==>
      n in disk'.names && disk'.names[n] == disk.names[n]
  }

  /** The active file is the same, or a whole document of the world of client `c` has replaced
      the content that `c` expected. */
  predicate ActiveKept(disk: Disk, disk': Disk, c: Client)
    requires disk.Sound()
  {
    && disk'.Sound()
    && (disk'.Content(Active) == disk.Content(Active)
        || (&& c.pc.Publishing? && c.pc.op.Save? && c.memory.Some? && c.pc.op.cut <= |c.memory.value.events|
            && DigestOf(disk.Content(Active)) == c.expected
            && disk'.Content(Active) == Some(c.pc.op.value)
            && c.pc.op.value == Encode(c.memory.value.Retire(c.pc.op.cut))))
  }

  ghost predicate DiskFacts(s: System, c: Client, t: System)
    requires s.disk.Sound()
  {
    NamesKept(s.disk, t.disk, TempOf(c.pc)) && ActiveKept(s.disk, t.disk, c)
  }

  lemma CreateFacts(s: System, id: nat, uuid: nat, ino: nat, t: System)
    requires Inv(s) && id in s.clients && DoCreate(s, id, s.clients[id], uuid, ino) == Some(t)
    ensures DiskFacts(s, s.clients[id], t) && t.disk.Content(Active) == s.disk.Content(Active)
  {
    assert t.disk == s.disk.Create(Temp(uuid), ino);
  }

  lemma WriteFacts(s: System, id: nat, count: nat, t: System)
    requires Inv(s) && id in s.clients && DoWrite(s, id, s.clients[id], count) == Some(t)
    ensures DiskFacts(s, s.clients[id], t) && t.disk.Content(Active) == s.disk.Content(Active)
  {
    var c := s.clients[id];
    assert Critical(s.disk, c) && Calm(s.first, s.log, s.ever, c);
    AppendKeepsFiles(s.disk, c.pc.temp, c.pc.ino, Payload(c.pc.op, c.pc.stage)[c.pc.offset..c.pc.offset + count]);
  }

  lemma RemoveFacts(s: System, id: nat, unlinked: bool, t: System)
    requires Inv(s) && id in s.clients && DoRemove(s, id, s.clients[id], unlinked) == Some(t)
    ensures DiskFacts(s, s.clients[id], t) && t.disk.Content(Active) == s.disk.Content(Active)
  {
    UnlinkKeepsFiles(s.disk, s.clients[id].pc.temp);
  }

  lemma LinkFacts(s: System, id: nat, t: System)
    requires Inv(s) && id in s.clients && DoLink(s, id, s.clients[id]) == Some(t)
    ensures DiskFacts(s, s.clients[id], t) && t.disk.Content(Active) == s.disk.Content(Active)
  {
    var c := s.clients[id];
    assert Critical(s.disk, c) && Calm(s.first, s.log, s.ever, c);
    if ArchiveName(c.pc.op) !in s.disk.names {
      LinkKeepsFiles(s.disk, c.pc.temp, c.pc.ino, ArchiveName(c.pc.op));
    }
  }

  lemma RenameFacts(s: System, id: nat, t: System)
    requires Inv(s) && id in s.clients && DoRename(s, id, s.clients[id]) == Some(t)
    ensures DiskFacts(s, s.clients[id], t)
  {
    var c := s.clients[id];
    assert Critical(s.disk, c) && Calm(s.first, s.log, s.ever, c);
    RenameKeepsFiles(s.disk, c.pc.temp, c.pc.ino);
  }

  predicate TouchesFiles(a: Action) {
    a.Create? || a.Write? || a.Remove? || a.Publish?
  }

  lemma OtherStepsTouchNoFile(s: System, a: Action, t: System)
    requires s.disk.Sound() && Apply(s, a) == Some(t) && !TouchesFiles(a)
    ensures t.disk.names == s.disk.names && t.disk.files == s.disk.files
    ensures !a.Start? && !a.ReplaceLock? ==> a.id in s.clients
  {}

  lemma TouchFacts(s: System, a: Action, t: System)
    requires Inv(s) && Apply(s, a) == Some(t) && TouchesFiles(a)
    ensures a.id in s.clients && DiskFacts(s, s.clients[a.id], t)
    ensures !a.Publish? ==> t.disk.Content(Active) == s.disk.Content(Active)
  {
    match a
    case Create(id, uuid, ino) => CreateFacts(s, id, uuid, ino, t);
    case Write(id, count) => WriteFacts(s, id, count, t);
    case Remove(id, unlinked) => RemoveFacts(s, id, unlinked, t);
    case Publish(id) =>
      if DoLink(s, id, s.clients[id]) == Some(t) { LinkFacts(s, id, t); } else { RenameFacts(s, id, t); }
  }

  /** What a step can do to the directory; a new process counts as idle. */
  lemma StepFacts(s: System, a: Action, t: System)
    requires Inv(s) && Apply(s, a) == Some(t)
    ensures (a.Start? || a.ReplaceLock?) ==>
              t.disk.Sound() && NamesKept(s.disk, t.disk, None) && t.disk.Content(Active) == s.disk.Content(Active)
    ensures !(a.Start? || a.ReplaceLock?) ==> a.id in s.clients && DiskFacts(s, s.clients[a.id], t)
    ensures t.disk.Content(Active) != s.disk.Content(Active) ==> a.Publish?
  {
    if TouchesFiles(a) {
      TouchFacts(s, a, t);
    } else {
      OtherStepsTouchNoFile(s, a, t);
    }
  }

  /** The active file changes only when a store renames a whole document onto it, and only
      while the file still has the content that this store last loaded or saved. */
  lemma ActiveChangesBySave(s: System, a: Action, t: System)
    requires Inv(s) && Apply(s, a) == Some(t)
    requires t.disk.Sound() && t.disk.Content(Active) != s.disk.Content(Active)
    ensures a.Publish? && a.id in s.clients
    ensures var c := s.clients[a.id];
            && c.pc.Publishing? && c.pc.op.Save? && c.memory.Some? && c.pc.op.cut <= |c.memory.value.events|
            && DigestOf(s.disk.Content(Active)) == c.expected
            && t.disk.Content(Active) == Some(c.pc.op.value)
            && c.pc.op.value == Encode(c.memory.value.Retire(c.pc.op.cut))
  {
    StepFacts(s, a, t);
  }

  /** A linked archive keeps its name, its inode and its content. */
  lemma ArchiveStays(s: System, a: Action, t: System, n: Name)
    requires Inv(s) && Apply(s, a) == Some(t) && n in s.disk.names && n.Archive?
    ensures n in t.disk.names && t.disk.names[n] == s.disk.names[n]
  {
    StepFacts(s, a, t);
  }

  lemma ArchiveIsItsDigest(s: System, n: Name)
    requires Inv(s) && n in s.disk.names && n.Archive?
    ensures s.disk.Content(n) == Some(n.digest.of)
  {}

  // ---------------------------------------------------------------- retiring history

  /** Once the active file is replaced, the archive of the segmented history exists. */
  predicate SegmentKept(names: map<Name, nat>, c: Client) {
    match c.pc
    case Removing(op, ActiveStage, _, done) => done && op.Save? && op.archive.Some? ==> ArchiveName(op) in names
    case Unlocking(op, done, _) => done && op.Save? && op.archive.Some? ==> ArchiveName(op) in names
    case _ => true
  }

  predicate SegmentsKept(s: System) {
    forall id :: id in s.clients ==> SegmentKept(s.disk.names, s.clients[id])
  }

  /** A step changes one process at most. */
  lemma OnlyOwnClient(s: System, a: Action, t: System)
    requires s.disk.Sound() && Apply(s, a) == Some(t)
    ensures forall o :: o in t.clients && (a.ReplaceLock? || o != a.id) ==>
          o in s.clients && t.clients[o] == s.clients[o]
    ensures !a.ReplaceLock? && !a.Start? ==> a.id in s.clients
  {}

  lemma SegmentsStayKept(s: System, a: Action, t: System)
    requires Inv(s) && SegmentsKept(s) && Apply(s, a) == Some(t)
    ensures SegmentsKept(t)
  {
    StepFacts(s, a, t);
    OnlyOwnClient(s, a, t);
    if !a.ReplaceLock? && a.id in t.clients {
      OwnSegmentKept(s, a, t);
    }
    var own := if a.ReplaceLock? then None else Some(a.id);
    AllSegmentsKept(s, t, own, if a.Start? || a.ReplaceLock? then None else TempOf(s.clients[a.id].pc));
  }

  lemma AllSegmentsKept(s: System, t: System, own: Option<nat>, temp: Option<Name>)
    requires SegmentsKept(s) && NamesKept(s.disk, t.disk, temp)
    requires forall o :: o in t.clients && own != Some(o) ==> o in s.clients && t.clients[o] == s.clients[o]
    requires own.Some? && own.value in t.clients ==> SegmentKept(t.disk.names, t.clients[own.value])
    ensures SegmentsKept(t)
  {
    forall o | o in t.clients ensures SegmentKept(t.disk.names, t.clients[o]) {
      if own != Some(o) {
        assert SegmentKept(s.disk.names, s.clients[o]);
      }
    }
  }

  predicate OwnSegmentBefore(s: System, a: Action, t: System)
    requires s.disk.Sound()
  {
    && (forall n :: n in s.disk.names && n.Archive? ==> n in t.disk.names)
    && (!a.ReplaceLock? && a.id in s.clients ==>
          SegmentKept(s.disk.names, s.clients[a.id]) && Critical(s.disk, s.clients[a.id]))
  }

  lemma OutsideKeepsSegment(s: System, a: Action, t: System)
    requires s.disk.Sound() && Apply(s, a) == Some(t) && Outside(a) && !a.ReplaceLock? && OwnSegmentBefore(s, a, t)
    ensures a.id in t.clients ==> SegmentKept(t.disk.names, t.clients[a.id])
  {}

  lemma OpeningKeepsSegment(s: System, a: Action, t: System)
    requires s.disk.Sound() && Apply(s, a) == Some(t) && Opens(a) && OwnSegmentBefore(s, a, t)
    ensures a.id in t.clients ==> SegmentKept(t.disk.names, t.clients[a.id])
  {}

  lemma WritingKeepsSegment(s: System, a: Action, t: System)
    requires s.disk.Sound() && Apply(s, a) == Some(t) && WritesFile(a) && OwnSegmentBefore(s, a, t)
    ensures a.id in t.clients ==> SegmentKept(t.disk.names, t.clients[a.id])
  {}

  lemma ClosingKeepsSegment(s: System, a: Action, t: System)
    requires s.disk.Sound() && Apply(s, a) == Some(t) && Closes(a) && OwnSegmentBefore(s, a, t)
    ensures a.id in t.clients ==> SegmentKept(t.disk.names, t.clients[a.id])
  {}

  lemma OwnSegmentKept(s: System, a: Action, t: System)
    requires Inv(s) && SegmentsKept(s) && Apply(s, a) == Some(t) && !a.ReplaceLock?
    requires a.id in t.clients && forall n :: n in s.disk.names && n.Archive? ==> n in t.disk.names
    ensures SegmentKept(t.disk.names, t.clients[a.id])
  {
    if Outside(a) {
      OutsideKeepsSegment(s, a, t);
    } else if Opens(a) {
      OpeningKeepsSegment(s, a, t);
    } else if WritesFile(a) {
      WritingKeepsSegment(s, a, t);
    } else {
      ClosingKeepsSegment(s, a, t);
    }
  }

  /** A world retires history only in one step: when its save has succeeded. Then it retires
      exactly the segment, and an archive that holds the segment is in the directory. */
  lemma RetiredOnlyWhenArchived(s: System, a: Action, t: System, id: nat)
    requires Inv(s) && SegmentsKept(s) && Apply(s, a) == Some(t)
    requires id in s.clients && id in t.clients && s.clients[id].memory.Some? && t.clients[id].memory.Some?
    requires t.clients[id].memory.value.base != s.clients[id].memory.value.base
    requires !(s.clients[id].pc.Unlocking? && s.clients[id].pc.op.Load?)
    ensures a.Unlock? && a.id == id && s.clients[id].pc.Unlocking? && s.clients[id].pc.done
    ensures var w, op := s.clients[id].memory.value, s.clients[id].pc.op;
            && op.Save? && op.cut <= |w.events| && t.clients[id].memory == Some(w.Retire(op.cut))
            && op.archive == Some(Encode(w.Segment(op.cut)))
            && ArchiveName(op) in t.disk.names
            && forall k :: w.base <= k < w.base + op.cut ==> ArchiveHolds(ArchiveName(op), k, w.At(k))
  {
    var c := s.clients[id];
    assert Calm(s.first, s.log, s.ever, c);
    MemoryMoves(s, a, t, id);
    SplitWorld(c.memory.value, c.pc.op.cut);
    assert SegmentKept(s.disk.names, c);
  }

  lemma MemoryMoves(s: System, a: Action, t: System, id: nat)
    requires Inv(s) && Apply(s, a) == Some(t) && id in s.clients && id in t.clients
    requires s.clients[id].memory.Some? && t.clients[id].memory.Some?
    requires t.clients[id].memory.value.base != s.clients[id].memory.value.base
    ensures a.Unlock? && a.id == id && s.clients[id].pc.Unlocking? && s.clients[id].pc.done
  {
    OnlyOwnClient(s, a, t);
    assert !a.ReplaceLock? && a.id == id;
    if Outside(a) {
      OutsideKeepsBase(s, a, t);
    } else if !a.Unlock? {
      StoreStepKeepsMemory(s, a, t);
    }
  }

  lemma OutsideKeepsBase(s: System, a: Action, t: System)
    requires s.disk.Sound() && Apply(s, a) == Some(t) && Outside(a) && !a.ReplaceLock?
    requires a.id in s.clients && a.id in t.clients && s.clients[a.id].memory.Some?
    ensures t.clients[a.id].memory.Some? && t.clients[a.id].memory.value.base == s.clients[a.id].memory.value.base
  {}

  lemma StoreStepKeepsMemory(s: System, a: Action, t: System)
    requires s.disk.Sound() && Apply(s, a) == Some(t) && !Outside(a) && !a.Unlock?
    ensures a.id in s.clients && a.id in t.clients && t.clients[a.id].memory == s.clients[a.id].memory
  {}

  // ---------------------------------------------------------------- runs

  /** Consecutive states, one action between each two. */
  ghost predicate IsRun(states: seq<System>, actions: seq<Action>) {
    && |states| == |actions| + 1 && Initial(states[0])
    && forall i {:trigger actions[i]} :: 0 <= i < |actions| ==>
         states[i].disk.Sound() && Apply(states[i], actions[i]) == Some(states[i + 1])
  }

  lemma {:induction false} RunKeeps(states: seq<System>, actions: seq<Action>, n: nat)
    requires IsRun(states, actions) && n < |states|
    ensures Inv(states[n]) && SegmentsKept(states[n])
  {
    if n == 0 {
      InitialIsOK(states[0]);
    } else {
      RunKeeps(states, actions, n - 1);
      StepKeeps(states[n - 1], actions[n - 1], states[n]);
      SegmentsStayKept(states[n - 1], actions[n - 1], states[n]);
    }
  }

  /** At every moment of every run, the directory holds everything saved up to then: each saved
      event is in the active file or in an archive. */
  lemma NothingSavedIsLost(states: seq<System>, actions: seq<Action>, n: nat)
    requires IsRun(states, actions) && n < |states|
    ensures states[n].disk.Sound() && Coverage(states[n].disk, states[n].first, states[n].log)
  {
    RunKeeps(states, actions, n);
  }

  lemma LogOnlyGrows(s: System, a: Action, t: System)
    requires Inv(s) && Apply(s, a) == Some(t)
    ensures t.first == s.first && s.log <= t.log
  {
    if a.Publish? && DoLink(s, a.id, s.clients[a.id]) != Some(t) {
      var c := s.clients[a.id];
      assert Critical(s.disk, c) && Calm(s.first, s.log, s.ever, c);
      LogGrows(s, c, c.pc.op);
    }
  }

  lemma {:induction false} LogPrefix(states: seq<System>, actions: seq<Action>, m: nat, n: nat)
    requires IsRun(states, actions) && m <= n < |states|
    ensures states[n].first == states[m].first && states[m].log <= states[n].log
    decreases n
  {
    if m < n {
      LogPrefix(states, actions, m, n - 1);
      RunKeeps(states, actions, n - 1);
      LogOnlyGrows(states[n - 1], actions[n - 1], states[n]);
    }
  }

  /** What was saved at one moment is still in the directory, as the same event, at every later one. */
  lemma SavedStaysSaved(states: seq<System>, actions: seq<Action>, m: nat, n: nat, k: nat)
    requires IsRun(states, actions) && m <= n < |states|
    requires Saved(states[m].first, states[m].log, k)
    ensures states[n].disk.Sound() && Covered(states[n].disk, k, EventAt(states[m].first, states[m].log, k))
  {
    LogPrefix(states, actions, m, n);
    NothingSavedIsLost(states, actions, n);
    assert Saved(states[n].first, states[n].log, k);
    assert EventAt(states[n].first, states[n].log, k) == EventAt(states[m].first, states[m].log, k);
  }

  /** In every run an archive, once linked, is in the directory unchanged for ever. */
  lemma {:induction false} ArchiveNeverChanges(states: seq<System>, actions: seq<Action>, m: nat, n: nat, name: Name)
    requires IsRun(states, actions) && m <= n < |states|
    requires name.Archive? && name in states[m].disk.names
    ensures states[n].disk.Sound() && states[n].disk.Content(name) == Some(name.digest.of)
    ensures states[n].disk.names[name] == states[m].disk.names[name]
    decreases n
  {
    if m < n {
      ArchiveNeverChanges(states, actions, m, n - 1, name);
      RunKeeps(states, actions, n - 1);
      ArchiveStays(states[n - 1], actions[n - 1], states[n], name);
    }
    RunKeeps(states, actions, n);
    ArchiveIsItsDigest(states[n], name);
  }

  /** A store replaced the active file with `data` in step `j`: a whole document of its world,
      onto the content it expected. */
  ghost predicate SavedAt(states: seq<System>, actions: seq<Action>, j: nat, data: Data)
    requires |states| == |actions| + 1 && j < |actions|
  {
    && actions[j].Publish? && actions[j].id in states[j].clients && states[j].disk.Sound()
    && var c := states[j].clients[actions[j].id];
       && c.pc.Publishing? && c.pc.op.Save? && c.pc.op.value == data
       && c.memory.Some? && c.pc.op.cut <= |c.memory.value.events|
       && data == Encode(c.memory.value.Retire(c.pc.op.cut))
       && DigestOf(states[j].disk.Content(Active)) == c.expected
  }

  /** In every state of every run the active file is the one the run began with, or one whole
      document that was saved in some step of the run. */
  lemma {:induction false} ActiveIsWhole(states: seq<System>, actions: seq<Action>, n: nat)
    requires IsRun(states, actions) && n < |states|
    ensures states[0].disk.Sound() && states[n].disk.Sound()
    ensures states[n].disk.Content(Active) == states[0].disk.Content(Active)
            || exists j, data :: 0 <= j < n && states[n].disk.Content(Active) == Some(data)
                && SavedAt(states, actions, j, data)
  {
    RunKeeps(states, actions, n);
    if n > 0 {
      ActiveIsWhole(states, actions, n - 1);
      RunKeeps(states, actions, n - 1);
      var s, a, t := states[n - 1], actions[n - 1], states[n];
      if t.disk.Content(Active) != s.disk.Content(Active) {
        ActiveChangesBySave(s, a, t);
        assert SavedAt(states, actions, n - 1, t.disk.Content(Active).value);
      } else if s.disk.Content(Active) != states[0].disk.Content(Active) {
        var j, data :| 0 <= j < n - 1 && s.disk.Content(Active) == Some(data) && SavedAt(states, actions, j, data);
        assert t.disk.Content(Active) == Some(data);
      }
    }
  }

  /** A file that cannot be restored is never replaced. */
  lemma DamagedFileIsKept(states: seq<System>, actions: seq<Action>, n: nat, damaged: Data)
    requires IsRun(states, actions) && n < |states|
    requires states[0].disk.Sound() && states[0].disk.Content(Active) == Some(damaged) && Decode(damaged).None?
    ensures states[n].disk.Sound() && states[n].disk.Content(Active) == Some(damaged)
    decreases n
  {
    RunKeeps(states, actions, n);
    if n > 0 {
      DamagedFileIsKept(states, actions, n - 1, damaged);
      RunKeeps(states, actions, n - 1);
      var s, a, t := states[n - 1], actions[n - 1], states[n];
      if t.disk.Content(Active) != s.disk.Content(Active) {
        ActiveChangesBySave(s, a, t);
        NeverExpected(s, s.clients[a.id], damaged);
      }
    }
  }

  /** A store that found a damaged file keeps no world that it could save. */
  lemma NeverExpected(s: System, c: Client, damaged: Data)
    requires Calm(s.first, s.log, s.ever, c) && Decode(damaged).None?
    ensures !(c.memory.Some? && c.expected == Some(Sha256(damaged)))
  {}

  // ---------------------------------------------------------------- reading an archive back

  /** `archivedRecording`: a regular file with one link, within its limit, that has the content
      its name promises. */
  function ArchivedRecording(disk: Disk, n: Name): Option<Data>
    requires disk.Sound()
  {
    if !n.Archive? || n !in disk.names || !disk.Single(n) then None
    else
      var data := disk.files[disk.names[n]];
      if |data| > ARCHIVE_LIMIT || Sha256(data) != n.digest then None else Some(data)
  }

  /** A temporary name shares the inode of `n`. */
  predicate Shadowed(disk: Disk, n: Name) {
    n in disk.names && exists m :: m in disk.names && m.Temp? && disk.names[m] == disk.names[n]
  }

  /** Exactly when a linked archive of a permitted size can be read back. */
  lemma ReadableIff(s: System, n: Name)
    requires Inv(s) && n.Archive? && n in s.disk.names && |n.digest.of| <= ARCHIVE_LIMIT
    ensures ArchivedRecording(s.disk, n) == Some(n.digest.of) <==> !Shadowed(s.disk, n)
    ensures ArchivedRecording(s.disk, n).Some? ==> ArchivedRecording(s.disk, n).value == n.digest.of
  {
    if !Shadowed(s.disk, n) {
      forall m | m in s.disk.names && s.disk.names[m] == s.disk.names[n] ensures m == n {
        assert !m.Temp?;
        assert m.Active? ==> s.disk.Single(Active);
      }
    }
  }

  /** `temp` is a second name of an archive, and no process is going to remove it. */
  ghost predicate Orphan(s: System, temp: Name, n: Name) {
    && temp.Temp? && n.Archive? && temp in s.disk.names && n in s.disk.names
    && s.disk.names[temp] == s.disk.names[n]
    && forall id :: id in s.clients ==> TempOf(s.clients[id].pc) != Some(temp)
  }

  /** Process `id` has linked the archive `n` and not yet removed the temporary name. */
  predicate BetweenLinkAndUnlink(s: System, id: nat, temp: Name, n: Name) {
    && id in s.clients && temp in s.disk.names && n in s.disk.names && s.disk.names[temp] == s.disk.names[n]
    && var pc := s.clients[id].pc;
       pc.Removing? && pc.temp == temp && pc.temp.Temp? && Archives(pc.op, n)
  }

  /** A save that archives under the name `n`. */
  predicate Archives(op: Op, n: Name) {
    op.Save? && op.archive.Some? && ArchiveName(op) == n
  }

  lemma LinkLeavesTwoNames(s: System, id: nat, t: System)
    requires Inv(s) && id in s.clients && Apply(s, Publish(id)) == Some(t)
    requires s.clients[id].pc.Publishing? && s.clients[id].pc.stage.ArchiveStage?
    ensures s.clients[id].pc.op.Save? && s.clients[id].pc.op.archive.Some?
    ensures ArchiveName(s.clients[id].pc.op) !in s.disk.names ==>
              BetweenLinkAndUnlink(t, id, s.clients[id].pc.temp, ArchiveName(s.clients[id].pc.op))
  {
    var c := s.clients[id];
    assert Critical(s.disk, c) && Calm(s.first, s.log, s.ever, c);
  }

  lemma OthersDoNotUnlink(s: System, a: Action, t: System, id: nat, temp: Name, n: Name)
    requires Inv(s) && Apply(s, a) == Some(t) && BetweenLinkAndUnlink(s, id, temp, n)
    requires !a.ReplaceLock? ==> a.id != id
    ensures BetweenLinkAndUnlink(t, id, temp, n)
  {
    StepFacts(s, a, t);
    OthersStayPut(s, a, t, id);
    if !a.Start? && !a.ReplaceLock? && Inside(s.clients[a.id].pc) {
      OneInside(s, id, a.id);
    }
  }

  lemma OthersStayPut(s: System, a: Action, t: System, id: nat)
    requires s.disk.Sound() && Apply(s, a) == Some(t) && id in s.clients
    requires !a.ReplaceLock? ==> a.id != id
    ensures id in t.clients && t.clients[id] == s.clients[id]
  {}

  /** A crash before `unlinkat`, or an `unlinkat` that fails, leaves the second name behind. */
  lemma AbandonedLinkOrphans(s: System, a: Action, t: System, id: nat, temp: Name, n: Name)
    requires Inv(s) && Apply(s, a) == Some(t) && BetweenLinkAndUnlink(s, id, temp, n)
    requires a == Crash(id) || a == Remove(id, false)
    ensures Orphan(t, temp, n)
  {
    forall o | o in t.clients ensures TempOf(t.clients[o].pc) != Some(temp) {
      if o != id {
        assert o in s.clients && t.clients[o] == s.clients[o];
        if Inside(s.clients[o].pc) { OneInside(s, id, o); }
      }
    }
  }

  lemma NobodyLearnsIt(s: System, a: Action, t: System, temp: Name)
    requires s.disk.Sound() && Apply(s, a) == Some(t) && temp in s.disk.names
    requires forall id :: id in s.clients ==> TempOf(s.clients[id].pc) != Some(temp)
    ensures forall id :: id in t.clients ==> TempOf(t.clients[id].pc) != Some(temp)
  {
    OnlyOwnClient(s, a, t);
    if !a.ReplaceLock? && a.id in t.clients {
      OwnTemp(s, a, t);
    }
  }

  /** A process only ever handles the temporary name that it created itself. */
  lemma OwnTemp(s: System, a: Action, t: System)
    requires s.disk.Sound() && Apply(s, a) == Some(t)
    requires !a.ReplaceLock? && a.id in t.clients
    ensures var now := TempOf(t.clients[a.id].pc);
            || now == None || now.value !in s.disk.names
            || (a.id in s.clients && now == TempOf(s.clients[a.id].pc))
  {}

  lemma StepKeepsOrphan(s: System, a: Action, t: System, temp: Name, n: Name)
    requires Inv(s) && Apply(s, a) == Some(t) && Orphan(s, temp, n)
    ensures Orphan(t, temp, n)
  {
    StepFacts(s, a, t);
    NobodyLearnsIt(s, a, t, temp);
  }

  /** Along a whole run no step removes such a name, so the archive can never again be read back
      through this interface, although its content stays. */
  lemma {:induction false} OrphanStays(states: seq<System>, actions: seq<Action>, m: nat, n: nat, temp: Name,
      name: Name)
    requires IsRun(states, actions) && m <= n < |states| && Orphan(states[m], temp, name)
    ensures Orphan(states[n], temp, name)
    ensures states[n].disk.Sound() && states[n].disk.Content(name) == Some(name.digest.of)
    ensures ArchivedRecording(states[n].disk, name) == None
    decreases n
  {
    if m < n {
      OrphanStays(states, actions, m, n - 1, temp, name);
      RunKeeps(states, actions, n - 1);
      StepKeepsOrphan(states[n - 1], actions[n - 1], states[n], temp, name);
    }
    ArchiveNeverChanges(states, actions, n, n, name);
    assert !states[n].disk.Single(name);
  }

  /** The process takes no step between the actions number `i` and `j`. */
  predicate Pauses(actions: seq<Action>, id: nat, i: nat, j: nat) {
    forall k :: i < k < j < |actions| && !actions[k].ReplaceLock? ==> actions[k].id != id
  }

  lemma {:induction false} StaysBetween(states: seq<System>, actions: seq<Action>, i: nat, j: nat, id: nat,
      temp: Name, name: Name)
    requires IsRun(states, actions) && i < j < |actions| && Pauses(actions, id, i, j)
    requires BetweenLinkAndUnlink(states[i + 1], id, temp, name)
    ensures BetweenLinkAndUnlink(states[j], id, temp, name)
    decreases j
  {
    if i + 1 < j {
      StaysBetween(states, actions, i, j - 1, id, temp, name);
      RunKeeps(states, actions, j - 1);
      OthersDoNotUnlink(states[j - 1], actions[j - 1], states[j], id, temp, name);
    }
  }

  lemma AbandonedIsNeverRead(states: seq<System>, actions: seq<Action>, j: nat, n: nat, id: nat, temp: Name, name: Name)
    requires IsRun(states, actions) && j < |actions| && j < n < |states|
    requires BetweenLinkAndUnlink(states[j], id, temp, name)
          && (actions[j] == Crash(id) || actions[j] == Remove(id, false))
    ensures Orphan(states[n], temp, name) && states[n].disk.Sound()
    ensures ArchivedRecording(states[n].disk, name) == None
  {
    RunKeeps(states, actions, j);
    AbandonedLinkOrphans(states[j], actions[j], states[j + 1], id, temp, name);
    OrphanStays(states, actions, j + 1, n, temp, name);
  }

  /** In every run in which a process links a new archive and its next step is a crash or a
      failed `unlinkat`, no later state lets the archive be read back. */
  lemma AbandonedArchiveIsNeverRead(
      states: seq<System>, actions: seq<Action>, i: nat, j: nat, n: nat, id: nat, op: Op, temp: Name)
    requires IsRun(states, actions) && i < j < |actions| && j < n < |states|
    requires actions[i] == Publish(id) && id in states[i].clients && op.Save? && op.archive.Some?
    requires exists ino :: states[i].clients[id].pc == Publishing(op, ArchiveStage, temp, ino)
    requires ArchiveName(op) !in states[i].disk.names
    requires Pauses(actions, id, i, j) && (actions[j] == Crash(id) || actions[j] == Remove(id, false))
    ensures Orphan(states[n], temp, ArchiveName(op)) && states[n].disk.Sound()
    ensures ArchivedRecording(states[n].disk, ArchiveName(op)) == None
  {
    RunKeeps(states, actions, i);
    assert Apply(states[i], actions[i]) == Some(states[i + 1]);
    LinkLeavesTwoNames(states[i], id, states[i + 1]);
    StaysBetween(states, actions, i, j, id, temp, ArchiveName(op));
    AbandonedIsNeverRead(states, actions, j, n, id, temp, ArchiveName(op));
  }

  // ---------------------------------------------------------------- saving onto an orphaned name

  /** A save that archives under the name `n` has not got past its archive. */
  predicate NotPast(pc: Pc, n: Name) {
    match pc
    case Creating(op, stage) => Archives(op, n) ==> stage.ArchiveStage?
    case Writing(op, stage, _, _, _) => Archives(op, n) ==> stage.ArchiveStage?
    case Publishing(op, stage, _, _) => Archives(op, n) ==> stage.ArchiveStage?
    case Removing(op, stage, _, done) => Archives(op, n) ==> stage.ArchiveStage? && !done
    case Unlocking(op, done, _) => Archives(op, n) ==> !done
    case _ => true
  }

  lemma PublishIsRefused(s: System, id: nat, t: System, temp: Name, n: Name)
    requires s.disk.Sound() && Apply(s, Publish(id)) == Some(t) && Orphan(s, temp, n)
    requires id in s.clients && NotPast(s.clients[id].pc, n)
    ensures id in t.clients && NotPast(t.clients[id].pc, n)
  {
    assert !s.disk.Single(n);
  }

  lemma OwnStepNotPast(s: System, a: Action, t: System, temp: Name, n: Name)
    requires s.disk.Sound() && Apply(s, a) == Some(t) && Orphan(s, temp, n)
    requires !a.ReplaceLock? && a.id in t.clients && (a.id in s.clients ==> NotPast(s.clients[a.id].pc, n))
    ensures NotPast(t.clients[a.id].pc, n)
  {
    if a.Publish? {
      PublishIsRefused(s, a.id, t, temp, n);
    }
  }

  /** Along every run, no save that was not past its archive when the name was orphaned ever
      gets past it: it never replaces the active file and never reports success. */
  lemma {:induction false} OrphanedNameRefusesSaves(
      states: seq<System>, actions: seq<Action>, m: nat, n: nat, temp: Name, name: Name, id: nat)
    requires IsRun(states, actions) && m <= n < |states| && Orphan(states[m], temp, name)
    requires id in states[m].clients ==> NotPast(states[m].clients[id].pc, name)
    ensures id in states[n].clients ==> NotPast(states[n].clients[id].pc, name)
    decreases n
  {
    if m < n {
      var s, a, t := states[n - 1], actions[n - 1], states[n];
      OrphanedNameRefusesSaves(states, actions, m, n - 1, temp, name, id);
      RunKeeps(states, actions, n - 1);
      OrphanStays(states, actions, m, n - 1, temp, name);
      OnlyOwnClient(s, a, t);
      if !a.ReplaceLock? && a.id == id && id in t.clients {
        OwnStepNotPast(s, a, t, temp, name);
      }
    }
  }
}
